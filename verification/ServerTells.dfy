/** Which replies the server sends, and what has happened when it does, in every interleaving. */
module ServerTells {
  import opened Text
  import opened Requests
  import opened Session
  import opened Server
  import opened ServerLife
  import opened ServerLogin
  import opened ServerRuns
  import opened ServerFiles
  import opened ServerReplies

  predicate Told(sent: seq<Sent>, code: nat) { exists i :: 0 <= i < |sent| && sent[i].code == code }

  /** The replies that let a client go on: logged in, active or passive mode. */
  predicate Granting(code: nat) { code == 230 || code == 200 || code == 227 }

  predicate Says(pc: Pc, code: nat) { pc.Say? && pc.code == code }

  /** The server has said 230, or is about to, only once it has logged the client in. */
  predicate Welcomed(s: Sys)
  {
    Told(s.sent, 230) || Says(s.pc, 230) ==> s.state.LoggedIn()
  }

  /** What a step adds to the replies. */
  ghost predicate TellsOnly(s: Sys, s': Sys)
  {
    && !Says(s'.pc, 230)
    && (Says(s'.pc, 227) ==> s.pc == PasvCreate)
    && (Says(s'.pc, 200) ==> s.pc == PortState || (s.pc.Xfer? && s.datFp.None?))
    && (s'.sent == s.sent || (exists x :: s'.sent == s.sent + [x] && (Granting(x.code) ==> Says(s.pc, x.code))))
  }

  lemma TellsOne(s: Sys, byData: bool, code: nat, s': Sys)
    requires s'.sent == s.sent + [Sent(byData, code)] && !s'.pc.Say? && (Granting(code) ==> Says(s.pc, code))
    ensures true == TellsOnly(s, s')
  {
  }

  lemma TellsGuards(s: Sys, env: Env)
    requires s.pc.Read? || s.pc.Xfer? || s.pc.Auth? || s.pc.Data?
    ensures SessionNext(s, env).Some? && true == TellsOnly(s, SessionNext(s, env).value)
  {
    match s.pc {
      case Read => ReadFrame(s, env.input); TellsRead(s, env.input);
      case Xfer(_, _) => case Auth(_, _) => case Data(_, _) =>
    }
  }

  lemma TellsRead(s: Sys, input: Input)
    ensures var pc := ReadStep(s, input).pc; !Says(pc, 230) && !Says(pc, 227) && !Says(pc, 200)
  {
    match input {
      case Closed => case TooLong => case Malformed =>
      case Command(verb, arg) => DispatchFrame(s, VerbOf(verb), arg);
    }
  }

  lemma TellsReplies(s: Sys, env: Env)
    requires s.pc.Greet? || s.pc.Say? || s.pc.Signal? || s.pc.Abor? || s.pc.Bye?
    ensures SessionNext(s, env).Some? && true == TellsOnly(s, SessionNext(s, env).value)
  {
    match s.pc {
      case Greet => TellsOne(s, false, 220, SessionNext(s, env).value);
      case Bye => TellsOne(s, false, 221, SessionNext(s, env).value);
      case Say(code, after) => TellsOne(s, false, code, SessionNext(s, env).value);
      case Signal(_) => case Abor =>
    }
  }

  lemma TellsClose(s: Sys, env: Env)
    requires s.pc.CtRead? || s.pc.CtClear? || s.pc.CtJoin? || s.pc.CtReset?
    requires SessionNext(s, env).Some?
    ensures true == TellsOnly(s, SessionNext(s, env).value)
  {
  }

  lemma TellsModes(s: Sys, env: Env)
    requires s.pc.PortScan? || s.pc.PortRun? || s.pc.PortCreate? || s.pc.PortState?
          || s.pc.PasvOpen? || s.pc.PasvState? || s.pc.PasvRun? || s.pc.PasvCreate?
    ensures SessionNext(s, env).Some? && true == TellsOnly(s, SessionNext(s, env).value)
  {
  }

  lemma TellsData(s: Sys, t: Thread, env: Env)
    requires s.thr == Some(t) && DataNext(s, t, env).Some? && t.st <= 2
    ensures var s' := DataNext(s, t, env).value;
      s'.sent == s.sent || (exists x :: s'.sent == s.sent + [x] && !Granting(x.code))
  {
    match t.at {
      case Refused => assert DataNext(s, t, env).value.sent == s.sent + [Sent(true, 425)];
      case Report => TellsReport(s, t);
      case _ => SilentData(s, t, env);
    }
  }

  lemma SilentData(s: Sys, t: Thread, env: Env)
    requires s.thr == Some(t) && DataNext(s, t, env).Some? && !t.at.Refused? && !t.at.Report?
    ensures DataNext(s, t, env).value.sent == s.sent
  {
    match t.at {
      case Enter => case Waiting => case Woken => case Connect => case Poll => case Accept =>
      case Take => case Probe => case Block => case Close => case Forget => case Settle => case Ended =>
    }
  }

  lemma TellsReport(s: Sys, t: Thread)
    requires t.st <= 2
    ensures var s' := ReportStep(s, t);
      s'.sent == s.sent || (exists x :: s'.sent == s.sent + [x] && !Granting(x.code))
  {
    if t.st == 1 {
      assert ReportStep(s, t).sent == s.sent + [Sent(true, 226)];
    } else if t.st == 2 {
      assert ReportStep(s, t).sent == s.sent + [Sent(true, 451)];
    }
  }

  lemma ToldMore(sent: seq<Sent>, x: Sent, code: nat)
    ensures Told(sent + [x], code) <==> Told(sent, code) || x.code == code
  {
    var more := sent + [x];
    assert more[|sent|] == x;
    assert forall i :: 0 <= i < |sent| ==> more[i] == sent[i];
  }

  lemma WelcomedAfter(s: Sys, s': Sys)
    requires Welcomed(s) && TellsOnly(s, s') && LoginKept(s, s')
    ensures true == Welcomed(s')
  {
    if s'.sent != s.sent {
      var x :| s'.sent == s.sent + [x] && (Granting(x.code) ==> Says(s.pc, x.code));
      ToldMore(s.sent, x, 230);
    }
  }

  lemma WelcomedData(s: Sys, env: Env)
    requires Welcomed(s) && Inv(s) && s.thr.Some? && DataNext(s, s.thr.value, env).Some?
    ensures true == Welcomed(DataNext(s, s.thr.value, env).value)
  {
    var s' := DataNext(s, s.thr.value, env).value;
    DataKeeps(s, env);
    DataFrame(s, env);
    TellsData(s, s.thr.value, env);
    if s'.sent != s.sent {
      var x :| s'.sent == s.sent + [x] && !Granting(x.code);
      ToldMore(s.sent, x, 230);
    }
  }

  /** The handlers' step sends nothing, and only an accepted PASS leads to 230. */
  predicate ExecQuiet(s: Sys, s': Sys)
  {
    && s'.sent == s.sent && s'.lines == s.lines && s'.datFp == s.datFp && s'.thr == s.thr && s'.running == s.running
    && s'.pc.Say? && (Granting(s'.pc.code) ==> s'.pc.code == 230 && s'.state.LoggedIn())
  }

  lemma HandledTells(s: Sys, v: Verb, o: Outcome)
    requires !Granting(o.code)
    ensures true == ExecQuiet(s, AfterHandler(s, v, o))
  {
  }

  lemma LoginTells(s: Sys, v: Verb, arg: string, env: Env)
    requires v == USER || v == PASS
    ensures true == ExecQuiet(s, ExecStep(s, v, arg, env))
  {
  }

  lemma ExecTells(s: Sys, v: Verb, arg: string, env: Env)
    requires s.pc == Exec(v, arg)
    ensures true == ExecQuiet(s, ExecStep(s, v, arg, env))
  {
    if v == USER || v == PASS {
      LoginTells(s, v, arg, env);
    } else {
      HandlerCodes(v, s.local, arg, env.yes, env.yes2);
      HandledTells(s, v, Handle(v, s.local, arg, env.yes, env.yes2));
    }
  }

  lemma WelcomedSession(s: Sys, env: Env)
    requires Welcomed(s) && Inv(s) && SessionNext(s, env).Some?
    ensures true == Welcomed(SessionNext(s, env).value)
  {
    var s' := SessionNext(s, env).value;
    SessionKeeps(s, env);
    if s.pc.Exec? {
      ExecTells(s, s.pc.verb, s.pc.arg, env);
    } else {
      if s.pc.Read? || s.pc.Xfer? || s.pc.Auth? || s.pc.Data? {
        TellsGuards(s, env);
      } else if s.pc.Greet? || s.pc.Say? || s.pc.Signal? || s.pc.Abor? || s.pc.Bye? {
        TellsReplies(s, env);
      } else if s.pc.CtRead? || s.pc.CtClear? || s.pc.CtJoin? || s.pc.CtReset? {
        TellsClose(s, env);
      } else if !s.pc.Freed? {
        TellsModes(s, env);
      }
      if !s.pc.Freed? { WelcomedAfter(s, s'); }
    }
  }

  lemma {:induction false} WelcomedRun(evs: seq<Event>)
    requires Run(evs).Some?
    ensures true == Welcomed(Run(evs).value)
  {
    if evs != [] {
      var before := evs[..|evs| - 1];
      WelcomedRun(before);
      RunKeeps(before);
      match evs[|evs| - 1] {
        case SessionStep(env) => WelcomedSession(Run(before).value, env);
        case DataStep(env) => WelcomedData(Run(before).value, env);
      }
    }
  }

  // ---- Who says 200 and 227 ----

  function LastCode(sent: seq<Sent>): nat { if sent == [] then 0 else sent[|sent| - 1].code }

  predicate ModeReply(code: nat) { code == 200 || code == 227 }

  /** Between a reply that sets a mode and the next reply, no file is stored. */
  predicate Clear(s: Sys)
  {
    && (ModeReply(LastCode(s.sent)) ==> s.datFp.None? && !s.pc.Signal?)
    && (s.pc.Say? && ModeReply(s.pc.code) ==> s.datFp.None?)
  }

  /** Behind 227, until the next command is read or the next reply sent, a passive data thread
      without a file is at work. */
  predicate Primed(s: Sys)
  {
    s.pc == Say(227, ToRead) || (s.pc == Read && LastCode(s.sent) == 227) ==>
      s.running && s.thr.Some? && Listening(s.thr.value)
  }

  predicate Listening(t: Thread)
  {
    t.mode == Passive && t.fp.None? && (t.at == Poll || t.at == Accept || t.at == Take || t.at == Probe)
  }

  lemma ClearData(s: Sys, env: Env)
    requires Clear(s) && Inv(s) && s.thr.Some? && DataNext(s, s.thr.value, env).Some?
    ensures true == Clear(DataNext(s, s.thr.value, env).value)
  {
    DataFrame(s, env);
    TellsData(s, s.thr.value, env);
    FileKeptOrCleared(s, s.thr.value, env);
    LastOfMore(s, DataNext(s, s.thr.value, env).value);
  }

  lemma FileKeptOrCleared(s: Sys, t: Thread, env: Env)
    requires s.thr == Some(t) && DataNext(s, t, env).Some?
    ensures var s' := DataNext(s, t, env).value; s'.datFp == s.datFp || s'.datFp == None
  {
    match t.at {
      case Enter => case Waiting => case Woken => case Connect => case Refused => case Poll => case Accept =>
      case Take => case Probe => case Block => case Close => case Forget => case Settle => case Ended =>
      case Report => ReportFrame(s, t);
    }
  }

  lemma LastOfMore(s: Sys, s': Sys)
    requires s'.sent == s.sent || (exists x :: s'.sent == s.sent + [x] && !Granting(x.code))
    ensures ModeReply(LastCode(s'.sent)) ==> s'.sent == s.sent
  {
  }

  lemma ClearQuiet(s: Sys, s': Sys)
    requires Clear(s) && Life(s) && QuietStep(s, s') && TellsOnly(s, s') && !s.pc.Say?
    ensures true == Clear(s')
  {
    if s'.sent != s.sent {
      var x :| s'.sent == s.sent + [x] && (Granting(x.code) ==> Says(s.pc, x.code));
    }
  }

  lemma ClearSay(s: Sys, code: nat, after: After)
    requires Clear(s) && Announced(s.pc) && s.pc == Say(code, after)
    ensures true == Clear(SayStep(s, code, after))
  {
  }

  lemma ClearExec(s: Sys, s': Sys)
    requires Clear(s) && ExecQuiet(s, s')
    ensures true == Clear(s')
  {
  }

  lemma ClearSession(s: Sys, env: Env)
    requires Clear(s) && Inv(s) && Announced(s.pc) && SessionNext(s, env).Some?
    ensures true == Clear(SessionNext(s, env).value)
  {
    if s.pc.Exec? {
      ExecTells(s, s.pc.verb, s.pc.arg, env);
      ClearExec(s, SessionNext(s, env).value);
    } else if s.pc.Say? {
      ClearSay(s, s.pc.code, s.pc.after);
    } else if s.pc.Signal? {
      ClearSignal(s, s.pc.file);
    } else if !s.pc.Freed? {
      QuietTells(s, env);
      ClearQuiet(s, SessionNext(s, env).value);
    }
  }

  lemma ClearSignal(s: Sys, f: nat)
    requires Clear(s) && s.pc == Signal(f)
    ensures true == Clear(SignalStep(s, f))
  {
  }

  lemma QuietTells(s: Sys, env: Env)
    requires Life(s) && SessionNext(s, env).Some? && !s.pc.Exec? && !s.pc.Say? && !s.pc.Signal?
    ensures true == QuietStep(s, SessionNext(s, env).value) && true == TellsOnly(s, SessionNext(s, env).value)
  {
    if s.pc.Read? || s.pc.Xfer? || s.pc.Auth? || s.pc.Data? {
      QuietGuards(s, env);
      TellsGuards(s, env);
    } else if s.pc.PortScan? || s.pc.PortRun? || s.pc.PortCreate? || s.pc.PortState?
           || s.pc.PasvOpen? || s.pc.PasvState? || s.pc.PasvRun? || s.pc.PasvCreate? {
      QuietModes(s, env);
      TellsModes(s, env);
    } else {
      QuietClose(s, env);
      if s.pc.Greet? || s.pc.Abor? || s.pc.Bye? { TellsReplies(s, env); } else { TellsClose(s, env); }
    }
  }

  lemma PrimedData(s: Sys, t: Thread, env: Env)
    requires Primed(s) && Clear(s) && Life(s) && s.thr == Some(t) && DataNext(s, t, env).Some?
    ensures true == Primed(DataNext(s, t, env).value)
  {
    DataFrame(s, env);
    TellsData(s, t, env);
    LastOfMore(s, DataNext(s, t, env).value);
    if s.running && s.datFp.None? && Listening(t) { ListeningStays(s, t, env); }
  }

  lemma ListeningStays(s: Sys, t: Thread, env: Env)
    requires s.thr == Some(t) && s.running && s.datFp.None? && Listening(t) && DataNext(s, t, env).Some?
    ensures var s' := DataNext(s, t, env).value; s'.thr.Some? && Listening(s'.thr.value)
  {
  }

  lemma PrimedSession(s: Sys, env: Env)
    requires Primed(s) && Clear(s) && Inv(s) && SessionNext(s, env).Some?
    ensures true == Primed(SessionNext(s, env).value)
  {
    if s.pc.Exec? {
      ExecTells(s, s.pc.verb, s.pc.arg, env);
    } else if s.pc.Say? {
      PrimedSay(s, s.pc.code, s.pc.after);
    } else if s.pc.PasvCreate? {
      PrimedCreate(s, env.yes);
    } else if s.pc.Signal? {
    } else if s.pc.Greet? {
    } else if !s.pc.Freed? {
      QuietTells(s, env);
      LeavesRead(s, env);
    }
  }

  lemma PrimedSay(s: Sys, code: nat, after: After)
    requires Primed(s) && s.pc == Say(code, after)
    ensures true == Primed(SayStep(s, code, after))
  {
  }

  lemma PrimedCreate(s: Sys, ok: bool)
    requires Life(s) && s.pc == PasvCreate
    ensures true == Primed(CreateStep(s, PASSIVE, ok, Say(227, ToRead)))
  {
  }

  /** Only a reply or the signal leads back to reading. */
  lemma LeavesRead(s: Sys, env: Env)
    requires SessionNext(s, env).Some? && !s.pc.Say? && !s.pc.Signal? && !s.pc.Greet?
    ensures SessionNext(s, env).value.pc != Read
  {
    if s.pc.Read? {
      ReadMoves(s, env.input);
    } else if s.pc.Exec? {
      ExecFrame(s, s.pc.verb, s.pc.arg, env);
    } else if s.pc.CtRead? || s.pc.CtClear? || s.pc.CtJoin? || s.pc.CtReset? {
      CloseMoves(s, env);
    } else if s.pc.Xfer? || s.pc.Auth? || s.pc.Data? || s.pc.Abor? || s.pc.Bye? {
      GuardsMove(s, env);
    } else if !s.pc.Freed? {
      ModesMove(s, env);
    }
  }

  lemma CloseMoves(s: Sys, env: Env)
    requires (s.pc.CtRead? || s.pc.CtClear? || s.pc.CtJoin? || s.pc.CtReset?) && SessionNext(s, env).Some?
    ensures SessionNext(s, env).value.pc != Read
  {
  }

  lemma GuardsMove(s: Sys, env: Env)
    requires s.pc.Xfer? || s.pc.Auth? || s.pc.Data? || s.pc.Abor? || s.pc.Bye?
    ensures SessionNext(s, env).Some? && SessionNext(s, env).value.pc != Read
  {
  }

  lemma ModesMove(s: Sys, env: Env)
    requires s.pc.PortScan? || s.pc.PortRun? || s.pc.PortCreate? || s.pc.PortState?
          || s.pc.PasvOpen? || s.pc.PasvState? || s.pc.PasvRun? || s.pc.PasvCreate?
    ensures SessionNext(s, env).Some? && SessionNext(s, env).value.pc != Read
  {
  }

  lemma ReadMoves(s: Sys, input: Input)
    ensures ReadStep(s, input).pc != Read
  {
    match input {
      case Closed => case TooLong => case Malformed =>
      case Command(verb, arg) => DispatchFrame(s, VerbOf(verb), arg);
    }
  }

  lemma {:induction false} ModesRun(evs: seq<Event>)
    requires Run(evs).Some?
    ensures true == Clear(Run(evs).value) && true == Primed(Run(evs).value)
  {
    if evs != [] {
      var before := evs[..|evs| - 1];
      ModesRun(before);
      RunKeeps(before);
      TallyRun(before);
      var s := Run(before).value;
      match evs[|evs| - 1] {
        case SessionStep(env) => ClearSession(s, env); PrimedSession(s, env);
        case DataStep(env) => ClearData(s, env); PrimedData(s, s.thr.value, env);
      }
    }
  }
}
