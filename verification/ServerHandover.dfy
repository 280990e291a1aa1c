/** The hand-over of files for clients that keep the command-reply sequence of section 5.4 of RFC
    959, when active connections succeed. ABOR may come at any time. */
module ServerHandover {
  import opened Text
  import opened Requests
  import opened Session
  import opened Server
  import opened ServerLife
  import opened ServerLogin
  import opened ServerRuns
  import opened ServerFiles

  /** A command related to transfers is being served, and not yet answered. */
  predicate Asking(pc: Pc)
  {
    match pc
    case Xfer(v, _) => TransferRelated(v)
    case Auth(v, _) => TransferRelated(v)
    case Data(v, _) => TransferRelated(v)
    case Exec(v, _) => TransferRelated(v)
    case Say(code, after) => after.ToSignal? || code == 425
    case _ => false
  }

  /** An accepted transfer whose file is about to be stored. */
  predicate Offering(pc: Pc)
  {
    match pc
    case Exec(v, _) => IsTransfer(v)
    case Say(_, after) => after.ToSignal?
    case Signal(_) => true
    case _ => false
  }

  predicate Held(s: Sys)
  {
    && (s.datFp.Some? ==> Awaiting(s.sent) && s.thr.Some? && !Gone(s.thr.value.at))
    && (s.thr.Some? && s.thr.value.fp.Some? && s.thr.value.at != Ended ==> Awaiting(s.sent))
    && (s.pc.Signal? ==> Awaiting(s.sent))
    && (Asking(s.pc) ==> !Awaiting(s.sent))
    && (Offering(s.pc) ==> s.thr.Some? && s.thr.value.fp.None?)
    && (s.pc == Say(226, ToRead) ==> s.state == READY && s.thr.None?)
    && (s.pc.Say? ==> (s.pc.code == 150 <==> s.pc.after.ToSignal?) && s.pc.code != 451)
    && (s.pc.Say? && s.pc.code == 226 ==> s.pc.after == ToRead)
    && (s.pc == CtRead(ForAbor) ==> s.thr.Some?)
    && (s.thr.Some? ==> s.thr.value.at != Refused)
  }

  // ---- The data thread ----

  lemma HeldQuietData(s: Sys, t: Thread, env: Env)
    requires Held(s) && Life(s) && Files(s) && s.thr == Some(t) && DataNext(s, t, env).Some?
    requires t.at != Report && (t.at == Connect ==> env.yes)
    ensures true == Held(DataNext(s, t, env).value)
  {
    match t.at {
      case Enter => case Waiting => case Woken => case Connect => case Refused => case Poll =>
      case Accept => case Take => case Probe => case Block => case Close => case Forget =>
      case Settle => case Ended =>
    }
  }

  lemma HeldReport(s: Sys, t: Thread)
    requires Held(s) && Life(s) && s.thr == Some(t) && t.at == Report
    ensures true == Held(ReportStep(s, t))
  {
    TellCounts(s.sent, Sent(true, 226));
    TellCounts(s.sent, Sent(true, 451));
  }

  // ---- The session ----

  /** A step that changes neither the replies nor the files. */
  lemma HeldSilent(s: Sys, s': Sys)
    requires Held(s) && s'.sent == s.sent && s'.datFp == s.datFp && s'.thr == s.thr
    requires !s'.pc.Signal? && (Asking(s'.pc) ==> !Awaiting(s.sent))
    requires Offering(s'.pc) ==> s.thr.Some? && s.thr.value.fp.None?
    requires s'.pc == Say(226, ToRead) ==> s'.state == READY && s.thr.None?
    requires s'.pc.Say? ==> (s'.pc.code == 150 <==> s'.pc.after.ToSignal?) && s'.pc.code != 451
    requires s'.pc.Say? && s'.pc.code == 226 ==> s'.pc.after == ToRead
    requires s'.pc == CtRead(ForAbor) ==> s.thr.Some?
    ensures true == Held(s')
  {
  }

  lemma HeldRead(s: Sys, env: Env)
    requires Held(s) && s.pc == Read && Patient(s, SessionStep(env))
    ensures true == Held(ReadStep(s, env.input))
  {
    ReadFrame(s, env.input);
    match env.input {
      case Closed => HeldSilent(s, ReadStep(s, env.input));
      case TooLong => HeldSilent(s, ReadStep(s, env.input));
      case Malformed => HeldSilent(s, ReadStep(s, env.input));
      case Command(verb, arg) => HeldDispatch(s, VerbOf(verb), arg);
    }
  }

  lemma HeldDispatch(s: Sys, v: Verb, arg: string)
    requires Held(s) && s.pc == Read && (TransferRelated(v) ==> !Awaiting(s.sent))
    ensures true == Held(Dispatch(s, v, arg))
  {
    DispatchFrame(s, v, arg);
    HeldDispatched(s, Dispatch(s, v, arg).pc, Dispatch(s, v, arg).lines, v, arg);
  }

  lemma HeldDispatched(s: Sys, pc: Pc, lines: nat, v: Verb, arg: string)
    requires Held(s) && (TransferRelated(v) ==> !Awaiting(s.sent))
    requires pc in {CtRead(ForQuit), Say(215, ToRead), Say(202, ToRead), Abor, Xfer(v, arg)}
    ensures true == Held(s.(pc := pc, lines := lines))
  {
  }

  lemma HeldXfer(s: Sys, v: Verb, arg: string)
    requires Held(s) && s.pc == Xfer(v, arg) && Verbs(s.pc)
    ensures true == Held(XferStep(s, v, arg))
  {
    HeldSilent(s, XferStep(s, v, arg));
  }

  lemma HeldAuth(s: Sys, v: Verb, arg: string)
    requires Held(s) && s.pc == Auth(v, arg)
    ensures true == Held(AuthStep(s, v, arg))
  {
    if !s.state.LoggedIn() {
      HeldSilent(s, Goto(s, Say(530, ToRead)));
    } else if v == PORT {
      HeldSilent(s, Goto(s, CtRead(ForPort(arg))));
    } else if v == PASV {
      HeldSilent(s, Goto(s, CtRead(ForPasv)));
    } else if IsTransfer(v) {
      HeldSilent(s, Goto(s, Data(v, arg)));
    } else {
      HeldSilent(s, Goto(s, Exec(v, arg)));
    }
  }

  /** A data mode means a thread that still can take a file: the one before has reported. */
  lemma HeldMode(s: Sys, v: Verb, arg: string)
    requires Held(s) && Life(s) && Verbs(s.pc) && s.pc == Data(v, arg)
    ensures true == Held(Goto(s, if s.state.HasData() then Exec(v, arg) else Say(425, ToRead)))
  {
    HeldSilent(s, Goto(s, if s.state.HasData() then Exec(v, arg) else Say(425, ToRead)));
  }

  lemma HeldOutcome(s: Sys, v: Verb, arg: string, o: Outcome)
    requires Held(s) && s.pc == Exec(v, arg) && Kept(v, s.local, o)
    requires o.code != 226 && o.code != 451 && o.code != 425
    ensures true == Held(AfterHandler(s, v, o))
  {
    HeldSilent(s, AfterHandler(s, v, o));
  }

  lemma HeldExec(s: Sys, v: Verb, arg: string, env: Env)
    requires Held(s) && Inv(s) && s.pc == Exec(v, arg)
    ensures true == Held(ExecStep(s, v, arg, env))
  {
    if v == USER || v == PASS {
      HeldLogin(s, v, arg, env);
    } else {
      HandleKeepsPaths(v, s.local, arg, env.yes, env.yes2);
      HandlerCodes(v, s.local, arg, env.yes, env.yes2);
      HeldOutcome(s, v, arg, Handle(v, s.local, arg, env.yes, env.yes2));
    }
  }

  lemma HeldLogin(s: Sys, v: Verb, arg: string, env: Env)
    requires Held(s) && s.pc == Exec(v, arg) && (v == USER || v == PASS)
    ensures true == Held(ExecStep(s, v, arg, env))
  {
    HeldSilent(s, ExecStep(s, v, arg, env));
  }

  lemma HeldSay(s: Sys, code: nat, after: After)
    requires Held(s) && Life(s) && s.pc == Say(code, after)
    ensures true == Held(SayStep(s, code, after))
  {
    TellCounts(s.sent, Sent(false, code));
  }

  lemma HeldSignal(s: Sys, f: nat)
    requires Held(s) && Life(s) && s.pc == Signal(f)
    ensures true == Held(SignalStep(s, f))
  {
  }

  lemma HeldGreetings(s: Sys, env: Env)
    requires Held(s) && (s.pc.Greet? || s.pc.Bye? || s.pc.Abor?)
    ensures SessionNext(s, env).Some? && true == Held(SessionNext(s, env).value)
  {
    match s.pc {
      case Greet => HeldTell(s, 220, Read);
      case Bye => HeldTell(s, 221, CtRead(ForClose));
      case Abor =>
    }
  }

  lemma HeldTell(s: Sys, code: nat, pc: Pc)
    requires Held(s) && (s.pc.Greet? || s.pc.Bye?) && (code == 220 || code == 221)
    requires pc == Read || pc == CtRead(ForClose)
    ensures true == Held(Goto(Tell(s, false, code), pc))
  {
    TellCounts(s.sent, Sent(false, code));
  }

  lemma HeldCtRead(s: Sys, why: Why)
    requires Held(s) && Life(s) && s.pc == CtRead(why)
    ensures true == Held(if s.running then Goto(s, CtClear(why)) else Return(s, why))
  {
  }

  lemma HeldCtClear(s: Sys, why: Why)
    requires Held(s) && s.pc == CtClear(why)
    ensures true == Held(Goto(s.(running := false), CtJoin(why)))
  {
  }

  lemma HeldJoin(s: Sys, why: Why)
    requires Held(s) && s.pc == CtJoin(why) && JoinStep(s, why).Some?
    ensures true == Held(JoinStep(s, why).value)
  {
  }

  lemma HeldReset(s: Sys, why: Why)
    requires Held(s) && Life(s) && s.pc == CtReset(why)
    ensures true == Held(Return(s.(state := READY), why))
  {
  }

  lemma HeldModes(s: Sys, env: Env)
    requires Held(s) && Life(s)
    requires s.pc.PortScan? || s.pc.PortRun? || s.pc.PortState? || s.pc.PasvOpen? || s.pc.PasvState? || s.pc.PasvRun?
    ensures SessionNext(s, env).Some? && true == Held(SessionNext(s, env).value)
  {
    HeldSilent(s, SessionNext(s, env).value);
  }

  lemma HeldCreate(s: Sys, t: Thread, ok: bool, pc: Pc)
    requires Held(s) && Life(s) && (s.pc == PortCreate || s.pc == PasvCreate)
    requires t == ACTIVE || t == PASSIVE
    requires pc == PortState || pc == Say(227, ToRead)
    ensures true == Held(CreateStep(s, t, ok, pc))
  {
  }

  lemma HeldClosing(s: Sys, env: Env)
    requires Held(s) && Life(s) && (s.pc.CtRead? || s.pc.CtClear? || s.pc.CtJoin? || s.pc.CtReset?)
    requires SessionNext(s, env).Some?
    ensures true == Held(SessionNext(s, env).value)
  {
    match s.pc {
      case CtRead(why) => HeldCtRead(s, why);
      case CtClear(why) => HeldCtClear(s, why);
      case CtJoin(why) => HeldJoin(s, why);
      case CtReset(why) => HeldReset(s, why);
    }
  }

  lemma HeldServing(s: Sys, env: Env)
    requires Held(s) && Inv(s) && Patient(s, SessionStep(env))
    requires s.pc.Read? || s.pc.Xfer? || s.pc.Auth? || s.pc.Data? || s.pc.Exec? || s.pc.Say? || s.pc.Signal?
    ensures SessionNext(s, env).Some? && true == Held(SessionNext(s, env).value)
  {
    match s.pc {
      case Read => HeldRead(s, env);
      case Xfer(v, arg) => HeldXfer(s, v, arg);
      case Auth(v, arg) => HeldAuth(s, v, arg);
      case Data(v, arg) => HeldMode(s, v, arg);
      case Exec(v, arg) => HeldExec(s, v, arg, env);
      case Say(code, after) => HeldSay(s, code, after);
      case Signal(f) => HeldSignal(s, f);
    }
  }

  lemma HeldSession(s: Sys, env: Env)
    requires Held(s) && Inv(s) && Patient(s, SessionStep(env)) && SessionNext(s, env).Some?
    ensures true == Held(SessionNext(s, env).value)
  {
    if s.pc.Greet? || s.pc.Bye? || s.pc.Abor? {
      HeldGreetings(s, env);
    } else if s.pc.CtRead? || s.pc.CtClear? || s.pc.CtJoin? || s.pc.CtReset? {
      HeldClosing(s, env);
    } else if s.pc == PortCreate {
      HeldCreate(s, ACTIVE, env.yes, PortState);
    } else if s.pc == PasvCreate {
      HeldCreate(s, PASSIVE, env.yes, Say(227, ToRead));
    } else if s.pc.PortScan? || s.pc.PortRun? || s.pc.PortState? || s.pc.PasvOpen? || s.pc.PasvState? || s.pc.PasvRun? {
      HeldModes(s, env);
    } else if !s.pc.Freed? {
      HeldServing(s, env);
    }
  }

  lemma HeldStep(s: Sys, e: Event)
    requires Held(s) && Inv(s) && Files(s) && Patient(s, e) && Reached(s, e) && Next(s, e).Some?
    ensures true == Held(Next(s, e).value)
  {
    match e {
      case SessionStep(env) => HeldSession(s, env);
      case DataStep(env) =>
        if s.thr.value.at == Report {
          HeldReport(s, s.thr.value);
        } else {
          HeldQuietData(s, s.thr.value, env);
        }
    }
  }

  lemma {:induction false} HeldRun(evs: seq<Event>)
    requires Disciplined(evs) && Run(evs).Some?
    ensures true == Held(Run(evs).value)
  {
    if evs != [] {
      var before := evs[..|evs| - 1];
      HeldRun(before);
      RunKeeps(before);
      FilesRun(before);
      HeldStep(Run(before).value, evs[|evs| - 1]);
    }
  }

  /** Hand-over, in every interleaving of a disciplined run: a file in dat_fp means one accepted
      transfer whose completion the client still awaits, a data mode, and a thread that has yet to
      set dat_fp to NULL; a thread about to report, or ended, has left dat_fp NULL and the state
      READY; and so has the join behind ABOR, when its 226 goes out. */
  lemma Handover(evs: seq<Event>)
    requires Disciplined(evs) && Run(evs).Some?
    ensures var s := Run(evs).value;
      && (s.datFp.Some? ==> Awaiting(s.sent) && s.state.HasData() && s.thr.Some? && !Gone(s.thr.value.at))
      && (s.thr.Some? && Past(s.thr.value.at) ==> s.datFp.None? && s.state == READY)
      && (s.pc == Say(226, ToRead) ==> s.thr.None? && s.datFp.None? && s.state == READY)
  {
    RunKeeps(evs);
    HeldRun(evs);
  }
}
