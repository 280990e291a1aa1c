/** Files handed to the data thread, and replies: what every interleaving keeps. */
module ServerFiles {
  import opened Text
  import opened Requests
  import opened Session
  import opened Server
  import opened ServerLife
  import opened ServerLogin
  import opened ServerRuns

  /** A file that is opened but not yet stored in dat_fp. */
  function Flying(pc: Pc): Option<nat>
  {
    match pc
    case Say(_, after) => (match after case ToSignal(f) => Some(f) case _ => None)
    case Signal(f) => Some(f)
    case _ => None
  }

  /** Places of a data thread that has already set dat_fp to NULL. */
  predicate Gone(at: Place) { at == Settle || at == Report || at == Ended }

  predicate NoRepeats(fs: seq<nat>) { forall i, j :: 0 <= i < j < |fs| ==> fs[i] != fs[j] }

  /** Files have numbers below the count, none was closed twice, and a file that is stored, held or
      about to be stored is still open, except between the fclose and the assignment behind it. */
  predicate Files(s: Sys)
  {
    && NoRepeats(s.closed) && (forall i :: 0 <= i < |s.closed| ==> s.closed[i] < s.files)
    && (s.datFp.Some? ==> s.datFp.value < s.files)
    && (s.thr.Some? && s.thr.value.fp.Some? ==> s.thr.value.fp.value < s.files)
    && (Flying(s.pc).Some? ==> Flying(s.pc).value < s.files && Flying(s.pc).value !in s.closed
                               && (s.thr.Some? ==> s.thr.value.fp != Flying(s.pc)))
    && (s.thr.Some? && s.thr.value.fp.Some? ==>
          if Gone(s.thr.value.at) then s.datFp != s.thr.value.fp else s.datFp == s.thr.value.fp)
    && (s.datFp.Some? && s.datFp.value in s.closed ==>
          s.thr.Some? && s.thr.value.at == Forget && s.thr.value.fp == s.datFp)
  }

  /** A move that leaves the files and the thread's file alone, and stays on one side of the
      fclose. */
  lemma FilesMove(s: Sys, t: Thread, s': Sys)
    requires Files(s) && s.thr == Some(t) && s'.thr.Some?
    requires s'.files == s.files && s'.closed == s.closed && s'.datFp == s.datFp && s'.pc == s.pc
    requires s'.thr.value.fp == t.fp && t.at != Forget && (Gone(s'.thr.value.at) <==> Gone(t.at))
    ensures true == Files(s')
  {
  }

  lemma FilesTaken(s: Sys, t: Thread, at: Place)
    requires Files(s) && Life(s) && s.thr == Some(t) && t.fp.None? && t.at != Forget && !Gone(at)
    ensures true == Files(MoveTo(s, t.(fp := s.datFp), at))
  {
  }

  lemma FilesClose(s: Sys, t: Thread)
    requires Files(s) && s.thr == Some(t) && t.at == Close
    ensures true == Files(MoveTo(if t.fp.Some? then s.(closed := s.closed + [t.fp.value]) else s, t, Forget))
  {
  }

  lemma FilesForget(s: Sys, t: Thread)
    requires Files(s) && s.thr == Some(t) && t.at == Forget
    ensures true == Files(MoveTo(s.(datFp := None), t, Settle))
  {
  }

  lemma FilesData(s: Sys, t: Thread, env: Env)
    requires Files(s) && Life(s) && s.thr == Some(t) && DataNext(s, t, env).Some?
    ensures true == Files(DataNext(s, t, env).value)
  {
    match t.at {
      case Woken => FilesTaken(s, t, Connect);
      case Take => FilesTaken(s, t, if s.datFp.Some? then Block else Probe);
      case Close => FilesClose(s, t);
      case Forget => FilesForget(s, t);
      case Report =>
        ReportFrame(s, t);
        FilesMove(s, t, ReportStep(s, t));
      case Waiting =>
      case Ended =>
      case _ =>
        PlainMove(s, t, env);
        FilesMove(s, t, DataNext(s, t, env).value);
    }
  }

  lemma PlainMove(s: Sys, t: Thread, env: Env)
    requires s.thr == Some(t) && DataNext(s, t, env).Some?
    requires !t.at.Woken? && !t.at.Take? && !t.at.Close? && !t.at.Forget? && !t.at.Report?
    ensures var s' := DataNext(s, t, env).value;
      && s'.files == s.files && s'.closed == s.closed && s'.datFp == s.datFp && s'.pc == s.pc
      && s'.thr.Some? && s'.thr.value.fp == t.fp && (Gone(s'.thr.value.at) <==> Gone(t.at))
  {
    match t.at {
      case Enter => case Waiting => case Connect => case Refused => case Poll =>
      case Accept => case Probe => case Block => case Settle => case Ended =>
    }
  }

  /** Steps of the session that leave the files and the thread's file alone. */
  lemma FilesQuiet(s: Sys, s': Sys)
    requires Files(s) && s'.files == s.files && s'.closed == s.closed && s'.datFp == s.datFp
    requires s'.thr == s.thr || (s'.thr.None?) || (s.thr.None? && s'.thr.Some? && s'.thr.value.fp.None?)
    requires s'.thr.None? && s.thr.Some? ==> s.thr.value.at == Ended
    requires Flying(s'.pc).None?
    ensures true == Files(s')
  {
  }

  lemma FilesSay(s: Sys, code: nat, after: After)
    requires Files(s) && s.pc == Say(code, after)
    ensures true == Files(SayStep(s, code, after))
  {
  }

  lemma FilesSignal(s: Sys, f: nat)
    requires Files(s) && Life(s) && s.pc == Signal(f)
    ensures true == Files(SignalStep(s, f))
  {
  }

  lemma FilesOpen(s: Sys, v: Verb, o: Outcome)
    requires Files(s) && Life(s) && s.pc.Exec?
    ensures true == Files(AfterHandler(s, v, o))
  {
  }

  /** What a step of the session other than the handler, a reply or the signal does to the files. */
  predicate QuietStep(s: Sys, s': Sys)
  {
    && s'.files == s.files && s'.closed == s.closed && s'.datFp == s.datFp && Flying(s'.pc).None?
    && (s'.thr == s.thr || (s'.thr.None? && s.thr.value.at == Ended)
        || (s.thr.None? && s'.thr.Some? && s'.thr.value.fp.None?))
  }

  lemma QuietGuards(s: Sys, env: Env)
    requires s.pc.Read? || s.pc.Xfer? || s.pc.Auth? || s.pc.Data?
    ensures SessionNext(s, env).Some? && QuietStep(s, SessionNext(s, env).value)
  {
    match s.pc {
      case Read => ReadFrame(s, env.input); QuietRead(s, env.input);
      case Xfer(_, _) => case Auth(_, _) => case Data(_, _) =>
    }
  }

  lemma QuietRead(s: Sys, input: Input)
    ensures Flying(ReadStep(s, input).pc).None?
  {
    match input {
      case Closed => case TooLong => case Malformed =>
      case Command(verb, arg) => QuietDispatch(s, VerbOf(verb), arg);
    }
  }

  lemma QuietDispatch(s: Sys, v: Verb, arg: string)
    ensures Flying(Dispatch(s, v, arg).pc).None?
  {
  }

  lemma QuietClose(s: Sys, env: Env)
    requires s.pc.CtRead? || s.pc.CtClear? || s.pc.CtJoin? || s.pc.CtReset? || s.pc.Greet? || s.pc.Abor? || s.pc.Bye?
    requires SessionNext(s, env).Some?
    ensures QuietStep(s, SessionNext(s, env).value)
  {
  }

  lemma QuietModes(s: Sys, env: Env)
    requires Life(s)
    requires s.pc.PortScan? || s.pc.PortRun? || s.pc.PortCreate? || s.pc.PortState?
          || s.pc.PasvOpen? || s.pc.PasvState? || s.pc.PasvRun? || s.pc.PasvCreate?
    ensures SessionNext(s, env).Some? && QuietStep(s, SessionNext(s, env).value)
  {
  }

  lemma FilesSession(s: Sys, env: Env)
    requires Files(s) && Inv(s) && SessionNext(s, env).Some?
    ensures true == Files(SessionNext(s, env).value)
  {
    if s.pc.Exec? {
      FilesExec(s, s.pc.verb, s.pc.arg, env);
    } else if s.pc.Say? {
      FilesSay(s, s.pc.code, s.pc.after);
    } else if s.pc.Signal? {
      FilesSignal(s, s.pc.file);
    } else if !s.pc.Freed? {
      if s.pc.Read? || s.pc.Xfer? || s.pc.Auth? || s.pc.Data? {
        QuietGuards(s, env);
      } else if s.pc.PortScan? || s.pc.PortRun? || s.pc.PortCreate? || s.pc.PortState?
             || s.pc.PasvOpen? || s.pc.PasvState? || s.pc.PasvRun? || s.pc.PasvCreate? {
        QuietModes(s, env);
      } else {
        QuietClose(s, env);
      }
      FilesQuiet(s, SessionNext(s, env).value);
    }
  }

  lemma FilesExec(s: Sys, v: Verb, arg: string, env: Env)
    requires Files(s) && Inv(s) && s.pc == Exec(v, arg)
    ensures true == Files(ExecStep(s, v, arg, env))
  {
    if v == USER || v == PASS {
      FilesQuiet(s, ExecStep(s, v, arg, env));
    } else {
      FilesOpen(s, v, Handle(v, s.local, arg, env.yes, env.yes2));
    }
  }

  lemma {:induction false} FilesRun(evs: seq<Event>)
    requires Run(evs).Some?
    ensures true == Files(Run(evs).value)
  {
    if evs != [] {
      var before := evs[..|evs| - 1];
      FilesRun(before);
      RunKeeps(before);
      var s := Run(before).value;
      match evs[|evs| - 1] {
        case SessionStep(env) => FilesSession(s, env);
        case DataStep(env) => FilesData(s, s.thr.value, env);
      }
    }
  }

  /** In every interleaving, of any client: no FILE is closed twice, and the one a data thread works
      on is open and is the one in dat_fp. */
  lemma ClosedOnce(evs: seq<Event>)
    requires Run(evs).Some?
    ensures var s := Run(evs).value;
      && (forall i, j :: 0 <= i < j < |s.closed| ==> s.closed[i] != s.closed[j])
      && (s.thr.Some? && s.thr.value.at == Block ==>
            s.thr.value.fp.Some? && s.datFp == s.thr.value.fp && s.datFp.value !in s.closed)
  {
    RunKeeps(evs);
    FilesRun(evs);
  }
}
