/** A file that no data thread will ever take: how a session gets there, that it stays, and that it
    never transfers again. */
module ServerStuck {
  import opened Text
  import opened Requests
  import opened Codecs
  import opened Session
  import opened Server
  import opened ServerLife
  import opened ServerLogin
  import opened ServerRuns
  import opened ServerFiles
  import opened ServerHandover
  import opened ServerScript

  /** A data thread that will not look at dat_fp again: it has looked for the last time, or it is an
      active one that waits, or is about to wait, for a signal; signals come only with a new file. */
  predicate Deaf(t: Thread) { Gone(t.at) || t.at == Enter || t.at == Waiting }

  /** A file is in dat_fp, and no thread will take it. */
  predicate Stuck(s: Sys)
  {
    s.datFp.Some? && (s.thr.Some? ==> Deaf(s.thr.value))
  }

  /** The file was stored while the active data thread had yet to wait. */
  predicate Lost(s: Sys)
  {
    s.datFp.Some? && s.thr.Some? && (s.thr.value.at == Enter || s.thr.value.at == Waiting)
  }

  lemma StuckData(s: Sys, env: Env)
    requires Inv(s) && Stuck(s) && s.thr.Some? && DataNext(s, s.thr.value, env).Some?
    ensures var s' := DataNext(s, s.thr.value, env).value;
      Stuck(s') && s'.datFp == s.datFp && SameSession(s, s') && (Lost(s) ==> Lost(s'))
  {
    DataFrame(s, env);
    match s.thr.value.at {
      case Enter => case Waiting => case Settle => case Report => ReportFrame(s, s.thr.value); case Ended =>
    }
  }

  lemma StuckSession(s: Sys, env: Env)
    requires Inv(s) && Stuck(s) && SessionNext(s, env).Some?
    ensures var s' := SessionNext(s, env).value;
      Stuck(s') && s'.datFp == s.datFp && SameSession(s, s') && (Lost(s) ==> Lost(s') && s'.pc != Freed)
  {
    SessionFrame(s, env);
    StuckStays(s, env);
    if Lost(s) { LostStays(s, env); }
  }

  lemma StuckStays(s: Sys, env: Env)
    requires Inv(s) && Stuck(s) && SessionNext(s, env).Some?
    ensures Stuck(SessionNext(s, env).value) && SessionNext(s, env).value.datFp == s.datFp
  {
    if s.pc.Read? || s.pc.Xfer? {
      QuietGuards(s, env);
    } else if s.pc.CtRead? || s.pc.CtClear? || s.pc.CtJoin? || s.pc.CtReset? || s.pc.Greet? || s.pc.Abor? || s.pc.Bye? {
      QuietClose(s, env);
    }
  }

  /** While the thread waits, no join returns, so the session never ends. */
  lemma LostStays(s: Sys, env: Env)
    requires Inv(s) && Lost(s) && SessionNext(s, env).Some?
    ensures Lost(SessionNext(s, env).value) && SessionNext(s, env).value.pc != Freed
  {
    if s.pc.Read? || s.pc.Xfer? {
      QuietGuards(s, env);
      if s.pc.Read? { ReadFrame(s, env.input); LostRead(s, env.input); }
    } else if s.pc.CtRead? || s.pc.CtClear? || s.pc.CtJoin? || s.pc.CtReset? || s.pc.Greet? || s.pc.Abor? || s.pc.Bye? {
      QuietClose(s, env);
    }
  }

  lemma LostRead(s: Sys, input: Input)
    ensures ReadStep(s, input).pc != Freed
  {
    match input {
      case Closed => case TooLong => case Malformed =>
      case Command(verb, arg) => DispatchFrame(s, VerbOf(verb), arg);
    }
  }

  /** Once stuck, stuck for the rest of the session, whatever the client sends: the file stays where
      it is, no handler touches the session's record or the store again, and when the file was lost
      on a thread that waits, not even QUIT ends the session. */
  lemma {:induction false} StuckForever(a: seq<Event>, b: seq<Event>)
    requires Prefix(a, b) && Run(b).Some?
    ensures Run(a).Some?
    ensures var s, s' := Run(a).value, Run(b).value;
      Stuck(s) ==>
        && Stuck(s') && s'.datFp == s.datFp && SameSession(s, s')
        && (Lost(s) && s.pc != Freed ==> Lost(s') && s'.pc != Freed)
    decreases |b|
  {
    if |a| == |b| {
      assert a == b;
    } else {
      var before := b[..|b| - 1];
      assert before[..|a|] == a;
      StuckForever(a, before);
      RunKeeps(before);
      var s := Run(before).value;
      if Stuck(s) {
        match b[|b| - 1] {
          case SessionStep(env) => StuckSession(s, env);
          case DataStep(env) => StuckData(s, env);
        }
      }
    }
  }

  /** Every command that looks for a transfer in progress is answered 503. */
  lemma StuckRefuses(evs: seq<Event>, env: Env)
    requires Run(evs).Some? && Stuck(Run(evs).value)
    ensures var s := Run(evs).value;
      s.pc.Xfer? ==> SessionNext(s, env) == Some(Goto(s, Say(503, ToRead)))
    ensures !Run(evs).value.pc.Exec? && !Run(evs).value.pc.Signal?
  {
    RunLife(evs);
  }

  // ---- Exactly when ----

  /** A signal finds a data thread that has yet to look at dat_fp, or that waits for the signal. */
  predicate Heard(s: Sys, e: Event)
  {
    e.SessionStep? && s.pc.Signal? ==>
      s.thr.Some? && s.thr.value.at != Enter && !Gone(s.thr.value.at)
  }

  predicate HeardRun(evs: seq<Event>)
  {
    evs == [] ||
    var before := evs[..|evs| - 1];
    HeardRun(before) && (Run(before).Some? ==> Heard(Run(before).value, evs[|evs| - 1]))
  }

  lemma SignalSticks(s: Sys, f: nat, e: Event)
    requires s.pc == Signal(f) && e.SessionStep?
    ensures Stuck(SignalStep(s, f)) <==> !Heard(s, e)
  {
  }

  lemma DataUnsticks(s: Sys, env: Env)
    requires Inv(s) && !Stuck(s) && s.thr.Some? && DataNext(s, s.thr.value, env).Some?
    ensures !Stuck(DataNext(s, s.thr.value, env).value)
  {
    match s.thr.value.at {
      case Report => ReportFrame(s, s.thr.value);
      case Enter => case Waiting => case Woken => case Connect => case Refused => case Poll => case Accept =>
      case Take => case Probe => case Block => case Close => case Forget => case Settle => case Ended =>
    }
  }

  lemma QuietUnsticks(s: Sys, s': Sys)
    requires !Stuck(s) && QuietStep(s, s')
    ensures !Stuck(s')
  {
  }

  lemma SessionUnsticks(s: Sys, env: Env)
    requires Inv(s) && !Stuck(s) && !s.pc.Signal? && SessionNext(s, env).Some?
    ensures !Stuck(SessionNext(s, env).value)
  {
    if s.pc.Exec? {
      ExecFrame(s, s.pc.verb, s.pc.arg, env);
    } else if s.pc.Say? {
      assert SessionNext(s, env).value.thr == s.thr && SessionNext(s, env).value.datFp == s.datFp;
    } else if !s.pc.Freed? {
      if s.pc.Read? || s.pc.Xfer? || s.pc.Auth? || s.pc.Data? {
        QuietGuards(s, env);
      } else if s.pc.PortScan? || s.pc.PortRun? || s.pc.PortCreate? || s.pc.PortState?
             || s.pc.PasvOpen? || s.pc.PasvState? || s.pc.PasvRun? || s.pc.PasvCreate? {
        QuietModes(s, env);
      } else {
        QuietClose(s, env);
      }
      QuietUnsticks(s, SessionNext(s, env).value);
    }
  }

  /** In every interleaving, of any client: a session is stuck if and only if some signal found no
      data thread that would still take the file - none, one that had looked for the last time, or
      an active one that had yet to wait. */
  lemma {:induction false} StuckExactly(evs: seq<Event>)
    requires Run(evs).Some?
    ensures Stuck(Run(evs).value) <==> !HeardRun(evs)
  {
    if evs != [] {
      var before, e := evs[..|evs| - 1], evs[|evs| - 1];
      StuckExactly(before);
      RunKeeps(before);
      var s := Run(before).value;
      if Stuck(s) {
        StuckForever(before, evs);
      } else if e.DataStep? {
        DataUnsticks(s, e.env);
      } else if s.pc.Signal? {
        SignalSticks(s, s.pc.file, e);
      } else {
        SessionUnsticks(s, e.env);
      }
    }
  }

  // ---- Disciplined clients ----

  /** The signal does not come before the active data thread waits for it. */
  predicate Punctual(s: Sys, e: Event)
  {
    e.SessionStep? && s.pc.Signal? && s.thr.Some? ==> s.thr.value.at != Enter
  }

  predicate PunctualRun(evs: seq<Event>)
  {
    evs == [] ||
    var before := evs[..|evs| - 1];
    PunctualRun(before) && (Run(before).Some? ==> Punctual(Run(before).value, evs[|evs| - 1]))
  }

  lemma {:induction false} HeardIsPunctual(evs: seq<Event>)
    requires HeardRun(evs)
    ensures PunctualRun(evs)
  {
    if evs != [] {
      HeardIsPunctual(evs[..|evs| - 1]);
    }
  }

  lemma UnheardEarly(s: Sys, s': Sys, e: Event)
    requires Inv(s) && !Heard(s, e) && Punctual(s, e) && Next(s, e) == Some(s')
    ensures s'.datFp.Some? && (s'.thr.Some? ==> Gone(s'.thr.value.at))
  {
  }

  /** A disciplined client gets stuck if and only if a signal comes too early, and then on an active
      data thread: in passive mode it never does. */
  lemma {:induction false} DisciplinedStuck(evs: seq<Event>)
    requires Disciplined(evs) && Run(evs).Some?
    ensures Stuck(Run(evs).value) <==> !PunctualRun(evs)
    ensures Stuck(Run(evs).value) ==> Lost(Run(evs).value) && Run(evs).value.thr.value.mode == Active
  {
    Handover(evs);
    RunLife(evs);
    StuckExactly(evs);
    if HeardRun(evs) {
      HeardIsPunctual(evs);
    } else {
      var before, e := evs[..|evs| - 1], evs[|evs| - 1];
      DisciplinedStuck(before);
      RunKeeps(before);
      StuckExactly(before);
      if HeardRun(before) && Punctual(Run(before).value, e) {
        UnheardEarly(Run(before).value, Run(evs).value, e);
      }
    }
  }

  // ---- Runs that get there ----

  /** A client that sends its next LIST without waiting for the completion reply. */
  lemma ImpatientGetsStuck() returns (evs: seq<Event>)
    ensures Run(evs).Some? && Stuck(Run(evs).value) && ReachedRun(evs) && !PatientRun(evs)
  {
    var s: Sys;
    evs, s := FirstList();
    HeldRun(evs);
    evs, s := List(evs, s);
    evs, s := Finish(evs, s);
  }

  /** A patient client whose active connection is refused: 425 comes before the cleanup, so the
      client goes on while the data thread has yet to settle the state. */
  lemma RefusedGetsStuck() returns (evs: seq<Event>)
    ensures Run(evs).Some? && Stuck(Run(evs).value) && PatientRun(evs) && !ReachedRun(evs)
  {
    var s: Sys;
    var a := [127, 0, 0, 1, 4, 1];
    AddressRoundTrip(a, "");
    assert Commas(a) + "" == Commas(a);
    evs, s := LogIn();
    evs, s := Port(evs, s, Commas(a));
    evs, s := List(evs, s);
    evs, s := ConnectFails(evs, s);
    evs, s := Clean(evs, s);
    evs, s := List(evs, s);
    evs, s := Finish(evs, s);
  }

  /** A disciplined client in active mode whose LIST is served before the data thread gets to wait. */
  lemma EarlySignalGetsStuck() returns (evs: seq<Event>)
    ensures Run(evs).Some? && Stuck(Run(evs).value) && Lost(Run(evs).value) && Disciplined(evs)
    ensures Run(evs).value.pc == Read
  {
    var s: Sys;
    var a := [127, 0, 0, 1, 4, 1];
    AddressRoundTrip(a, "");
    assert Commas(a) + "" == Commas(a);
    evs, s := LogIn();
    evs, s := PortAtOnce(evs, s, Commas(a));
    evs, s := List(evs, s);
    evs, s := Wait(evs, s);
  }
}
