/** Exactly when a careless line can meet the report of a data thread: a transfer that the client still
    awaits is on its way to its report, unless its file is stuck. */
module ServerMeets {
  import opened Text
  import opened Requests
  import opened Session
  import opened Server
  import opened ServerLife
  import opened ServerLogin
  import opened ServerRuns
  import opened ServerFiles
  import opened ServerReplies
  import opened ServerHandover
  import opened ServerScript
  import opened ServerStuck
  import opened Replies
  import opened ControlChannel
  import opened ServerChannel
  import opened ServerClash

  // ---- An awaited transfer is pending ----

  /** The session is ending, or serving an ABOR that stops a transfer. */
  predicate Winding(pc: Pc)
  {
    match pc
    case Say(code, after) => after.ToBye? || (code == 226 && after.ToRead?)
    case CtRead(why) => Ends(why)
    case CtClear(why) => Ends(why)
    case CtJoin(why) => Ends(why)
    case CtReset(why) => Ends(why)
    case Bye => true
    case Freed => true
    case _ => false
  }

  predicate Ends(why: Why) { why == ForQuit || why == ForAbor || why == ForClose }

  predicate Expected(s: Sys) { Awaiting(s.sent) && !Winding(s.pc) ==> Pending(s) >= 1 }

  lemma WindsOn(s: Sys, env: Env)
    requires Winding(s.pc) && !Says226(s.pc) && SessionNext(s, env).Some?
    ensures Winding(SessionNext(s, env).value.pc)
  {
  }

  predicate Says226(pc: Pc) { pc.Say? && pc.code == 226 }

  lemma ExpectedData(s: Sys, env: Env, n: nat)
    requires Expected(s) && Life(s) && Files(s) && Tally(s, n) && s.thr.Some? && DataNext(s, s.thr.value, env).Some?
    requires true == Tally(DataNext(s, s.thr.value, env).value, n + Drops(s, DataStep(env)))
    ensures true == Expected(DataNext(s, s.thr.value, env).value)
  {
    var t, s' := s.thr.value, DataNext(s, s.thr.value, env).value;
    TellCounts(s.sent, Sent(true, 226));
    TellCounts(s.sent, Sent(true, 451));
    TellCounts(s.sent, Sent(true, 425));
    DataFrame(s, env);
    if t.at == Report {
      ReportFrame(s, t);
    } else if t.at != Refused {
      PendingData(s, t, env);
      DropsStopped(s, DataStep(env));
      if Drops(s, DataStep(env)) > 0 { JoinCommitted(s); }
    }
  }

  lemma ExpectedSpeech(s: Sys, env: Env, n: nat)
    requires Expected(s) && Tally(s, n) && (s.pc.Greet? || s.pc.Say? || s.pc.Bye?) && SessionNext(s, env).Some?
    requires true == Tally(SessionNext(s, env).value, n)
    ensures true == Expected(SessionNext(s, env).value)
  {
    var code := if s.pc.Greet? then 220 else if s.pc.Bye? then 221 else s.pc.code;
    TellCounts(s.sent, Sent(false, code));
    assert SessionNext(s, env).value.sent == s.sent + [Sent(false, code)];
    if Winding(s.pc) && !Says226(s.pc) { WindsOn(s, env); }
  }

  lemma ExpectedSilence(s: Sys, env: Env, n: nat)
    requires Expected(s) && Tally(s, n) && !s.pc.Greet? && !s.pc.Say? && !s.pc.Bye? && SessionNext(s, env).Some?
    requires true == Tally(SessionNext(s, env).value, n)
    ensures true == Expected(SessionNext(s, env).value)
  {
    SilentSession(s, env);
    if Winding(s.pc) { WindsOn(s, env); }
  }

  lemma {:induction false} ExpectedRun(evs: seq<Event>)
    requires Run(evs).Some?
    ensures true == Expected(Run(evs).value)
  {
    if evs != [] {
      var before, e := evs[..|evs| - 1], evs[|evs| - 1];
      ExpectedRun(before);
      RunKeeps(before);
      FilesRun(before);
      TallyRun(before);
      TallyRun(evs);
      ExpectedStep(Run(before).value, e, Dropped(before));
    }
  }

  lemma ExpectedStep(s: Sys, e: Event, n: nat)
    requires Expected(s) && Life(s) && Files(s) && Tally(s, n) && Next(s, e).Some?
    requires true == Tally(Next(s, e).value, n + Drops(s, e))
    ensures true == Expected(Next(s, e).value)
  {
    match e {
      case DataStep(env) => ExpectedData(s, env, n);
      case SessionStep(env) =>
        if s.pc.Greet? || s.pc.Say? || s.pc.Bye? { ExpectedSpeech(s, env, n); } else { ExpectedSilence(s, env, n); }
    }
  }

  // ---- And its thread gets to the report ----

  /** Cleanup without a result means that the thread was told to stop. */
  predicate Straight(s: Sys)
  {
    s.thr.Some? && s.thr.value.st == 0 && (s.thr.value.at == Close || s.thr.value.at == Forget || Gone(s.thr.value.at))
    ==> !s.running
  }

  lemma StraightData(s: Sys, env: Env)
    requires Straight(s) && s.thr.Some? && s.thr.value.at != Refused && DataNext(s, s.thr.value, env).Some?
    ensures true == Straight(DataNext(s, s.thr.value, env).value)
  {
    match s.thr.value.at {
      case Report => ReportFrame(s, s.thr.value);
      case Enter => case Waiting => case Woken => case Connect => case Refused => case Poll => case Accept =>
      case Take => case Probe => case Block => case Close => case Forget => case Settle => case Ended =>
    }
  }

  lemma StraightSession(s: Sys, env: Env)
    requires Straight(s) && Life(s) && SessionNext(s, env).Some?
    ensures true == Straight(SessionNext(s, env).value)
  {
    match s.pc {
      case Read => ReadFrame(s, env.input);
      case Exec(v, arg) => ExecFrame(s, v, arg, env);
      case _ => StraightPlain(s, env);
    }
  }

  lemma StraightPlain(s: Sys, env: Env)
    requires Straight(s) && Life(s) && s.pc != Read && !s.pc.Exec? && SessionNext(s, env).Some?
    ensures true == Straight(SessionNext(s, env).value)
  {
    if s.pc.Greet? || s.pc.Xfer? || s.pc.Auth? || s.pc.Data? || s.pc.Say? || s.pc.Signal? || s.pc.Abor? || s.pc.Bye? {
      StraightSpeech(s, env);
    } else if s.pc.CtRead? || s.pc.CtClear? || s.pc.CtJoin? || s.pc.CtReset? {
      StraightClose(s, env);
    } else if !s.pc.Freed? {
      StraightModes(s, env);
    }
  }

  lemma StraightSpeech(s: Sys, env: Env)
    requires Straight(s) && SessionNext(s, env).Some?
    requires s.pc.Greet? || s.pc.Xfer? || s.pc.Auth? || s.pc.Data? || s.pc.Say? || s.pc.Signal? || s.pc.Abor? ||
      s.pc.Bye?
    ensures true == Straight(SessionNext(s, env).value)
  {
  }

  lemma StraightClose(s: Sys, env: Env)
    requires Straight(s) && SessionNext(s, env).Some?
    requires s.pc.CtRead? || s.pc.CtClear? || s.pc.CtJoin? || s.pc.CtReset?
    ensures true == Straight(SessionNext(s, env).value)
  {
  }

  lemma StraightModes(s: Sys, env: Env)
    requires Straight(s) && Life(s) && SessionNext(s, env).Some?
    requires s.pc.PortScan? || s.pc.PortRun? || s.pc.PortCreate? || s.pc.PortState?
          || s.pc.PasvOpen? || s.pc.PasvState? || s.pc.PasvRun? || s.pc.PasvCreate?
    ensures true == Straight(SessionNext(s, env).value)
  {
  }

  lemma {:induction false} StraightRun(evs: seq<Event>)
    requires Disciplined(evs) && Run(evs).Some?
    ensures true == Straight(Run(evs).value)
  {
    if evs != [] {
      var before := evs[..|evs| - 1];
      StraightRun(before);
      HeldRun(before);
      RunLife(before);
      match evs[|evs| - 1] {
        case SessionStep(env) => StraightSession(Run(before).value, env);
        case DataStep(env) => StraightData(Run(before).value, env);
      }
    }
  }

  /** The data thread has a file to report on, or will take it. */
  predicate Bound(s: Sys)
  {
    && s.running && s.thr.Some? && s.thr.value.at != Refused
    && (Due(s.thr.value)
        || (s.thr.value.fp.None? && s.datFp.Some? && s.thr.value.at in {Woken, Poll, Accept, Take, Probe}))
  }

  function Distance(t: Thread): nat
  {
    match t.at
    case Probe => 8
    case Poll => if t.fp.Some? then 5 else 7
    case Woken => 7
    case Connect => 6
    case Accept => 6
    case Take => 5
    case Block => 4
    case Close => 3
    case Forget => 2
    case Settle => 1
    case _ => 0
  }

  /** The step that brings it nearer: connections are made, and one block is all. */
  function Nearer(t: Thread): Event { Dat(t.at != Probe, 1) }

  lemma ComesNearer(s: Sys)
    requires Life(s) && Files(s) && Bound(s) && s.thr.value.at != Report
    ensures var t := s.thr.value; var e := Nearer(t);
      && Next(s, e).Some? && Reached(s, e) && true == Bound(Next(s, e).value)
      && Distance(Next(s, e).value.thr.value) < Distance(t)
  {
    if s.thr.value.at in {Block, Close, Forget, Settle} {
      EndsSooner(s);
    } else {
      StartsSooner(s);
    }
  }

  lemma StartsSooner(s: Sys)
    requires Life(s) && Bound(s) && s.thr.value.at in {Woken, Connect, Poll, Accept, Take, Probe}
    ensures var t := s.thr.value; var e := Nearer(t);
      && Next(s, e).Some? && Reached(s, e) && true == Bound(Next(s, e).value)
      && Distance(Next(s, e).value.thr.value) < Distance(t)
  {
    match s.thr.value.at {
      case Woken => case Connect => case Poll => case Accept => case Take => case Probe =>
    }
  }

  lemma EndsSooner(s: Sys)
    requires Life(s) && Bound(s) && s.thr.value.at in {Block, Close, Forget, Settle}
    ensures var t := s.thr.value; var e := Nearer(t);
      && Next(s, e).Some? && Reached(s, e) && true == Bound(Next(s, e).value)
      && Distance(Next(s, e).value.thr.value) < Distance(t)
  {
    match s.thr.value.at {
      case Block => case Close => case Forget => case Settle =>
    }
  }

  lemma ReportsSoon(s: Sys)
    requires Life(s) && Bound(s) && s.thr.value.at == Report
    ensures Speech(s, Who.Data).Some?
  {
  }

  /** Steps of the data thread alone. */
  predicate DataOnly(es: seq<Event>) { forall i :: 0 <= i < |es| ==> es[i].DataStep? }

  /** A disciplined run that the data thread extends to a clash. */
  predicate Meets(evs: seq<Event>, es: seq<Event>)
  {
    DataOnly(es) && Disciplined(evs + es) && Run(evs + es).Some? && Clash(Run(evs + es).value)
  }

  /** A disciplined run on its way to a clash. */
  predicate Heading(evs: seq<Event>)
  {
    Disciplined(evs) && Run(evs).Some? && Bound(Run(evs).value) && Bare(Run(evs).value.pc)
  }

  function DistanceOf(evs: seq<Event>): nat
  {
    if Run(evs).Some? && Run(evs).value.thr.Some? then Distance(Run(evs).value.thr.value) else 0
  }

  predicate AtReport(evs: seq<Event>)
  {
    Run(evs).Some? && Run(evs).value.thr.Some? && Run(evs).value.thr.value.at == Report
  }

  lemma HeadsOn(evs: seq<Event>) returns (e: Event)
    requires true == Heading(evs) && !AtReport(evs)
    ensures e.DataStep? && true == Heading(evs + [e]) && DistanceOf(evs + [e]) < DistanceOf(evs)
  {
    var s := Run(evs).value;
    RunLife(evs);
    FilesRun(evs);
    ComesNearer(s);
    e := Nearer(s.thr.value);
    var evs', s' := Go(evs, s, e);
    DataFrame(s, e.env);
  }

  lemma ReportMeets(evs: seq<Event>)
    requires true == Heading(evs) && AtReport(evs)
    ensures true == Meets(evs, [])
  {
    RunLife(evs);
    ReportsSoon(Run(evs).value);
    assert evs + [] == evs;
  }

  lemma MeetsLater(evs: seq<Event>, e: Event, rest: seq<Event>)
    requires e.DataStep? && Meets(evs + [e], rest)
    ensures true == Meets(evs, [e] + rest)
  {
    assert evs + ([e] + rest) == (evs + [e]) + rest;
  }

  lemma {:induction false} HeadingMeets(evs: seq<Event>) returns (es: seq<Event>)
    requires true == Heading(evs)
    ensures true == Meets(evs, es)
    decreases DistanceOf(evs)
  {
    if AtReport(evs) {
      ReportMeets(evs);
      es := [];
    } else {
      var e := HeadsOn(evs);
      var rest := HeadingMeets(evs + [e]);
      MeetsLater(evs, e, rest);
      es := [e] + rest;
    }
  }

  lemma AwaitedIsBound(s: Sys)
    requires Life(s) && Files(s) && Held(s) && Straight(s) && Expected(s)
    requires s.pc == Read && Awaiting(s.sent) && !Stuck(s)
    ensures true == Bound(s)
  {
    if s.datFp.Some? { assert !Deaf(s.thr.value); }
  }

  // ---- Exactly when ----

  lemma {:induction false} DataOnlyAwaits(evs: seq<Event>, es: seq<Event>)
    requires Run(evs).Some? && Run(evs + es).Some? && DataOnly(es)
    ensures Awaiting(Run(evs + es).value.sent) ==> Awaiting(Run(evs).value.sent)
  {
    if es == [] {
      assert evs + es == evs;
    } else {
      var before, e := es[..|es| - 1], es[|es| - 1];
      assert (evs + es)[..|evs + es| - 1] == evs + before && (evs + es)[|evs + es| - 1] == e;
      DataOnlyAwaits(evs, before);
      RunLife(evs + before);
      DataAwaits(Run(evs + before).value, e.env);
    }
  }

  lemma StuckNeverMeets(evs: seq<Event>, es: seq<Event>)
    requires Run(evs).Some? && Stuck(Run(evs).value)
    ensures !Meets(evs, es)
  {
    if Meets(evs, es) {
      assert (evs + es)[..|evs|] == evs;
      StuckForever(evs, evs + es);
      DisciplinedStuck(evs + es);
    }
  }

  lemma ReadsCareless(evs: seq<Event>, input: Input) returns (evs': seq<Event>)
    requires Disciplined(evs) && Run(evs).Some? && Run(evs).value.pc == Read && Careless(input)
    ensures evs' == evs + [Sess(input)] && Disciplined(evs') && Run(evs') == Some(ReadStep(Run(evs).value, input))
  {
    var s: Sys;
    evs', s := Go(evs, Run(evs).value, Sess(input));
  }

  /** For a disciplined client: the reply to a careless line can meet one of the data thread if and
      only if the client awaits a completion when the line is read, and the file is not stuck. */
  lemma CarelessMeets(evs: seq<Event>, input: Input)
    requires Disciplined(evs) && Run(evs).Some? && Run(evs).value.pc == Read && Careless(input)
    ensures var s := Run(evs).value;
      (exists es :: Meets(evs + [Sess(input)], es)) <==> Awaiting(s.sent) && !Stuck(s)
  {
    var s := Run(evs).value;
    var evs' := ReadsCareless(evs, input);
    CarelessRead(s, input);
    if Awaiting(s.sent) && !Stuck(s) {
      RunLife(evs);
      FilesRun(evs);
      HeldRun(evs);
      StraightRun(evs);
      ExpectedRun(evs);
      AwaitedIsBound(s);
      var es := HeadingMeets(evs');
    } else {
      forall es | Meets(evs', es)
        ensures false
      {
        ClashAwaits(evs' + es);
        DataOnlyAwaits(evs', es);
        StuckNeverMeets(evs', es);
      }
    }
  }

  /** A careless line of a client that has read its whole listing, but not the completion reply. */
  lemma CarelessAtReport(input: Input) returns (evs: seq<Event>, s: Sys)
    requires Careless(input)
    ensures Run(evs) == Some(s) && Disciplined(evs)
    ensures Bare(s.pc) && SessionSpeech(s.pc).value.0 == CarelessCode(input)
    ensures s.thr.Some? && s.thr.value.at == Report && s.thr.value.st == 1
  {
    evs, s := FirstList();
    evs, s := Go(evs, s, Dat(true, 0));      // Settle
    var s0 := s;
    evs := ReadsCareless(evs, input);
    s := Run(evs).value;
    CarelessRead(s0, input);
    CarelessSays(s0, input);
  }

  function CarelessCode(input: Input): nat
  {
    match input
    case Closed => 221
    case Command(_, _) => 202
    case _ => 500
  }

  lemma CarelessSays(s: Sys, input: Input)
    requires Careless(input)
    ensures SessionSpeech(ReadStep(s, input).pc) == Some((CarelessCode(input), false))
  {
  }

  /** Both replies go out. */
  lemma StillDisciplined(evs0: seq<Event>, s0: Sys)
    requires Run(evs0) == Some(s0) && Disciplined(evs0) && Bare(s0.pc)
    requires s0.thr.Some? && s0.thr.value.at == Report && s0.thr.value.st == 1
    ensures Disciplined((evs0 + [Sess(Closed)]) + [Dat(true, 0)])
  {
    var evs, s := Go(evs0, s0, Sess(Closed));
    evs, s := Go(evs, s, Dat(true, 0));
  }

  /** It does happen, for each kind of careless line, even to a patient client whose connections
      succeed: the reply to the line mixes with the 226. */
  lemma CarelessMixes(input: Input, t: string, g: string) returns (fes: seq<FineEvent>, before: string)
    requires Careless(input)
    ensures FineRun(fes).Some? && Disciplined(Events(fes))
    ensures var f := FineRun(fes).value; var a, b := Reply(226, t), Reply(CarelessCode(input), g);
      && f.chan.holder.None? && f.chan.bare.None?
      && f.chan.out == before + Mixture(a, b)
      && f.chan.out != before + PrintAll([a, b]) && f.chan.out != before + PrintAll([b, a])
  {
    var evs, s := CarelessAtReport(input);
    StillDisciplined(evs, s);
    fes, before := ClashMixes(evs, t, g);
  }
}
