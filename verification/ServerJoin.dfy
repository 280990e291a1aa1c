/** When pthread_join returns: client_close_threads waits for a data thread that stops as soon as it
    looks at thr_dat_running - but an active one does not look before its signal. */
module ServerJoin {
  import opened Text
  import opened Requests
  import opened Codecs
  import opened Session
  import opened Server
  import opened ServerLife
  import opened ServerLogin
  import opened ServerRuns
  import opened ServerScript

  /** The session joins a data thread that it has created. */
  predicate Joining(s: Sys) { s.pc.CtJoin? && s.thr.Some? }

  /** The thread still waits, or is about to, for a signal that only the session could send. */
  predicate Hangs(s: Sys)
  {
    Joining(s) && (s.thr.value.at == Enter || s.thr.value.at == Waiting)
  }

  /** How many steps are left to a data thread that has been told to stop. */
  function StepsLeft(at: Place): nat
  {
    match at
    case Enter => 0
    case Waiting => 0
    case Accept => 8
    case Take => 7
    case Woken => 7
    case Probe => 6
    case Block => 6
    case Connect => 6
    case Poll => 5
    case Refused => 5
    case Close => 4
    case Forget => 3
    case Settle => 2
    case Report => 1
    case Ended => 0
  }

  /** Every step of the joined thread brings its end nearer. */
  lemma StopsSooner(s: Sys, env: Env)
    requires Inv(s) && Joining(s) && !Hangs(s) && DataNext(s, s.thr.value, env).Some?
    ensures var s' := DataNext(s, s.thr.value, env).value;
      Joining(s') && !Hangs(s') && s'.pc == s.pc && StepsLeft(s'.thr.value.at) < StepsLeft(s.thr.value.at)
  {
    DataFrame(s, env);
    if s.thr.value.at == Report {
      ReportFrame(s, s.thr.value);
    } else if s.thr.value.at in {Close, Forget, Settle} {
      CleansSooner(s, env);
    } else {
      LooksSooner(s, env);
    }
  }

  lemma CleansSooner(s: Sys, env: Env)
    requires s.thr.Some? && s.thr.value.at in {Close, Forget, Settle} && DataNext(s, s.thr.value, env).Some?
    ensures var at := DataNext(s, s.thr.value, env).value.thr.value.at;
      at !in {Enter, Waiting} && StepsLeft(at) < StepsLeft(s.thr.value.at)
  {
    match s.thr.value.at { case Close => case Forget => case Settle => }
  }

  lemma LooksSooner(s: Sys, env: Env)
    requires Life(s) && s.thr.Some? && !s.running && DataNext(s, s.thr.value, env).Some?
    requires s.thr.value.at in {Woken, Connect, Refused, Poll, Accept, Take, Probe, Block}
    ensures var t' := DataNext(s, s.thr.value, env).value.thr;
      t'.Some? && t'.value.at !in {Enter, Waiting} && StepsLeft(t'.value.at) < StepsLeft(s.thr.value.at)
  {
    match s.thr.value.at {
      case Woken => case Connect => case Refused => case Poll => case Accept => case Take => case Probe => case Block =>
    }
  }

  lemma JoinStays(s: Sys, e: Event)
    requires Inv(s) && Hangs(s) && Next(s, e).Some?
    ensures Hangs(Next(s, e).value) && Next(s, e).value.pc == s.pc
  {
  }

  lemma {:induction false} HangsForever(a: seq<Event>, b: seq<Event>)
    requires Prefix(a, b) && Run(b).Some?
    ensures Run(a).Some?
    ensures Hangs(Run(a).value) ==> Hangs(Run(b).value) && Run(b).value.pc == Run(a).value.pc
    decreases |b|
  {
    if |a| == |b| {
      assert a == b;
    } else {
      var before := b[..|b| - 1];
      assert before[..|a|] == a;
      HangsForever(a, before);
      RunKeeps(before);
      if Hangs(Run(before).value) { JoinStays(Run(before).value, b[|b| - 1]); }
    }
  }

  predicate JoiningAt(evs: seq<Event>) { Run(evs).Some? && Joining(Run(evs).value) }

  /** A join that can still return, and one that has. */
  predicate Returning(evs: seq<Event>) { JoiningAt(evs) && !Hangs(Run(evs).value) }

  predicate Returned(evs: seq<Event>) { Run(evs).Some? && Run(evs).value.pc.CtReset? }

  function LeftAt(evs: seq<Event>): nat
  {
    if JoiningAt(evs) then StepsLeft(Run(evs).value.thr.value.at) else 0
  }

  lemma LeftBound(evs: seq<Event>)
    ensures LeftAt(evs) <= 8
  {
  }

  /** Unless it hangs, a join lasts for at most eight steps, whatever the scheduler does. */
  lemma {:induction false} JoinIsShort(a: seq<Event>, es: seq<Event>)
    requires true == Returning(a)
    requires forall k :: 0 <= k <= |es| ==> true == JoiningAt(a + es[..k])
    ensures true == Returning(a + es) && |es| + LeftAt(a + es) <= LeftAt(a) <= 8
  {
    assert es[..|es|] == es;
    LeftBound(a);
    if es == [] {
      assert a + es == a;
    } else {
      var before := es[..|es| - 1];
      assert forall k :: 0 <= k <= |before| ==> before[..k] == es[..k];
      JoinIsShort(a, before);
      assert a + es == (a + before) + [es[|es| - 1]];
      JoinMoves(a + before, es[|es| - 1], a + es);
    }
  }

  lemma JoinMoves(before: seq<Event>, e: Event, evs: seq<Event>)
    requires true == Returning(before) && evs == before + [e] && true == JoiningAt(evs)
    ensures true == Returning(evs) && LeftAt(evs) < LeftAt(before)
  {
    assert evs[..|evs| - 1] == before;
    RunKeeps(before);
    match e {
      case DataStep(env) => StopsSooner(Run(before).value, env);
      case SessionStep(env) =>
    }
  }

  /** Some step is always possible. */
  lemma JoinGoesOn(a: seq<Event>) returns (e: Event)
    requires true == Returning(a)
    ensures Returned(a + [e]) || true == Returning(a + [e])
  {
    var s := Run(a).value;
    e := if s.thr.value.at == Ended then Sess(Closed) else Dat(true, 0);
    var b, t := Go(a, s, e);
    if e.DataStep? {
      RunKeeps(a);
      StopsSooner(s, e.env);
    }
  }

  /** The rest of a join, up to its return. */
  lemma {:induction false} JoinOn(a: seq<Event>) returns (es: seq<Event>)
    requires true == Returning(a)
    ensures true == Returned(a + es)
    decreases LeftAt(a)
  {
    var e := JoinGoesOn(a);
    es := [e];
    if Returning(a + [e]) {
      JoinMoves(a, e, a + [e]);
      var rest := JoinOn(a + [e]);
      es := [e] + rest;
      assert a + es == (a + [e]) + rest;
    }
  }

  /** In every interleaving: a join of a data thread can return if and only if the thread is not one
      that still waits, or has yet to wait, for its signal. */
  lemma JoinReturns(a: seq<Event>)
    requires JoiningAt(a)
    ensures (exists es :: Returned(a + es)) <==> !Hangs(Run(a).value)
  {
    if Hangs(Run(a).value) {
      forall es | Run(a + es).Some?
        ensures !Returned(a + es)
      {
        assert (a + es)[..|a|] == a;
        HangsForever(a, a + es);
      }
    } else {
      var es := JoinOn(a);
    }
  }

  /** In passive mode it always can. */
  lemma PassiveReturns(a: seq<Event>)
    requires JoiningAt(a) && Run(a).value.thr.value.mode == Passive
    ensures !Hangs(Run(a).value)
  {
    RunLife(a);
  }

  lemma ReadQuit(evs0: seq<Event>, s0: Sys) returns (evs: seq<Event>, s: Sys)
    requires Run(evs0) == Some(s0) && s0.pc == Read
    ensures Run(evs) == Some(s) && s == Goto(s0, CtRead(ForQuit)) && AsGood(evs, evs0)
  {
    evs, s := Go(evs0, s0, Sess(Command("QUIT", "")));
  }

  lemma ToJoin(evs0: seq<Event>, s0: Sys, why: Why) returns (evs: seq<Event>, s: Sys)
    requires Run(evs0) == Some(s0) && s0.pc == CtRead(why) && s0.running
    ensures Run(evs) == Some(s) && s == s0.(running := false, pc := CtJoin(why)) && AsGood(evs, evs0)
  {
    evs, s := Go(evs0, s0, Sess(Closed));
    evs, s := Go(evs, s, Sess(Closed));
  }

  lemma ActiveMode() returns (evs: seq<Event>, s: Sys)
    ensures Run(evs) == Some(s) && Disciplined(evs) && Idle(s) && s.state == PORT_MODE && s.running
    ensures s.thr == Some(ACTIVE.(at := Waiting)) && !Awaiting(s.sent)
  {
    var a := [127, 0, 0, 1, 4, 1];
    AddressRoundTrip(a, "");
    assert Commas(a) + "" == Commas(a);
    evs, s := LogIn();
    evs, s := Port(evs, s, Commas(a));
  }

  /** A disciplined client that enters active mode and quits: the session never ends. */
  lemma QuitHangs() returns (evs: seq<Event>)
    ensures Run(evs).Some? && Disciplined(evs) && Hangs(Run(evs).value) && Run(evs).value.pc == CtJoin(ForQuit)
  {
    var s: Sys;
    evs, s := ActiveMode();
    evs, s := ReadQuit(evs, s);
    evs, s := ToJoin(evs, s, ForQuit);
  }

  /** One that enters active mode, finds that it does not work, and turns to passive mode: the server
      never answers. */
  lemma PasvHangs() returns (evs: seq<Event>)
    ensures Run(evs).Some? && Disciplined(evs) && Hangs(Run(evs).value) && Run(evs).value.pc == CtJoin(ForPasv)
  {
    var s: Sys;
    evs, s := ActiveMode();
    evs, s := Ask(evs, s, PASV, "");
    evs, s := ToJoin(evs, s, ForPasv);
  }
}
