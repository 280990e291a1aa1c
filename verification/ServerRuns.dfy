/** Runs of the two threads: the invariants hold along every interleaving. */
module ServerRuns {
  import opened Text
  import Codecs
  import Path
  import opened Requests
  import opened Session
  import opened Server
  import opened ServerLife
  import opened ServerLogin

  predicate Inv(s: Sys)
  {
    Life(s) && Account(s) && Paths(s) && Verbs(s.pc)
  }

  lemma LifeGuards(s: Sys, env: Env)
    requires Life(s) && (s.pc.Read? || s.pc.Xfer? || s.pc.Auth? || s.pc.Data?)
    ensures SessionNext(s, env).Some? && true == Life(SessionNext(s, env).value)
  {
    match s.pc {
      case Read => LifeRead(s, env.input);
      case Xfer(v, arg) => LifeXfer(s, v, arg);
      case Auth(v, arg) => LifeAuth(s, v, arg);
      case Data(v, arg) => LifeMode(s, v, arg);
    }
  }

  lemma LifeReplies(s: Sys, env: Env)
    requires Life(s) && (s.pc.Greet? || s.pc.Say? || s.pc.Signal? || s.pc.Abor? || s.pc.Bye?)
    ensures SessionNext(s, env).Some? && true == Life(SessionNext(s, env).value)
  {
    match s.pc {
      case Greet => LifeGreet(s);
      case Say(code, after) => LifeSay(s, code, after);
      case Signal(f) => LifeSignal(s, f);
      case Abor => LifeAbor(s);
      case Bye => LifeBye(s);
    }
  }

  lemma LifeClose(s: Sys, env: Env)
    requires Life(s) && (s.pc.CtRead? || s.pc.CtClear? || s.pc.CtJoin? || s.pc.CtReset?)
    requires SessionNext(s, env).Some?
    ensures true == Life(SessionNext(s, env).value)
  {
    match s.pc {
      case CtRead(why) => LifeCtRead(s, why);
      case CtClear(why) => LifeCtClear(s, why);
      case CtJoin(why) => LifeCtJoin(s, why);
      case CtReset(why) => LifeCtReset(s, why);
    }
  }

  lemma LifePorts(s: Sys, env: Env)
    requires Life(s) && (s.pc.PortScan? || s.pc.PortRun? || s.pc.PortCreate? || s.pc.PortState?)
    ensures SessionNext(s, env).Some? && true == Life(SessionNext(s, env).value)
  {
    match s.pc {
      case PortScan(arg) => LifePortScan(s, Codecs.ScanAddress(arg).Some?);
      case PortRun => LifePortRun(s);
      case PortCreate => LifePortCreate(s, env.yes);
      case PortState => LifePortState(s);
    }
  }

  lemma LifePasvs(s: Sys, env: Env)
    requires Life(s) && (s.pc.PasvOpen? || s.pc.PasvState? || s.pc.PasvRun? || s.pc.PasvCreate?)
    ensures SessionNext(s, env).Some? && true == Life(SessionNext(s, env).value)
  {
    match s.pc {
      case PasvOpen => LifePasvOpen(s, env.yes);
      case PasvState => LifePasvState(s);
      case PasvRun => LifePasvRun(s);
      case PasvCreate => LifePasvCreate(s, env.yes);
    }
  }

  /** A step of the session other than the handler. */
  lemma LifeSession(s: Sys, env: Env)
    requires Life(s) && !s.pc.Exec? && SessionNext(s, env).Some?
    ensures true == Life(SessionNext(s, env).value)
  {
    if s.pc.Read? || s.pc.Xfer? || s.pc.Auth? || s.pc.Data? {
      LifeGuards(s, env);
    } else if s.pc.Greet? || s.pc.Say? || s.pc.Signal? || s.pc.Abor? || s.pc.Bye? {
      LifeReplies(s, env);
    } else if s.pc.CtRead? || s.pc.CtClear? || s.pc.CtJoin? || s.pc.CtReset? {
      LifeClose(s, env);
    } else if s.pc.PortScan? || s.pc.PortRun? || s.pc.PortCreate? || s.pc.PortState? {
      LifePorts(s, env);
    } else if !s.pc.Freed? {
      LifePasvs(s, env);
    }
  }

  /** The login is never lost. */
  predicate LoginKept(s: Sys, s': Sys) { s.state.LoggedIn() ==> s'.state.LoggedIn() }

  lemma AccountFramed(s: Sys, s': Sys)
    requires Inv(s) && Framed(s, s')
    ensures Account(s') && Paths(s') && LoginKept(s, s')
  {
  }

  lemma AccountData(s: Sys, s': Sys)
    requires Inv(s) && s.thr.Some? && (s'.state == s.state || s'.state == READY)
    requires s'.local == s.local && s'.log == s.log && s'.armings == s.armings
    requires s'.files == s.files && s'.created == s.created
    ensures Account(s') && Paths(s') && LoginKept(s, s')
  {
  }

  lemma DataKeeps(s: Sys, env: Env)
    requires Inv(s) && s.thr.Some? && DataNext(s, s.thr.value, env).Some?
    ensures var s' := DataNext(s, s.thr.value, env).value; true == Inv(s') && LoginKept(s, s')
  {
    DataFrame(s, env);
    LifeData(s, env);
    AccountData(s, DataNext(s, s.thr.value, env).value);
  }

  lemma SessionKeeps(s: Sys, env: Env)
    requires Inv(s) && SessionNext(s, env).Some?
    ensures var s' := SessionNext(s, env).value; true == Inv(s') && LoginKept(s, s')
  {
    VerbsKept(s, env);
    if s.pc.Exec? {
      ExecKeeps(s, s.pc.verb, s.pc.arg, env);
    } else {
      SessionFrame(s, env);
      LifeSession(s, env);
      AccountFramed(s, SessionNext(s, env).value);
    }
  }

  lemma StepKeeps(s: Sys, e: Event)
    requires Inv(s) && Next(s, e).Some?
    ensures true == Inv(Next(s, e).value) && LoginKept(s, Next(s, e).value)
  {
    match e {
      case SessionStep(env) => SessionKeeps(s, env);
      case DataStep(env) => DataKeeps(s, env);
    }
  }

  lemma InvInit()
    ensures Inv(INIT)
  {
    LifeInit();
    assert Path.Normal("/");
  }

  lemma {:induction false} RunKeeps(evs: seq<Event>)
    requires Run(evs).Some?
    ensures true == Inv(Run(evs).value)
  {
    if evs == [] {
      InvInit();
    } else {
      RunKeeps(evs[..|evs| - 1]);
      StepKeeps(Run(evs[..|evs| - 1]).value, evs[|evs| - 1]);
    }
  }

  lemma RunLife(evs: seq<Event>)
    requires Run(evs).Some?
    ensures true == Life(Run(evs).value)
  {
    RunKeeps(evs);
  }

  // ---- Main results ----

  /** Whether the session is between two commands. */
  predicate AtBoundary(s: Sys) { s.pc == Read }

  /** Life of the data threads, in every interleaving: at the boundaries of handlers there is at
      most one created, unjoined thread, thr_dat_running tells whether there is one, and PORT or PASV
      mode needs one; every thread but a live one has been joined, once. */
  lemma ThreadLife(evs: seq<Event>)
    requires Run(evs).Some?
    ensures var s := Run(evs).value;
      && s.created == s.joined + (if s.thr.Some? then 1 else 0)
      && (AtBoundary(s) ==> (s.running <==> s.thr.Some?) && (s.state.HasData() ==> s.thr.Some?))
      && (s.pc == Freed ==> s.thr.None? && s.created == s.joined)
  {
    RunLife(evs);
  }

  /** A finished session has joined only threads it created exactly when no creation failed: after a
      failed pthread_create the flag stays set and client_close joins a thread that is not there. */
  lemma JoinsAreProper(evs: seq<Event>)
    requires Run(evs).Some? && Run(evs).value.pc == Freed
    ensures Run(evs).value.badJoin <==> Run(evs).value.createFailed
  {
    RunLife(evs);
  }

  lemma FreedStops(s: Sys, e: Event)
    requires s.pc == Freed && s.thr.None?
    ensures Next(s, e).None?
  {
  }

  /** No step of either thread is possible on a freed record. */
  lemma NothingAfterFree(evs: seq<Event>, e: Event)
    requires Run(evs).Some? && Run(evs).value.pc == Freed
    ensures Run(evs + [e]).None?
  {
    ThreadLife(evs);
    FreedStops(Run(evs).value, e);
    assert (evs + [e])[..|evs|] == evs;
  }

  lemma {:induction false} GreetingFirst(evs: seq<Event>)
    requires Run(evs).Some? && Run(evs).value.pc == Greet
    ensures Run(evs).value.thr.None?
  {
    if evs != [] {
      var before := evs[..|evs| - 1];
      match evs[|evs| - 1] {
        case SessionStep(env) => RunKeeps(before); VerbsKept(Run(before).value, env);
        case DataStep(env) =>
          DataFrame(Run(before).value, env);
          GreetingFirst(before);
      }
    }
  }

  /** Of the replies sent without the lock, the welcome is sent while there is no data thread, and
      the goodbye while there is one exactly when the loop ended with the control connection while a
      data thread was live: after QUIT and after a 421 there is none. */
  lemma UnlockedAlone(evs: seq<Event>, env: Env)
    requires Run(evs).Some? && SessionNext(Run(evs).value, env).Some?
    ensures var s := Run(evs).value; var s' := SessionNext(s, env).value;
      && (s.pc == Greet ==> s'.thr.None?)
      && (s'.pc == Bye ==> (s'.thr.Some? <==> s.pc == Read && env.input.Closed? && s.thr.Some?))
  {
    RunLife(evs);
    var s := Run(evs).value;
    if s.pc == Greet { GreetingFirst(evs); }
    if SessionNext(s, env).value.pc == Bye { ByeAlone(s, env); }
  }

  lemma NoByeGuards(s: Sys, env: Env)
    requires s.pc.Xfer? || s.pc.Auth? || s.pc.Data? || s.pc.Exec? || s.pc.Greet? || s.pc.Signal? || s.pc.Abor? ||
      s.pc.Bye?
    ensures SessionNext(s, env).Some? && SessionNext(s, env).value.pc != Bye
  {
    match s.pc {
      case Exec(v, arg) => ExecFrame(s, v, arg, env);
      case Xfer(_, _) => case Auth(_, _) => case Data(_, _) => case Greet => case Signal(_) => case Abor => case Bye =>
    }
  }

  lemma NoByeModes(s: Sys, env: Env)
    requires s.pc.PortScan? || s.pc.PortRun? || s.pc.PortCreate? || s.pc.PortState?
          || s.pc.PasvOpen? || s.pc.PasvState? || s.pc.PasvRun? || s.pc.PasvCreate?
    ensures SessionNext(s, env).Some? && SessionNext(s, env).value.pc != Bye
  {
  }

  lemma ByeRead(s: Sys, input: Input)
    ensures ReadStep(s, input).pc == Bye <==> input.Closed?
    ensures ReadStep(s, input).thr == s.thr
  {
    ReadFrame(s, input);
    match input {
      case Command(verb, arg) => DispatchFrame(s, VerbOf(verb), arg);
      case _ =>
    }
  }

  lemma ByeAlone(s: Sys, env: Env)
    requires Life(s) && SessionNext(s, env).Some? && SessionNext(s, env).value.pc == Bye
    ensures SessionNext(s, env).value.thr.Some? <==> s.pc == Read && env.input.Closed? && s.thr.Some?
  {
    if s.pc.Read? {
      ByeRead(s, env.input);
    } else if s.pc.PortScan? || s.pc.PortRun? || s.pc.PortCreate? || s.pc.PortState?
           || s.pc.PasvOpen? || s.pc.PasvState? || s.pc.PasvRun? || s.pc.PasvCreate? {
      NoByeModes(s, env);
    } else if !(s.pc.Say? || s.pc.CtRead? || s.pc.CtClear? || s.pc.CtJoin? || s.pc.CtReset? || s.pc.Freed?) {
      NoByeGuards(s, env);
    }
  }

  predicate Prefix(a: seq<Event>, b: seq<Event>) { |a| <= |b| && b[..|a|] == a }

  lemma {:induction false} PrefixRuns(a: seq<Event>, b: seq<Event>)
    requires Prefix(a, b) && Run(b).Some?
    ensures Run(a).Some?
    ensures LoginKept(Run(a).value, Run(b).value)
    decreases |b|
  {
    if |a| == |b| {
      assert a == b;
    } else {
      var before := b[..|b| - 1];
      assert before[..|a|] == a;
      PrefixRuns(a, before);
      RunKeeps(before);
      StepKeeps(Run(before).value, b[|b| - 1]);
    }
  }

  /** Login, in every interleaving: once reached it is never lost; it stands for an accepted USER
      and PASS; and before it nothing guarded has touched the session or the store. */
  lemma LoginSafety(a: seq<Event>, b: seq<Event>)
    requires Prefix(a, b) && Run(b).Some?
    ensures Run(a).Some?
    ensures Run(a).value.state.LoggedIn() ==> Run(b).value.state.LoggedIn()
    ensures var s := Run(b).value;
      if s.state.LoggedIn() then GoodLogin(s.local) else Untouched(s) && s.thr.None?
  {
    PrefixRuns(a, b);
    RunKeeps(b);
  }

  /** Paths, in every interleaving: the working directory and a pending rename source are normalised
      and stay so, everything given to the store lies inside the root directory, and each accepted
      RNFR feeds at most one rename. */
  lemma PathSafety(evs: seq<Event>)
    requires Run(evs).Some?
    ensures var s := Run(evs).value;
      NormalLocal(s.local) && InsideOps(s.log) && Moves(s.log) <= s.armings
  {
    RunKeeps(evs);
  }
}
