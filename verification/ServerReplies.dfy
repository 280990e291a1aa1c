/** Counting replies in every interleaving. */
module ServerReplies {
  import opened Text
  import opened Requests
  import opened Session
  import opened Server
  import opened ServerLife
  import opened ServerRuns
  import opened ServerFiles

  /** Replies the session still has to send by itself: one for the command it serves, one goodbye. */
  function Owes(pc: Pc): nat
  {
    match pc
    case Greet => 2
    case Read => 1
    case Signal(_) => 1
    case Bye => 1
    case CtRead(why) => OwesClosing(why)
    case CtClear(why) => OwesClosing(why)
    case CtJoin(why) => OwesClosing(why)
    case CtReset(why) => OwesClosing(why)
    case Freed => 0
    case _ => 2
  }

  function OwesClosing(why: Why): nat
  {
    match why
    case ForQuit => 1
    case ForClose => 0
    case _ => 2
  }

  predicate Balanced(s: Sys)
  {
    |s.sent| + Owes(s.pc) == 2 + s.lines + ByData(s.sent)
  }

  /** The data thread has taken a file and will still report on it, unless it is stopped. */
  predicate Due(t: Thread)
  {
    t.fp.Some? && t.at != Ended
    && (t.at == Close || t.at == Forget || t.at == Settle || t.at == Report ==> t.st != 0)
  }

  /** Accepted transfers that have neither had a terminal reply nor been dropped. One whose file is
      stuck in dat_fp (ServerStuck) stays among them for good. */
  function Pending(s: Sys): nat
  {
    (if s.thr.Some? && Due(s.thr.value) then 1 else 0)
    + (if s.datFp.Some? && !(s.thr.Some? && s.thr.value.fp == s.datFp) then 1 else 0)
    + (if s.pc.Signal? then 1 else 0)
  }

  /** Every accepted transfer has been reported, is pending, or is one of n that were dropped. */
  predicate Conserved(s: Sys, n: nat)
  {
    Accepts(s.sent) == ByData(s.sent) + Pending(s) + n
  }

  /** 150 announces the signal, and nothing else does. */
  predicate Announced(pc: Pc) { pc.Say? ==> (pc.after.ToSignal? <==> pc.code == 150) }

  predicate Tally(s: Sys, n: nat) { Balanced(s) && Conserved(s, n) && Announced(s.pc) }

  /** A step that drops an accepted transfer: the data thread finds that it is to stop while it has
      a file, or clears a dat_fp it has not taken. */
  function Drops(s: Sys, e: Event): nat
  {
    if e.SessionStep? || s.thr.None? then 0
    else
      var t := s.thr.value;
      if t.at == Poll && !s.running && t.fp.Some? then 1
      else if t.at == Forget && t.fp.None? && s.datFp.Some? then 1
      else 0
  }

  /** How many accepted transfers a run has dropped. */
  function Dropped(evs: seq<Event>): nat
  {
    if evs == [] then 0
    else
      var before := evs[..|evs| - 1];
      Dropped(before) + if Run(before).Some? then Drops(Run(before).value, evs[|evs| - 1]) else 0
  }

  // ---- The data thread ----

  lemma PendingData(s: Sys, t: Thread, env: Env)
    requires Files(s) && Life(s) && s.thr == Some(t) && DataNext(s, t, env).Some?
    requires t.at != Refused && t.at != Report
    ensures var s' := DataNext(s, t, env).value;
      s'.sent == s.sent && s'.pc == s.pc && s'.lines == s.lines && Pending(s') + Drops(s, DataStep(env)) == Pending(s)
  {
    if t.at in {Close, Forget, Poll} {
      PendingLate(s, t, env);
    } else if t.at == Settle || t.at == Ended {
    } else {
      match t.at {
        case Enter => case Waiting => case Woken => case Connect =>
        case Accept => case Take => case Probe => case Block =>
      }
    }
  }

  lemma PendingLate(s: Sys, t: Thread, env: Env)
    requires Files(s) && Life(s) && s.thr == Some(t) && DataNext(s, t, env).Some?
    requires t.at in {Close, Forget, Poll}
    ensures var s' := DataNext(s, t, env).value;
      s'.sent == s.sent && s'.pc == s.pc && s'.lines == s.lines && Pending(s') + Drops(s, DataStep(env)) == Pending(s)
  {
    match t.at { case Poll => case Close => case Forget => }
  }

  lemma TallyData(s: Sys, t: Thread, env: Env, n: nat)
    requires Tally(s, n) && Files(s) && Life(s) && s.thr == Some(t) && DataNext(s, t, env).Some?
    ensures true == Tally(DataNext(s, t, env).value, n + Drops(s, DataStep(env)))
  {
    if t.at == Refused {
      TallyTell(s, t, Close, 425, n);
    } else if t.at == Report {
      TallyReport(s, t, n);
    } else {
      PendingData(s, t, env);
      TallyMoved(s, DataNext(s, t, env).value, n, n + Drops(s, DataStep(env)));
    }
  }

  /** A terminal reply uses up the transfer the thread was due to report. */
  lemma TallyTell(s: Sys, t: Thread, at: Place, code: nat, n: nat)
    requires Tally(s, n) && s.thr == Some(t) && Due(t) && !Due(t.(at := at))
    ensures true == Tally(Tell(MoveTo(s, t, at), true, code), n)
  {
    TellCounts(s.sent, Sent(true, code));
  }

  lemma TallyReport(s: Sys, t: Thread, n: nat)
    requires Tally(s, n) && Life(s) && s.thr == Some(t) && t.at == Report
    ensures true == Tally(ReportStep(s, t), n)
  {
    if t.st == 1 {
      TallyTell(s, t, Ended, 226, n);
    } else if t.st == 2 {
      TallyTell(s, t, Ended, 451, n);
    } else {
      TallySilent(s, MoveTo(s, t, Ended), n);
    }
  }

  // ---- The session ----

  /** A step that sends nothing; a transfer that is no longer pending was dropped. */
  lemma TallyMoved(s: Sys, s': Sys, n: nat, n': nat)
    requires Tally(s, n) && s'.sent == s.sent && Announced(s'.pc)
    requires Owes(s'.pc) + s.lines == Owes(s.pc) + s'.lines
    requires Pending(s') + n' == Pending(s) + n
    ensures true == Tally(s', n')
  {
  }

  /** A step that sends nothing and keeps the pending transfers. */
  lemma TallySilent(s: Sys, s': Sys, n: nat)
    requires Tally(s, n) && s'.sent == s.sent && Announced(s'.pc)
    requires Owes(s'.pc) + s.lines == Owes(s.pc) + s'.lines
    requires Pending(s') == Pending(s)
    ensures true == Tally(s', n)
  {
  }

  lemma TallyGreet(s: Sys, n: nat)
    requires Tally(s, n) && s.pc == Greet
    ensures true == Tally(Goto(Tell(s, false, 220), Read), n)
  {
    TellCounts(s.sent, Sent(false, 220));
  }

  lemma TallyBye(s: Sys, n: nat)
    requires Tally(s, n) && s.pc == Bye
    ensures true == Tally(Goto(Tell(s, false, 221), CtRead(ForClose)), n)
  {
    TellCounts(s.sent, Sent(false, 221));
  }

  lemma TallySay(s: Sys, code: nat, after: After, n: nat)
    requires Tally(s, n) && s.pc == Say(code, after)
    ensures true == Tally(SayStep(s, code, after), n)
  {
    TellCounts(s.sent, Sent(false, code));
  }

  lemma TallySignal(s: Sys, f: nat, n: nat)
    requires Tally(s, n) && Life(s) && Files(s) && s.pc == Signal(f)
    ensures true == Tally(SignalStep(s, f), n)
  {
  }

  lemma TallyRead(s: Sys, input: Input, n: nat)
    requires Tally(s, n) && s.pc == Read
    ensures true == Tally(ReadStep(s, input), n)
  {
    match input {
      case Closed => case TooLong => case Malformed =>
      case Command(verb, arg) => TallyDispatch(s, VerbOf(verb), arg, n);
    }
  }

  lemma TallyDispatch(s: Sys, v: Verb, arg: string, n: nat)
    requires Tally(s, n) && s.pc == Read
    ensures true == Tally(Dispatch(s, v, arg), n)
  {
  }

  lemma TallyXfer(s: Sys, v: Verb, arg: string, n: nat)
    requires Tally(s, n) && s.pc == Xfer(v, arg)
    ensures true == Tally(XferStep(s, v, arg), n)
  {
  }

  lemma TallyAuth(s: Sys, v: Verb, arg: string, n: nat)
    requires Tally(s, n) && s.pc == Auth(v, arg)
    ensures true == Tally(AuthStep(s, v, arg), n)
  {
    if !s.state.LoggedIn() {
      TallyGoto(s, Say(530, ToRead), n);
    } else if v == PORT {
      TallyGoto(s, CtRead(ForPort(arg)), n);
    } else if v == PASV {
      TallyGoto(s, CtRead(ForPasv), n);
    } else if IsTransfer(v) {
      TallyGoto(s, Data(v, arg), n);
    } else {
      TallyGoto(s, Exec(v, arg), n);
    }
  }

  lemma TallyGoto(s: Sys, pc: Pc, n: nat)
    requires Tally(s, n) && Owes(pc) == Owes(s.pc) && !s.pc.Signal? && !pc.Signal? && Announced(pc)
    ensures true == Tally(Goto(s, pc), n)
  {
  }

  lemma TallyHandled(s: Sys, v: Verb, o: Outcome, n: nat)
    requires Tally(s, n) && s.pc.Exec? && (o.file.Some? <==> o.code == 150)
    ensures true == Tally(AfterHandler(s, v, o), n)
  {
    TallySilent(s, AfterHandler(s, v, o), n);
  }

  lemma TallyLogin(s: Sys, state: State, l: Local, code: nat, n: nat)
    requires Tally(s, n) && s.pc.Exec? && code != 150
    ensures true == Tally(Goto(s.(state := state, local := l), Say(code, ToRead)), n)
  {
  }

  lemma TallyExec(s: Sys, v: Verb, arg: string, env: Env, n: nat)
    requires Tally(s, n) && Inv(s) && s.pc == Exec(v, arg)
    ensures true == Tally(ExecStep(s, v, arg, env), n)
  {
    if v == USER {
      var (st, l, code) := HandleUser(s.state, s.local, arg);
      TallyLogin(s, st, l, code, n);
    } else if v == PASS {
      var (st, l, code) := HandlePass(s.state, s.local, arg);
      TallyLogin(s, st, l, code, n);
    } else {
      HandleKeepsPaths(v, s.local, arg, env.yes, env.yes2);
      TallyHandled(s, v, Handle(v, s.local, arg, env.yes, env.yes2), n);
    }
  }

  lemma TallyCtRead(s: Sys, why: Why, n: nat)
    requires Tally(s, n) && s.pc == CtRead(why)
    ensures true == Tally(if s.running then Goto(s, CtClear(why)) else Return(s, why), n)
  {
    TallyReturn(s, why, n);
  }

  lemma TallyCtClear(s: Sys, why: Why, n: nat)
    requires Tally(s, n) && s.pc == CtClear(why)
    ensures true == Tally(Goto(s.(running := false), CtJoin(why)), n)
  {
  }

  /** Closing the threads owes as many replies as what follows. */
  lemma TallyReturn(s: Sys, why: Why, n: nat)
    requires Tally(s, n) && (s.pc == CtRead(why) || s.pc == CtReset(why))
    ensures true == Tally(Return(s, why), n) && true == Tally(Return(s.(state := READY), why), n)
  {
    match why {
      case ForQuit => case ForPort(_) => case ForPasv => case ForAbor => case ForClose =>
    }
  }

  lemma TallyJoin(s: Sys, why: Why, n: nat)
    requires Tally(s, n) && Files(s) && s.pc == CtJoin(why) && JoinStep(s, why).Some?
    ensures true == Tally(JoinStep(s, why).value, n)
  {
    if s.thr.None? {
      TallySilent(s, Goto(s.(badJoin := true), CtReset(why)), n);
    } else {
      TallySilent(s, Goto(s.(thr := None, joined := s.joined + 1), CtReset(why)), n);
    }
  }

  lemma TallyChecks(s: Sys, env: Env, n: nat)
    requires Tally(s, n) && (s.pc.Abor? || s.pc.Data?)
    ensures SessionNext(s, env).Some? && true == Tally(SessionNext(s, env).value, n)
  {
    TallySilent(s, SessionNext(s, env).value, n);
  }

  lemma TallyPort(s: Sys, env: Env, n: nat)
    requires Tally(s, n) && Life(s) && (s.pc.PortScan? || s.pc.PortRun? || s.pc.PortCreate? || s.pc.PortState?)
    ensures SessionNext(s, env).Some? && true == Tally(SessionNext(s, env).value, n)
  {
    TallySilent(s, SessionNext(s, env).value, n);
  }

  lemma TallyPasv(s: Sys, env: Env, n: nat)
    requires Tally(s, n) && Life(s) && (s.pc.PasvOpen? || s.pc.PasvState? || s.pc.PasvRun? || s.pc.PasvCreate?)
    ensures SessionNext(s, env).Some? && true == Tally(SessionNext(s, env).value, n)
  {
    TallySilent(s, SessionNext(s, env).value, n);
  }

  lemma TallySession(s: Sys, env: Env, n: nat)
    requires Tally(s, n) && Inv(s) && Files(s) && SessionNext(s, env).Some?
    ensures true == Tally(SessionNext(s, env).value, n)
  {
    match s.pc {
      case Greet => TallyGreet(s, n);
      case Read => TallyRead(s, env.input, n);
      case Xfer(v, arg) => TallyXfer(s, v, arg, n);
      case Auth(v, arg) => TallyAuth(s, v, arg, n);
      case Exec(v, arg) => TallyExec(s, v, arg, env, n);
      case Say(code, after) => TallySay(s, code, after, n);
      case Signal(f) => TallySignal(s, f, n);
      case Bye => TallyBye(s, n);
      case Freed =>
      case Data(_, _) => TallyChecks(s, env, n);
      case Abor => TallyChecks(s, env, n);
      case CtRead(why) => TallyCtRead(s, why, n);
      case CtClear(why) => TallyCtClear(s, why, n);
      case CtJoin(why) => TallyJoin(s, why, n);
      case CtReset(why) => TallyReturn(s, why, n);
      case PortScan(_) => TallyPort(s, env, n);
      case PortRun => TallyPort(s, env, n);
      case PortCreate => TallyPort(s, env, n);
      case PortState => TallyPort(s, env, n);
      case _ => TallyPasv(s, env, n);
    }
  }

  lemma {:induction false} TallyRun(evs: seq<Event>)
    requires Run(evs).Some?
    ensures true == Tally(Run(evs).value, Dropped(evs))
  {
    if evs != [] {
      var before := evs[..|evs| - 1];
      TallyRun(before);
      RunKeeps(before);
      FilesRun(before);
      var s := Run(before).value;
      match evs[|evs| - 1] {
        case SessionStep(env) => TallySession(s, env, Dropped(before));
        case DataStep(env) => TallyData(s, s.thr.value, env, Dropped(before));
      }
    }
  }

  /** Reply accounting over every finished run and interleaving: the welcome and the goodbye, one
      reply for every command line other than QUIT, and the terminal replies of data threads. Every
      transfer accepted with 150 gets one terminal reply, except those still pending and those
      dropped, so the terminal replies are never more than the accepted transfers. What is pending
      when the session is over is at most one file stuck in dat_fp. */
  lemma ReplyAccounting(evs: seq<Event>)
    requires Run(evs).Some?
    ensures var s := Run(evs).value;
      && Accepts(s.sent) == ByData(s.sent) + Pending(s) + Dropped(evs)
      && ByData(s.sent) <= Accepts(s.sent)
      && (s.pc == Freed ==> |s.sent| == 2 + s.lines + ByData(s.sent))
      && (s.pc == Freed ==> Pending(s) == if s.datFp.Some? then 1 else 0)
      && (s.pc == Read ==> |s.sent| == 1 + s.lines + ByData(s.sent))
  {
    TallyRun(evs);
    RunLife(evs);
  }

  /** The session is joining its data thread to end the session, or for ABOR. */
  predicate Stopping(pc: Pc) { pc == CtJoin(ForQuit) || pc == CtJoin(ForAbor) || pc == CtJoin(ForClose) }

  lemma DropsStopped(s: Sys, e: Event)
    requires Life(s) && Files(s)
    ensures Drops(s, e) > 0 ==> s.pc.CtJoin? && s.datFp.Some?
  {
  }

  lemma JoinCommitted(s: Sys)
    requires Life(s) && s.pc.CtJoin? && s.datFp.Some?
    ensures true == Stopping(s.pc)
  {
  }

  /** In every interleaving an accepted transfer is dropped only while QUIT, ABOR or the end of the
      session waits for the data thread; PORT and PASV never cost a transfer. */
  lemma DropsWhenStopping(evs: seq<Event>, e: Event)
    requires Run(evs).Some? && Next(Run(evs).value, e).Some?
    ensures Drops(Run(evs).value, e) > 0 ==> Stopping(Run(evs).value.pc)
  {
    RunLife(evs);
    FilesRun(evs);
    var s := Run(evs).value;
    DropsStopped(s, e);
    if Drops(s, e) > 0 { JoinCommitted(s); }
  }
}
