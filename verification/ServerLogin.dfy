/** What every interleaving keeps about the login, the session's paths and the file store. */
module ServerLogin {
  import opened Text
  import opened Requests
  import opened Session
  import opened Server
  import opened ServerLife

  /** Nothing guarded has happened yet. */
  predicate Untouched(s: Sys)
  {
    s.log == [] && s.files == 0 && s.created == 0 && s.armings == 0
    && s.local.wd == "/" && s.local.rnfr.None? && s.local.rest == 0
  }

  predicate Account(s: Sys)
  {
    && (s.state.LoggedIn() ==> GoodLogin(s.local))
    && (s.state == WAIT_PASS ==> Asked(s.local))
    && (!s.state.LoggedIn() ==> Untouched(s))
  }

  predicate Paths(s: Sys)
  {
    NormalLocal(s.local) && InsideOps(s.log) && Moves(s.log) + Armed(s.local) <= s.armings
  }

  /** Only the handler step changes the session's own fields and the store. */
  predicate SameSession(s: Sys, s': Sys)
  {
    s'.local == s.local && s'.log == s.log && s'.armings == s.armings && s'.files == s.files
  }

  lemma DataFrame(s: Sys, env: Env)
    requires s.thr.Some? && DataNext(s, s.thr.value, env).Some?
    ensures var s' := DataNext(s, s.thr.value, env).value;
      && s' == s.(thr := s'.thr, state := s'.state, datFp := s'.datFp, closed := s'.closed, sent := s'.sent)
      && (s'.state == s.state || s'.state == READY)
  {
    var t := s.thr.value;
    match t.at {
      case Enter => case Waiting => case Woken => case Connect => case Refused => case Poll =>
      case Accept => case Take => case Probe => case Block => case Close => case Forget =>
      case Settle => case Report => ReportFrame(s, t); case Ended =>
    }
  }

  lemma ReportFrame(s: Sys, t: Thread)
    ensures ReportStep(s, t) == s.(thr := Some(t.(at := Ended)), sent := ReportStep(s, t).sent)
  {
  }

  /** Which verbs get where in process_command. */
  predicate Verbs(pc: Pc)
  {
    match pc
    case Xfer(v, _) => v != QUIT && v != SYST && v != ABOR && v != OTHER
    case Auth(v, _) => NeedsAuth(v)
    case Data(v, _) => IsTransfer(v)
    case Exec(v, _) => v == USER || v == PASS || (NeedsAuth(v) && v != PORT && v != PASV)
    case _ => true
  }

  lemma VerbsGuards(s: Sys, env: Env)
    requires Verbs(s.pc) && (s.pc.Read? || s.pc.Xfer? || s.pc.Auth? || s.pc.Data? || s.pc.Exec?)
    ensures SessionNext(s, env).Some? && Verbs(SessionNext(s, env).value.pc) && !SessionNext(s, env).value.pc.Greet?
  {
    match s.pc {
      case Read => if env.input.Command? { VerbsDispatch(s, VerbOf(env.input.verb), env.input.arg); }
      case Xfer(v, arg) => VerbsXfer(s, v, arg);
      case Auth(v, arg) => VerbsAuth(s, v, arg);
      case Data(_, _) =>
      case Exec(v, arg) => ExecFrame(s, v, arg, env);
    }
  }

  predicate Guarding(pc: Pc) { pc.Xfer? || pc.Auth? || pc.Data? || pc.Exec? }

  lemma VerbsReplies(s: Sys, env: Env)
    requires s.pc.Greet? || s.pc.Say? || s.pc.Signal? || s.pc.Abor? || s.pc.Bye?
    ensures SessionNext(s, env).Some? && !Guarding(SessionNext(s, env).value.pc) && !SessionNext(s, env).value.pc.Greet?
  {
  }

  lemma VerbsClose(s: Sys, env: Env)
    requires s.pc.CtRead? || s.pc.CtClear? || s.pc.CtJoin? || s.pc.CtReset?
    requires SessionNext(s, env).Some?
    ensures !Guarding(SessionNext(s, env).value.pc) && !SessionNext(s, env).value.pc.Greet?
  {
  }

  lemma VerbsModes(s: Sys, env: Env)
    requires s.pc.PortScan? || s.pc.PortRun? || s.pc.PortCreate? || s.pc.PortState?
          || s.pc.PasvOpen? || s.pc.PasvState? || s.pc.PasvRun? || s.pc.PasvCreate?
    ensures SessionNext(s, env).Some? && !Guarding(SessionNext(s, env).value.pc) && !SessionNext(s, env).value.pc.Greet?
  {
  }

  lemma VerbsKept(s: Sys, env: Env)
    requires Verbs(s.pc) && SessionNext(s, env).Some?
    ensures Verbs(SessionNext(s, env).value.pc) && !SessionNext(s, env).value.pc.Greet?
  {
    if s.pc.Read? || Guarding(s.pc) {
      VerbsGuards(s, env);
    } else if s.pc.Greet? || s.pc.Say? || s.pc.Signal? || s.pc.Abor? || s.pc.Bye? {
      VerbsReplies(s, env);
    } else if s.pc.CtRead? || s.pc.CtClear? || s.pc.CtJoin? || s.pc.CtReset? {
      VerbsClose(s, env);
    } else if !s.pc.Freed? {
      VerbsModes(s, env);
    }
  }

  lemma VerbsDispatch(s: Sys, v: Verb, arg: string)
    ensures Verbs(Dispatch(s, v, arg).pc) && !Dispatch(s, v, arg).pc.Greet?
  {
  }

  lemma VerbsXfer(s: Sys, v: Verb, arg: string)
    requires Verbs(Xfer(v, arg))
    ensures Verbs(XferStep(s, v, arg).pc) && !XferStep(s, v, arg).pc.Greet?
  {
  }

  lemma VerbsAuth(s: Sys, v: Verb, arg: string)
    requires Verbs(Auth(v, arg))
    ensures Verbs(AuthStep(s, v, arg).pc) && !AuthStep(s, v, arg).pc.Greet?
  {
  }

  /** What the handlers' step leaves as it is. */
  predicate ExecFramed(s: Sys, s': Sys)
  {
    && s'.pc.Say? && s'.thr == s.thr && s'.datFp == s.datFp && s'.running == s.running && s'.created == s.created
    && s'.sent == s.sent && s'.lines == s.lines && s'.pc.after != ToBye
  }

  lemma AfterFramed(s: Sys, v: Verb, o: Outcome)
    ensures true == ExecFramed(s, AfterHandler(s, v, o))
  {
  }

  lemma ExecFrame(s: Sys, v: Verb, arg: string, env: Env)
    ensures true == ExecFramed(s, ExecStep(s, v, arg, env))
  {
    if v == USER {
    } else if v == PASS {
    } else {
      AfterFramed(s, v, Handle(v, s.local, arg, env.yes, env.yes2));
    }
  }

  /** Only greetings and replies send something. */
  lemma SilentSession(s: Sys, env: Env)
    requires !s.pc.Greet? && !s.pc.Say? && !s.pc.Bye? && SessionNext(s, env).Some?
    ensures SessionNext(s, env).value.sent == s.sent
  {
    match s.pc {
      case Read => ReadFrame(s, env.input);
      case Exec(v, arg) => ExecFrame(s, v, arg, env);
      case Xfer(_, _) => case Auth(_, _) => case Data(_, _) => case Signal(_) =>
      case Abor => case CtRead(_) => case CtClear(_) => case CtJoin(_) => case CtReset(_) => case PortScan(_) =>
      case PortRun => case PortCreate => case PortState => case PasvOpen => case PasvState => case PasvRun =>
      case PasvCreate => case Freed =>
    }
  }

  /** What a step of the session other than the handler leaves as it is. */
  predicate Framed(s: Sys, s': Sys)
  {
    && SameSession(s, s') && (s'.lines == s.lines || s.pc == Read)
    && (s'.created == s.created || s.pc == PortCreate || s.pc == PasvCreate)
    && (s'.state == s.state || s.pc.CtReset? || s.pc == PortState || s.pc == PasvState)
    && (s'.state == s.state || s'.state.LoggedIn())
  }

  lemma FrameGuards(s: Sys, env: Env)
    requires s.pc.Read? || s.pc.Xfer? || s.pc.Auth? || s.pc.Data?
    ensures SessionNext(s, env).Some? && Framed(s, SessionNext(s, env).value)
  {
    match s.pc {
      case Read => ReadFrame(s, env.input);
      case Xfer(_, _) => case Auth(_, _) => case Data(_, _) =>
    }
  }

  lemma FrameReplies(s: Sys, env: Env)
    requires s.pc.Greet? || s.pc.Say? || s.pc.Signal? || s.pc.Abor? || s.pc.Bye?
    ensures SessionNext(s, env).Some? && Framed(s, SessionNext(s, env).value)
  {
  }

  lemma FrameClose(s: Sys, env: Env)
    requires s.pc.CtRead? || s.pc.CtClear? || s.pc.CtJoin? || s.pc.CtReset?
    requires SessionNext(s, env).Some?
    ensures Framed(s, SessionNext(s, env).value)
  {
  }

  lemma FrameModes(s: Sys, env: Env)
    requires s.pc.PortScan? || s.pc.PortRun? || s.pc.PortCreate? || s.pc.PortState?
          || s.pc.PasvOpen? || s.pc.PasvState? || s.pc.PasvRun? || s.pc.PasvCreate?
    ensures SessionNext(s, env).Some? && Framed(s, SessionNext(s, env).value)
  {
  }

  lemma SessionFrame(s: Sys, env: Env)
    requires !s.pc.Exec? && SessionNext(s, env).Some?
    ensures Framed(s, SessionNext(s, env).value)
  {
    if s.pc.Read? || s.pc.Xfer? || s.pc.Auth? || s.pc.Data? {
      FrameGuards(s, env);
    } else if s.pc.Greet? || s.pc.Say? || s.pc.Signal? || s.pc.Abor? || s.pc.Bye? {
      FrameReplies(s, env);
    } else if s.pc.CtRead? || s.pc.CtClear? || s.pc.CtJoin? || s.pc.CtReset? {
      FrameClose(s, env);
    } else if !s.pc.Freed? {
      FrameModes(s, env);
    }
  }

  lemma LogAppend(log: seq<StoreOp>, ops: seq<StoreOp>)
    requires InsideOps(log) && InsideOps(ops)
    ensures InsideOps(log + ops) && Moves(log + ops) == Moves(log) + Moves(ops)
  {
    MovesAppend(log, ops);
  }

  lemma ExecUser(s: Sys, arg: string, env: Env)
    requires Life(s) && Account(s) && Paths(s) && s.pc == Exec(USER, arg)
    ensures var s' := ExecStep(s, USER, arg, env);
      && true == Account(s') && true == Paths(s') && true == Life(s')
      && (s.state.LoggedIn() ==> s'.state == s.state)
  {
    LoginSteps(s.state, s.local, arg);
    LifeUser(s, arg);
  }

  lemma ExecPass(s: Sys, arg: string, env: Env)
    requires Life(s) && Account(s) && Paths(s) && s.pc == Exec(PASS, arg)
    ensures var s' := ExecStep(s, PASS, arg, env);
      && true == Account(s') && true == Paths(s') && true == Life(s')
      && (s.state.LoggedIn() ==> s'.state == s.state)
  {
    LoginSteps(s.state, s.local, arg);
    LifePass(s, arg);
  }

  lemma ExecHandle(s: Sys, v: Verb, arg: string, env: Env)
    requires Life(s) && Account(s) && Paths(s) && s.pc == Exec(v, arg) && NeedsAuth(v)
    ensures var s' := AfterHandler(s, v, Handle(v, s.local, arg, env.yes, env.yes2));
      Account(s') && Paths(s') && s'.state == s.state && Life(s')
  {
    HandleKeepsPaths(v, s.local, arg, env.yes, env.yes2);
    HandleMoves(v, s.local, arg, env.yes, env.yes2);
    HandlerCodes(v, s.local, arg, env.yes, env.yes2);
    LogAppend(s.log, Handle(v, s.local, arg, env.yes, env.yes2).ops);
    OutcomeKeeps(s, v, arg, Handle(v, s.local, arg, env.yes, env.yes2));
  }

  lemma ExecKeeps(s: Sys, v: Verb, arg: string, env: Env)
    requires Life(s) && Account(s) && Paths(s) && s.pc == Exec(v, arg) && Verbs(s.pc)
    ensures var s' := ExecStep(s, v, arg, env);
      && true == Account(s') && true == Paths(s') && true == Life(s')
      && (s.state.LoggedIn() ==> s'.state == s.state)
  {
    if v == USER {
      ExecUser(s, arg, env);
    } else if v == PASS {
      ExecPass(s, arg, env);
    } else {
      ExecHandle(s, v, arg, env);
    }
  }

  lemma OutcomeKeeps(s: Sys, v: Verb, arg: string, o: Outcome)
    requires Life(s) && s.pc == Exec(v, arg) && NeedsAuth(v)
    requires Account(s) && Paths(s) && Kept(v, s.local, o) && o.code != 421 && o.code != 226
    requires InsideOps(s.log + o.ops) && Moves(s.log + o.ops) == Moves(s.log) + Moves(o.ops)
    requires Moves(o.ops) + Armed(o.local) <= Armed(s.local) + (if v == RNFR && o.code == 250 then 1 else 0)
    ensures var s' := AfterHandler(s, v, o);
      Account(s') && Paths(s') && s'.state == s.state && Life(s')
  {
    var t := s.(local := o.local, log := s.log + o.ops,
                armings := s.armings + if v == RNFR && o.code == 250 then 1 else 0);
    HandledKeeps(s, v, arg, o);
    LifeHandle(s, v, arg, t, o.code);
  }

  lemma HandledKeeps(s: Sys, v: Verb, arg: string, o: Outcome)
    requires Account(s) && Paths(s) && s.state.LoggedIn() && Kept(v, s.local, o)
    requires InsideOps(s.log + o.ops) && Moves(s.log + o.ops) == Moves(s.log) + Moves(o.ops)
    requires Moves(o.ops) + Armed(o.local) <= Armed(s.local) + (if v == RNFR && o.code == 250 then 1 else 0)
    ensures var t := s.(local := o.local, log := s.log + o.ops,
                        armings := s.armings + if v == RNFR && o.code == 250 then 1 else 0);
      Account(t) && Paths(t)
  {
  }

  lemma HandlerCodes(v: Verb, l: Local, arg: string, ok1: bool, ok2: bool)
    ensures var c := Handle(v, l, arg, ok1, ok2).code;
      c == 257 || c == 550 || c == 150 || c == 501 || c == 350 || c == 503 || c == 250 || c == 202
  {
  }

  // ---- The methods of class Client are runs of these steps ----

  /** The record as class Client has it. */
  function View(s: Sys): Snapshot { Snapshot(s.state, s.datFp.Some?, s.local, s.log) }

  /** Through the guards of a command, with nothing of the data thread in between. */
  function PastGuards(s: Sys, v: Verb, arg: string): Sys
  {
    var a := XferStep(s, v, arg);
    var b := if a.pc.Auth? then AuthStep(a, v, arg) else a;
    if b.pc.Data? then Goto(b, if b.state.HasData() then Exec(v, arg) else Say(425, ToRead)) else b
  }

  /** Verbs that class Client has a method for. */
  predicate HasMethod(v: Verb) { v == USER || v == PASS || (NeedsAuth(v) && v != PORT && v != PASV) }

  /** The record, the reply and the opened file of a step are those given. */
  predicate Gives(u: Sys, snapshot: Snapshot, code: nat, file: Option<Opened>)
  {
    u.pc.Say? && View(u) == snapshot && u.pc.code == code && (u.pc.after.ToSignal? <==> file.Some?)
  }

  lemma HandledGives(s: Sys, v: Verb, o: Outcome)
    ensures true == Gives(AfterHandler(s, v, o), View(s).(local := o.local, log := s.log + o.ops), o.code, o.file)
  {
  }

  lemma ExecIsServed(s: Sys, v: Verb, arg: string, env: Env)
    requires s.pc == Exec(v, arg) && HasMethod(v) && Guard(View(s), v).None?
    ensures var (snapshot, code, file) := Served(View(s), v, arg, env.yes, env.yes2);
      true == Gives(ExecStep(s, v, arg, env), snapshot, code, file)
  {
    if v == USER {
    } else if v == PASS {
    } else {
      HandledGives(s, v, Handle(v, s.local, arg, env.yes, env.yes2));
    }
  }

  lemma GuardsAgree(s: Sys, v: Verb, arg: string)
    requires s.pc == Xfer(v, arg) && HasMethod(v)
    ensures PastGuards(s, v, arg) ==
      Goto(s, if Guard(View(s), v).Some? then Say(Guard(View(s), v).value, ToRead) else Exec(v, arg))
  {
  }

  /** Undisturbed, the steps of a command do to the record, the store and the reply what the method
      of class Client does. */
  lemma StepsAreServed(s: Sys, v: Verb, arg: string, env: Env)
    requires s.pc == Xfer(v, arg) && HasMethod(v)
    ensures var t := PastGuards(s, v, arg);
      var u := if t.pc.Exec? then ExecStep(t, v, arg, env) else t;
      var (snapshot, code, file) := Served(View(s), v, arg, env.yes, env.yes2);
      true == Gives(u, snapshot, code, file)
  {
    GuardsAgree(s, v, arg);
    if Guard(View(s), v).None? { ExecIsServed(Goto(s, Exec(v, arg)), v, arg, env); }
  }
}
