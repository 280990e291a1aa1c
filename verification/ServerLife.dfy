/** What every interleaving keeps about the life of the data threads, the state and the login.

    Here and in the other modules about steps, a lemma that concludes `true == P(s)` gives its caller
    P(s) as one fact. Dafny unfolds a predicate wherever it stands as a conclusion or hypothesis of
    its own, and an invariant of twenty clauses unfolded at every step of every run is what makes such
    proofs slow; as an operand of == it stays folded. It says the same as P(s). */
module ServerLife {
  import opened Text
  import opened Requests
  import opened Session
  import opened Server

  /** The record still belongs to client_close, after a thread could not be created. */
  predicate Closing(pc: Pc)
  {
    pc == Say(421, ToBye) || pc == Bye || pc == CtRead(ForClose) || pc == CtClear(ForClose)
    || pc == CtJoin(ForClose) || pc == CtReset(ForClose) || pc == Freed
  }

  /** A reply before the goodbye. */
  predicate Ending(pc: Pc) { pc.Say? && pc.after == ToBye }

  /** PORT or PASV before thr_dat_running is set. */
  predicate Opening(pc: Pc)
  {
    pc.PortScan? || pc.PortRun? || pc.PasvOpen? || pc.PasvState? || pc.PasvRun?
  }

  /** thr_dat_running says whether there is a created, unjoined data thread, except where the
      session is between the two. */
  predicate RunningAgrees(s: Sys)
  {
    if s.createFailed then
      && s.thr.None? && Closing(s.pc)
      && (s.running <==> !(s.pc.CtJoin? || s.pc.CtReset? || s.pc.Freed?))
      && (s.badJoin <==> s.pc.CtReset? || s.pc.Freed?)
    else
      && !s.badJoin
      && match s.pc
         case CtClear(_) => s.running && s.thr.Some?
         case CtJoin(_) => !s.running && s.thr.Some?
         case CtReset(_) => !s.running && s.thr.None?
         case PortCreate => s.running && s.thr.None?
         case PasvCreate => s.running && s.thr.None?
         case Freed => !s.running && s.thr.None?
         case _ =>
           (s.running <==> s.thr.Some?) && (Opening(s.pc) || s.pc == Say(226, ToRead) || Ending(s.pc) ==> s.thr.None?)
  }

  /** Places a data thread can be in while it has no file and may go on. */
  predicate Fresh(at: Place)
  {
    at == Enter || at == Waiting || at == Poll || at == Accept || at == Take || at == Probe
  }

  predicate Past(at: Place) { at == Report || at == Ended }

  /** PORT and PASV modes come with a data thread that has not settled the state, and conversely. */
  predicate StateAgrees(s: Sys)
  {
    && (s.state.HasData() && !s.createFailed ==> s.thr.Some? || s.pc == PasvRun || s.pc == PasvCreate)
    && (s.thr.Some? && !Past(s.thr.value.at) ==> s.state.HasData() || s.pc == PortState)
    && (s.thr.Some? && Past(s.thr.value.at) ==> s.state == READY)
    && (s.pc.CtReset? && !s.createFailed ==> s.state == READY)
    && (s.pc == PasvRun || s.pc == PasvCreate ==> s.state == PASV_MODE)
    && (s.pc == PortState ==> s.thr.Some? && s.thr.value.mode == Active && s.thr.value.fp.None?
                              && (s.thr.value.at == Enter || s.thr.value.at == Waiting) && s.datFp.None?)
    && (s.thr.Some? || PastAuth(s.pc) || s.createFailed ==> s.state.LoggedIn())
  }

  /** The session is behind auth, or will never serve a command again. */
  predicate PastAuth(pc: Pc)
  {
    match pc
    case Data(_, _) => true
    case Exec(v, _) => NeedsAuth(v)
    case Say(_, after) => after.ToSignal?
    case Signal(_) => true
    case CtRead(why) => why.ForPort? || why.ForPasv?
    case CtClear(_) => true
    case CtJoin(_) => true
    case CtReset(_) => true
    case PortScan(_) => true
    case PortRun => true
    case PortCreate => true
    case PortState => true
    case PasvOpen => true
    case PasvState => true
    case PasvRun => true
    case PasvCreate => true
    case _ => false
  }

  predicate Counted(s: Sys)
  {
    s.created == s.joined + (if s.thr.Some? then 1 else 0)
  }

  predicate ThreadWell(s: Sys)
  {
    s.thr.Some? ==>
      var t := s.thr.value;
      && (t.mode == Active ==> !(t.at == Accept || t.at == Take || t.at == Probe))
      && (t.mode == Passive ==>
            !(t.at == Enter || t.at == Waiting || t.at == Woken || t.at == Connect || t.at == Refused))
      && (t.at == Woken ==> s.datFp.Some? && t.fp.None?)
      && (t.mode == Active && (t.at == Connect || t.at == Refused || t.at == Poll || t.at == Block || t.at == Close)
          ==> t.fp.Some?)
      && (t.at == Block ==> t.fp.Some?)
      && (t.at == Enter || t.at == Waiting || t.at == Take || t.at == Probe ==> t.fp.None?)
      && (t.at == Accept ==> !t.connected)
      && (t.at == Take || t.at == Probe ==> t.connected)
      && (!t.connected && t.mode == Passive ==> t.fp.None?)
      && (s.running && t.fp.None? ==> Fresh(t.at) || t.at == Woken)
      && t.st <= 2
      && (t.st != 0 ==>
            t.fp.Some? && (t.at == Close || t.at == Forget || t.at == Settle || t.at == Report || t.at == Ended))
  }

  /** From the check in ignore_if_xfer to the end of the handler. */
  predicate Committed(pc: Pc)
  {
    match pc
    case Auth(_, _) => true
    case Data(_, _) => true
    case Exec(_, _) => true
    case Say(_, after) => after.ToSignal?
    case Signal(_) => true
    case CtRead(why) => why.ForPort? || why.ForPasv?
    case CtClear(why) => why.ForPort? || why.ForPasv?
    case CtJoin(why) => why.ForPort? || why.ForPasv?
    case CtReset(why) => why.ForPort? || why.ForPasv?
    case _ => Opening(pc) || pc.PortCreate? || pc.PasvCreate? || pc.PortState?
  }

  predicate Life(s: Sys)
  {
    && RunningAgrees(s) && StateAgrees(s) && Counted(s) && ThreadWell(s)
    && (Committed(s.pc) ==> s.datFp.None?)
  }

  lemma LifeInit()
    ensures Life(INIT)
  {
  }

  lemma LifeWaiting(s: Sys, t: Thread)
    requires Life(s) && s.thr == Some(t) && t.at == Enter
    ensures Life(MoveTo(s, t, Waiting))
  {
  }

  lemma LifeWoken(s: Sys, t: Thread)
    requires Life(s) && s.thr == Some(t) && t.at == Woken
    ensures Life(MoveTo(s, t.(fp := s.datFp), Connect))
  {
  }

  lemma LifeConnect(s: Sys, t: Thread, ok: bool)
    requires Life(s) && s.thr == Some(t) && t.at == Connect
    ensures Life(if ok then MoveTo(s, t.(connected := true), Poll) else MoveTo(s, t, Refused))
  {
  }

  lemma LifeRefused(s: Sys, t: Thread)
    requires Life(s) && s.thr == Some(t) && t.at == Refused
    ensures Life(Tell(MoveTo(s, t, Close), true, 425))
  {
  }

  lemma LifePoll(s: Sys, t: Thread)
    requires Life(s) && s.thr == Some(t) && t.at == Poll
    ensures Life(MoveTo(s, t, PollPlace(s, t)))
  {
  }

  lemma LifeAccept(s: Sys, t: Thread)
    requires Life(s) && s.thr == Some(t) && t.at == Accept
    ensures Life(MoveTo(s, t, Poll)) && Life(MoveTo(s, t.(connected := true), if t.fp.None? then Take else Block))
  {
  }

  lemma LifeTake(s: Sys, t: Thread)
    requires Life(s) && s.thr == Some(t) && t.at == Take
    ensures Life(MoveTo(s, t.(fp := s.datFp), if s.datFp.Some? then Block else Probe))
  {
  }

  lemma LifeProbe(s: Sys, t: Thread, gone: bool)
    requires Life(s) && s.thr == Some(t) && t.at == Probe
    ensures Life(MoveTo(s, t.(connected := !gone), Poll))
  {
  }

  lemma LifeBlock(s: Sys, t: Thread, st: nat)
    requires Life(s) && s.thr == Some(t) && t.at == Block && st <= 2
    ensures Life(MoveTo(s, t.(st := st), if st == 0 then Poll else Close))
  {
  }

  lemma LifeClosing(s: Sys, t: Thread)
    requires Life(s) && s.thr == Some(t) && t.at == Close
    ensures Life(MoveTo(if t.fp.Some? then s.(closed := s.closed + [t.fp.value]) else s, t, Forget))
  {
  }

  lemma LifeForget(s: Sys, t: Thread)
    requires Life(s) && s.thr == Some(t) && t.at == Forget
    ensures Life(MoveTo(s.(datFp := None), t, Settle))
  {
  }

  lemma LifeSettle(s: Sys, t: Thread)
    requires Life(s) && s.thr == Some(t) && t.at == Settle
    ensures Life(MoveTo(s.(state := READY), t, Report))
  {
  }

  lemma LifeReport(s: Sys, t: Thread)
    requires Life(s) && s.thr == Some(t) && t.at == Report
    ensures Life(ReportStep(s, t))
  {
    LifeReported(s, t, ReportStep(s, t).sent);
  }

  lemma LifeReported(s: Sys, t: Thread, sent: seq<Sent>)
    requires Life(s) && s.thr == Some(t) && t.at == Report
    ensures Life(MoveTo(s.(sent := sent), t, Ended))
  {
  }

  lemma LifeData(s: Sys, env: Env)
    requires Life(s) && s.thr.Some? && DataNext(s, s.thr.value, env).Some?
    ensures Life(DataNext(s, s.thr.value, env).value)
  {
    var t := s.thr.value;
    match t.at {
      case Enter => LifeWaiting(s, t);
      case Waiting =>
      case Woken => LifeWoken(s, t);
      case Connect => LifeConnect(s, t, env.yes);
      case Refused => LifeRefused(s, t);
      case Poll => LifePoll(s, t);
      case Accept => LifeAccept(s, t);
      case Take => LifeTake(s, t);
      case Probe => LifeProbe(s, t, env.yes);
      case Block => LifeBlock(s, t, env.st);
      case Close => LifeClosing(s, t);
      case Forget => LifeForget(s, t);
      case Settle => LifeSettle(s, t);
      case Report => LifeReport(s, t);
      case Ended =>
    }
  }

  lemma LifeGreet(s: Sys)
    requires Life(s) && s.pc == Greet
    ensures Life(Goto(Tell(s, false, 220), Read))
  {
  }

  lemma LifeDispatch(s: Sys, v: Verb, arg: string)
    requires Life(s) && s.pc == Read
    ensures true == Life(Dispatch(s, v, arg))
  {
    DispatchFrame(s, v, arg);
    LifeDispatched(s, Dispatch(s, v, arg).pc, Dispatch(s, v, arg).lines, v, arg);
  }

  lemma LifeDispatched(s: Sys, pc: Pc, lines: nat, v: Verb, arg: string)
    requires Life(s) && s.pc == Read
    requires pc in {CtRead(ForQuit), Say(215, ToRead), Say(202, ToRead), Abor, Xfer(v, arg)}
    ensures Life(s.(pc := pc, lines := lines))
  {
  }

  lemma LifeRead(s: Sys, input: Input)
    requires Life(s) && s.pc == Read
    ensures Life(ReadStep(s, input))
  {
    match input {
      case Closed =>
      case TooLong =>
      case Malformed =>
      case Command(verb, arg) => LifeDispatch(s, VerbOf(verb), arg);
    }
  }

  lemma LifeXfer(s: Sys, v: Verb, arg: string)
    requires Life(s) && s.pc == Xfer(v, arg)
    ensures Life(XferStep(s, v, arg))
  {
  }

  lemma LifeAuth(s: Sys, v: Verb, arg: string)
    requires Life(s) && s.pc == Auth(v, arg)
    ensures true == Life(AuthStep(s, v, arg))
  {
    if !s.state.LoggedIn() {
      LifeGoto(s, Say(530, ToRead), v, arg);
    } else if v == PORT {
      LifeGoto(s, CtRead(ForPort(arg)), v, arg);
    } else if v == PASV {
      LifeGoto(s, CtRead(ForPasv), v, arg);
    } else if IsTransfer(v) {
      LifeGoto(s, Data(v, arg), v, arg);
    } else {
      LifeGoto(s, Exec(v, arg), v, arg);
    }
  }

  lemma LifeGoto(s: Sys, pc: Pc, v: Verb, arg: string)
    requires Life(s) && s.pc == Auth(v, arg) && (PastAuth(pc) ==> s.state.LoggedIn())
    requires pc in {Say(530, ToRead), CtRead(ForPort(arg)), CtRead(ForPasv), Data(v, arg), Exec(v, arg)}
    ensures Life(Goto(s, pc))
  {
  }

  lemma LifeMode(s: Sys, v: Verb, arg: string)
    requires Life(s) && s.pc == Data(v, arg)
    ensures Life(Goto(s, if s.state.HasData() then Exec(v, arg) else Say(425, ToRead)))
  {
  }

  lemma LifeUser(s: Sys, arg: string)
    requires Life(s) && s.pc == Exec(USER, arg)
    ensures var (st, l, code) := HandleUser(s.state, s.local, arg);
      Life(Goto(s.(state := st, local := l), Say(code, ToRead)))
  {
  }

  lemma LifePass(s: Sys, arg: string)
    requires Life(s) && s.pc == Exec(PASS, arg)
    ensures var (st, l, code) := HandlePass(s.state, s.local, arg);
      Life(Goto(s.(state := st, local := l), Say(code, ToRead)))
  {
  }

  lemma LifeHandle(s: Sys, v: Verb, arg: string, t: Sys, code: nat)
    requires Life(s) && s.pc == Exec(v, arg)
    requires t == s.(local := t.local, log := t.log, armings := t.armings)
    ensures code != 421 && code != 226 ==> Life(Goto(t, Say(code, ToRead)))
    ensures IsTransfer(v) ==> Life(Goto(t.(files := s.files + 1), Say(code, ToSignal(s.files))))
  {
  }

  lemma LifeSay(s: Sys, code: nat, after: After)
    requires Life(s) && s.pc == Say(code, after)
    ensures Life(SayStep(s, code, after))
  {
  }

  lemma LifeSignal(s: Sys, f: nat)
    requires Life(s) && s.pc == Signal(f)
    ensures Life(SignalStep(s, f))
  {
  }

  lemma LifeAbor(s: Sys)
    requires Life(s) && s.pc == Abor
    ensures Life(Goto(s, if s.datFp.Some? then CtRead(ForAbor) else Say(225, ToRead)))
  {
  }

  lemma LifeCtRead(s: Sys, why: Why)
    requires Life(s) && s.pc == CtRead(why)
    ensures Life(if s.running then Goto(s, CtClear(why)) else Return(s, why))
  {
  }

  lemma LifeCtClear(s: Sys, why: Why)
    requires Life(s) && s.pc == CtClear(why)
    ensures Life(Goto(s.(running := false), CtJoin(why)))
  {
  }

  lemma LifeCtJoin(s: Sys, why: Why)
    requires Life(s) && s.pc == CtJoin(why) && JoinStep(s, why).Some?
    ensures Life(JoinStep(s, why).value)
  {
    if s.thr.None? {
      LifeJoined(s, Goto(s.(badJoin := true), CtReset(why)), why);
    } else {
      LifeJoined(s, Goto(s.(thr := None, joined := s.joined + 1), CtReset(why)), why);
    }
  }

  lemma LifeJoined(s: Sys, s': Sys, why: Why)
    requires Life(s) && s.pc == CtJoin(why) && s'.pc == CtReset(why) && s'.thr.None?
    requires s' == s.(thr := None, pc := s'.pc, joined := s'.joined, badJoin := s'.badJoin)
    requires if s.thr.None? then s'.joined == s.joined && s'.badJoin
             else s.thr.value.at == Ended && s'.joined == s.joined + 1 && s'.badJoin == s.badJoin
    ensures true == Life(s')
  {
  }

  lemma LifeCtReset(s: Sys, why: Why)
    requires Life(s) && s.pc == CtReset(why)
    ensures Life(Return(s.(state := READY), why))
  {
  }

  lemma LifePortScan(s: Sys, ok: bool)
    requires Life(s) && s.pc.PortScan?
    ensures Life(Goto(s, if ok then PortRun else Say(501, ToRead)))
  {
  }

  lemma LifePortRun(s: Sys)
    requires Life(s) && s.pc.PortRun?
    ensures Life(Goto(s.(running := true), PortCreate))
  {
  }

  lemma LifePortState(s: Sys)
    requires Life(s) && s.pc.PortState?
    ensures Life(Goto(s.(state := PORT_MODE), Say(200, ToRead)))
  {
  }

  lemma LifePasvOpen(s: Sys, ok: bool)
    requires Life(s) && s.pc.PasvOpen?
    ensures Life(Goto(s, if ok then PasvState else Say(421, ToBye)))
  {
  }

  lemma LifePasvState(s: Sys)
    requires Life(s) && s.pc.PasvState?
    ensures Life(Goto(s.(state := PASV_MODE), PasvRun))
  {
  }

  lemma LifePasvRun(s: Sys)
    requires Life(s) && s.pc.PasvRun?
    ensures Life(Goto(s.(running := true), PasvCreate))
  {
  }

  lemma LifeCreateFails(s: Sys)
    requires Life(s) && (s.pc == PortCreate || s.pc == PasvCreate)
    ensures Life(Goto(s.(createFailed := true), Say(421, ToBye)))
  {
  }

  lemma LifePortCreate(s: Sys, ok: bool)
    requires Life(s) && s.pc == PortCreate
    ensures Life(CreateStep(s, ACTIVE, ok, PortState))
  {
    LifeCreateFails(s);
  }

  lemma LifePasvCreate(s: Sys, ok: bool)
    requires Life(s) && s.pc == PasvCreate
    ensures Life(CreateStep(s, PASSIVE, ok, Say(227, ToRead)))
  {
    LifeCreateFails(s);
  }

  lemma LifeBye(s: Sys)
    requires Life(s) && s.pc == Bye
    ensures Life(Goto(Tell(s, false, 221), CtRead(ForClose)))
  {
  }
}
