/** The session thread and its data thread as one transition system (server/client.c,
    server/client_cmds.c, server/client_xfer_thr.h). Each critical section, each unlocked access to
    the state and each reply is a step of its own; a run interleaves the two threads freely.

    Every reply is a single step; ServerChannel shows when that is so, and when it is not. */
module Server {
  import opened Text
  import opened Requests
  import opened Codecs
  import opened Session

  // ---- The data thread ----

  datatype Mode = Active | Passive

  /** Where a data thread is. */
  datatype Place =
    | Enter      // active: about to lock and wait for a file
    | Waiting    // active: inside pthread_cond_wait
    | Woken      // active: signalled, about to take the file
    | Connect    // active: about to connect
    | Refused    // active: about to send 425
    | Poll       // about to look whether it may go on
    | Accept     // passive, not connected: about to accept
    | Take       // passive, connected, no file: about to look for one
    | Probe      // passive, connected, no file: about to look for a disconnection
    | Block      // about to process a block
    | Close      // cleanup: about to close the file
    | Forget     // cleanup: about to set dat_fp to NULL
    | Settle     // cleanup: about to set the state to READY
    | Report     // cleanup: about to send 226 or 451
    | Ended

  datatype Thread = Thread(mode: Mode, at: Place, connected: bool, fp: Option<nat>, st: nat)

  // ---- The session thread ----

  /** Why client_close_threads was called. */
  datatype Why = ForQuit | ForPort(arg: string) | ForPasv | ForAbor | ForClose

  /** What follows a reply. */
  datatype After = ToRead | ToSignal(file: nat) | ToBye

  datatype Pc =
    | Greet                              // about to send 220
    | Read                               // about to read a command
    | Xfer(verb: Verb, arg: string)      // ignore_if_xfer
    | Auth(verb: Verb, arg: string)      // auth
    | Data(verb: Verb, arg: string)      // data
    | Exec(verb: Verb, arg: string)      // the handler behind its guards
    | Say(code: nat, after: After)       // mark
    | Signal(file: nat)                  // signal_file
    | Abor                               // ABOR: client_xfer_in_progress
    | CtRead(why: Why)                   // client_close_threads: read thr_dat_running
    | CtClear(why: Why)                  //   set it to false
    | CtJoin(why: Why)                   //   pthread_join
    | CtReset(why: Why)                  //   set the state to READY
    | PortScan(arg: string)              // PORT: scan the address
    | PortRun | PortCreate | PortState   //   set thr_dat_running, create the thread, set the state
    | PasvOpen                           // PASV: make the listening socket
    | PasvState | PasvRun | PasvCreate   //   set the state, set thr_dat_running, create the thread
    | Bye                                // about to send 221
    | Freed                              // client_close has freed the record

  /** A reply on the control connection: which thread sent it, and its code. */
  datatype Sent = Sent(byData: bool, code: nat)

  /** The shared record, the two threads, and what has been observed so far: replies in the order of
      the lock, command lines other than QUIT, files opened and closed, threads created and joined. */
  datatype Sys = Sys(
    state: State, running: bool, datFp: Option<nat>, local: Local, pc: Pc, thr: Option<Thread>,
    sent: seq<Sent>, lines: nat, log: seq<StoreOp>, armings: nat,
    files: nat, closed: seq<nat>,
    created: nat, joined: nat, createFailed: bool, badJoin: bool)

  const INIT := Sys(
    CONN, false, None, FRESH, Greet, None,
    [], 0, [], 0,
    0, [],
    0, 0, false, false)

  /** What the environment decides in a step: the command read, the answers of fallible calls, the
      result of process_block. */
  datatype Env = Env(input: Input, yes: bool, yes2: bool, st: nat)

  datatype Event = SessionStep(env: Env) | DataStep(env: Env)

  function Tell(s: Sys, byData: bool, code: nat): Sys { s.(sent := s.sent + [Sent(byData, code)]) }

  function Goto(s: Sys, pc: Pc): Sys { s.(pc := pc) }

  /** process_command, for a line that was read whole. */
  function Dispatch(s: Sys, v: Verb, arg: string): Sys
  {
    match v
    case QUIT => Goto(s, CtRead(ForQuit))
    case SYST => Goto(s.(lines := s.lines + 1), Say(215, ToRead))
    case ABOR => Goto(s.(lines := s.lines + 1), Abor)
    case OTHER => Goto(s.(lines := s.lines + 1), Say(202, ToRead))
    case _ => Goto(s.(lines := s.lines + 1), Xfer(v, arg))
  }

  function ReadStep(s: Sys, input: Input): Sys
  {
    match input
    case Closed => Goto(s, Bye)
    case TooLong => Goto(s.(lines := s.lines + 1), Say(500, ToRead))
    case Malformed => Goto(s.(lines := s.lines + 1), Say(500, ToRead))
    case Command(verb, arg) => Dispatch(s, VerbOf(verb), arg)
  }

  function TypeCode(arg: string): nat
  {
    if arg != "" && (ToUpper(arg[0]) == 'I' || ToUpper(arg[0]) == 'A') then 200 else 504
  }

  /** Behind ignore_if_xfer. */
  function XferStep(s: Sys, v: Verb, arg: string): Sys
  {
    if s.datFp.Some? then Goto(s, Say(503, ToRead))
    else if v == TYPE then Goto(s, Say(TypeCode(arg), ToRead))
    else if !NeedsAuth(v) then Goto(s, Exec(v, arg))
    else Goto(s, Auth(v, arg))
  }

  /** Behind auth. */
  function AuthStep(s: Sys, v: Verb, arg: string): Sys
  {
    if !s.state.LoggedIn() then Goto(s, Say(530, ToRead))
    else if v == PORT then Goto(s, CtRead(ForPort(arg)))
    else if v == PASV then Goto(s, CtRead(ForPasv))
    else if IsTransfer(v) then Goto(s, Data(v, arg))
    else Goto(s, Exec(v, arg))
  }

  /** The handler step for an outcome already known. */
  function AfterHandler(s: Sys, v: Verb, o: Outcome): Sys
  {
    var t := s.(local := o.local, log := s.log + o.ops,
                armings := s.armings + if v == RNFR && o.code == 250 then 1 else 0);
    if o.file.Some? then Goto(t.(files := s.files + 1), Say(o.code, ToSignal(s.files)))
    else Goto(t, Say(o.code, ToRead))
  }

  function ExecStep(s: Sys, v: Verb, arg: string, env: Env): Sys
  {
    if v == USER then
      var (st, l, code) := HandleUser(s.state, s.local, arg);
      Goto(s.(state := st, local := l), Say(code, ToRead))
    else if v == PASS then
      var (st, l, code) := HandlePass(s.state, s.local, arg);
      Goto(s.(state := st, local := l), Say(code, ToRead))
    else
      AfterHandler(s, v, Handle(v, s.local, arg, env.yes, env.yes2))
  }

  function SayStep(s: Sys, code: nat, after: After): Sys
  {
    Goto(Tell(s, false, code),
         match after
         case ToRead => Read
         case ToSignal(f) => Signal(f)
         case ToBye => Bye)
  }

  /** Store the file and signal: a thread that waits is woken, another misses the signal. */
  function SignalStep(s: Sys, f: nat): Sys
  {
    var wakes := s.thr.Some? && s.thr.value.at == Waiting;
    Goto(s.(datFp := Some(f), thr := if wakes then Some(s.thr.value.(at := Woken)) else s.thr), Read)
  }

  /** Where client_close_threads returns to. */
  function Return(s: Sys, why: Why): Sys
  {
    Goto(s, match why
            case ForQuit => Bye
            case ForPort(arg) => PortScan(arg)
            case ForPasv => PasvOpen
            case ForAbor => Say(226, ToRead)
            case ForClose => Freed)
  }

  /** pthread_join returns once the thread has ended; with no thread created it is undefined. */
  function JoinStep(s: Sys, why: Why): Option<Sys>
  {
    match s.thr
    case None => Some(Goto(s.(badJoin := true), CtReset(why)))
    case Some(t) =>
      if t.at == Ended then Some(Goto(s.(thr := None, joined := s.joined + 1), CtReset(why))) else None
  }

  function CreateStep(s: Sys, t: Thread, ok: bool, pc: Pc): Sys
  {
    if ok then Goto(s.(thr := Some(t), created := s.created + 1), pc)
    else Goto(s.(createFailed := true), Say(421, ToBye))
  }

  const ACTIVE := Thread(Active, Enter, false, None, 0)
  const PASSIVE := Thread(Passive, Poll, false, None, 0)

  function SessionNext(s: Sys, env: Env): Option<Sys>
  {
    match s.pc
    case Greet => Some(Goto(Tell(s, false, 220), Read))
    case Read => Some(ReadStep(s, env.input))
    case Xfer(v, arg) => Some(XferStep(s, v, arg))
    case Auth(v, arg) => Some(AuthStep(s, v, arg))
    case Data(v, arg) => Some(Goto(s, if s.state.HasData() then Exec(v, arg) else Say(425, ToRead)))
    case Exec(v, arg) => Some(ExecStep(s, v, arg, env))
    case Say(code, after) => Some(SayStep(s, code, after))
    case Signal(f) => Some(SignalStep(s, f))
    case Abor => Some(Goto(s, if s.datFp.Some? then CtRead(ForAbor) else Say(225, ToRead)))
    case CtRead(why) => Some(if s.running then Goto(s, CtClear(why)) else Return(s, why))
    case CtClear(why) => Some(Goto(s.(running := false), CtJoin(why)))
    case CtJoin(why) => JoinStep(s, why)
    case CtReset(why) => Some(Return(s.(state := READY), why))
    case PortScan(arg) => Some(Goto(s, if ScanAddress(arg).Some? then PortRun else Say(501, ToRead)))
    case PortRun => Some(Goto(s.(running := true), PortCreate))
    case PortCreate => Some(CreateStep(s, ACTIVE, env.yes, PortState))
    case PortState => Some(Goto(s.(state := PORT_MODE), Say(200, ToRead)))
    case PasvOpen => Some(Goto(s, if env.yes then PasvState else Say(421, ToBye)))
    case PasvState => Some(Goto(s.(state := PASV_MODE), PasvRun))
    case PasvRun => Some(Goto(s.(running := true), PasvCreate))
    case PasvCreate => Some(CreateStep(s, PASSIVE, env.yes, Say(227, ToRead)))
    case Bye => Some(Goto(Tell(s, false, 221), CtRead(ForClose)))
    case Freed => None
  }

  function MoveTo(s: Sys, t: Thread, at: Place): Sys { s.(thr := Some(t.(at := at))) }

  /** Behind the check of thr_dat_running. */
  function PollPlace(s: Sys, t: Thread): Place
  {
    if !s.running then Close
    else if t.mode == Active then Block
    else if !t.connected then Accept
    else if t.fp.None? then Take
    else Block
  }

  /** How cleanup reports: nothing for a transfer that was stopped. */
  function ReportStep(s: Sys, t: Thread): Sys
  {
    var u := MoveTo(s, t, Ended);
    if t.st == 1 then Tell(u, true, 226) else if t.st == 2 then Tell(u, true, 451) else u
  }

  function DataNext(s: Sys, t: Thread, env: Env): Option<Sys>
  {
    match t.at
    case Enter => Some(MoveTo(s, t, Waiting))
    case Waiting => None
    case Woken => Some(MoveTo(s, t.(fp := s.datFp), Connect))
    case Connect => Some(if env.yes then MoveTo(s, t.(connected := true), Poll) else MoveTo(s, t, Refused))
    case Refused => Some(Tell(MoveTo(s, t, Close), true, 425))
    case Poll => Some(MoveTo(s, t, PollPlace(s, t)))
    case Accept =>
      Some(if !env.yes then MoveTo(s, t, Poll)
           else MoveTo(s, t.(connected := true), if t.fp.None? then Take else Block))
    case Take => Some(MoveTo(s, t.(fp := s.datFp), if s.datFp.Some? then Block else Probe))
    case Probe => Some(MoveTo(s, t.(connected := !env.yes), Poll))
    case Block =>
      if env.st > 2 then None
      else Some(MoveTo(s, t.(st := env.st), if env.st == 0 then Poll else Close))
    case Close =>
      Some(MoveTo(if t.fp.Some? then s.(closed := s.closed + [t.fp.value]) else s, t, Forget))
    case Forget => Some(MoveTo(s.(datFp := None), t, Settle))
    case Settle => Some(MoveTo(s.(state := READY), t, Report))
    case Report => Some(ReportStep(s, t))
    case Ended => None
  }

  function Next(s: Sys, e: Event): Option<Sys>
  {
    match e
    case SessionStep(env) => SessionNext(s, env)
    case DataStep(env) => if s.thr.Some? then DataNext(s, s.thr.value, env) else None
  }

  /** The state after a run; None when some step was not possible. */
  function Run(evs: seq<Event>): Option<Sys>
  {
    if evs == [] then Some(INIT)
    else
      match Run(evs[..|evs| - 1])
      case None => None
      case Some(s) => Next(s, evs[|evs| - 1])
  }

  // ---- What a client can observe ----

  /** Terminal replies of data threads, and replies that accept a transfer. */
  function ByData(sent: seq<Sent>): nat
  {
    if sent == [] then 0 else ByData(sent[..|sent| - 1]) + if sent[|sent| - 1].byData then 1 else 0
  }

  function Accepts(sent: seq<Sent>): nat
  {
    if sent == [] then 0
    else Accepts(sent[..|sent| - 1]) + if sent[|sent| - 1] == Sent(false, 150) then 1 else 0
  }

  /** By the codes it has received, the client waits for the completion of a transfer. */
  predicate Awaiting(sent: seq<Sent>)
  {
    if sent == [] then false
    else
      var code := sent[|sent| - 1].code;
      if code == 150 then true
      else if code == 226 || code == 451 || code == 425 then false
      else Awaiting(sent[..|sent| - 1])
  }

  predicate TransferRelated(v: Verb) { IsTransfer(v) || v == PORT || v == PASV }

  /** Section 5.4 of RFC 959: no transfer-related command before the completion reply of the
      transfer before. */
  predicate Patient(s: Sys, e: Event)
  {
    (e.SessionStep? && s.pc == Read && e.env.input.Command? && TransferRelated(VerbOf(e.env.input.verb)))
    ==> !Awaiting(s.sent)
  }

  /** No active connection is refused. */
  predicate Reached(s: Sys, e: Event)
  {
    (e.DataStep? && s.thr.Some? && s.thr.value.at == Connect) ==> e.env.yes
  }

  predicate PatientRun(evs: seq<Event>)
  {
    evs == [] ||
    var before := evs[..|evs| - 1];
    PatientRun(before) && (Run(before).Some? ==> Patient(Run(before).value, evs[|evs| - 1]))
  }

  predicate ReachedRun(evs: seq<Event>)
  {
    evs == [] ||
    var before := evs[..|evs| - 1];
    ReachedRun(before) && (Run(before).Some? ==> Reached(Run(before).value, evs[|evs| - 1]))
  }

  /** A run of a patient client whose active connections succeed. */
  predicate Disciplined(evs: seq<Event>) { PatientRun(evs) && ReachedRun(evs) }

  lemma ReadFrame(s: Sys, input: Input)
    ensures ReadStep(s, input) == s.(pc := ReadStep(s, input).pc, lines := ReadStep(s, input).lines)
  {
    match input {
      case Closed => case TooLong => case Malformed =>
      case Command(verb, arg) => DispatchFrame(s, VerbOf(verb), arg);
    }
  }

  lemma DispatchFrame(s: Sys, v: Verb, arg: string)
    ensures Dispatch(s, v, arg) == s.(pc := Dispatch(s, v, arg).pc, lines := Dispatch(s, v, arg).lines)
    ensures Dispatch(s, v, arg).pc in {CtRead(ForQuit), Say(215, ToRead), Say(202, ToRead), Abor, Xfer(v, arg)}
  {
  }

  lemma TellCounts(sent: seq<Sent>, x: Sent)
    ensures ByData(sent + [x]) == ByData(sent) + (if x.byData then 1 else 0)
    ensures Accepts(sent + [x]) == Accepts(sent) + (if x == Sent(false, 150) then 1 else 0)
    ensures Awaiting(sent + [x]) ==
      (x.code == 150 || (x.code != 226 && x.code != 451 && x.code != 425 && Awaiting(sent)))
  {
    assert (sent + [x])[..|sent|] == sent;
  }
}
