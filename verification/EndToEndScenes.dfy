/** Two concrete conversations in which a LIST fails for want of a data connection: in active mode the
    client is left one reply behind, in passive mode it is not. */
module EndToEndScenes {
  import opened Text
  import opened Requests
  import opened Codecs
  import opened Session
  import opened Server
  import opened ServerLogin
  import opened ServerTells
  import opened EndToEnd
  import opened EndToEndFailures
  import C = ClientChain

  // ---- Runs of the session alone ----

  /** Fallible calls answer yes. */
  const YES := Env(Closed, true, true, 0)

  /** A step that is no read, tells no directory, refuses no transfer and leads to no 421. */
  predicate Smooth(s: Sys, s': Sys)
  {
    && s.pc != Read && !Says(s.pc, 257) && SessionNext(s, YES) == Some(s') && !Says(s'.pc, 421)
    && (Serving(s.pc) && !s.pc.Say? ==> Serving(s'.pc))
  }

  predicate SmoothPath(ss: seq<Sys>)
  {
    |ss| > 0 && forall i :: 0 <= i < |ss| - 1 ==> Smooth(ss[i], ss[i + 1])
  }

  lemma Longer(ss: seq<Sys>, s: Sys) returns (ss': seq<Sys>)
    requires true == SmoothPath(ss) && |ss| > 0 && Smooth(ss[|ss| - 1], s)
    ensures true == SmoothPath(ss') && |ss'| > 0 && ss'[0] == ss[0] && ss'[|ss'| - 1] == s
  {
    assert SmoothPath(ss);
    ss' := ss + [s];
  }

  lemma SmoothXfer(s: Sys, v: Verb, arg: string)
    requires s.pc == Xfer(v, arg) && s.datFp.None?
    ensures Smooth(s, XferStep(s, v, arg))
  {
  }

  lemma SmoothAuth(s: Sys, v: Verb, arg: string)
    requires s.pc == Auth(v, arg) && s.state.LoggedIn()
    ensures Smooth(s, AuthStep(s, v, arg))
  {
  }

  lemma SmoothData(s: Sys, v: Verb, arg: string)
    requires s.pc == Data(v, arg) && s.state.HasData()
    ensures Smooth(s, Goto(s, Exec(v, arg)))
  {
  }

  lemma SmoothSay(s: Sys, code: nat, after: After)
    requires s.pc == Say(code, after) && code != 257
    ensures Smooth(s, SayStep(s, code, after))
  {
  }

  const ANON := Local(Some("anonymous/x"), "/", None, 0, Some("anonymous"), Some(("anonymous", "x")))
  const WAITING := FRESH.(asked := Some("anonymous"))

  lemma SmoothUser(s: Sys)
    requires s.pc == Exec(USER, "anonymous") && s.state == CONN && s.local == FRESH
    ensures Smooth(s, s.(state := WAIT_PASS, local := WAITING, pc := Say(331, ToRead)))
  {
  }

  lemma SmoothPass(s: Sys)
    requires s.pc == Exec(PASS, "x") && s.state == WAIT_PASS && s.local == WAITING
    ensures Smooth(s, s.(state := READY, local := ANON, pc := Say(230, ToRead)))
  {
    assert "anonymous/" + "x" == "anonymous/x";
  }

  lemma SmoothPwd(s: Sys)
    requires s.pc == Exec(PWD, "")
    ensures Smooth(s, Goto(s, Say(257, ToRead)))
  {
    assert s.log + [] == s.log;
  }

  lemma SmoothList(s: Sys) returns (s': Sys)
    requires s.pc == Exec(LIST, "")
    ensures Smooth(s, s') && s' == s.(pc := Say(150, ToSignal(s.files)), log := s'.log, files := s.files + 1)
  {
    s' := ExecStep(s, LIST, "", YES);
  }

  lemma SmoothModes(s: Sys)
    ensures s.pc == CtRead(ForPasv) && !s.running ==> Smooth(s, Goto(s, PasvOpen))
    ensures s.pc == PasvOpen ==> Smooth(s, Goto(s, PasvState))
    ensures s.pc == PasvState ==> Smooth(s, Goto(s.(state := PASV_MODE), PasvRun))
    ensures s.pc == PasvRun ==> Smooth(s, Goto(s.(running := true), PasvCreate))
  {
  }

  lemma SmoothCreates(s: Sys)
    ensures s.pc == PasvCreate ==> Smooth(s, Goto(s.(thr := Some(PASSIVE), created := s.created + 1), Say(227, ToRead)))
    ensures s.pc == PortCreate ==> Smooth(s, Goto(s.(thr := Some(ACTIVE), created := s.created + 1), PortState))
    ensures s.pc == PortState ==> Smooth(s, Goto(s.(state := PORT_MODE), Say(200, ToRead)))
  {
  }

  lemma SmoothPort(s: Sys, arg: string)
    requires ScanAddress(arg).Some?
    ensures s.pc == CtRead(ForPort(arg)) && !s.running ==> Smooth(s, Goto(s, PortScan(arg)))
    ensures s.pc == PortScan(arg) ==> Smooth(s, Goto(s, PortRun))
    ensures s.pc == PortRun ==> Smooth(s, Goto(s.(running := true), PortCreate))
  {
  }

  /** The end of a command: its reply. */
  lemma EndPath(ss0: seq<Sys>, code: nat) returns (ss: seq<Sys>)
    requires true == SmoothPath(ss0) && |ss0| > 0 && ss0[|ss0| - 1].pc == Say(code, ToRead) && code != 257
    ensures true == SmoothPath(ss) && |ss| > 0 && ss[0] == ss0[0] &&
      ss[|ss| - 1] == Goto(Tell(ss0[|ss0| - 1], false, code), Read)
  {
    var s := ss0[|ss0| - 1];
    SmoothSay(s, code, ToRead);
    ss := Longer(ss0, SayStep(s, code, ToRead));
  }

  /** What a whole command does to the server. */
  predicate PathTo(ss: seq<Sys>, s: Sys, s': Sys)
  {
    true == SmoothPath(ss) && |ss| > 0 && ss[0] == s && ss[|ss| - 1] == s'
  }

  lemma GreetPath(s: Sys) returns (ss: seq<Sys>)
    requires s.pc == Greet
    ensures PathTo(ss, s, Goto(Tell(s, false, 220), Read))
  {
    ss := Longer([s], Goto(Tell(s, false, 220), Read));
  }

  lemma UserPath(s: Sys) returns (ss: seq<Sys>)
    requires s.pc == Xfer(USER, "anonymous") && s.datFp.None? && s.state == CONN && s.local == FRESH
    ensures PathTo(ss, s, Goto(Tell(s.(state := WAIT_PASS, local := WAITING), false, 331), Read))
  {
    SmoothXfer(s, USER, "anonymous");
    ss := Longer([s], XferStep(s, USER, "anonymous"));
    SmoothUser(ss[|ss| - 1]);
    ss := Longer(ss, s.(state := WAIT_PASS, local := WAITING, pc := Say(331, ToRead)));
    ss := EndPath(ss, 331);
  }

  lemma PassPath(s: Sys) returns (ss: seq<Sys>)
    requires s.pc == Xfer(PASS, "x") && s.datFp.None? && s.state == WAIT_PASS && s.local == WAITING
    ensures PathTo(ss, s, Goto(Tell(s.(state := READY, local := ANON), false, 230), Read))
  {
    SmoothXfer(s, PASS, "x");
    ss := Longer([s], XferStep(s, PASS, "x"));
    SmoothPass(ss[|ss| - 1]);
    ss := Longer(ss, s.(state := READY, local := ANON, pc := Say(230, ToRead)));
    ss := EndPath(ss, 230);
  }

  lemma TypePath(s: Sys) returns (ss: seq<Sys>)
    requires s.pc == Xfer(TYPE, "I") && s.datFp.None?
    ensures PathTo(ss, s, Goto(Tell(s, false, 200), Read))
  {
    SmoothXfer(s, TYPE, "I");
    ss := Longer([s], XferStep(s, TYPE, "I"));
    ss := EndPath(ss, 200);
  }

  lemma SystPath(s: Sys) returns (ss: seq<Sys>)
    requires s.pc == Say(215, ToRead)
    ensures PathTo(ss, s, Goto(Tell(s, false, 215), Read))
  {
    ss := EndPath([s], 215);
  }

  /** Through ignore_if_xfer and auth. */
  function Behind(v: Verb, arg: string): Pc
  {
    if v == PORT then CtRead(ForPort(arg)) else if v == PASV then CtRead(ForPasv)
    else if IsTransfer(v) then Data(v, arg) else Exec(v, arg)
  }

  lemma GuardPath(s: Sys, v: Verb, arg: string) returns (ss: seq<Sys>)
    requires s.pc == Xfer(v, arg) && s.datFp.None? && s.state.LoggedIn() && NeedsAuth(v)
    ensures PathTo(ss, s, Goto(s, Behind(v, arg)))
  {
    SmoothXfer(s, v, arg);
    ss := Longer([s], XferStep(s, v, arg));
    SmoothAuth(ss[|ss| - 1], v, arg);
    ss := Longer(ss, AuthStep(ss[|ss| - 1], v, arg));
  }

  lemma PwdPath(s: Sys) returns (ss: seq<Sys>)
    requires s.pc == Xfer(PWD, "") && s.datFp.None? && s.state.LoggedIn()
    ensures PathTo(ss, s, Goto(s, Say(257, ToRead)))
  {
    ss := GuardPath(s, PWD, "");
    SmoothPwd(ss[|ss| - 1]);
    ss := Longer(ss, Goto(s, Say(257, ToRead)));
  }

  lemma PasvPath(s: Sys) returns (ss: seq<Sys>)
    requires s.pc == Xfer(PASV, "") && s.datFp.None? && s.state.LoggedIn() && !s.running
    ensures PathTo(ss, s, Listener(s.(state := PASV_MODE, running := true, pc := PasvCreate)))
  {
    ss := GuardPath(s, PASV, "");
    ss := PasvSteps(ss, Goto(s, CtRead(ForPasv)));
    ss := PasvEnd(ss, s.(state := PASV_MODE, running := true, pc := PasvCreate));
  }

  /** The thread created, and 227 said. */
  function Listener(s: Sys): Sys { Goto(Tell(s.(thr := Some(PASSIVE), created := s.created + 1), false, 227), Read) }

  lemma PasvEnd(ss0: seq<Sys>, s: Sys) returns (ss: seq<Sys>)
    requires true == SmoothPath(ss0) && |ss0| > 0 && ss0[|ss0| - 1] == s && s.pc == PasvCreate
    ensures PathTo(ss, ss0[0], Listener(s))
  {
    SmoothCreates(s);
    ss := Longer(ss0, s.(thr := Some(PASSIVE), created := s.created + 1, pc := Say(227, ToRead)));
    ss := EndPath(ss, 227);
  }

  lemma PasvSteps(ss0: seq<Sys>, s: Sys) returns (ss: seq<Sys>)
    requires true == SmoothPath(ss0) && |ss0| > 0 && ss0[|ss0| - 1] == s && s.pc == CtRead(ForPasv) && !s.running
    ensures PathTo(ss, ss0[0], s.(state := PASV_MODE, running := true, pc := PasvCreate))
  {
    SmoothModes(s);
    ss := Longer(ss0, Goto(s, PasvOpen));
    SmoothModes(Goto(s, PasvOpen));
    ss := Longer(ss, Goto(s, PasvState));
    SmoothModes(Goto(s, PasvState));
    ss := Longer(ss, s.(state := PASV_MODE, pc := PasvRun));
    SmoothModes(s.(state := PASV_MODE, pc := PasvRun));
    ss := Longer(ss, s.(state := PASV_MODE, running := true, pc := PasvCreate));
  }

  lemma PortPath(s: Sys, arg: string) returns (ss: seq<Sys>)
    requires s.pc == Xfer(PORT, arg) && s.datFp.None? && s.state.LoggedIn() && !s.running && ScanAddress(arg).Some?
    ensures PathTo(ss, s, Caller(s.(running := true, pc := PortCreate)))
  {
    ss := GuardPath(s, PORT, arg);
    ss := PortSteps(ss, Goto(s, CtRead(ForPort(arg))), arg);
    ss := PortEnd(ss, s.(running := true, pc := PortCreate));
  }

  /** The thread created, and 200 said. */
  function Caller(s: Sys): Sys
  {
    Goto(Tell(s.(state := PORT_MODE, thr := Some(ACTIVE), created := s.created + 1), false, 200), Read)
  }

  lemma PortEnd(ss0: seq<Sys>, s: Sys) returns (ss: seq<Sys>)
    requires true == SmoothPath(ss0) && |ss0| > 0 && ss0[|ss0| - 1] == s && s.pc == PortCreate
    ensures PathTo(ss, ss0[0], Caller(s))
  {
    var t := s.(thr := Some(ACTIVE), created := s.created + 1, pc := PortState);
    SmoothCreates(s);
    ss := Longer(ss0, t);
    ss := PortAnswers(ss, t);
  }

  lemma PortAnswers(ss0: seq<Sys>, s: Sys) returns (ss: seq<Sys>)
    requires true == SmoothPath(ss0) && |ss0| > 0 && ss0[|ss0| - 1] == s && s.pc == PortState
    ensures PathTo(ss, ss0[0], Goto(Tell(s.(state := PORT_MODE), false, 200), Read))
  {
    SmoothCreates(s);
    ss := Longer(ss0, s.(state := PORT_MODE, pc := Say(200, ToRead)));
    ss := EndPath(ss, 200);
  }

  lemma PortSteps(ss0: seq<Sys>, s: Sys, arg: string) returns (ss: seq<Sys>)
    requires true == SmoothPath(ss0) && |ss0| > 0 && ss0[|ss0| - 1] == s
    requires s.pc == CtRead(ForPort(arg)) && !s.running && ScanAddress(arg).Some?
    ensures PathTo(ss, ss0[0], s.(running := true, pc := PortCreate))
  {
    SmoothPort(s, arg);
    ss := Longer(ss0, Goto(s, PortScan(arg)));
    SmoothPort(Goto(s, PortScan(arg)), arg);
    ss := Longer(ss, Goto(s, PortRun));
    SmoothPort(Goto(s, PortRun), arg);
    ss := Longer(ss, s.(running := true, pc := PortCreate));
  }

  /** LIST, accepted: the file is stored. */
  lemma ListPath(s: Sys) returns (ss: seq<Sys>, s': Sys)
    requires s.pc == Xfer(LIST, "") && s.datFp.None? && s.state.HasData()
    ensures PathTo(ss, s, s') && s'.pc == Read && s'.datFp.Some? && s'.sent == s.sent + [Sent(false, 150)]
    ensures s'.running == s.running && s'.created == s.created
    ensures s'.thr == if s.thr.Some? && s.thr.value.at == Waiting then Some(s.thr.value.(at := Woken)) else s.thr
  {
    ss := GuardPath(s, LIST, "");
    SmoothData(ss[|ss| - 1], LIST, "");
    ss := Longer(ss, Goto(s, Exec(LIST, "")));
    ss, s' := StorePath(ss, Goto(s, Exec(LIST, "")));
  }

  lemma StorePath(ss0: seq<Sys>, s: Sys) returns (ss: seq<Sys>, s': Sys)
    requires true == SmoothPath(ss0) && |ss0| > 0 && ss0[|ss0| - 1] == s && s.pc == Exec(LIST, "")
    ensures PathTo(ss, ss0[0], s') && s'.pc == Read && s'.datFp.Some? && s'.sent == s.sent + [Sent(false, 150)]
    ensures s'.running == s.running && s'.created == s.created
    ensures s'.thr == if s.thr.Some? && s.thr.value.at == Waiting then Some(s.thr.value.(at := Woken)) else s.thr
  {
    s' := SmoothList(s);
    ss := Longer(ss0, s');
    SmoothSay(s', 150, ToSignal(s.files));
    ss := Longer(ss, SayStep(s', 150, ToSignal(s.files)));
    var t := ss[|ss| - 1];
    SmoothSignal(t, s.files);
    ss := Longer(ss, SignalStep(t, s.files));
    s' := SignalStep(t, s.files);
  }

  lemma SmoothSignal(s: Sys, f: nat)
    requires s.pc == Signal(f)
    ensures Smooth(s, SignalStep(s, f))
  {
  }

  // ---- Rallies ----

  /** Nothing has been refused, dropped or failed. */
  predicate Fine(j: Joint)
  {
    j.refused == 0 && j.dropped == 0 && !j.down && !j.orphan && j.activeFailures == 0
  }

  lemma More(ms: seq<Move>, j: Joint, m: Move, j': Joint) returns (ms': seq<Move>)
    requires Rally(ms) == Some(j) && DoMove(j, m) == Some(j')
    ensures Rally(ms') == Some(j')
  {
    ms' := ms + [m];
    assert ms'[..|ms|] == ms;
  }

  lemma SmoothStep(j: Joint, s: Sys)
    requires Fine(j) && Smooth(j.sys, s)
    ensures ServerStep(j, SessionStep(YES)) == Some(j.(sys := s))
  {
  }

  lemma PathTail(ss: seq<Sys>, s: Sys, s': Sys)
    requires PathTo(ss, s, s') && |ss| > 1
    ensures true == Smooth(s, ss[1]) && PathTo(ss[1..], ss[1], s')
  {
  }

  lemma FollowsOne(ms: seq<Move>, j: Joint, s: Sys) returns (ms': seq<Move>)
    requires Rally(ms) == Some(j) && Fine(j) && true == Smooth(j.sys, s)
    ensures Rally(ms') == Some(j.(sys := s))
  {
    SmoothStep(j, s);
    ms' := More(ms, j, ServerMove(SessionStep(YES)), j.(sys := s));
  }

  lemma {:induction false} Follows(ms: seq<Move>, j: Joint, ss: seq<Sys>, s': Sys) returns (ms': seq<Move>)
    requires Rally(ms) == Some(j) && Fine(j) && PathTo(ss, j.sys, s')
    ensures Rally(ms') == Some(j.(sys := s'))
    decreases |ss|
  {
    if |ss| == 1 {
      ms' := ms;
    } else {
      PathTail(ss, j.sys, s');
      ms' := FollowsOne(ms, j, ss[1]);
      ms' := Follows(ms', j.(sys := ss[1]), ss[1..], s');
    }
  }

  lemma MayRead(j: Joint, input: Input)
    requires j.sys.pc == Read && j.read < |j.client.asked| && input == Received(j.client.asked[j.read])
    ensures true == Permitted(j, SessionStep(Env(input, true, true, 0)))
  {
  }

  lemma NextReads(s0: Sys, input: Input)
    requires s0.pc == Read
    ensures Next(s0, SessionStep(Env(input, true, true, 0))) == Some(ReadStep(s0, input))
  {
  }

  lemma StepReads(j: Joint, e: Event, s: Sys)
    requires Fine(j) && e.SessionStep? && j.sys.pc == Read && j.read < |j.client.asked|
    requires true == Permitted(j, e) && Next(j.sys, e) == Some(s) && !Says(s.pc, 421)
    requires C.IsTransferRequest(j.client.asked[j.read]) ==> Serving(s.pc)
    ensures ServerStep(j, e) == Some(j.(sys := s, read := j.read + 1))
  {
  }

  /** A command: read, and served to its end. */
  lemma Serves(ms: seq<Move>, j: Joint, input: Input, s: Sys, ss: seq<Sys>, s': Sys) returns (ms': seq<Move>)
    requires Rally(ms) == Some(j) && Fine(j) && j.sys.pc == Read && j.read < |j.client.asked|
    requires input == Received(j.client.asked[j.read]) && s == ReadStep(j.sys, input) && !Says(s.pc, 421)
    requires C.IsTransferRequest(j.client.asked[j.read]) ==> Serving(s.pc)
    requires PathTo(ss, s, s')
    ensures Rally(ms') == Some(j.(sys := s', read := j.read + 1))
  {
    var e := SessionStep(Env(input, true, true, 0));
    MayRead(j, input);
    NextReads(j.sys, input);
    StepReads(j, e, s);
    ms' := More(ms, j, ServerMove(e), j.(sys := s, read := j.read + 1));
    ms' := Follows(ms', j.(sys := s, read := j.read + 1), ss, s');
  }

  /** A short request with a verb of the client's. */
  predicate Short(q: Request, v: Verb)
  {
    WellFormed(q) && q.verb in VERBS && |Body(q)| < CMD_SIZE && VerbOf(q.verb) == v
  }

  lemma ReceivedAs(s: Sys, q: Request, v: Verb)
    requires true == Short(q, v) && v != QUIT && v != SYST && v != ABOR && v != OTHER
    ensures ReadStep(s, Received(q)) == s.(pc := Xfer(v, ArgText(q)), lines := s.lines + 1)
  {
    KnownUpper(q.verb);
  }

  lemma ShortUser()
    ensures true == Short(C.With("USER", "anonymous"), USER)
  {
  }

  lemma ShortPass()
    ensures true == Short(C.With("PASS", "x"), PASS)
  {
  }

  lemma ShortType()
    ensures true == Short(C.With("TYPE", "I"), TYPE)
  {
  }

  lemma ShortSyst()
    ensures true == Short(C.Plain("SYST"), SYST)
  {
  }

  lemma ShortPwd()
    ensures true == Short(C.Plain("PWD"), PWD)
  {
  }

  lemma ShortPasv()
    ensures true == Short(C.Plain("PASV"), PASV)
  {
  }

  lemma ShortList()
    ensures true == Short(C.Plain("LIST"), LIST)
  {
  }

  lemma ShortPort(arg: string)
    requires |arg| < 1000 && OneLine(arg)
    ensures true == Short(C.With("PORT", arg), PORT)
  {
  }

  lemma ReceivedSyst(s: Sys)
    ensures ReadStep(s, Received(C.Plain("SYST"))) == s.(pc := Say(215, ToRead), lines := s.lines + 1)
  {
    KnownUpper("SYST");
  }

  /** A step of the data thread that makes no connection and loses nothing. */
  lemma DataStepOf(j: Joint, s: Sys)
    requires Fine(j) && j.sys.thr.Some? && j.sys.thr.value.at in {Enter, Woken, Connect, Refused}
    requires DataNext(j.sys, j.sys.thr.value, Env(Closed, false, true, 0)) == Some(s) && !Says(s.pc, 421)
    ensures ServerStep(j, DataStep(Env(Closed, false, true, 0))) == Some(j.(sys := s))
  {
  }

  lemma DataMoves(ms: seq<Move>, j: Joint, s: Sys) returns (ms': seq<Move>)
    requires Rally(ms) == Some(j) && Fine(j) && j.sys.thr.Some? &&
      j.sys.thr.value.at in {Enter, Woken, Connect, Refused}
    requires DataNext(j.sys, j.sys.thr.value, Env(Closed, false, true, 0)) == Some(s) && !Says(s.pc, 421)
    ensures Rally(ms') == Some(j.(sys := s))
  {
    DataStepOf(j, s);
    ms' := More(ms, j, ServerMove(DataStep(Env(Closed, false, true, 0))), j.(sys := s));
  }

  // ---- Logging in ----

  /** Everything asked has been answered, and the callback is due. */
  predicate Replied(j: Joint, passive: bool, at: C.At, code: nat, state: State, l: Local)
  {
    && Fine(j) && j.client.passive == passive && j.client.at == at && Answered(j, code)
    && j.read == |j.client.asked| && j.client.marks == |j.sys.sent| == |j.client.asked| + 1
    && j.client.transfers == 0 && j.client.failures == 0
    && j.sys.pc == Read && j.sys.state == state && j.sys.local == l
    && j.sys.datFp.None? && j.sys.thr.None? && !j.sys.running
  }

  /** The reply is there, and the server can have given it this text. */
  ghost predicate Hears(j: Joint, code: nat, text: string) { Answered(j, code) && Carries(j, code, text) }

  lemma StepAsks(j: Joint, h: C.Happening, c: C.Chain, at: C.At, q: Request)
    requires h.Mark? && Hears(j, h.code, h.text)
    requires C.Happen(j.client, h) == Some(C.Ask(c, at, q)) && c == j.client.(cwd := c.cwd)
    requires WellFormed(q) && !at.Moving? && !j.client.at.Moving?
    ensures ClientStep(j, h) == Some(j.(client := C.Ask(c, at, q)))
  {
  }

  /** A callback that asks. */
  lemma Asks(ms0: seq<Move>, j0: Joint, h: C.Happening, c: C.Chain, at: C.At, q: Request)
    returns (ms: seq<Move>, j: Joint)
    requires Rally(ms0) == Some(j0) && h.Mark? && true == Hears(j0, h.code, h.text)
    requires C.Happen(j0.client, h) == Some(C.Ask(c, at, q)) && c == j0.client.(cwd := c.cwd)
    requires WellFormed(q) && !at.Moving? && !j0.client.at.Moving?
    ensures Rally(ms) == Some(j) && j == j0.(client := C.Ask(c, at, q))
  {
    StepAsks(j0, h, c, at, q);
    j := j0.(client := C.Ask(c, at, q));
    ms := More(ms0, j0, ClientMove(h), j);
  }

  /** What the server makes of a request other than a transfer: s behind the read, s' behind the reply. */
  predicate Handles(s0: Sys, q: Request, s: Sys, ss: seq<Sys>, s': Sys)
  {
    && WellFormed(q) && !C.IsTransferRequest(q)
    && s == ReadStep(s0, Received(q)) && !Says(s.pc, 421) && PathTo(ss, s, s')
  }

  lemma HandlesBy(s0: Sys, q: Request, v: Verb, ss: seq<Sys>, s': Sys)
    requires true == Short(q, v) && v !in {QUIT, SYST, ABOR, OTHER, LIST, RETR, STOR}
    requires PathTo(ss, s0.(pc := Xfer(v, ArgText(q)), lines := s0.lines + 1), s')
    ensures true == Handles(s0, q, s0.(pc := Xfer(v, ArgText(q)), lines := s0.lines + 1), ss, s')
  {
    ShortWell(q, v);
    ReceivedAs(s0, q, v);
    HandlesWell(s0, q, s0.(pc := Xfer(v, ArgText(q)), lines := s0.lines + 1), ss, s');
  }

  lemma HandlesWell(s0: Sys, q: Request, s: Sys, ss: seq<Sys>, s': Sys)
    requires true == WellFormed(q) && !C.IsTransferRequest(q)
    requires s == ReadStep(s0, Received(q)) && !Says(s.pc, 421) && PathTo(ss, s, s')
    ensures true == Handles(s0, q, s, ss, s')
  {
  }

  lemma ShortWell(q: Request, v: Verb)
    requires true == Short(q, v) && !IsTransfer(v)
    ensures true == WellFormed(q) && !C.IsTransferRequest(q)
  {
    KnownVerb(q.verb);
  }

  lemma Answering(ms0: seq<Move>, j0: Joint, q: Request, s: Sys, ss: seq<Sys>, s': Sys) returns (ms: seq<Move>)
    requires Rally(ms0) == Some(j0) && Fine(j0) && j0.sys.pc == Read && j0.read == |j0.client.asked| - 1
    requires j0.client.asked[j0.read] == q && Handles(j0.sys, q, s, ss, s')
    ensures Rally(ms) == Some(j0.(sys := s', read := j0.read + 1))
  {
    ms := Serves(ms0, j0, Received(q), s, ss, s');
  }

  /** The callback asks, and the server answers. */
  lemma Turn(ms0: seq<Move>, j0: Joint, h: C.Happening, c: C.Chain, at: C.At, q: Request,
             s: Sys, ss: seq<Sys>, s': Sys)
    returns (ms: seq<Move>, j: Joint)
    requires Rally(ms0) == Some(j0) && Fine(j0) && j0.sys.pc == Read && j0.read == |j0.client.asked|
    requires h.Mark? && true == Hears(j0, h.code, h.text)
    requires C.Happen(j0.client, h) == Some(C.Ask(c, at, q)) && c == j0.client.(cwd := c.cwd)
    requires !at.Moving? && !j0.client.at.Moving?
    requires true == Handles(j0.sys, q, s, ss, s')
    ensures Rally(ms) == Some(j)
    ensures j == j0.(client := C.Ask(c, at, q), sys := s', read := j0.read + 1)
  {
    ms, j := Asks(ms0, j0, h, c, at, q);
    ms := Answering(ms, j, q, s, ss, s');
    j := j.(sys := s', read := j.read + 1);
  }

  /** An address that the server understands. */
  predicate Understood(host: C.Address, arg: string)
  {
    && arg == Commas(host) && ScanAddress(arg).Some? && OneLine(arg) && |arg| < 1000
  }

  lemma Understanding(host: C.Address) returns (arg: string)
    ensures Understood(host, arg)
  {
    arg := Commas(host);
    AddressRoundTrip(host, "");
    assert Commas(host) + "" == Commas(host);
    CommasInert(host);
  }

  lemma HandlesUser(s0: Sys) returns (s: Sys, ss: seq<Sys>, s': Sys)
    requires s0.pc == Read && s0.datFp.None? && s0.state == CONN && s0.local == FRESH
    ensures true == Handles(s0, C.With("USER", "anonymous"), s, ss, s')
    ensures s' == s0.(lines := s0.lines + 1, state := WAIT_PASS, local := WAITING, sent := s0.sent + [Sent(false, 331)])
  {
    var q := C.With("USER", "anonymous");
    ShortUser();
    s := s0.(pc := Xfer(USER, ArgText(q)), lines := s0.lines + 1);
    ss := UserPath(s);
    s' := ss[|ss| - 1];
    HandlesBy(s0, q, USER, ss, s');
  }

  lemma HandlesPass(s0: Sys) returns (s: Sys, ss: seq<Sys>, s': Sys)
    requires s0.pc == Read && s0.datFp.None? && s0.state == WAIT_PASS && s0.local == WAITING
    ensures true == Handles(s0, C.With("PASS", "x"), s, ss, s')
    ensures s' == s0.(lines := s0.lines + 1, state := READY, local := ANON, sent := s0.sent + [Sent(false, 230)])
  {
    var q := C.With("PASS", "x");
    ShortPass();
    s := s0.(pc := Xfer(PASS, ArgText(q)), lines := s0.lines + 1);
    ss := PassPath(s);
    s' := ss[|ss| - 1];
    HandlesBy(s0, q, PASS, ss, s');
  }

  lemma HandlesType(s0: Sys) returns (s: Sys, ss: seq<Sys>, s': Sys)
    requires s0.pc == Read && s0.datFp.None?
    ensures true == Handles(s0, C.With("TYPE", "I"), s, ss, s')
    ensures s' == s0.(lines := s0.lines + 1, sent := s0.sent + [Sent(false, 200)])
  {
    var q := C.With("TYPE", "I");
    ShortType();
    s := s0.(pc := Xfer(TYPE, ArgText(q)), lines := s0.lines + 1);
    ss := TypePath(s);
    s' := ss[|ss| - 1];
    HandlesBy(s0, q, TYPE, ss, s');
  }

  lemma HandlesSyst(s0: Sys) returns (s: Sys, ss: seq<Sys>, s': Sys)
    requires s0.pc == Read && s0.datFp.None?
    ensures true == Handles(s0, C.Plain("SYST"), s, ss, s')
    ensures s' == s0.(lines := s0.lines + 1, sent := s0.sent + [Sent(false, 215)])
  {
    var q := C.Plain("SYST");
    ShortSyst();
    ShortWell(q, SYST);
    ReceivedSyst(s0);
    s := ReadStep(s0, Received(q));
    ss := SystPath(s);
    s' := ss[|ss| - 1];
  }

  lemma HandlesPwd(s0: Sys) returns (s: Sys, ss: seq<Sys>, s': Sys)
    requires s0.pc == Read && s0.datFp.None? && s0.state.LoggedIn()
    ensures true == Handles(s0, C.Plain("PWD"), s, ss, s')
    ensures s' == s0.(lines := s0.lines + 1, pc := Say(257, ToRead))
  {
    var q := C.Plain("PWD");
    ShortPwd();
    s := s0.(pc := Xfer(PWD, ArgText(q)), lines := s0.lines + 1);
    ss := PwdPath(s);
    s' := ss[|ss| - 1];
    HandlesBy(s0, q, PWD, ss, s');
  }

  lemma HandlesPasv(s0: Sys) returns (s: Sys, ss: seq<Sys>, s': Sys)
    requires s0.pc == Read && s0.datFp.None? && s0.state.LoggedIn() && !s0.running
    ensures true == Handles(s0, C.Plain("PASV"), s, ss, s')
    ensures s' == s0.(lines := s0.lines + 1, state := PASV_MODE, running := true, thr := Some(PASSIVE),
      created := s0.created + 1, sent := s0.sent + [Sent(false, 227)])
  {
    var q := C.Plain("PASV");
    ShortPasv();
    s := s0.(pc := Xfer(PASV, ArgText(q)), lines := s0.lines + 1);
    ss := PasvPath(s);
    s' := ss[|ss| - 1];
    HandlesBy(s0, q, PASV, ss, s');
  }

  lemma HandlesPort(s0: Sys, arg: string) returns (s: Sys, ss: seq<Sys>, s': Sys)
    requires s0.pc == Read && s0.datFp.None? && s0.state.LoggedIn() && !s0.running
    requires ScanAddress(arg).Some? && |arg| < 1000 && OneLine(arg)
    ensures true == Handles(s0, C.With("PORT", arg), s, ss, s')
    ensures s' == s0.(lines := s0.lines + 1, state := PORT_MODE, running := true, thr := Some(ACTIVE),
      created := s0.created + 1, sent := s0.sent + [Sent(false, 200)])
  {
    var q := C.With("PORT", arg);
    ShortPort(arg);
    s := s0.(pc := Xfer(PORT, ArgText(q)), lines := s0.lines + 1);
    ss := PortPath(s, arg);
    s' := ss[|ss| - 1];
    HandlesBy(s0, q, PORT, ss, s');
  }

  lemma HandlesList(s0: Sys) returns (s: Sys, ss: seq<Sys>, s': Sys)
    requires s0.pc == Read && s0.datFp.None? && s0.state.HasData()
    ensures s == ReadStep(s0, Received(C.Plain("LIST"))) && !Says(s.pc, 421) && Serving(s.pc) && PathTo(ss, s, s')
    ensures s'.pc == Read && s'.datFp.Some? && s'.sent == s0.sent + [Sent(false, 150)]
    ensures s'.running == s0.running && s'.created == s0.created
    ensures s'.thr == if s0.thr.Some? && s0.thr.value.at == Waiting then Some(s0.thr.value.(at := Woken)) else s0.thr
  {
    ShortList();
    ReceivedAs(s0, C.Plain("LIST"), LIST);
    s := ReadStep(s0, Received(C.Plain("LIST")));
    ss, s' := ListPath(s);
  }

  lemma ChainLogin(c: C.Chain)
    ensures c.at == C.Auth1 ==>
      C.Happen(c, C.Mark(220, "", "anonymous", None)) == Some(C.Ask(c, C.Auth2, C.With("USER", "anonymous")))
    ensures c.at == C.Auth2 ==> C.Happen(c, C.Mark(331, "", "x", None)) == Some(C.Ask(c, C.Auth3, C.With("PASS", "x")))
    ensures c.at == C.Auth3 ==> C.Happen(c, C.Mark(230, "", "", None)) == Some(C.Ask(c, C.Sys1, C.With("TYPE", "I")))
    ensures c.at == C.Sys1 ==> C.Happen(c, C.Mark(200, "", "", None)) == Some(C.Ask(c, C.Sys2, C.Plain("SYST")))
    ensures c.at == C.Sys2 ==> C.Happen(c, C.Mark(215, "", "", None)) == Some(C.Ask(c, C.List1, C.Plain("PWD")))
  {
  }

  lemma Starts(passive: bool) returns (ms: seq<Move>, j: Joint)
    ensures Rally(ms) == Some(j) && Replied(j, passive, C.Auth1, 220, CONN, FRESH)
  {
    ms, j := [], START;
    if !passive {
      ms := More(ms, j, ClientMove(C.ModeClick), j.(client := j.client.(passive := false)));
      j := j.(client := j.client.(passive := false));
    }
    var ss := GreetPath(j.sys);
    ms := Follows(ms, j, ss, Goto(Tell(j.sys, false, 220), Read));
    j := j.(sys := Goto(Tell(j.sys, false, 220), Read));
  }

  lemma TurnUser(passive: bool) returns (ms: seq<Move>, j: Joint)
    ensures Rally(ms) == Some(j) && Replied(j, passive, C.Auth2, 331, WAIT_PASS, WAITING)
  {
    ms, j := Starts(passive);
    ChainLogin(j.client);
    var s, ss, s' := HandlesUser(j.sys);
    ms, j := Turn(ms, j, C.Mark(220, "", "anonymous", None), j.client, C.Auth2, C.With("USER", "anonymous"), s, ss, s');
  }

  lemma TurnPass(passive: bool) returns (ms: seq<Move>, j: Joint)
    ensures Rally(ms) == Some(j) && Replied(j, passive, C.Auth3, 230, READY, ANON)
  {
    ms, j := TurnUser(passive);
    ChainLogin(j.client);
    var s, ss, s' := HandlesPass(j.sys);
    ms, j := Turn(ms, j, C.Mark(331, "", "x", None), j.client, C.Auth3, C.With("PASS", "x"), s, ss, s');
  }

  lemma TurnType(passive: bool) returns (ms: seq<Move>, j: Joint)
    ensures Rally(ms) == Some(j) && Replied(j, passive, C.Sys1, 200, READY, ANON)
  {
    ms, j := TurnPass(passive);
    ChainLogin(j.client);
    var s, ss, s' := HandlesType(j.sys);
    ms, j := Turn(ms, j, C.Mark(230, "", "", None), j.client, C.Sys1, C.With("TYPE", "I"), s, ss, s');
  }

  lemma TurnSyst(passive: bool) returns (ms: seq<Move>, j: Joint)
    ensures Rally(ms) == Some(j) && Replied(j, passive, C.Sys2, 215, READY, ANON)
  {
    ms, j := TurnType(passive);
    ChainLogin(j.client);
    var s, ss, s' := HandlesSyst(j.sys);
    ms, j := Turn(ms, j, C.Mark(200, "", "", None), j.client, C.Sys2, C.Plain("SYST"), s, ss, s');
  }

  /** PWD, answered with the text for the root directory. */
  lemma TurnPwd(passive: bool) returns (ms: seq<Move>, j: Joint, text: string)
    ensures Rally(ms) == Some(j) && Replied(j, passive, C.List1, 257, READY, ANON)
    ensures true == Hears(j, 257, text) && RecoverDirectory(text) == Directory("/")
  {
    ms, j := TurnSyst(passive);
    ms, j := TurnsToPwd(ms, j, passive);
    text := Text257("/");
    RootShown();
  }

  lemma TurnsToPwd(ms0: seq<Move>, j0: Joint, passive: bool) returns (ms: seq<Move>, j: Joint)
    requires Rally(ms0) == Some(j0) && Replied(j0, passive, C.Sys2, 215, READY, ANON)
    ensures Rally(ms) == Some(j) && Replied(j, passive, C.List1, 257, READY, ANON) && Carries(j, 257, Text257("/"))
  {
    ChainLogin(j0.client);
    var s, ss, s' := HandlesPwd(j0.sys);
    ms, j := Turn(ms0, j0, C.Mark(215, "", "", None), j0.client, C.List1, C.Plain("PWD"), s, ss, s');
    ms, j := Tells257(ms, j);
  }

  lemma Step257(j: Joint)
    requires j.sys.pc == Say(257, ToRead)
    ensures ServerStep(j, SessionStep(YES)) ==
      Some(j.(sys := SayStep(j.sys, 257, ToRead), shown := j.shown[|j.sys.sent| := j.sys.local.wd]))
  {
  }

  /** The server tells its directory. */
  lemma Tells257(ms0: seq<Move>, j0: Joint) returns (ms: seq<Move>, j: Joint)
    requires Rally(ms0) == Some(j0) && j0.sys.pc == Say(257, ToRead)
    ensures Rally(ms) == Some(j)
    ensures j == j0.(sys := SayStep(j0.sys, 257, ToRead), shown := j0.shown[|j0.sys.sent| := j0.sys.local.wd])
  {
    j := j0.(sys := SayStep(j0.sys, 257, ToRead), shown := j0.shown[|j0.sys.sent| := j0.sys.local.wd]);
    Step257(j0);
    ms := More(ms0, j0, ServerMove(SessionStep(YES)), j);
  }

  // ---- The data connection ----

  /** Ready for a transfer: the mode set and answered, the data thread without a connection. */
  predicate Ready(j: Joint, passive: bool, code: nat, t: Thread)
  {
    && Fine(j) && j.client.passive == passive && Answered(j, code)
    && j.client.at == (if passive then C.DataPasv1(C.Listing) else C.DataPort1(C.Listing))
    && j.read == |j.client.asked| && j.client.marks == |j.sys.sent| == |j.client.asked| + 1
    && j.client.transfers == 0 && j.client.failures == 0
    && j.sys.pc == Read && j.sys.state == (if passive then PASV_MODE else PORT_MODE)
    && j.sys.datFp.None? && j.sys.running && j.sys.thr == Some(t)
  }

  lemma RootShown()
    ensures RecoverDirectory(Text257("/")) == Directory("/")
  {
    PwdText("/");
  }

  function ListsFrom(c: C.Chain, host: C.Address): C.Chain
  {
    if c.passive then C.Ask(c, C.DataPasv1(C.Listing), C.Plain("PASV"))
    else C.Ask(c, C.DataPort1(C.Listing), C.With("PORT", Commas(host)))
  }

  /** The 257 for the root directory, in either mode. */
  lemma ChainLists(c: C.Chain, text: string, host: C.Address)
    requires c.at == C.List1 && RecoverDirectory(text) == Directory("/")
    ensures C.Happen(c, C.Mark(257, text, "", Some(host))) == Some(ListsFrom(c.(cwd := Some("/")), host))
  {
  }

  lemma TurnPasv(host: C.Address) returns (ms: seq<Move>, j: Joint)
    ensures Rally(ms) == Some(j) && Ready(j, true, 227, PASSIVE)
  {
    var text: string;
    ms, j, text := TurnPwd(true);
    ChainLists(j.client, text, host);
    var s, ss, s' := HandlesPasv(j.sys);
    var h, c := C.Mark(257, text, "", Some(host)), j.client.(cwd := Some("/"));
    ms, j := Turn(ms, j, h, c, C.DataPasv1(C.Listing), C.Plain("PASV"), s, ss, s');
  }

  lemma TurnPort(host: C.Address) returns (ms: seq<Move>, j: Joint)
    ensures Rally(ms) == Some(j) && Ready(j, false, 200, ACTIVE)
  {
    var text: string;
    ms, j, text := TurnPwd(false);
    ms, j := TurnsToPort(ms, j, text, host);
  }

  lemma TurnsToPort(ms0: seq<Move>, j0: Joint, text: string, host: C.Address) returns (ms: seq<Move>, j: Joint)
    requires Rally(ms0) == Some(j0) && Replied(j0, false, C.List1, 257, READY, ANON)
    requires true == Hears(j0, 257, text) && RecoverDirectory(text) == Directory("/")
    ensures Rally(ms) == Some(j) && true == Ready(j, false, 200, ACTIVE)
  {
    var arg := Understanding(host);
    ChainLists(j0.client, text, host);
    var s, ss, s' := HandlesPort(j0.sys, arg);
    var h, c := C.Mark(257, text, "", Some(host)), j0.client.(cwd := Some("/"));
    ms, j := Turn(ms0, j0, h, c, C.DataPort1(C.Listing), C.With("PORT", arg), s, ss, s');
    PortReady(j0, c, C.With("PORT", arg), s', j);
  }

  lemma PortReady(j0: Joint, c: C.Chain, q: Request, s': Sys, j: Joint)
    requires Replied(j0, false, C.List1, 257, READY, ANON) && c == j0.client.(cwd := c.cwd)
    requires s'.pc == Read && s'.datFp.None? && s'.running && s'.thr == Some(ACTIVE) && s'.state == PORT_MODE
    requires s'.sent == j0.sys.sent + [Sent(false, 200)]
    requires j == j0.(client := C.Ask(c, C.DataPort1(C.Listing), q), sys := s', read := j0.read + 1)
    ensures true == Ready(j, false, 200, ACTIVE)
  {
  }

  lemma ReadyPort(host: C.Address) returns (ms: seq<Move>, j: Joint)
    ensures Rally(ms) == Some(j) && Ready(j, false, 200, ACTIVE.(at := Waiting))
  {
    ms, j := TurnPort(host);
    ms := DataMoves(ms, j, MoveTo(j.sys, ACTIVE, Waiting));
    j := j.(sys := MoveTo(j.sys, ACTIVE, Waiting));
  }

  lemma ChainGoes(c: C.Chain, passive: bool, code: nat, text: string)
    requires c.at == (if passive then C.DataPasv1(C.Listing) else C.DataPort1(C.Listing)) &&
      code == if passive then 227 else 200
    requires passive ==> PasvAddress(227, text).Some?
    ensures C.Happen(c, C.Mark(code, text, "", None)) == Some(C.Inter(c, C.Listing))
  {
  }

  lemma ShortText227(host: C.Address)
    ensures Text227(host) == Msg227(host) + "\n"
  {
    CommasInert(host);
  }

  lemma StepGoes(j: Joint, h: C.Happening, c: C.Chain)
    requires h.Mark? && Hears(j, h.code, h.text)
    requires C.Happen(j.client, h) == Some(c) && c == C.Inter(j.client, C.Listing) && !j.client.at.Moving?
    ensures ClientStep(j, h) == Some(j.(client := c, link := Link(j.sys.created, j.client.at.DataPasv1?, Calling)))
  {
  }

  /** The client goes on to LIST, and calls; LIST is accepted. */
  lemma Lists(ms0: seq<Move>, j0: Joint, passive: bool, code: nat, t: Thread, host: C.Address)
    returns (ms: seq<Move>, j: Joint)
    requires Rally(ms0) == Some(j0) && Ready(j0, passive, code, t) && code == if passive then 227 else 200
    ensures Rally(ms) == Some(j) && Listed(j, passive, if t.at == Waiting then t.(at := Woken) else t)
  {
    var c := C.Inter(j0.client, C.Listing);
    var k := j0.(client := c, link := Link(j0.sys.created, passive, Calling));
    var text := if passive then Text227(host) else "";
    ShortText227(host);
    PasvText(host);
    ChainGoes(j0.client, passive, code, text);
    StepGoes(j0, C.Mark(code, text, "", None), c);
    ms := More(ms0, j0, ClientMove(C.Mark(code, text, "", None)), k);
    var s, ss, s' := HandlesList(k.sys);
    ms := Serves(ms, k, Received(C.Plain("LIST")), s, ss, s');
    j := k.(sys := s', read := k.read + 1);
  }

  /** A LIST under way, its file stored, and no connection yet. */
  predicate Listed(j: Joint, passive: bool, t: Thread)
  {
    && Fine(j) && j.client.at.Moving? && j.link == Link(j.sys.created, passive, Calling)
    && j.read == |j.client.asked| && |j.sys.sent| == j.client.marks && j.client.failures == 0
    && j.sys.pc == Read && j.sys.datFp.Some? && j.sys.running && j.sys.thr == Some(t)
  }

  lemma StepGivesUp(j: Joint)
    requires j.client.at.Moving? && j.link.phase == Calling
    ensures ClientStep(j, C.DataFails) ==
      Some(j.(client := C.OnDataFails(j.client), link := j.link.(phase := Shut), orphan := j.orphan || j.link.passive,
              activeFailures := j.activeFailures + if j.link.passive then 0 else 1))
  {
  }

  /** Passive mode: the client is idle, and has read every reply there is. */
  lemma PassiveFailureHappens(host: C.Address) returns (ms: seq<Move>)
    ensures Rally(ms).Some?
    ensures var j := Rally(ms).value;
      && j.client.at == C.Idle && Calm(j) && j.orphan && j.client.failures == 1
      && j.client.marks == |j.sys.sent| && j.sys.pc == Read && Queue(j) == []
  {
    var j: Joint;
    ms, j := TurnPasv(host);
    ms, j := Lists(ms, j, true, 227, PASSIVE, host);
    StepGivesUp(j);
    ms := More(ms, j, ClientMove(C.DataFails),
               j.(client := C.OnDataFails(j.client), link := j.link.(phase := Shut), orphan := true));
  }

  /** The three steps of a data thread whose active connection is refused. */
  lemma RefusalSteps(s0: Sys)
    requires s0.thr == Some(ACTIVE.(at := Woken))
    ensures var t := ACTIVE.(fp := s0.datFp); var env := Env(Closed, false, true, 0);
      var s1, s2 := MoveTo(s0, t, Connect), MoveTo(s0, t, Refused);
      && DataNext(s0, ACTIVE.(at := Woken), env) == Some(s1)
      && DataNext(s1, t.(at := Connect), env) == Some(s2)
      && DataNext(s2, t.(at := Refused), env) == Some(Tell(MoveTo(s0, t, Close), true, 425))
  {
  }

  /** The active connection is refused, and 425 goes out. */
  lemma Refused425(ms0: seq<Move>, j0: Joint) returns (ms: seq<Move>, j: Joint)
    requires Rally(ms0) == Some(j0) && Fine(j0) && j0.sys.thr == Some(ACTIVE.(at := Woken)) && j0.sys.pc == Read
    ensures Rally(ms) == Some(j) && j == j0.(sys := j.sys) && j.sys.pc == Read && |j.sys.sent| == |j0.sys.sent| + 1
  {
    var t := ACTIVE.(fp := j0.sys.datFp);
    var s1, s2 := MoveTo(j0.sys, t, Connect), MoveTo(j0.sys, t, Refused);
    var s3 := Tell(MoveTo(j0.sys, t, Close), true, 425);
    RefusalSteps(j0.sys);
    ms := DataMoves(ms0, j0, s1);
    ms := DataMoves(ms, j0.(sys := s1), s2);
    ms := DataMoves(ms, j0.(sys := s2), s3);
    j := j0.(sys := s3);
  }

  /** Active mode: the client is idle, the server at rest, and one reply has no read. */
  lemma ActiveFailureHappens(host: C.Address) returns (ms: seq<Move>)
    ensures Rally(ms).Some?
    ensures var j := Rally(ms).value;
      && j.client.at == C.Idle && j.refused == 0 && !j.down && j.activeFailures == 1
      && |j.sys.sent| == j.client.marks + 1 && j.sys.pc == Read && Queue(j) == []
  {
    var j: Joint;
    ms, j := ReadyPort(host);
    ms, j := Lists(ms, j, false, 200, ACTIVE.(at := Waiting), host);
    ms, j := Refused425(ms, j);
    StepGivesUp(j);
    ms := More(ms, j, ClientMove(C.DataFails),
               j.(client := C.OnDataFails(j.client), link := j.link.(phase := Shut), activeFailures := 1));
  }
}
