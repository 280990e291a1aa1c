/** The client of client/main.c against the two threads of the server: a control connection that
    delivers requests and replies in order, and a data connection that is made or is not. */
module EndToEnd {
  import opened Text
  import opened Requests
  import opened Session
  import opened Server
  import opened ServerLife
  import opened ServerLogin
  import opened ServerRuns
  import opened ServerFiles
  import opened ServerReplies
  import opened ServerTells
  import Codecs
  import C = ClientChain

  /** The data connection of the last transfer asked for: the number of the data thread it is made
      to, the mode, and how far it has got. */
  datatype Phase = Shut | Calling | Up
  datatype Link = Link(thread: nat, passive: bool, phase: Phase)

  /** Both ends; read counts the requests the server has read, and shown is the directory in each 257,
      by the number of the reply. The rest is observed: transfers the server refused or dropped,
      whether it has said 421, whether a connection in passive mode failed, and how many in active
      mode. */
  datatype Joint = Joint(client: C.Chain, sys: Sys, read: nat, shown: map<nat, string>, link: Link,
                         refused: nat, dropped: nat, down: bool, orphan: bool, activeFailures: nat)

  datatype Move = ClientMove(h: C.Happening) | ServerMove(e: Event)

  /** The control connection has just been made. */
  const START := Joint(C.Chain(C.Auth1, true, None, 1, [], 0, 0), INIT, 0, map[], Link(0, true, Shut),
                       0, 0, false, false, 0)

  /** Requests written but not yet read. */
  function Queue(j: Joint): seq<Request>
  {
    if j.read <= |j.client.asked| then j.client.asked[j.read..] else []
  }

  /** Reads are served in the order in which they were issued: the read a callback waits for is the
      last one issued, so its reply is the one with that number. */
  predicate Answered(j: Joint, code: nat)
  {
    0 < j.client.marks <= |j.sys.sent| && j.sys.sent[j.client.marks - 1].code == code
  }

  function Text257(wd: string): string { Codecs.Markf(Codecs.Msg257(wd)) + "\n" }

  function Text227(a: C.Address): string { Codecs.Markf(Codecs.Msg227(a)) + "\n" }

  /** That reply has a text the server can have given it; only those of 257 and 227 matter. */
  ghost predicate Carries(j: Joint, code: nat, text: string)
  {
    && (code == 257 ==> j.client.marks > 0 && j.client.marks - 1 in j.shown &&
                        text == Text257(j.shown[j.client.marks - 1]))
    && (code == 227 ==> exists a: C.Address :: text == Text227(a))
  }

  /** The data of a transfer are over: the server has closed the connection, or the client has sent
      everything. */
  predicate DataOver(j: Joint)
  {
    j.link.phase == Up && j.client.at.Moving? &&
    (j.client.at.job.Store? || (j.sys.thr.Some? && (j.sys.thr.value.at == Forget || Gone(j.sys.thr.value.at))))
  }

  /** What the client writes is letters and, behind a space, one line. */
  predicate NewWellFormed(c: C.Chain, c': C.Chain)
  {
    |c'.asked| > |c.asked| ==> WellFormed(c'.asked[|c'.asked| - 1])
  }

  function LinkAfter(j: Joint, h: C.Happening, c: C.Chain): Link
  {
    if c.at.Moving? && !j.client.at.Moving? then Link(j.sys.created, j.client.at.DataPasv1?, Calling)
    else if h.DataFails? then j.link.(phase := Shut)
    else j.link
  }

  ghost function ClientStep(j: Joint, h: C.Happening): Option<Joint>
  {
    if h.Connected? || (h.Mark? && !(Answered(j, h.code) && Carries(j, h.code, h.text))) || (h.DataEnd? && !DataOver(j))
       || (h.DataFails? && j.link.phase != Calling) then None
    else
      match C.Happen(j.client, h)
      case None => None
      case Some(c) =>
        if !NewWellFormed(j.client, c) then None
        else Some(j.(client := c, link := LinkAfter(j, h, c),
                     orphan := j.orphan || (h.DataFails? && j.link.passive),
                     activeFailures := j.activeFailures + if h.DataFails? && !j.link.passive then 1 else 0))
  }

  predicate Reading(s: Sys, e: Event) { e.SessionStep? && s.pc == Read }

  /** The server reads the next request, or the end of the stream once the client has gone. */
  predicate Arrives(j: Joint, input: Input)
  {
    if j.read < |j.client.asked| then input == Received(j.client.asked[j.read])
    else input == Closed && j.client.at == C.Disconnected
  }

  /** The data thread gets its connection. */
  predicate Connects(s: Sys, e: Event)
  {
    e.DataStep? && s.thr.Some? && (s.thr.value.at == Accept || s.thr.value.at == Connect) && e.env.yes
  }

  predicate MayConnect(j: Joint)
  {
    j.link.phase == Calling && j.link.thread == j.sys.created
    && (j.sys.thr.Some? ==> (j.link.passive <==> j.sys.thr.value.at == Accept))
  }

  /** The data thread finds that its peer has gone. */
  predicate Misses(s: Sys, e: Event)
  {
    e.DataStep? && s.thr.Some? && s.thr.value.at == Probe && e.env.yes
  }

  predicate Permitted(j: Joint, e: Event)
  {
    && (Reading(j.sys, e) ==> Arrives(j, e.env.input))
    && (Connects(j.sys, e) ==> MayConnect(j))
    && (Misses(j.sys, e) ==> !(j.link.phase == Up && j.client.at.Moving?))
  }

  /** The session is serving a LIST, RETR or STOR, up to the 150. */
  predicate Serving(pc: Pc)
  {
    match pc
    case Xfer(v, _) => IsTransfer(v)
    case Auth(v, _) => IsTransfer(v)
    case Data(v, _) => IsTransfer(v)
    case Exec(v, _) => IsTransfer(v)
    case Say(code, _) => code == 150
    case _ => false
  }

  function ServingCount(pc: Pc): nat { if Serving(pc) then 1 else 0 }

  /** A transfer that gets another reply than 150. */
  function Refusals(j: Joint, e: Event, s: Sys): nat
  {
    if Reading(j.sys, e) then
      if j.read < |j.client.asked| && C.IsTransferRequest(j.client.asked[j.read]) && !Serving(s.pc) then 1 else 0
    else ServingLost(j.sys, e, s)
  }

  function ServingLost(s: Sys, e: Event, s': Sys): nat
  {
    if e.SessionStep? && Serving(s.pc) && !s.pc.Say? && !Serving(s'.pc) then 1 else 0
  }

  /** The server tells its directory. */
  predicate Showing(s: Sys, e: Event) { e.SessionStep? && Says(s.pc, 257) }

  function ServerStep(j: Joint, e: Event): Option<Joint>
  {
    if !Permitted(j, e) then None
    else
      match Next(j.sys, e)
      case None => None
      case Some(s) =>
        Some(j.(sys := s,
                shown := if Showing(j.sys, e) then j.shown[|j.sys.sent| := j.sys.local.wd] else j.shown,
                read := if Reading(j.sys, e) && j.read < |j.client.asked| then j.read + 1 else j.read,
                link := if Connects(j.sys, e) then j.link.(phase := Up) else j.link,
                refused := j.refused + Refusals(j, e, s), dropped := j.dropped + Drops(j.sys, e),
                down := j.down || Says(s.pc, 421)))
  }

  ghost function DoMove(j: Joint, m: Move): Option<Joint>
  {
    match m
    case ClientMove(h) => ClientStep(j, h)
    case ServerMove(e) => ServerStep(j, e)
  }

  ghost function Rally(ms: seq<Move>): Option<Joint>
  {
    if ms == [] then Some(START)
    else
      match Rally(ms[..|ms| - 1])
      case None => None
      case Some(j) => DoMove(j, ms[|ms| - 1])
  }

  /** The server's share of a rally. */
  function ServerPart(ms: seq<Move>): seq<Event>
  {
    if ms == [] then []
    else
      var before := ServerPart(ms[..|ms| - 1]);
      match ms[|ms| - 1]
      case ClientMove(_) => before
      case ServerMove(e) => before + [e]
  }

  lemma ServerExtends(evs: seq<Event>, j: Joint, e: Event)
    requires Run(evs) == Some(j.sys) && Dropped(evs) == j.dropped && ServerStep(j, e).Some?
    ensures var j' := ServerStep(j, e).value; Run(evs + [e]) == Some(j'.sys) && Dropped(evs + [e]) == j'.dropped
  {
    assert (evs + [e])[..|evs|] == evs;
  }

  lemma {:induction false} ServerRan(ms: seq<Move>)
    requires Rally(ms).Some?
    ensures Run(ServerPart(ms)) == Some(Rally(ms).value.sys) && Dropped(ServerPart(ms)) == Rally(ms).value.dropped
  {
    if ms != [] {
      var before := ms[..|ms| - 1];
      ServerRan(before);
      match ms[|ms| - 1] {
        case ClientMove(h) => ClientLeaves(Rally(before).value, h);
        case ServerMove(e) => ServerExtends(ServerPart(before), Rally(before).value, e);
      }
    }
  }

  lemma ClientLeaves(j: Joint, h: C.Happening)
    requires ClientStep(j, h).Some?
    ensures var j' := ClientStep(j, h).value;
      && j'.sys == j.sys && j'.read == j.read && j'.shown == j.shown
      && j'.refused == j.refused && j'.dropped == j.dropped && j'.down == j.down
  {
  }

  /** What a step of the client does to both, whatever it is. */
  ghost predicate ClientMoved(j: Joint, h: C.Happening, j': Joint)
  {
    && j' == j.(client := j'.client, link := LinkAfter(j, h, j'.client),
                orphan := j.orphan || (h.DataFails? && j.link.passive),
                activeFailures := j.activeFailures + if h.DataFails? && !j.link.passive then 1 else 0)
    && Shape(j.client, h, j'.client) && (h.Mark? ==> Answered(j, h.code))
    && (h.DataFails? ==> j.link.phase == Calling)
  }

  lemma ClientMoves(j: Joint, h: C.Happening)
    requires ClientStep(j, h).Some?
    ensures true == ClientMoved(j, h, ClientStep(j, h).value)
  {
    HappenShape(j.client, h);
  }

  /** What every interleaving of the server keeps, for the server of a rally. */
  predicate Sound(j: Joint)
  {
    Inv(j.sys) && Files(j.sys) && Tally(j.sys, j.dropped) && Welcomed(j.sys) && Clear(j.sys) && Primed(j.sys)
  }

  lemma RallySound(ms: seq<Move>)
    requires Rally(ms).Some?
    ensures true == Sound(Rally(ms).value)
  {
    ServerRan(ms);
    RunKeeps(ServerPart(ms));
    FilesRun(ServerPart(ms));
    TallyRun(ServerPart(ms));
    WelcomedRun(ServerPart(ms));
    ModesRun(ServerPart(ms));
  }

  // ---- The requests ----

  predicate Quitting(at: C.At) { at == C.Disconn1 || at == C.Disconnected }

  /** The client takes itself to be logged in. */
  predicate InSession(at: C.At) { at !in {C.Disconnected, C.LoggedOut, C.Auth1, C.Auth2, C.Auth3} }

  const VERBS := {"USER", "PASS", "TYPE", "SYST", "PWD", "CWD", "RNFR", "RNTO", "MKD", "RMD", "DELE",
                  "PASV", "PORT", "LIST", "RETR", "STOR", "QUIT"}

  /** What the client asks, it asks with a verb of its own, and QUIT last. */
  predicate Orderly(c: C.Chain)
  {
    && (forall i :: 0 <= i < |c.asked| ==> c.asked[i].verb in VERBS && WellFormed(c.asked[i]))
    && (forall i :: 0 <= i < |c.asked| && c.asked[i].verb == "QUIT" ==> i == |c.asked| - 1 && Quitting(c.at))
    && (Quitting(c.at) ==> c.asked != [] && c.asked[|c.asked| - 1] == C.Plain("QUIT"))
  }

  /** A request on the way to a callback. */
  predicate Suits(q: Request, at: C.At)
  {
    q.verb in VERBS && (q.verb == "QUIT" <==> at == C.Disconn1) && (q.verb == "QUIT" ==> q.arg.None?)
  }

  /** How a step of the client changes what it asks. */
  ghost predicate Shape(c: C.Chain, h: C.Happening, c': C.Chain)
  {
    && (c'.asked == c.asked
        || (exists q :: c'.asked == c.asked + [q] && Suits(q, c'.at)))
    && (c'.asked == c.asked ==> (c'.at == C.Disconn1 ==> c.at == C.Disconn1))
    && (Quitting(c'.at) && !Quitting(c.at) ==> c'.at == C.Disconn1)
    && (Quitting(c.at) ==> Quitting(c'.at) && c'.asked == c.asked)
    && (InSession(c'.at) ==> InSession(c.at) || (h.Mark? && h.code == 230))
    && (c'.at.Moving? && !c.at.Moving? ==>
          h.Mark? && ModeReply(h.code) && (c.at.DataPasv1? ==> h.code == 227) && (c.at.DataPasv1? || c.at.DataPort1?)
          && c'.asked == c.asked + [C.JobRequest(c'.at.job)])
    && c'.failures == c.failures + (if h.DataFails? then 1 else 0)
    && (h.DataFails? ==> c.at.Moving? && !c'.at.Moving?)
    && c'.marks >= c.marks
  }

  lemma AskShape(c: C.Chain, h: C.Happening, at: C.At, q: Request)
    requires Suits(q, at) && !Quitting(c.at) && !at.Moving? && at != C.Disconnected
    requires InSession(at) ==> InSession(c.at) || (h.Mark? && h.code == 230)
    requires !h.DataFails?
    ensures true == Shape(c, h, C.Ask(c, at, q))
  {
  }

  lemma StopShape(c: C.Chain, h: C.Happening)
    requires !Quitting(c.at) && !h.DataFails?
    ensures InSession(c.at) ==> true == Shape(c, h, C.Stop(c))
    ensures true == Shape(c, h, C.StopLogin(c))
  {
  }

  lemma InterShape(c: C.Chain, h: C.Happening, job: C.Job)
    requires h.Mark? && ModeReply(h.code) && (c.at.DataPasv1? ==> h.code == 227) && (c.at.DataPasv1? || c.at.DataPort1?)
    ensures true == Shape(c, h, C.Inter(c, job))
  {
  }

  lemma DoDataShape(c: C.Chain, h: C.Happening, job: C.Job, port: Option<C.Address>)
    requires InSession(c.at) && !Quitting(c.at) && !h.DataFails?
    ensures true == Shape(c, h, C.DoData(c, job, port))
  {
    AskShape(c, h, C.DataPasv1(job), C.Plain("PASV"));
    if port.Some? { AskShape(c, h, C.DataPort1(job), C.With("PORT", Codecs.Commas(port.value))); }
    StopShape(c, h);
  }

  lemma DirectoryShape(c: C.Chain, h: C.Happening, text: string, port: Option<C.Address>)
    requires InSession(c.at) && !Quitting(c.at) && !h.DataFails?
    ensures C.OnDirectory(c, text, port).Some? ==> true == Shape(c, h, C.OnDirectory(c, text, port).value)
  {
    match Codecs.RecoverDirectory(text) {
      case NoQuote => StopShape(c.(cwd := None), h);
      case BadLength =>
      case Directory(path) => DoDataShape(c.(cwd := Some(path)), h, C.Listing, port);
    }
  }

  lemma ClickShape(c: C.Chain, start: C.Start, port: Option<C.Address>)
    requires c.at == C.Idle
    ensures true == Shape(c, C.Click(start, port), C.OnClick(c, start, port))
  {
    var h := C.Click(start, port);
    StopShape(c, h);
    match start {
      case DoCwd(name) => AskShape(c, h, C.Cwd1, C.With("CWD", name));
      case DoRename(from, to) => AskShape(c, h, C.Rename1(to), C.With("RNFR", from));
      case DoMkd(name) => AskShape(c, h, C.Mkd1, C.With("MKD", name));
      case DoRm(isDir, name) => AskShape(c, h, C.Rm1, C.With(if isDir then "RMD" else "DELE", name));
      case DoRetr(name, fd) => if fd.Some? { DoDataShape(c, h, C.Retrieve(name, fd.value), port); }
      case DoStor(name, fd) => if fd.Some? { DoDataShape(c, h, C.Store(name, fd.value), port); }
      case DoQuit => AskShape(c, h, C.Disconn1, C.Plain("QUIT"));
    }
  }

  lemma MarkShape(c: C.Chain, code: nat, text: string, entry: string, port: Option<C.Address>)
    requires C.OnMark(c, code, text, entry, port).Some?
    ensures true == Shape(c, C.Mark(code, text, entry, port), C.OnMark(c, code, text, entry, port).value)
  {
    var h := C.Mark(code, text, entry, port);
    if !Quitting(c.at) { StopShape(c, h); }
    if InSession(c.at) && !Quitting(c.at) { AskShape(c, h, C.List1, C.Plain("PWD")); }
    match c.at {
      case Auth1 => AskShape(c, h, C.Auth2, C.With("USER", entry));
      case Auth2 => AskShape(c, h, C.Auth3, C.With("PASS", entry));
      case Auth3 => if code == 230 { AskShape(c, h, C.Sys1, C.With("TYPE", "I")); }
      case Sys1 => AskShape(c, h, C.Sys2, C.Plain("SYST"));
      case List1 => if code == 257 { DirectoryShape(c, h, text, port); }
      case Rename1(to) => AskShape(c, h, C.Rename2, C.With("RNTO", to));
      case DataPasv1(job) => if code == 227 { InterShape(c, h, job); }
      case DataPort1(job) => if code == 200 { InterShape(c, h, job); }
      case _ =>
    }
  }

  lemma HappenShape(c: C.Chain, h: C.Happening)
    requires !h.Connected? && C.Happen(c, h).Some?
    ensures true == Shape(c, h, C.Happen(c, h).value)
  {
    match h {
      case Click(start, port) => ClickShape(c, start, port);
      case Mark(code, text, entry, port) => MarkShape(c, code, text, entry, port);
      case _ =>
    }
  }

  lemma OrderlyStep(c: C.Chain, h: C.Happening, c': C.Chain)
    requires Orderly(c) && Shape(c, h, c') && NewWellFormed(c, c')
    ensures true == Orderly(c')
  {
    if c'.asked != c.asked {
      var q :| c'.asked == c.asked + [q] && Suits(q, c'.at);
    }
  }

  // ---- What the server makes of them ----

  lemma UpperSame(s: string)
    requires forall i :: 0 <= i < |s| ==> !IsLower(s[i])
    ensures Upper(s) == s
  {
  }

  lemma KnownUpper(verb: string)
    requires verb in VERBS
    ensures Upper(verb) == verb && verb != ""
  {
    UpperSame(verb);
  }

  lemma KnownVerb(verb: string)
    requires verb in VERBS
    ensures IsTransfer(VerbOf(verb)) <==> verb == "LIST" || verb == "RETR" || verb == "STOR"
    ensures (VerbOf(verb) == QUIT <==> verb == "QUIT") && VerbOf(verb) != ABOR
  {
  }

  /** Reading a request: QUIT ends the loop, everything else is one line, and only a transfer that
      fits the buffer is served as one. */
  lemma ReadRequest(s: Sys, q: Request)
    requires s.pc == Read && q.verb in VERBS && (q.verb == "QUIT" ==> q.arg.None?)
    ensures var s' := ReadStep(s, Received(q));
      && s' == s.(pc := s'.pc, lines := s'.lines)
      && s'.lines == s.lines + (if q.verb == "QUIT" then 0 else 1)
      && (Serving(s'.pc) ==> C.IsTransferRequest(q))
      && (if q.verb == "QUIT" then s'.pc == CtRead(ForQuit) else !s'.pc.CtRead?)
      && (s'.pc.CtRead? || s'.pc.Say? || s'.pc.Xfer?)
      && (s'.pc.Say? ==> s'.pc.after == ToRead)
  {
    KnownUpper(q.verb);
    ReadFrame(s, Received(q));
    if |Body(q)| < CMD_SIZE { DispatchRequest(s, q.verb, ArgText(q)); }
  }

  lemma DispatchRequest(s: Sys, verb: string, arg: string)
    requires verb in VERBS
    ensures var s' := Dispatch(s, VerbOf(verb), arg);
      && s'.lines == s.lines + (if verb == "QUIT" then 0 else 1)
      && (Serving(s'.pc) ==> verb == "LIST" || verb == "RETR" || verb == "STOR")
      && (if verb == "QUIT" then s'.pc == CtRead(ForQuit) else !s'.pc.CtRead?)
      && (s'.pc.CtRead? || s'.pc.Say? || s'.pc.Xfer?)
      && (s'.pc.Say? ==> s'.pc.after == ToRead)
  {
    KnownVerb(verb);
    DispatchFrame(s, VerbOf(verb), arg);
  }

  /** Whether the server has read QUIT. */
  predicate QuitRead(j: Joint) { Quitting(j.client.at) && j.read == |j.client.asked| }

  function Quits(j: Joint): nat { if QuitRead(j) then 1 else 0 }

  /** Requests read, lines counted, and transfers accepted, being served or refused. */
  predicate Ledger(j: Joint)
  {
    && j.read <= |j.client.asked| && Orderly(j.client) && C.InStep(j.client) && j.client.marks > 0
    && j.sys.lines + Quits(j) == j.read
    && C.TransfersIn(j.client.asked[..j.read]) == Accepts(j.sys.sent) + ServingCount(j.sys.pc) + j.refused
  }

  lemma LedgerClient(j: Joint, h: C.Happening)
    requires Ledger(j) && ClientStep(j, h).Some?
    ensures true == Ledger(ClientStep(j, h).value)
  {
    var c := C.Happen(j.client, h).value;
    HappenShape(j.client, h);
    OrderlyStep(j.client, h, c);
    C.HappenInStep(j.client, h);
    ClientLeaves(j, h);
    if c.asked != j.client.asked {
      var q :| c.asked == j.client.asked + [q] && Suits(q, c.at);
      assert c.asked[..j.read] == j.client.asked[..j.read];
    }
  }

  lemma NextTransfer(qs: seq<Request>, n: nat)
    requires n < |qs|
    ensures C.TransfersIn(qs[..n + 1]) == C.TransfersIn(qs[..n]) + if C.IsTransferRequest(qs[n]) then 1 else 0
  {
    assert qs[..n + 1][..n] == qs[..n];
  }

  // ---- The ledger of the server ----

  /** Everywhere but where requests are read, lines stay, and a transfer being served is accepted or
      lost. */
  predicate Steady(s: Sys, e: Event, s': Sys)
  {
    && s'.lines == s.lines
    && Accepts(s'.sent) + ServingCount(s'.pc) + ServingLost(s, e, s') == Accepts(s.sent) + ServingCount(s.pc)
  }

  lemma SteadyData(s: Sys, env: Env)
    requires Inv(s) && s.thr.Some? && DataNext(s, s.thr.value, env).Some?
    ensures true == Steady(s, DataStep(env), DataNext(s, s.thr.value, env).value)
  {
    DataFrame(s, env);
    AcceptsData(s, s.thr.value, env);
  }

  lemma AcceptsData(s: Sys, t: Thread, env: Env)
    requires s.thr == Some(t) && DataNext(s, t, env).Some?
    ensures Accepts(DataNext(s, t, env).value.sent) == Accepts(s.sent)
  {
    TellCounts(s.sent, Sent(true, 425));
    match t.at {
      case Report => AcceptsReport(s, t);
      case Enter => case Waiting => case Woken => case Connect => case Refused => case Poll => case Accept =>
      case Take => case Probe => case Block => case Close => case Forget => case Settle => case Ended =>
    }
  }

  lemma AcceptsReport(s: Sys, t: Thread)
    ensures Accepts(ReportStep(s, t).sent) == Accepts(s.sent)
  {
    TellCounts(s.sent, Sent(true, 226));
    TellCounts(s.sent, Sent(true, 451));
  }

  lemma SteadySay(s: Sys, code: nat, after: After, env: Env)
    requires s.pc == Say(code, after)
    ensures true == Steady(s, SessionStep(env), SayStep(s, code, after))
  {
    TellCounts(s.sent, Sent(false, code));
  }

  /** Steps that send nothing and do not read. */
  lemma SteadySilent(s: Sys, e: Event, s': Sys)
    requires s'.sent == s.sent && s'.lines == s.lines && e.SessionStep? && !s.pc.Say?
    requires Serving(s'.pc) ==> Serving(s.pc)
    ensures true == Steady(s, e, s')
  {
  }

  lemma ExecServing(s: Sys, v: Verb, arg: string, env: Env)
    requires Inv(s) && s.pc == Exec(v, arg)
    ensures Serving(ExecStep(s, v, arg, env).pc) ==> IsTransfer(v)
  {
    if v != USER && v != PASS { HandleKeepsPaths(v, s.local, arg, env.yes, env.yes2); }
  }

  lemma GuardsServing(s: Sys, env: Env)
    requires s.pc.Xfer? || s.pc.Auth? || s.pc.Data?
    ensures SessionNext(s, env).Some?
    ensures var s' := SessionNext(s, env).value;
      s'.sent == s.sent && s'.lines == s.lines && (Serving(s'.pc) ==> Serving(s.pc))
  {
  }

  lemma OtherServing(s: Sys, env: Env)
    requires SessionNext(s, env).Some? && Verbs(s.pc) && Life(s) && Announced(SessionNext(s, env).value.pc)
    requires !s.pc.Exec? && !s.pc.Say? && !s.pc.Signal? && !s.pc.Xfer? && !s.pc.Auth? && !s.pc.Data? && !s.pc.Read?
    ensures !Serving(SessionNext(s, env).value.pc)
  {
    QuietTells(s, env);
    if s.pc.Greet? || s.pc.Abor? || s.pc.Bye? {
      VerbsReplies(s, env);
    } else if s.pc.CtRead? || s.pc.CtClear? || s.pc.CtJoin? || s.pc.CtReset? {
      VerbsClose(s, env);
    } else if !s.pc.Freed? {
      VerbsModes(s, env);
    }
  }

  /** What the session's steps other than replies send: only the two greetings. */
  lemma OtherAccepts(s: Sys, env: Env)
    requires SessionNext(s, env).Some?
    requires !s.pc.Exec? && !s.pc.Say? && !s.pc.Xfer? && !s.pc.Auth? && !s.pc.Data? && !s.pc.Read?
    ensures Accepts(SessionNext(s, env).value.sent) == Accepts(s.sent)
  {
    if s.pc.Greet? {
      TellCounts(s.sent, Sent(false, 220));
    } else if s.pc.Bye? {
      TellCounts(s.sent, Sent(false, 221));
    } else {
      SilentSession(s, env);
    }
  }

  lemma SteadySession(s: Sys, env: Env)
    requires Inv(s) && SessionNext(s, env).Some? && s.pc != Read && Announced(SessionNext(s, env).value.pc)
    ensures true == Steady(s, SessionStep(env), SessionNext(s, env).value)
  {
    var e, s' := SessionStep(env), SessionNext(s, env).value;
    if s.pc.Exec? {
      ExecTells(s, s.pc.verb, s.pc.arg, env);
      ExecServing(s, s.pc.verb, s.pc.arg, env);
      SteadySilent(s, e, s');
    } else if s.pc.Say? {
      SteadySay(s, s.pc.code, s.pc.after, env);
    } else if s.pc.Xfer? || s.pc.Auth? || s.pc.Data? {
      GuardsServing(s, env);
      SteadySilent(s, e, s');
    } else {
      SessionFrame(s, env);
      OtherAccepts(s, env);
      if !s.pc.Signal? { OtherServing(s, env); }
    }
  }

  /** One more request is read. */
  lemma LedgerReads(j: Joint, s: Sys)
    requires Ledger(j) && j.read < |j.client.asked| && j.sys.pc == Read
    requires var q := j.client.asked[j.read];
      && s.lines == j.sys.lines + (if q.verb == "QUIT" then 0 else 1) && s.sent == j.sys.sent
      && (Serving(s.pc) ==> C.IsTransferRequest(q))
    ensures var q := j.client.asked[j.read];
      true == Ledger(j.(sys := s, read := j.read + 1,
                        refused := j.refused + if C.IsTransferRequest(q) && !Serving(s.pc) then 1 else 0))
  {
    NextTransfer(j.client.asked, j.read);
  }

  lemma LedgerEnds(j: Joint, s: Sys)
    requires Ledger(j) && j.sys.pc == Read && s.lines == j.sys.lines && s.sent == j.sys.sent && !Serving(s.pc)
    ensures true == Ledger(j.(sys := s))
  {
  }

  /** The ledger does not depend on the other observations. */
  lemma LedgerSame(j: Joint, k: Joint)
    requires Ledger(j) && k.client == j.client && k.sys == j.sys && k.read == j.read && k.refused == j.refused
    ensures true == Ledger(k)
  {
  }

  /** What a read of the session does, as far as the ledger goes. */
  predicate ReadAs(j: Joint, j': Joint)
  {
    && j'.client == j.client && j'.sys.sent == j.sys.sent
    && if j.read < |j.client.asked| then
         var q := j.client.asked[j.read];
         && j'.read == j.read + 1 && (Serving(j'.sys.pc) ==> C.IsTransferRequest(q))
         && j'.sys.lines == j.sys.lines + (if q.verb == "QUIT" then 0 else 1)
         && j'.refused == j.refused + if C.IsTransferRequest(q) && !Serving(j'.sys.pc) then 1 else 0
       else
         j'.read == j.read && j'.sys.lines == j.sys.lines && j'.refused == j.refused && !Serving(j'.sys.pc)
  }

  lemma ReadsOn(j: Joint, e: Event)
    requires Orderly(j.client) && ServerStep(j, e).Some? && Reading(j.sys, e)
    ensures true == ReadAs(j, ServerStep(j, e).value)
  {
    if j.read < |j.client.asked| { ReadsMore(j, e); } else { ReadsEnd(j, e); }
  }

  lemma ReadsMore(j: Joint, e: Event)
    requires Orderly(j.client) && ServerStep(j, e).Some? && Reading(j.sys, e) && j.read < |j.client.asked|
    ensures true == ReadAs(j, ServerStep(j, e).value)
  {
    ReadRequest(j.sys, j.client.asked[j.read]);
  }

  lemma ReadsEnd(j: Joint, e: Event)
    requires ServerStep(j, e).Some? && Reading(j.sys, e) && j.read >= |j.client.asked|
    ensures true == ReadAs(j, ServerStep(j, e).value)
  {
  }

  lemma LedgerReadAs(j: Joint, j': Joint)
    requires Ledger(j) && ReadAs(j, j') && j.sys.pc == Read
    ensures true == Ledger(j')
  {
    if j.read < |j.client.asked| {
      LedgerReads(j, j'.sys);
      LedgerSame(j.(sys := j'.sys, read := j.read + 1, refused := j'.refused), j');
    } else {
      LedgerEnds(j, j'.sys);
      LedgerSame(j.(sys := j'.sys), j');
    }
  }

  lemma LedgerReading(j: Joint, e: Event)
    requires Ledger(j) && ServerStep(j, e).Some? && Reading(j.sys, e)
    ensures true == Ledger(ServerStep(j, e).value)
  {
    ReadsOn(j, e);
    LedgerReadAs(j, ServerStep(j, e).value);
  }

  lemma LedgerMoves(j: Joint, e: Event)
    requires Ledger(j) && ServerStep(j, e).Some? && !Reading(j.sys, e) && Steady(j.sys, e, Next(j.sys, e).value)
    ensures true == Ledger(ServerStep(j, e).value)
  {
  }

  lemma LedgerServer(j: Joint, e: Event)
    requires Ledger(j) && Sound(j) && ServerStep(j, e).Some? &&
      Tally(ServerStep(j, e).value.sys, ServerStep(j, e).value.dropped)
    ensures true == Ledger(ServerStep(j, e).value)
  {
    if Reading(j.sys, e) {
      LedgerReading(j, e);
    } else {
      match e {
        case SessionStep(env) => SteadySession(j.sys, env);
        case DataStep(env) => SteadyData(j.sys, env);
      }
      LedgerMoves(j, e);
    }
  }

  lemma LedgerStep(j: Joint, m: Move)
    requires true == Ledger(j) && true == Sound(j) && DoMove(j, m).Some? && true == Sound(DoMove(j, m).value)
    ensures true == Ledger(DoMove(j, m).value)
  {
    match m {
      case ClientMove(h) => LedgerClient(j, h);
      case ServerMove(e) => LedgerServer(j, e);
    }
  }

  lemma {:induction false} LedgerRally(ms: seq<Move>)
    requires Rally(ms).Some?
    ensures true == Ledger(Rally(ms).value)
  {
    if ms == [] {
      LedgerStart();
    } else {
      var before := ms[..|ms| - 1];
      LedgerRally(before);
      RallySound(before);
      RallySound(ms);
      LedgerStep(Rally(before).value, ms[|ms| - 1]);
    }
  }

  lemma LedgerStart()
    ensures true == Ledger(START)
  {
  }

  // ---- The balance ----

  /** Replies the server owes, by its own state and what it has yet to read: for the command it
      serves, for each request in the queue, for each accepted transfer its data threads have not
      reported, and for each transfer it has yet to accept. QUIT is answered by the goodbye. */
  function Owed(j: Joint): int
  {
    Owes(j.sys.pc) - 1 + Quits(j) + |Queue(j)| + Pending(j.sys) + ServingCount(j.sys.pc) + C.TransfersIn(Queue(j))
  }

  lemma {:induction false} TransfersAppend(a: seq<Request>, b: seq<Request>)
    ensures C.TransfersIn(a + b) == C.TransfersIn(a) + C.TransfersIn(b)
    decreases |b|
  {
    if b == [] {
      assert a + b == a;
    } else {
      TransfersAppend(a, b[..|b| - 1]);
      assert (a + b)[..|a + b| - 1] == a + b[..|b| - 1];
    }
  }

  lemma BalanceOf(j: Joint)
    requires Ledger(j) && Tally(j.sys, j.dropped)
    ensures j.client.marks + j.client.failures + (if j.client.at.Moving? then 1 else 0)
         == |j.sys.sent| + Owed(j) + j.dropped + j.refused
  {
    SplitTransfers(j.client.asked, j.read);
    assert j.sys.lines + Quits(j) == j.read && |Queue(j)| == |j.client.asked| - j.read;
  }

  lemma {:induction false} SplitTransfers(qs: seq<Request>, n: nat)
    requires n <= |qs|
    ensures C.TransfersIn(qs) == C.TransfersIn(qs[..n]) + C.TransfersIn(qs[n..])
  {
    TransfersAppend(qs[..n], qs[n..]);
    assert qs == qs[..n] + qs[n..];
  }

  /** The law of the whole conversation, in every interleaving of the client, the session and the
      data threads: the reads issued, and those left out for failed connections or still to come for
      the transfer under way, are the replies sent, owed, and lost to transfers that were refused or
      dropped. */
  lemma Balance(ms: seq<Move>)
    requires Rally(ms).Some?
    ensures var j := Rally(ms).value;
      j.client.marks + j.client.failures + (if j.client.at.Moving? then 1 else 0)
      == |j.sys.sent| + Owed(j) + j.dropped + j.refused
  {
    LedgerRally(ms);
    RallySound(ms);
    BalanceOf(Rally(ms).value);
  }
}
