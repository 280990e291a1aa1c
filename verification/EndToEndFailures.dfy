/** What failed data connections do to the balance of reads and replies: in passive mode nothing, in
    active mode one reply too many each. */
module EndToEndFailures {
  import opened Text
  import opened Requests
  import opened Session
  import opened Server
  import opened ServerLife
  import opened ServerLogin
  import opened ServerRuns
  import opened ServerFiles
  import opened ServerReplies
  import opened ServerTells
  import opened EndToEnd
  import C = ClientChain

  /** The session is on its way out, or serves ABOR. */
  predicate Leaving(pc: Pc)
  {
    match pc
    case Say(_, after) => after.ToBye?
    case Abor => true
    case CtRead(why) => ToLeave(why)
    case CtClear(why) => ToLeave(why)
    case CtJoin(why) => ToLeave(why)
    case CtReset(why) => ToLeave(why)
    case Bye => true
    case Freed => true
    case _ => false
  }

  predicate ToLeave(why: Why) { why == ForQuit || why == ForAbor || why == ForClose }

  /** Every transfer read was accepted, no active connection failed, no 421, and no QUIT. */
  predicate Calm(j: Joint)
  {
    j.refused == 0 && !j.down && j.activeFailures == 0 && !Quitting(j.client.at)
  }

  /** Behind a 227 that the client may still have to act on, the data thread is a new one. */
  predicate Renewed(j: Joint)
  {
    Says(j.sys.pc, 227) || (j.sys.pc == Read && LastCode(j.sys.sent) == 227 && j.read == |j.client.asked|) ==>
      j.link.thread < j.sys.created
  }

  /** The last transfer asked for is on its way into dat_fp, or there, and its passive data thread has
      no connection. */
  predicate Waits(j: Joint)
  {
    && j.sys.running && j.sys.thr.Some? && Unconnected(j.sys.thr.value)
    && (j.sys.datFp.Some? || j.sys.pc.Signal? || Serving(j.sys.pc)
        || (j.sys.pc == Read && j.read < |j.client.asked| && C.IsTransferRequest(j.client.asked[j.read])))
  }

  predicate Unconnected(t: Thread)
  {
    t.mode == Passive && !t.connected && t.fp.None? && (t.at == Poll || t.at == Accept)
  }

  predicate Placed(j: Joint)
  {
    && (!Quitting(j.client.at) && !j.down ==> !Leaving(j.sys.pc) && j.dropped == 0)
    && j.link.thread <= j.sys.created
    && (j.sys.thr.Some? && j.sys.thr.value.mode == Passive && j.sys.thr.value.connected ==>
      j.link.thread == j.sys.created)
    && j.client.failures >= j.activeFailures + (if j.orphan then 1 else 0)
  }

  predicate Orphaned(j: Joint)
  {
    && (j.orphan || (j.client.at.Moving? && j.link.passive && j.link.phase == Calling) ==> Waits(j))
    && (j.orphan ==> j.link.phase == Shut && !j.client.at.Moving?)
    && j.client.failures == if j.orphan then 1 else 0
  }

  predicate Neat(j: Joint)
  {
    Placed(j) && (Calm(j) ==> Renewed(j) && Orphaned(j))
  }

  // ---- A callback finds the server at rest ----

  lemma OwesAtLeast(pc: Pc)
    requires !Leaving(pc)
    ensures Owes(pc) >= 1 && (Owes(pc) == 1 ==> pc == Read || pc.Signal?) && (Serving(pc) ==> Owes(pc) == 2)
  {
  }

  /** With nothing failed, refused or dropped, a reply that a callback waits for is the last one, and
      the server is at rest. */
  lemma AtRest(j: Joint)
    requires Ledger(j) && Tally(j.sys, j.dropped) && j.dropped == 0 && j.refused == 0 && j.client.failures == 0
    requires !Leaving(j.sys.pc) && !j.client.at.Moving? && 0 < j.client.marks <= |j.sys.sent|
    ensures j.sys.pc == Read && j.read == |j.client.asked| && Pending(j.sys) == 0 && |j.sys.sent| == j.client.marks
  {
    BalanceOf(j);
    OwesAtLeast(j.sys.pc);
  }

  lemma QueuedTransfer(j: Joint)
    requires j.read < |j.client.asked| && C.IsTransferRequest(j.client.asked[j.read])
    ensures |Queue(j)| >= 1 && C.TransfersIn(Queue(j)) >= 1
  {
    var q := Queue(j);
    assert q == [q[0]] + q[1..];
    TransfersAppend([q[0]], q[1..]);
    C.TransfersMore([], q[0]);
    assert [] + [q[0]] == [q[0]];
  }

  /** Behind a failed passive connection, no reply a callback waits for sets a mode. */
  lemma OrphanGetsNoMode(j: Joint, code: nat)
    requires Ledger(j) && Tally(j.sys, j.dropped) && j.dropped == 0 && j.refused == 0 && j.client.failures == 1
    requires Clear(j.sys) && Waits(j) && !Leaving(j.sys.pc) && !j.client.at.Moving? && Answered(j, code)
    ensures !ModeReply(code)
  {
    BalanceOf(j);
    OwesAtLeast(j.sys.pc);
    if j.sys.pc == Read && j.sys.datFp.None? { QueuedTransfer(j); }
  }

  /** The reply that makes the client go on to a transfer. */
  lemma Entering(j: Joint, code: nat)
    requires Neat(j) && Calm(j) && Ledger(j) && Sound(j) && !j.client.at.Moving?
    requires Answered(j, code) && ModeReply(code)
    ensures !j.orphan && j.sys.pc == Read && j.read == |j.client.asked| && LastCode(j.sys.sent) == code
  {
    if j.orphan {
      OrphanGetsNoMode(j, code);
    } else {
      AtRest(j);
    }
  }

  // ---- Steps of the client ----

  lemma EnterWaits(j: Joint, j': Joint)
    requires Neat(j) && Calm(j) && Sound(j) && j.sys.pc == Read && j.read == |j.client.asked| &&
      LastCode(j.sys.sent) == 227
    requires j'.sys == j.sys && j'.read == j.read && |j'.client.asked| == |j.client.asked| + 1
    requires C.IsTransferRequest(j'.client.asked[j.read])
    ensures Waits(j')
  {
    var t := j.sys.thr.value;
    assert Listening(t) && !t.connected;
  }

  lemma NeatEnters(j: Joint, h: C.Happening, j': Joint)
    requires Neat(j) && true == Ledger(j) && true == Sound(j) && ClientMoved(j, h, j')
    requires j'.client.at.Moving? && !j.client.at.Moving?
    ensures true == Neat(j')
  {
    if Calm(j') {
      Entering(j, h.code);
      if j.client.at.DataPasv1? { EnterWaits(j, j'); }
      EntersCalmly(j, j');
    }
  }

  lemma EntersCalmly(j: Joint, j': Joint)
    requires Neat(j) && Calm(j) && !j.orphan && j.sys.pc == Read && j'.sys == j.sys && j'.read == j.read
    requires j'.orphan == j.orphan && j'.client.failures == j.client.failures
    requires j.read == |j.client.asked| < |j'.client.asked|
    requires j'.link.passive ==> Waits(j')
    ensures Renewed(j') && Orphaned(j')
  {
  }

  lemma NeatFails(j: Joint, j': Joint)
    requires Neat(j) && ClientMoved(j, C.DataFails, j') && j.read <= |j.client.asked|
    ensures true == Neat(j')
  {
    if Waits(j) { WaitsAsking(j, j'); }
  }

  lemma WaitsAsking(j: Joint, j': Joint)
    requires Waits(j) && j'.sys == j.sys && j'.read == j.read && j.client.asked <= j'.client.asked
    ensures Waits(j')
  {
  }

  lemma NeatOther(j: Joint, h: C.Happening, j': Joint)
    requires Neat(j) && ClientMoved(j, h, j') && j.read <= |j.client.asked| && !h.DataFails?
    requires !j'.client.at.Moving? || j.client.at.Moving?
    ensures true == Neat(j')
  {
    assert Calm(j') ==> Calm(j);
    if Waits(j) { WaitsAsking(j, j'); }
  }

  lemma NeatClient(j: Joint, h: C.Happening)
    requires Neat(j) && Ledger(j) && true == Sound(j) && ClientStep(j, h).Some?
    ensures true == Neat(ClientStep(j, h).value)
  {
    var j' := ClientStep(j, h).value;
    ClientMoves(j, h);
    if h.DataFails? {
      NeatFails(j, j');
    } else if j'.client.at.Moving? && !j.client.at.Moving? {
      NeatEnters(j, h, j');
    } else {
      NeatOther(j, h, j');
    }
  }

  // ---- Steps of the server ----

  /** The session comes to leave only by QUIT, ABOR, the end of the stream, or a 421. */
  lemma StaysOn(s: Sys, env: Env)
    requires !Leaving(s.pc) && s.pc != Read && SessionNext(s, env).Some? && !Says(SessionNext(s, env).value.pc, 421)
    ensures !Leaving(SessionNext(s, env).value.pc)
  {
    if s.pc.Exec? {
      ExecFrame(s, s.pc.verb, s.pc.arg, env);
    } else if s.pc.Xfer? || s.pc.Auth? || s.pc.Data? {
      GuardsStay(s, env);
    } else if s.pc.Say? || s.pc.Signal? || s.pc.Greet? {
    } else if s.pc.CtRead? || s.pc.CtClear? || s.pc.CtJoin? || s.pc.CtReset? {
      CloseStays(s, env);
    } else {
      ModesStay(s, env);
    }
  }

  lemma GuardsStay(s: Sys, env: Env)
    requires s.pc.Xfer? || s.pc.Auth? || s.pc.Data?
    ensures SessionNext(s, env).Some? && !Leaving(SessionNext(s, env).value.pc)
  {
  }

  lemma CloseStays(s: Sys, env: Env)
    requires s.pc.CtRead? || s.pc.CtClear? || s.pc.CtJoin? || s.pc.CtReset?
    requires !Leaving(s.pc) && SessionNext(s, env).Some?
    ensures !Leaving(SessionNext(s, env).value.pc)
  {
  }

  lemma ModesStay(s: Sys, env: Env)
    requires s.pc.PortScan? || s.pc.PortRun? || s.pc.PortCreate? || s.pc.PortState?
          || s.pc.PasvOpen? || s.pc.PasvState? || s.pc.PasvRun? || s.pc.PasvCreate?
    requires SessionNext(s, env).Some? && !Says(SessionNext(s, env).value.pc, 421)
    ensures !Leaving(SessionNext(s, env).value.pc)
  {
  }

  /** A request other than QUIT leaves the session serving. */
  lemma ReadStays(s: Sys, q: Request)
    requires s.pc == Read && q.verb in VERBS && q.verb != "QUIT"
    ensures !Leaving(ReadStep(s, Received(q)).pc)
  {
    ReadRequest(s, q);
  }

  lemma StaysOnStep(j: Joint, e: Event)
    requires Placed(j) && Ledger(j) && ServerStep(j, e).Some? && !Quitting(j.client.at) && !ServerStep(j, e).value.down
    ensures !Leaving(ServerStep(j, e).value.sys.pc)
  {
    match e {
      case DataStep(env) => DataFrame(j.sys, env);
      case SessionStep(env) =>
        if j.sys.pc == Read {
          ReadStays(j.sys, j.client.asked[j.read]);
        } else {
          StaysOn(j.sys, env);
        }
    }
  }

  lemma NoDrop(s: Sys, e: Event)
    requires Life(s) && Files(s) && !Leaving(s.pc)
    ensures Drops(s, e) == 0
  {
    DropsStopped(s, e);
    if Drops(s, e) > 0 { JoinCommitted(s); }
  }

  /** Data threads are numbered as they are created, and begin without a connection. */
  predicate Numbered(s: Sys, e: Event, s': Sys)
  {
    && (s'.created == s.created || (s'.created == s.created + 1 && s'.thr.Some? && !s'.thr.value.connected))
    && (s'.created == s.created && s'.thr.Some? ==>
          s.thr.Some? && s'.thr.value.mode == s.thr.value.mode
          && (s'.thr.value.connected ==> s.thr.value.connected || Connects(s, e)))
  }

  lemma NumberedData(s: Sys, t: Thread, env: Env)
    requires Life(s) && s.thr == Some(t) && DataNext(s, t, env).Some?
    ensures true == Numbered(s, DataStep(env), DataNext(s, t, env).value)
  {
    match t.at {
      case Report => ReportFrame(s, t);
      case Enter => case Waiting => case Woken => case Connect => case Refused => case Poll => case Accept =>
      case Take => case Probe => case Block => case Close => case Forget => case Settle => case Ended =>
    }
  }

  lemma NumberedPlain(s: Sys, env: Env)
    requires s.pc != Read && !s.pc.Exec? && Life(s) && SessionNext(s, env).Some?
    ensures true == Numbered(s, SessionStep(env), SessionNext(s, env).value)
  {
    match s.pc {
      case Greet => case Xfer(_, _) => case Auth(_, _) => case Data(_, _) => case Say(_, _) => case Signal(_) =>
      case Abor => case CtRead(_) => case CtClear(_) => case CtJoin(_) => case CtReset(_) => case PortScan(_) =>
      case PortRun => case PortCreate => case PortState => case PasvOpen => case PasvState => case PasvRun =>
      case PasvCreate => case Bye => case Freed =>
    }
  }

  lemma NumberedSession(s: Sys, env: Env)
    requires Life(s) && SessionNext(s, env).Some?
    ensures true == Numbered(s, SessionStep(env), SessionNext(s, env).value)
  {
    match s.pc {
      case Read => ReadFrame(s, env.input);
      case Exec(v, arg) => ExecFrame(s, v, arg, env);
      case _ => NumberedPlain(s, env);
    }
  }

  lemma NumberedStep(s: Sys, e: Event)
    requires Life(s) && Next(s, e).Some?
    ensures true == Numbered(s, e, Next(s, e).value)
  {
    match e {
      case SessionStep(env) => NumberedSession(s, env);
      case DataStep(env) => NumberedData(s, s.thr.value, env);
    }
  }

  lemma PlacedServer(j: Joint, e: Event)
    requires Placed(j) && Ledger(j) && Sound(j) && ServerStep(j, e).Some?
    ensures true == Placed(ServerStep(j, e).value)
  {
    NumberedStep(j.sys, e);
    var j' := ServerStep(j, e).value;
    if !Quitting(j.client.at) && !j'.down {
      StaysOnStep(j, e);
      NoDrop(j.sys, e);
    }
    PlacedAfter(j, j', e);
  }

  lemma PlacedAfter(j: Joint, j': Joint, e: Event)
    requires Placed(j) && Numbered(j.sys, e, j'.sys) && (Connects(j.sys, e) ==> MayConnect(j))
    requires j'.client == j.client && j'.link == (if Connects(j.sys, e) then j.link.(phase := Up) else j.link)
    requires j'.orphan == j.orphan && j'.activeFailures == j.activeFailures
    requires !Quitting(j.client.at) && !j'.down ==> !Leaving(j'.sys.pc) && j'.dropped == 0
    ensures true == Placed(j')
  {
  }

  /** How the session comes to stand behind a 227. */
  lemma Behind227(s: Sys, e: Event)
    requires Inv(s) && Clear(s) && Announced(s.pc) && Next(s, e).Some?
    ensures var s' := Next(s, e).value;
      && (Says(s'.pc, 227) ==> s'.created == s.created + 1 || (e.DataStep? && Says(s.pc, 227)))
      && (s'.pc == Read && LastCode(s'.sent) == 227 ==>
            Says(s.pc, 227) || (e.DataStep? && s.pc == Read && LastCode(s.sent) == 227))
  {
    match e {
      case DataStep(env) =>
        DataFrame(s, env);
        TellsData(s, s.thr.value, env);
        LastOfMore(s, Next(s, e).value);
      case SessionStep(env) => Session227(s, env);
    }
  }

  lemma Session227(s: Sys, env: Env)
    requires Inv(s) && Clear(s) && Announced(s.pc) && SessionNext(s, env).Some?
    ensures var s' := SessionNext(s, env).value;
      && (Says(s'.pc, 227) ==> s'.created == s.created + 1)
      && (s'.pc == Read && LastCode(s'.sent) == 227 ==> Says(s.pc, 227))
  {
    if s.pc.Exec? {
      ExecTells(s, s.pc.verb, s.pc.arg, env);
      LeavesRead(s, env);
    } else if s.pc.Say? {
      Say227(s, s.pc.code, s.pc.after);
    } else if s.pc.Signal? || s.pc.Greet? {
    } else if !s.pc.Freed? {
      QuietTells(s, env);
      LeavesRead(s, env);
    }
  }

  lemma Say227(s: Sys, code: nat, after: After)
    requires s.pc == Say(code, after)
    ensures var s' := SayStep(s, code, after);
      !s'.pc.Say? && (LastCode(s'.sent) == 227 <==> code == 227)
  {
  }

  lemma RenewedServer(j: Joint, e: Event)
    requires Placed(j) && Renewed(j) && Sound(j) && ServerStep(j, e).Some?
    ensures true == Renewed(ServerStep(j, e).value)
  {
    Behind227(j.sys, e);
    NumberedStep(j.sys, e);
    RenewedAfter(j, ServerStep(j, e).value, e);
  }

  lemma RenewedAfter(j: Joint, j': Joint, e: Event)
    requires Placed(j) && Renewed(j) && j'.link.thread == j.link.thread && j'.client == j.client
    requires j.sys.created <= j'.sys.created && (e.DataStep? ==> j'.read == j.read)
    requires Says(j'.sys.pc, 227) ==> j'.sys.created == j.sys.created + 1 || (e.DataStep? && Says(j.sys.pc, 227))
    requires j'.sys.pc == Read && LastCode(j'.sys.sent) == 227 ==>
      Says(j.sys.pc, 227) || (e.DataStep? && j.sys.pc == Read && LastCode(j.sys.sent) == 227)
    ensures true == Renewed(j')
  {
  }

  // ---- The orphan ----

  lemma WaitsData(j: Joint, env: Env)
    requires Waits(j) && DataNext(j.sys, j.sys.thr.value, env).Some? && !Connects(j.sys, DataStep(env))
    ensures var s' := DataNext(j.sys, j.sys.thr.value, env).value;
      && s' == j.sys.(thr := s'.thr) && s'.thr.Some? && Unconnected(s'.thr.value)
  {
  }

  /** The steps of the session that leave its data thread alone. */
  lemma SessionAlone(s: Sys, env: Env)
    requires s.thr.Some? && Unconnected(s.thr.value) && SessionNext(s, env).Some?
    requires s.pc.Read? || s.pc.Xfer? || s.pc.Auth? || s.pc.Data? || s.pc.Exec? || s.pc.Say? || s.pc.Signal? ||
      s.pc.Greet?
    ensures var s' := SessionNext(s, env).value; s'.thr == s.thr && s'.running == s.running
    ensures s.datFp.Some? && !s.pc.Signal? ==> SessionNext(s, env).value.datFp == s.datFp
  {
    if s.pc.Read? {
      ReadFrame(s, env.input);
    } else if s.pc.Exec? {
      ExecTells(s, s.pc.verb, s.pc.arg, env);
    }
  }

  /** Where the session can be while the orphan waits. */
  lemma WaitsWhere(j: Joint)
    requires Waits(j) && Life(j.sys) && !Leaving(j.sys.pc)
    ensures var pc := j.sys.pc;
      pc.Read? || pc.Xfer? || pc.Auth? || pc.Data? || pc.Exec? || pc.Say? || pc.Signal? || pc.Greet?
  {
  }

  /** A transfer being served ends up stored, or is refused. */
  lemma ServedGoesOn(s: Sys, env: Env)
    requires Announced(s.pc) && SessionNext(s, env).Some?
    requires s.pc.Signal? || Serving(s.pc)
    ensures var s' := SessionNext(s, env).value;
      s'.datFp.Some? || s'.pc.Signal? || Serving(s'.pc) || ServingLost(s, SessionStep(env), s') > 0
  {
  }

  lemma WaitsSession(j: Joint, env: Env)
    requires Waits(j) && Sound(j) && Ledger(j) && !Leaving(j.sys.pc) && ServerStep(j, SessionStep(env)).Some?
    requires ServerStep(j, SessionStep(env)).value.refused == 0
    ensures true == Waits(ServerStep(j, SessionStep(env)).value)
  {
    WaitsWhere(j);
    SessionAlone(j.sys, env);
    if (j.sys.pc.Signal? || Serving(j.sys.pc)) && j.sys.datFp.None? {
      ServedGoesOn(j.sys, env);
    }
  }

  lemma OrphanedServer(j: Joint, e: Event)
    requires Neat(j) && Orphaned(j) && Sound(j) && Ledger(j) && ServerStep(j, e).Some? && Calm(ServerStep(j, e).value)
    ensures true == Orphaned(ServerStep(j, e).value)
  {
    var j' := ServerStep(j, e).value;
    if j'.orphan || (j'.client.at.Moving? && j'.link.passive && j'.link.phase == Calling) {
      match e {
        case SessionStep(env) => WaitsSession(j, env);
        case DataStep(env) => WaitsData(j, env);
      }
    }
  }

  lemma NeatServer(j: Joint, e: Event)
    requires Neat(j) && Ledger(j) && Sound(j) && ServerStep(j, e).Some?
    ensures true == Neat(ServerStep(j, e).value)
  {
    PlacedServer(j, e);
    if Calm(ServerStep(j, e).value) {
      RenewedServer(j, e);
      OrphanedServer(j, e);
    }
  }

  lemma NeatStep(j: Joint, m: Move)
    requires true == Neat(j) && true == Ledger(j) && true == Sound(j) && DoMove(j, m).Some?
    ensures true == Neat(DoMove(j, m).value)
  {
    match m {
      case ClientMove(h) => NeatClient(j, h);
      case ServerMove(e) => NeatServer(j, e);
    }
  }

  lemma NeatStart()
    ensures true == Neat(START)
  {
  }

  lemma {:induction false} NeatRally(ms: seq<Move>)
    requires Rally(ms).Some?
    ensures true == Neat(Rally(ms).value)
  {
    if ms == [] {
      NeatStart();
    } else {
      var before := ms[..|ms| - 1];
      NeatRally(before);
      LedgerRally(before);
      RallySound(before);
      NeatStep(Rally(before).value, ms[|ms| - 1]);
    }
  }

  // ---- Main results ----

  /** Replies that are still to come: all that is owed, but for the transfer whose passive connection
      was never made. */
  function ToCome(j: Joint): int { Owed(j) - if j.orphan then 1 else 0 }

  /** In every interleaving, when all transfers are accepted and nothing has failed: a reply that a
      callback waits for comes when the server has read everything the client asked and has nothing
      more to say, and it is the last reply. */
  lemma CallbacksFindRest(ms: seq<Move>, code: nat)
    requires Rally(ms).Some?
    requires var j := Rally(ms).value;
      j.refused == 0 && !j.down && j.client.failures == 0 && !Quitting(j.client.at) && !j.client.at.Moving? &&
        Answered(j, code)
    ensures var j := Rally(ms).value;
      && j.sys.pc == Read && Queue(j) == [] && Pending(j.sys) == 0
      && |j.sys.sent| == j.client.marks && LastCode(j.sys.sent) == code
  {
    NeatRally(ms);
    LedgerRally(ms);
    RallySound(ms);
    RestAnswered(Rally(ms).value, code);
  }

  lemma RestAnswered(j: Joint, code: nat)
    requires true == Neat(j) && true == Ledger(j) && true == Sound(j)
    requires j.refused == 0 && !j.down && j.client.failures == 0 && !Quitting(j.client.at) && !j.client.at.Moving?
    requires Answered(j, code)
    ensures j.sys.pc == Read && Queue(j) == [] && Pending(j.sys) == 0
    ensures |j.sys.sent| == j.client.marks && LastCode(j.sys.sent) == code
  {
    AtRest(j);
  }

  /** A failed connection in passive mode, when nothing failed in active mode: it stays the only one,
      no further transfer begins, and the file waits for a data thread that has no connection and
      never reports it. */
  lemma PassiveFailure(ms: seq<Move>)
    requires Rally(ms).Some? && Calm(Rally(ms).value) && Rally(ms).value.orphan
    ensures var j := Rally(ms).value;
      Waits(j) && j.client.failures == 1 && !j.client.at.Moving? && Owed(j) >= 1
  {
    NeatRally(ms);
    LedgerRally(ms);
    OrphanOwed(Rally(ms).value);
  }

  lemma OrphanOwed(j: Joint)
    requires Waits(j) && !Leaving(j.sys.pc)
    ensures Owed(j) >= 1
  {
    OwesAtLeast(j.sys.pc);
    if j.sys.pc == Read && j.sys.datFp.None? { QueuedTransfer(j); }
  }

  /** As long as it waits, the data thread says nothing. */
  lemma OrphanSilent(ms: seq<Move>, m: Move)
    requires Rally(ms).Some? && Calm(Rally(ms).value) && Rally(ms).value.orphan && DoMove(Rally(ms).value, m).Some?
    ensures ByData(DoMove(Rally(ms).value, m).value.sys.sent) == ByData(Rally(ms).value.sys.sent)
  {
    PassiveFailure(ms);
    NeatRally(ms);
    match m {
      case ClientMove(h) => ClientLeaves(Rally(ms).value, h);
      case ServerMove(e) => WaitsSilent(Rally(ms).value, e);
    }
  }

  lemma WaitsSilent(j: Joint, e: Event)
    requires Waits(j) && j.link.phase == Shut && !Leaving(j.sys.pc) && ServerStep(j, e).Some?
    ensures ByData(Next(j.sys, e).value.sent) == ByData(j.sys.sent)
  {
    match e {
      case DataStep(env) => WaitsData(j, env);
      case SessionStep(env) => SessionSilent(j.sys, env);
    }
  }

  lemma SessionSilent(s: Sys, env: Env)
    requires SessionNext(s, env).Some? && !s.pc.Freed?
    ensures ByData(SessionNext(s, env).value.sent) == ByData(s.sent)
  {
    if s.pc.Greet? || s.pc.Bye? || s.pc.Say? {
      SpeakerSilent(s, env);
    } else {
      SilentSession(s, env);
    }
  }

  lemma SpeakerSilent(s: Sys, env: Env)
    requires s.pc.Greet? || s.pc.Bye? || s.pc.Say?
    ensures SessionNext(s, env).Some? && ByData(SessionNext(s, env).value.sent) == ByData(s.sent)
  {
    TellCounts(s.sent, Sent(false, 220));
    TellCounts(s.sent, Sent(false, 221));
    if s.pc.Say? { TellCounts(s.sent, Sent(false, s.pc.code)); }
  }

  /** Reads and replies, in every interleaving of client, session and data threads: when a chain of
      operations has returned to idle, all transfers having been accepted, the client has issued as
      many reads as the server has sent or will send replies - as long as no connection failed in
      active mode. A connection that failed in passive mode does not matter, for nothing will be
      said about it; one that failed in active mode is reported, and each is one reply too many: at
      rest, reads and replies agree if and only if there was none. */
  lemma ReadsMatchReplies(ms: seq<Move>)
    requires Rally(ms).Some? && Rally(ms).value.client.at == C.Idle
    requires Rally(ms).value.refused == 0 && !Rally(ms).value.down
    ensures var j := Rally(ms).value;
      && (j.activeFailures == 0 ==> j.client.marks == |j.sys.sent| + ToCome(j) && ToCome(j) >= 0)
      && (j.activeFailures > 0 ==> j.client.marks < |j.sys.sent| + ToCome(j))
      && (ToCome(j) == 0 ==> (j.client.marks == |j.sys.sent| <==> j.activeFailures == 0))
  {
    NeatRally(ms);
    LedgerRally(ms);
    RallySound(ms);
    var j := Rally(ms).value;
    BalanceOf(j);
    OwesAtLeast(j.sys.pc);
    if j.orphan && j.activeFailures == 0 { OrphanOwed(j); }
  }

  /** A client that takes itself to be logged in has been told so. */
  predicate Knows(j: Joint)
  {
    InSession(j.client.at) && !Quitting(j.client.at) ==> Told(j.sys.sent, 230)
  }

  lemma KnowsClient(j: Joint, h: C.Happening)
    requires Knows(j) && ClientStep(j, h).Some?
    ensures true == Knows(ClientStep(j, h).value)
  {
    HappenShape(j.client, h);
    ClientLeaves(j, h);
  }

  lemma KnowsServer(j: Joint, e: Event)
    requires Knows(j) && Inv(j.sys) && ServerStep(j, e).Some?
    ensures true == Knows(ServerStep(j, e).value)
  {
    SentGrows(j.sys, e);
    var s := Next(j.sys, e).value;
    if s.sent != j.sys.sent {
      var x :| s.sent == j.sys.sent + [x];
      ToldMore(j.sys.sent, x, 230);
    }
  }

  lemma SentGrows(s: Sys, e: Event)
    requires Inv(s) && Next(s, e).Some?
    ensures Next(s, e).value.sent == s.sent || exists x :: Next(s, e).value.sent == s.sent + [x]
  {
    match e {
      case DataStep(env) => TellsData(s, s.thr.value, env);
      case SessionStep(env) =>
        if s.pc.Exec? {
          ExecTells(s, s.pc.verb, s.pc.arg, env);
        } else if s.pc.Say? || s.pc.Signal? {
          TellsReplies(s, env);
        } else if !s.pc.Freed? {
          QuietTells(s, env);
        }
    }
  }

  lemma KnowsStep(j: Joint, m: Move)
    requires true == Knows(j) && true == Sound(j) && DoMove(j, m).Some?
    ensures true == Knows(DoMove(j, m).value)
  {
    match m {
      case ClientMove(h) => KnowsClient(j, h);
      case ServerMove(e) => KnowsServer(j, e);
    }
  }

  lemma {:induction false} KnowsRally(ms: seq<Move>)
    requires Rally(ms).Some?
    ensures true == Knows(Rally(ms).value)
  {
    if ms != [] {
      var before := ms[..|ms| - 1];
      KnowsRally(before);
      RallySound(before);
      KnowsStep(Rally(before).value, ms[|ms| - 1]);
    }
  }

  /** Login seen from the other end, in every interleaving: a client that takes itself to be logged
      in is logged in at the server, as an account the server accepts. */
  lemma ClientKnowsLogin(ms: seq<Move>)
    requires Rally(ms).Some?
    ensures var j := Rally(ms).value;
      InSession(j.client.at) && !Quitting(j.client.at) ==> j.sys.state.LoggedIn() && GoodLogin(j.sys.local)
  {
    KnowsRally(ms);
    RallySound(ms);
  }
}
