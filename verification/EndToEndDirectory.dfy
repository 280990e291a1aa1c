/** The server's working directory, and what the client takes for it. */
module EndToEndDirectory {
  import opened Text
  import opened Path
  import opened Codecs
  import opened Requests
  import opened Session
  import opened Server
  import opened ServerLife
  import opened ServerLogin
  import opened ServerRuns
  import opened ServerTells
  import opened EndToEnd
  import opened EndToEndFailures
  import C = ClientChain

  /** Directories told are normalised; the one told last is the present one until the next command is
      read; and the client keeps one that it was told. */
  ghost predicate Recorded(j: Joint)
  {
    && (forall n :: n in j.shown ==> n < |j.sys.sent| && Normal(j.shown[n]))
    && (j.sys.pc == Read && LastCode(j.sys.sent) == 257 ==>
          |j.sys.sent| - 1 in j.shown && j.shown[|j.sys.sent| - 1] == j.sys.local.wd)
    && (j.sys.pc.Signal? ==> LastCode(j.sys.sent) != 257)
    && (j.client.cwd.Some? ==> Kept(j, j.client.cwd.value))
  }

  ghost predicate Kept(j: Joint, wd: string)
  {
    |wd| <= 232 && exists n :: n in j.shown && j.shown[n] == wd
  }

  /** Only the 257 that list_1 reads changes the directory the client keeps. */
  lemma OnlyDirectory(c: C.Chain, h: C.Happening)
    requires !h.Connected? && C.Happen(c, h).Some?
    ensures var c' := C.Happen(c, h).value;
      c'.cwd == c.cwd ||
      (h.Mark? && c.at == C.List1 && h.code == 257 &&
       c'.cwd == match RecoverDirectory(h.text) case Directory(path) => Some(path) case _ => None)
  {
    match h {
      case Click(start, port) => ClickKeeps(c, start, port);
      case Mark(code, text, entry, port) => MarkKeeps(c, code, text, entry, port);
      case _ =>
    }
  }

  lemma ClickKeeps(c: C.Chain, start: C.Start, port: Option<C.Address>)
    ensures C.OnClick(c, start, port).cwd == c.cwd
  {
  }

  lemma MarkKeeps(c: C.Chain, code: nat, text: string, entry: string, port: Option<C.Address>)
    requires C.OnMark(c, code, text, entry, port).Some?
    ensures var c' := C.OnMark(c, code, text, entry, port).value;
      if c.at == C.List1 && code == 257
      then c'.cwd == match RecoverDirectory(text) case Directory(path) => Some(path) case _ => None
      else c'.cwd == c.cwd
  {
  }

  lemma WhatIsTold(wd: string)
    requires Normal(wd)
    ensures RecoverDirectory(Text257(wd)) == if |wd| <= 232 then Directory(wd) else BadLength
  {
    NormalChars(wd);
    PwdText(wd);
  }

  lemma RecordedKept(j: Joint, j': Joint)
    requires Recorded(j) && j'.sys == j.sys && j'.shown == j.shown
    requires j'.client.cwd == j.client.cwd || (j'.client.cwd.Some? ==> Kept(j, j'.client.cwd.value))
    ensures true == Recorded(j')
  {
  }

  /** What list_1 makes of a 257 is a directory it was told. */
  lemma ToldKept(j: Joint, text: string)
    requires Recorded(j) && Carries(j, 257, text)
    ensures RecoverDirectory(text).Directory? ==> Kept(j, RecoverDirectory(text).path)
  {
    WhatIsTold(j.shown[j.client.marks - 1]);
  }

  lemma RecordedClient(j: Joint, h: C.Happening)
    requires true == Recorded(j) && ClientStep(j, h).Some?
    ensures true == Recorded(ClientStep(j, h).value)
  {
    ClientLeaves(j, h);
    OnlyDirectory(j.client, h);
    if h.Mark? && j.client.at == C.List1 && h.code == 257 { ToldKept(j, h.text); }
    RecordedKept(j, ClientStep(j, h).value);
  }

  // ---- Steps of the server ----

  /** The record after a step that sends at most one reply, other than 257. */
  lemma RecordedStays(j: Joint, j': Joint)
    requires Recorded(j) && j'.shown == j.shown && j'.client == j.client
    requires j'.sys.sent == j.sys.sent || (exists x :: j'.sys.sent == j.sys.sent + [x] && x.code != 257)
    requires j'.sys.pc == Read && j'.sys.sent == j.sys.sent ==>
               (j.sys.pc == Read && j'.sys.local == j.sys.local) || j.sys.pc.Signal?
    requires j'.sys.pc.Signal? && j'.sys.sent == j.sys.sent ==> j.sys.pc.Signal?
    ensures true == Recorded(j')
  {
  }

  lemma RecordedData(j: Joint, env: Env)
    requires Recorded(j) && Life(j.sys) && ServerStep(j, DataStep(env)).Some?
    ensures true == Recorded(ServerStep(j, DataStep(env)).value)
  {
    DataFrame(j.sys, env);
    DataTells(j.sys, env);
    RecordedStays(j, ServerStep(j, DataStep(env)).value);
  }

  lemma DataTells(s: Sys, env: Env)
    requires Life(s) && s.thr.Some? && DataNext(s, s.thr.value, env).Some?
    ensures var s' := DataNext(s, s.thr.value, env).value;
      s'.sent == s.sent || (exists x :: s'.sent == s.sent + [x] && x.code != 257)
  {
    var t := s.thr.value;
    if t.at == Refused {
      assert DataNext(s, t, env).value.sent == s.sent + [Sent(true, 425)];
    } else if t.at == Report {
      if t.st == 1 { assert ReportStep(s, t).sent == s.sent + [Sent(true, 226)]; }
      if t.st == 2 { assert ReportStep(s, t).sent == s.sent + [Sent(true, 451)]; }
    } else {
      SilentData(s, t, env);
    }
  }

  lemma RecordedSay(j: Joint, env: Env)
    requires Recorded(j) && Inv(j.sys) && j.sys.pc.Say? && (j.sys.pc.after.ToSignal? <==> j.sys.pc.code == 150)
    requires ServerStep(j, SessionStep(env)).Some?
    ensures true == Recorded(ServerStep(j, SessionStep(env)).value)
  {
    var code := j.sys.pc.code;
    var j' := ServerStep(j, SessionStep(env)).value;
    assert j'.sys.sent == j.sys.sent + [Sent(false, code)] && j'.sys.local == j.sys.local;
    if code != 257 {
      RecordedStays(j, j');
    } else {
      Recorded257(j, j');
    }
  }

  lemma Recorded257(j: Joint, j': Joint)
    requires Recorded(j) && Normal(j.sys.local.wd) && j'.client == j.client
    requires j'.sys.sent == j.sys.sent + [Sent(false, 257)] && j'.sys.local == j.sys.local && !j'.sys.pc.Signal?
    requires j'.shown == j.shown[|j.sys.sent| := j.sys.local.wd]
    ensures true == Recorded(j')
  {
    if j.client.cwd.Some? { KeptStays(j, j', j.client.cwd.value); }
  }

  lemma KeptStays(j: Joint, j': Joint, wd: string)
    requires Kept(j, wd) && j'.shown.Keys == j.shown.Keys + {|j.sys.sent|}
    requires forall n :: n in j.shown ==> n < |j.sys.sent| && j'.shown[n] == j.shown[n]
    ensures true == Kept(j', wd)
  {
    var n :| n in j.shown && j.shown[n] == wd;
    assert n in j'.shown && j'.shown[n] == wd;
  }

  lemma RecordedSession(j: Joint, env: Env)
    requires Recorded(j) && Inv(j.sys) && (j.sys.pc.Say? ==> (j.sys.pc.after.ToSignal? <==> j.sys.pc.code == 150))
    requires ServerStep(j, SessionStep(env)).Some?
    ensures true == Recorded(ServerStep(j, SessionStep(env)).value)
  {
    var s, j' := j.sys, ServerStep(j, SessionStep(env)).value;
    if s.pc.Say? {
      RecordedSay(j, env);
    } else if s.pc.Greet? || s.pc.Bye? {
      assert j'.sys.sent == s.sent + [Sent(false, if s.pc.Greet? then 220 else 221)];
      RecordedStays(j, j');
    } else {
      SilentSession(s, env);
      if !s.pc.Signal? {
        LeavesRead(s, env);
        NeverSignals(s, env);
      }
      RecordedStays(j, j');
    }
  }

  lemma NeverSignals(s: Sys, env: Env)
    requires SessionNext(s, env).Some? && !s.pc.Say? && !s.pc.Signal?
    ensures !SessionNext(s, env).value.pc.Signal?
  {
    match s.pc {
      case Read => ReadFrame(s, env.input); NoSignalRead(s, env.input);
      case Exec(v, arg) => ExecFrame(s, v, arg, env);
      case Greet => case Xfer(_, _) => case Auth(_, _) => case Data(_, _) =>
      case Abor => case CtRead(_) => case CtClear(_) => case CtJoin(_) => case CtReset(_) => case PortScan(_) =>
      case PortRun => case PortCreate => case PortState => case PasvOpen => case PasvState => case PasvRun =>
      case PasvCreate => case Bye => case Freed =>
    }
  }

  lemma NoSignalRead(s: Sys, input: Input)
    ensures !ReadStep(s, input).pc.Signal?
  {
    match input {
      case Closed => case TooLong => case Malformed =>
      case Command(verb, arg) => DispatchFrame(s, VerbOf(verb), arg);
    }
  }

  lemma RecordedStep(j: Joint, m: Move)
    requires true == Recorded(j) && true == Sound(j) && DoMove(j, m).Some?
    ensures true == Recorded(DoMove(j, m).value)
  {
    match m {
      case ClientMove(h) => RecordedClient(j, h);
      case ServerMove(e) =>
        match e {
          case DataStep(env) => RecordedData(j, env);
          case SessionStep(env) => RecordedSession(j, env);
        }
    }
  }

  lemma RecordedStart()
    ensures true == Recorded(START)
  {
  }

  lemma {:induction false} RecordedRally(ms: seq<Move>)
    requires Rally(ms).Some?
    ensures true == Recorded(Rally(ms).value)
  {
    if ms == [] {
      RecordedStart();
    } else {
      var before := ms[..|ms| - 1];
      RecordedRally(before);
      RallySound(before);
      RecordedStep(Rally(before).value, ms[|ms| - 1]);
    }
  }

  // ---- Main results ----

  /** In every interleaving, the directory the client keeps is one that the server was in when it said
      so, of at most 232 bytes. */
  lemma DirectoryWasTold(ms: seq<Move>)
    requires Rally(ms).Some? && Rally(ms).value.client.cwd.Some?
    ensures var j := Rally(ms).value; Kept(j, j.client.cwd.value)
  {
    RecordedRally(ms);
  }

  /** In every interleaving, as long as all transfers are accepted and no data connection failed: when
      list_1 gets its 257, it can go on if and only if the server's working directory has at most 232
      bytes, and then that is the directory it keeps. */
  lemma DirectoryIsPresent(ms: seq<Move>, text: string, entry: string, port: Option<C.Address>)
    requires Rally(ms).Some?
    requires var j := Rally(ms).value;
      && j.refused == 0 && !j.down && j.client.failures == 0 && j.client.at == C.List1
      && Answered(j, 257) && Carries(j, 257, text)
    ensures var j := Rally(ms).value; var c := C.Happen(j.client, C.Mark(257, text, entry, port));
      && (c.Some? <==> |j.sys.local.wd| <= 232)
      && (c.Some? ==> c.value.cwd == Some(j.sys.local.wd))
  {
    RecordedRally(ms);
    CallbacksFindRest(ms, 257);
    PresentAtRest(Rally(ms).value, text, entry, port);
  }

  lemma PresentAtRest(j: Joint, text: string, entry: string, port: Option<C.Address>)
    requires Recorded(j) && Carries(j, 257, text) && j.client.at == C.List1
    requires j.sys.pc == Read && |j.sys.sent| == j.client.marks && LastCode(j.sys.sent) == 257
    ensures var c := C.Happen(j.client, C.Mark(257, text, entry, port));
      && (c.Some? <==> |j.sys.local.wd| <= 232)
      && (c.Some? ==> c.value.cwd == Some(j.sys.local.wd))
  {
    WhatIsTold(j.sys.local.wd);
    OnDirectoryKeeps(j.client, text, entry, port);
  }

  lemma OnDirectoryKeeps(c: C.Chain, text: string, entry: string, port: Option<C.Address>)
    requires c.at == C.List1
    ensures var r := RecoverDirectory(text); var c' := C.Happen(c, C.Mark(257, text, entry, port));
      (c'.None? <==> r.BadLength?) && (r.Directory? ==> c'.value.cwd == Some(r.path))
  {
  }
}
