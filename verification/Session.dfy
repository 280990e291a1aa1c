/** What the session thread does on its own: the handlers of server/client_cmds.c that touch only
    the session's record and the file store. Their meaning is Handle, HandleUser and HandlePass;
    class Client holds the record the source updates in place. */
module Session {
  import opened Text
  import opened Requests
  import opened Path

  /** client_state_t; the source compares the numbers 0, 1, 2, 16 and 32. */
  datatype State = CONN | WAIT_PASS | READY | PORT_MODE | PASV_MODE {
    function Rank(): nat {
      match this
      case CONN => 0
      case WAIT_PASS => 1
      case READY => 2
      case PORT_MODE => 16
      case PASV_MODE => 32
    }

    predicate LoggedIn() { Rank() >= 2 }

    predicate HasData() { this == PORT_MODE || this == PASV_MODE }
  }

  datatype Kind = UNDEFINED | SEND_FILE | RECV_FILE | SEND_PIPE

  const SIZE_RANGE := 0x1_0000_0000_0000_0000
  const OFF_RANGE := 0x8000_0000_0000_0000

  /** A call on the file store; a path is relative to the root directory, "" is the root. Popen
      runs a command line. */
  datatype StoreOp =
    | Stat(path: string)
    | MakeDir(path: string)
    | RemoveDir(path: string)
    | Move(from: string, to: string)
    | Unlink(path: string)
    | Popen(command: string)
    | OpenRead(path: string)
    | Truncate(path: string, size: nat)
    | OpenAppend(path: string)

  /** The fields of the record only the session thread uses. asked and login record the last
      accepted USER argument and the accepted pair of USER and PASS arguments. */
  datatype Local = Local(
    username: Option<string>, wd: string, rnfr: Option<string>, rest: nat,
    asked: Option<string>, login: Option<(string, string)>)

  const FRESH := Local(None, "/", None, 0, None, None)

  /** An opened transfer: where in the file it starts. */
  datatype Opened = Opened(kind: Kind, path: string, start: nat)

  datatype Outcome = Outcome(local: Local, ops: seq<StoreOp>, code: nat, file: Option<Opened>)

  predicate NeedsAuth(v: Verb) { v !in {QUIT, SYST, TYPE, USER, PASS, ABOR, OTHER} }

  predicate IsTransfer(v: Verb) { v == LIST || v == RETR || v == STOR }

  // ---- Login ----

  predicate UserAuth(user: string, pass: string) { user == "qwq" && pass == "quq" }

  function HandleUser(state: State, l: Local, arg: string): (State, Local, nat)
  {
    if state.LoggedIn() then (state, l, 503)
    else (WAIT_PASS, l.(username := if arg == "anonymous" then None else Some(arg), asked := Some(arg)), 331)
  }

  function HandlePass(state: State, l: Local, arg: string): (State, Local, nat)
  {
    if state.Rank() < 1 then (state, l, 503)
    else if state.LoggedIn() then (state, l, 503)
    else if l.username.None? then
      if |arg| > 64 then (state, l, 530)
      else (READY, l.(username := Some("anonymous/" + arg), login := Accepted(l, arg)), 230)
    else if !UserAuth(l.username.value, arg) then (state, l, 530)
    else (READY, l.(login := Accepted(l, arg)), 230)
  }

  function Accepted(l: Local, arg: string): Option<(string, string)>
  {
    if l.asked.Some? then Some((l.asked.value, arg)) else None
  }

  /** The account a login stands for: anonymous with a short password, or a known user. */
  predicate GoodLogin(l: Local)
  {
    && l.login.Some? && l.username.Some?
    && var (u, p) := l.login.value;
       if u == "anonymous" then |p| <= 64 && l.username.value == "anonymous/" + p
       else UserAuth(u, p) && l.username.value == u
  }

  /** Between an accepted USER and the next PASS. */
  predicate Asked(l: Local)
  {
    l.asked.Some? && l.username == if l.asked.value == "anonymous" then None else l.asked
  }

  // ---- Files and directories ----

  /** %zd into a size_t. */
  function ParseOffset(arg: string): Option<nat>
  {
    match ScanInt(arg)
    case None => None
    case Some(r) => Some(r.0 % SIZE_RANGE)
  }

  /** Where fseek to a size_t offset leaves a file just opened: a value past the signed range is a
      negative offset, which fails and leaves the start. */
  function SeekStart(offs: nat): nat { if offs < OFF_RANGE then offs else 0 }

  function Refuse(l: Local, code: nat): Outcome { Outcome(l, [], code, None) }

  /** d + 1: a path without its leading slash. */
  function Below(d: string): string { if d == "" then "" else d[1..] }

  /** The command line of LIST. */
  function ListCommand(wd: string): string { "ls -lH " + Below(wd) }

  /** path_exists does not look the root directory up. */
  function Lookup(d: string): seq<StoreOp> { if d == "/" then [] else [Stat(Below(d))] }

  predicate Exists(d: string, found: bool) { d == "/" || found }

  /** The directory above, as mark_dir takes it. */
  function Above(d: string): string
  {
    match Cat(d, "..")
    case None => ""
    case Some(up) => up
  }

  /** The handlers behind their guards. ok1 and ok2 are what the first and the second fallible call
      on the store answer. */
  function Handle(v: Verb, l: Local, arg: string, ok1: bool, ok2: bool): Outcome
  {
    match v
    case PWD => Refuse(l, 257)
    case LIST =>
      Outcome(l, [Popen(ListCommand(l.wd))], if ok1 then 150 else 550,
              if ok1 then Some(Opened(SEND_PIPE, Below(l.wd), 0)) else None)
    case REST =>
      (match ParseOffset(arg)
       case None => Refuse(l, 501)
       case Some(offs) => Refuse(l.(rest := offs), 350))
    case RNTO =>
      if l.rnfr.None? then Refuse(l, 503) else HandleRnto(l.(rnfr := None), l.rnfr.value, arg, ok1)
    case _ =>
      match Cat(l.wd, arg)
      case None => Refuse(l, 501)
      case Some(d) => HandlePath(v, l, d, ok1, ok2)
  }

  function HandleRnto(l: Local, from: string, arg: string, ok: bool): Outcome
  {
    match Cat(l.wd, arg)
    case None => Refuse(l, 501)
    case Some(d) =>
      if |d| == 1 then Refuse(l, 550)
      else if !ok then Outcome(l, [Move(Below(from), Below(d))], 550, None)
      else Outcome(l.(wd := if l.wd == from then Above(d) else l.wd), [Move(Below(from), Below(d))], 250, None)
  }

  function HandlePath(v: Verb, l: Local, d: string, ok1: bool, ok2: bool): Outcome
  {
    match v
    case CWD =>
      if Exists(d, ok1) then Outcome(l.(wd := d), Lookup(d), 250, None) else Outcome(l, Lookup(d), 550, None)
    case MKD => Outcome(l, [MakeDir(Below(d))], if ok1 then 250 else 550, None)
    case RMD =>
      if |d| == 1 then Refuse(l, 550)
      else if !ok1 then Outcome(l, [RemoveDir(Below(d))], 550, None)
      else Outcome(l.(wd := if l.wd == d then Above(d) else l.wd), [RemoveDir(Below(d))], 250, None)
    case RNFR =>
      if |d| == 1 then Refuse(l, 550)
      else if !Exists(d, ok1) then Outcome(l, Lookup(d), 550, None)
      else Outcome(l.(rnfr := Some(d)), Lookup(d), 250, None)
    case DELE =>
      if |d| == 1 then Refuse(l, 550)
      else if !Exists(d, ok1) then Outcome(l, Lookup(d), 550, None)
      else Outcome(l, Lookup(d) + [Unlink(Below(d))], if ok2 then 250 else 550, None)
    case RETR =>
      if !Exists(d, ok1) then Outcome(l, Lookup(d), 550, None)
      else if !ok2 then Outcome(l, Lookup(d) + [OpenRead(Below(d))], 550, None)
      else Outcome(l.(rest := 0), Lookup(d) + [OpenRead(Below(d))], 150,
                   Some(Opened(SEND_FILE, Below(d), SeekStart(l.rest))))
    case STOR =>
      Outcome(l.(rest := 0), [Truncate(Below(d), l.rest), OpenAppend(Below(d))], if ok1 then 150 else 550,
              if ok1 then Some(Opened(RECV_FILE, Below(d), 0)) else None)
    case _ => Refuse(l, 202)
  }

  // ---- What every handler keeps ----

  /** The working directory and a pending rename source are normalised, and the latter is not the
      root directory. */
  predicate NormalLocal(l: Local)
  {
    Normal(l.wd) && (l.rnfr.Some? ==> Normal(l.rnfr.value) && l.rnfr.value != "/")
  }

  /** A store path is a normalised path without its leading slash. */
  predicate Inside(path: string) { Normal("/" + path) }

  predicate InsideOp(op: StoreOp)
  {
    match op
    case Move(from, to) => Inside(from) && Inside(to)
    case Popen(command) => |command| >= 7 && command[..7] == "ls -lH " && Inside(command[7..])
    case _ => Inside(op.path)
  }

  predicate InsideOps(ops: seq<StoreOp>) { forall i :: 0 <= i < |ops| ==> InsideOp(ops[i]) }

  function Moves(ops: seq<StoreOp>): nat
  {
    if ops == [] then 0 else Moves(ops[..|ops| - 1]) + if ops[|ops| - 1].Move? then 1 else 0
  }

  lemma {:induction false} MovesAppend(a: seq<StoreOp>, b: seq<StoreOp>)
    ensures Moves(a + b) == Moves(a) + Moves(b)
    decreases |b|
  {
    if b == [] {
      assert a + b == a;
    } else {
      MovesAppend(a, b[..|b| - 1]);
      assert (a + b)[..|a + b| - 1] == a + b[..|b| - 1];
    }
  }

  lemma NormalInside(d: string)
    requires Normal(d)
    ensures d != "" && Inside(Below(d))
  {
    assert d == "/" + Below(d);
  }

  lemma AboveNormal(d: string)
    requires Normal(d)
    ensures Normal(Above(d))
  {
    CatDotDot(d);
    CatNormal(d, "..");
  }

  /** The paths of an outcome, and what it leaves of the login. */
  predicate Kept(v: Verb, l: Local, o: Outcome)
  {
    && NormalLocal(o.local) && InsideOps(o.ops)
    && (o.file.Some? <==> o.code == 150) && (o.file.Some? ==> IsTransfer(v))
    && o.local.username == l.username && o.local.asked == l.asked && o.local.login == l.login
  }

  lemma OpsInside(d: string, ops: seq<StoreOp>)
    requires Normal(d)
    requires forall i :: 0 <= i < |ops| ==> !ops[i].Move? && !ops[i].Popen? && ops[i].path == Below(d)
    ensures InsideOps(ops)
  {
    NormalInside(d);
  }

  lemma PathOpsInside(v: Verb, l: Local, d: string, ok1: bool, ok2: bool)
    requires Normal(d)
    ensures InsideOps(HandlePath(v, l, d, ok1, ok2).ops)
  {
    OpsInside(d, HandlePath(v, l, d, ok1, ok2).ops);
  }

  lemma PathKeeps(v: Verb, l: Local, d: string, ok1: bool, ok2: bool)
    requires NormalLocal(l) && Normal(d)
    ensures true == Kept(v, l, HandlePath(v, l, d, ok1, ok2))
  {
    PathOpsInside(v, l, d, ok1, ok2);
    AboveNormal(d);
    assert d == "/" ==> |d| == 1;
  }

  /** The move, and leaving a directory that was moved away. */
  lemma MovedKeeps(l: Local, from: string, d: string)
    requires NormalLocal(l) && Normal(from) && Normal(d)
    ensures InsideOps([Move(Below(from), Below(d))])
    ensures NormalLocal(l.(wd := if l.wd == from then Above(d) else l.wd))
  {
    NormalInside(from);
    NormalInside(d);
    AboveNormal(d);
  }

  lemma RntoKeeps(l: Local, from: string, arg: string, ok: bool)
    requires NormalLocal(l) && Normal(from)
    ensures true == Kept(RNTO, l, HandleRnto(l, from, arg, ok))
  {
    if Cat(l.wd, arg).Some? {
      CatNormal(l.wd, arg);
      MovedKeeps(l, from, Cat(l.wd, arg).value);
    }
  }

  lemma PlainKeeps(v: Verb, l: Local, arg: string, ok1: bool, ok2: bool)
    requires NormalLocal(l) && (v == PWD || v == LIST || v == REST)
    ensures true == Kept(v, l, Handle(v, l, arg, ok1, ok2))
  {
    NormalInside(l.wd);
    assert ListCommand(l.wd)[..7] == "ls -lH " && ListCommand(l.wd)[7..] == Below(l.wd);
  }

  /** Whatever the argument and the answers of the store: the session's paths stay normalised, and
      every path given to the store lies inside the root directory. */
  lemma HandleKeepsPaths(v: Verb, l: Local, arg: string, ok1: bool, ok2: bool)
    requires NormalLocal(l)
    ensures true == Kept(v, l, Handle(v, l, arg, ok1, ok2))
  {
    assert true == Kept(v, l, Refuse(l, 501)) && true == Kept(v, l, Refuse(l, 503));
    if v == RNTO {
      if l.rnfr.Some? { RntoKeeps(l.(rnfr := None), l.rnfr.value, arg, ok1); }
    } else if v == PWD || v == LIST || v == REST {
      PlainKeeps(v, l, arg, ok1, ok2);
    } else if Cat(l.wd, arg).Some? {
      CatNormal(l.wd, arg);
      PathKeeps(v, l, Cat(l.wd, arg).value, ok1, ok2);
    }
  }

  function Armed(l: Local): nat { if l.rnfr.Some? then 1 else 0 }

  lemma OneMove(op: StoreOp)
    ensures Moves([]) == 0 && Moves([op]) == if op.Move? then 1 else 0
  {
    assert [op][..0] == [];
  }

  lemma {:induction false} NoMoves(ops: seq<StoreOp>)
    requires forall i :: 0 <= i < |ops| ==> !ops[i].Move?
    ensures Moves(ops) == 0
    decreases |ops|
  {
    if ops != [] {
      NoMoves(ops[..|ops| - 1]);
    }
  }

  lemma PathMoves(v: Verb, l: Local, d: string, ok1: bool, ok2: bool)
    ensures var o := HandlePath(v, l, d, ok1, ok2);
      Moves(o.ops) == 0 && Armed(o.local) <= Armed(l) + (if v == RNFR && o.code == 250 then 1 else 0)
  {
    NoMoves(HandlePath(v, l, d, ok1, ok2).ops);
  }

  /** A rename consumes the pending source, and only an accepted RNFR provides one. */
  lemma HandleMoves(v: Verb, l: Local, arg: string, ok1: bool, ok2: bool)
    ensures var o := Handle(v, l, arg, ok1, ok2);
      Moves(o.ops) + Armed(o.local) <= Armed(l) + (if v == RNFR && o.code == 250 then 1 else 0)
  {
    OneMove(Popen(ListCommand(l.wd)));
    if Cat(l.wd, arg).Some? {
      var d := Cat(l.wd, arg).value;
      PathMoves(v, l, d, ok1, ok2);
      if v == RNTO && l.rnfr.Some? {
        OneMove(Move(Below(l.rnfr.value), Below(d)));
      }
    }
  }

  lemma PathRest(v: Verb, l: Local, d: string, ok1: bool, ok2: bool)
    ensures var o := HandlePath(v, l, d, ok1, ok2);
      o.local.rest == if v == STOR || (v == RETR && o.code == 150) then 0 else l.rest
  {
  }

  /** The restart offset goes to zero with the RETR that opens its file or with the STOR that
      truncates by it; otherwise only REST changes it. */
  lemma HandleRest(v: Verb, l: Local, arg: string, ok1: bool, ok2: bool)
    ensures var o := Handle(v, l, arg, ok1, ok2);
      o.local.rest ==
        if v == REST && ParseOffset(arg).Some? then ParseOffset(arg).value
        else if (v == RETR && o.code == 150) || (v == STOR && Cat(l.wd, arg).Some?) then 0
        else l.rest
  {
    if v == RNTO {
      if l.rnfr.Some? { RntoRest(l.(rnfr := None), l.rnfr.value, arg, ok1); }
    } else if Cat(l.wd, arg).Some? {
      PathRest(v, l, Cat(l.wd, arg).value, ok1, ok2);
    }
  }

  lemma RntoRest(l: Local, from: string, arg: string, ok: bool)
    ensures HandleRnto(l, from, arg, ok).local.rest == l.rest
  {
  }

  /** Text a shell takes as one word, or as none when it is empty. */
  predicate OneWord(s: string) { forall i :: 0 <= i < |s| ==> s[i] == '/' || AllowedChar(s[i]) }

  /** What ls is asked to list: nothing is the directory the server runs in, the root. A word that
      goes on behind a '-' is an option and names no directory, so that if anything is listed it is
      the root; a single '-' is a name. */
  function Listed(command: string): Option<string>
    requires |command| >= 7
  {
    var word := command[7..];
    if !OneWord(word) then None
    else if |word| > 1 && word[0] == '-' then Some("")
    else Some(word)
  }

  /** LIST lists the working directory if and only if its path is no option: does not begin with '-',
      or is a '-' alone. */
  lemma ListsWorkingDirectory(l: Local, arg: string, ok1: bool, ok2: bool)
    requires NormalLocal(l)
    ensures var ops := Handle(LIST, l, arg, ok1, ok2).ops;
      && |ops| == 1 && ops[0].Popen? && |ops[0].command| >= 7 && Listed(ops[0].command).Some?
      && (Listed(ops[0].command) == Some(Below(l.wd)) <==> !(|l.wd| > 2 && l.wd[1] == '-'))
  {
    StackCanonical(l.wd);
    NormalText(Stack(l.wd));
    assert ListCommand(l.wd)[7..] == Below(l.wd);
  }

  // ---- Commands that belong together ----

  /** RNFR and RNTO: exactly one move, from where the first argument led to where the second leads;
      a second RNTO finds nothing to rename. */
  lemma RenamePair(l: Local, a: string, b: string, ok: bool)
    requires NormalLocal(l) && Handle(RNFR, l, a, true, true).code == 250
    requires Cat(l.wd, b).Some? && Cat(l.wd, b).value != "/"
    ensures var o := Handle(RNTO, Handle(RNFR, l, a, true, true).local, b, ok, true);
      && Cat(l.wd, a).Some? && o.ops == [Move(Below(Cat(l.wd, a).value), Below(Cat(l.wd, b).value))]
      && (o.code == 250 <==> ok)
      && Handle(RNTO, o.local, b, ok, true) == Refuse(o.local, 503)
  {
    CatNormal(l.wd, b);
    NormalInside(Cat(l.wd, b).value);
  }

  /** CWD into a directory and CWD to its parent lead back. */
  lemma ThereAndBack(l: Local, name: string)
    requires NormalLocal(l) && Ordinary(name)
    ensures var there := Handle(CWD, l, name, true, true);
      && there.code == 250 && there.local.wd != l.wd
      && Handle(CWD, there.local, "..", true, true).local == l
  {
    CatUp(l.wd, name);
    CatDown(l.wd, name);
    NormalIsRender(Stack(l.wd) + [name]);
  }

  /** p is dir or lies below it. */
  predicate Within(dir: string, p: string)
    requires Rooted(dir) && Rooted(p)
  {
    Stack(dir) <= Stack(p)
  }

  lemma Proper(a: seq<string>, b: seq<string>)
    ensures a <= b <==> a == b || a < b
  {
  }

  lemma Shorter(a: seq<string>, b: seq<string>)
    requires b != [] && !(a < b)
    ensures !(a <= b[..|b| - 1])
  {
  }

  /** Leaving a directory that is gone, by going above d: the working directory still lies in what
      is gone exactly when it lay properly below it, which mark_dir does not look at. */
  lemma StillInside(wd: string, gone: string, d: string)
    requires Normal(wd) && Normal(gone) && Normal(d) && d != "/" && !(Stack(gone) < Stack(d))
    ensures Normal(Above(d))
    ensures Within(gone, if wd == gone then Above(d) else wd) <==> Stack(gone) < Stack(wd)
  {
    AboveNormal(d);
    StackCanonical(wd);
    StackCanonical(gone);
    if wd == gone {
      AboveStack(d);
      Shorter(Stack(gone), Stack(d));
    } else {
      Proper(Stack(gone), Stack(wd));
    }
  }

  lemma AboveStack(d: string)
    requires Normal(d) && d != "/"
    ensures Normal(Above(d)) && Stack(d) != [] && Stack(Above(d)) == Stack(d)[..|Stack(d)| - 1]
  {
    var cs := Stack(d);
    StackCanonical(d);
    CatDotDot(d);
    var up := cs[..|cs| - 1];
    assert up == [""] ==> cs[0] == "" && cs[0] in cs && !Ordinary("");
    NormalIsRender(up);
  }

  /** After an accepted RMD the working directory lies in the removed directory exactly when it lay
      properly below it; rmdir accepts only empty directories, so then it was gone already. */
  lemma RemovedLeft(l: Local, arg: string)
    requires NormalLocal(l) && Handle(RMD, l, arg, true, true).code == 250
    ensures var d := Cat(l.wd, arg).value; var o := Handle(RMD, l, arg, true, true);
      && Normal(d) && Normal(o.local.wd)
      && (Within(d, o.local.wd) <==> Stack(d) < Stack(l.wd))
  {
    var d := Cat(l.wd, arg).value;
    CatNormal(l.wd, arg);
    StillInside(l.wd, d, d);
  }

  /** After an accepted rename of a directory the working directory still lies in the old place
      exactly when it lay properly below it: RNTO takes care only of the directory itself. A
      directory cannot be moved below itself. */
  lemma RenamedLeft(l: Local, arg: string)
    requires NormalLocal(l) && l.rnfr.Some? && Handle(RNTO, l, arg, true, true).code == 250
    requires Rooted(Cat(l.wd, arg).value) && !(Stack(l.rnfr.value) < Stack(Cat(l.wd, arg).value))
    ensures var o := Handle(RNTO, l, arg, true, true);
      && Normal(o.local.wd)
      && (Within(l.rnfr.value, o.local.wd) <==> Stack(l.rnfr.value) < Stack(l.wd))
  {
    var d := Cat(l.wd, arg).value;
    CatNormal(l.wd, arg);
    StillInside(l.wd, l.rnfr.value, d);
  }

  /** An accepted PASS leads to a good account; a refused or repeated one changes nothing but what
      USER is allowed to. */
  lemma LoginSteps(state: State, l: Local, arg: string)
    requires state.LoggedIn() ==> GoodLogin(l)
    requires state == WAIT_PASS ==> Asked(l)
    ensures var (s', l', _) := HandleUser(state, l, arg);
      && (s'.LoggedIn() ==> GoodLogin(l')) && (s' == WAIT_PASS ==> Asked(l'))
      && (state.LoggedIn() ==> s' == state && l' == l)
    ensures var (s', l', _) := HandlePass(state, l, arg);
      && (s'.LoggedIn() ==> GoodLogin(l')) && (s' == WAIT_PASS ==> Asked(l'))
      && (state.LoggedIn() ==> s' == state && l' == l)
  {
  }

  // ---- The record, updated in place ----

  /** The record as the handlers of one session see it. */
  datatype Snapshot = Snapshot(state: State, busy: bool, local: Local, log: seq<StoreOp>)

  /** The macros ignore_if_xfer, auth and data. */
  function Guard(s: Snapshot, v: Verb): Option<nat>
  {
    if s.busy then Some(503)
    else if NeedsAuth(v) && !s.state.LoggedIn() then Some(530)
    else if IsTransfer(v) && !s.state.HasData() then Some(425)
    else None
  }

  /** One command of the verbs USER, PASS, CWD, PWD, MKD, RMD, RNFR, RNTO, DELE, LIST, REST, RETR
      and STOR: the new record, the reply and the opened transfer. */
  function Served(s: Snapshot, v: Verb, arg: string, ok1: bool, ok2: bool): (Snapshot, nat, Option<Opened>)
  {
    if Guard(s, v).Some? then (s, Guard(s, v).value, None)
    else if v == USER then
      var (st, l, code) := HandleUser(s.state, s.local, arg);
      (s.(state := st, local := l), code, None)
    else if v == PASS then
      var (st, l, code) := HandlePass(s.state, s.local, arg);
      (s.(state := st, local := l), code, None)
    else
      var o := Handle(v, s.local, arg, ok1, ok2);
      (s.(local := o.local, log := s.log + o.ops), o.code, o.file)
  }

  class Client {
    var state: State
    var username: Option<string>
    var wd: string
    var rnfr: Option<string>
    var restOffs: nat
    /** dat_fp != NULL */
    var busy: bool
    /** The calls made on the file store. */
    var log: seq<StoreOp>
    var asked: Option<string>
    var login: Option<(string, string)>

    ghost function View(): Snapshot
      reads this
    {
      Snapshot(state, busy, Local(username, wd, rnfr, restOffs, asked, login), log)
    }

    ghost predicate Valid()
      reads this
    {
      NormalLocal(View().local)
    }

    /** client_create */
    constructor ()
      ensures View() == Snapshot(CONN, false, FRESH, []) && Valid()
    {
      state, username, wd, rnfr, restOffs := CONN, None, "/", None, 0;
      busy, log, asked, login := false, [], None, None;
    }

    method Guarded(v: Verb) returns (code: Option<nat>)
      ensures code == Guard(View(), v)
    {
      if busy { return Some(503); }
      if NeedsAuth(v) && state.Rank() < READY.Rank() { return Some(530); }
      if IsTransfer(v) && state != PORT_MODE && state != PASV_MODE { return Some(425); }
      return None;
    }

    method HandlerUSER(arg: string) returns (code: nat)
      modifies this
      ensures (View(), code, None) == Served(old(View()), USER, arg, true, true)
    {
      var g := Guarded(USER);
      if g.Some? { return g.value; }
      if state.Rank() >= READY.Rank() { return 503; }
      state := WAIT_PASS;
      asked := Some(arg);
      if arg == "anonymous" {
        username := None;
      } else {
        username := Some(arg);
      }
      return 331;
    }

    method HandlerPASS(arg: string) returns (code: nat)
      modifies this
      ensures (View(), code, None) == Served(old(View()), PASS, arg, true, true)
    {
      var g := Guarded(PASS);
      if g.Some? { return g.value; }
      if state.Rank() < WAIT_PASS.Rank() { return 503; }
      if state.Rank() >= READY.Rank() { return 503; }
      if username == None {
        // Anonymous login
        if |arg| > 64 { return 530; }
        username := Some("anonymous/" + arg);
      } else {
        // Existing user
        if !UserAuth(username.value, arg) { return 530; }
      }
      login := if asked.Some? then Some((asked.value, arg)) else None;
      state := READY;
      return 230;
    }

    /** path_exists, asking the store about anything but the root directory. */
    method PathExists(d: string, found: bool) returns (r: bool)
      modifies this`log
      ensures r == Exists(d, found) && log == old(log) + Lookup(d)
    {
      if d == "/" { assert log == log + []; return true; }
      log := log + [Stat(Below(d))];
      return found;
    }

    method HandlerCWD(arg: string, ok: bool) returns (code: nat)
      requires Valid()
      modifies this
      ensures Valid() && (View(), code, None) == Served(old(View()), CWD, arg, ok, true)
    {
      HandleKeepsPaths(CWD, View().local, arg, ok, true);
      assert log == log + [];
      var g := Guarded(CWD);
      if g.Some? { return g.value; }
      var d := PathCat(wd, arg);
      if d == None { return 501; }
      CatNormal(wd, arg);
      var there := PathExists(d.value, ok);
      if !there { return 550; }
      wd := d.value;
      return 250;
    }

    method HandlerPWD() returns (code: nat)
      requires Valid()
      modifies this
      ensures Valid() && (View(), code, None) == Served(old(View()), PWD, "", true, true)
    {
      assert log == log + [];
      var g := Guarded(PWD);
      if g.Some? { return g.value; }
      return 257;
    }

    method HandlerMKD(arg: string, ok: bool) returns (code: nat)
      requires Valid()
      modifies this
      ensures Valid() && (View(), code, None) == Served(old(View()), MKD, arg, ok, true)
    {
      assert log == log + [];
      var g := Guarded(MKD);
      if g.Some? { return g.value; }
      var d := PathCat(wd, arg);
      if d == None { return 501; }
      CatNormal(wd, arg);
      log := log + [MakeDir(Below(d.value))];
      return if ok then 250 else 550;
    }

    /** mark_dir: leave a directory that is gone. */
    method MarkDir(gone: string, d: string)
      requires Normal(d)
      modifies this`wd
      ensures wd == if old(wd) == gone then Above(d) else old(wd)
    {
      if wd == gone {
        var up := PathCat(d, "..");
        CatDotDot(d);
        wd := up.value;
      }
    }

    method HandlerRMD(arg: string, ok: bool) returns (code: nat)
      requires Valid()
      modifies this
      ensures Valid() && (View(), code, None) == Served(old(View()), RMD, arg, ok, true)
    {
      HandleKeepsPaths(RMD, View().local, arg, ok, true);
      assert log == log + [];
      var g := Guarded(RMD);
      if g.Some? { return g.value; }
      var d := PathCat(wd, arg);
      if d == None { return 501; }
      CatNormal(wd, arg);
      if |d.value| == 1 { return 550; }
      log := log + [RemoveDir(Below(d.value))];
      if !ok { return 550; }
      MarkDir(d.value, d.value);
      return 250;
    }

    method HandlerRNFR(arg: string, ok: bool) returns (code: nat)
      requires Valid()
      modifies this
      ensures Valid() && (View(), code, None) == Served(old(View()), RNFR, arg, ok, true)
    {
      HandleKeepsPaths(RNFR, View().local, arg, ok, true);
      assert log == log + [];
      var g := Guarded(RNFR);
      if g.Some? { return g.value; }
      var d := PathCat(wd, arg);
      if d == None { return 501; }
      CatNormal(wd, arg);
      if |d.value| == 1 { return 550; }
      var there := PathExists(d.value, ok);
      if !there { return 550; }
      rnfr := d;
      return 250;
    }

    method HandlerRNTO(arg: string, ok: bool) returns (code: nat)
      requires Valid()
      modifies this
      ensures Valid() && (View(), code, None) == Served(old(View()), RNTO, arg, ok, true)
    {
      HandleKeepsPaths(RNTO, View().local, arg, ok, true);
      assert log == log + [];
      var g := Guarded(RNTO);
      if g.Some? { return g.value; }
      if rnfr == None { return 503; }
      var from := rnfr.value;
      rnfr := None;
      var d := PathCat(wd, arg);
      if d == None { return 501; }
      CatNormal(wd, arg);
      if |d.value| == 1 { return 550; }
      log := log + [Move(Below(from), Below(d.value))];
      if !ok { return 550; }
      MarkDir(from, d.value);
      return 250;
    }

    method HandlerDELE(arg: string, ok1: bool, ok2: bool) returns (code: nat)
      requires Valid()
      modifies this
      ensures Valid() && (View(), code, None) == Served(old(View()), DELE, arg, ok1, ok2)
    {
      assert log == log + [];
      var g := Guarded(DELE);
      if g.Some? { return g.value; }
      var d := PathCat(wd, arg);
      if d == None { return 501; }
      CatNormal(wd, arg);
      if |d.value| == 1 { return 550; }
      var there := PathExists(d.value, ok1);
      if !there { return 550; }
      assert log + [Unlink(Below(d.value))] == old(log) + (Lookup(d.value) + [Unlink(Below(d.value))]);
      log := log + [Unlink(Below(d.value))];
      return if ok2 then 250 else 550;
    }

    method HandlerREST(arg: string) returns (code: nat)
      requires Valid()
      modifies this
      ensures Valid() && (View(), code, None) == Served(old(View()), REST, arg, true, true)
    {
      assert log == log + [];
      var g := Guarded(REST);
      if g.Some? { return g.value; }
      var offs := ParseOffset(arg);
      if offs == None { return 501; }
      restOffs := offs.value;
      return 350;
    }

    method HandlerRETR(arg: string, ok1: bool, ok2: bool) returns (code: nat, f: Option<Opened>)
      requires Valid()
      modifies this
      ensures Valid() && (View(), code, f) == Served(old(View()), RETR, arg, ok1, ok2)
    {
      assert log == log + [];
      var g := Guarded(RETR);
      if g.Some? { return g.value, None; }
      var d := PathCat(wd, arg);
      if d == None { return 501, None; }
      CatNormal(wd, arg);
      var there := PathExists(d.value, ok1);
      if !there { return 550, None; }
      assert log + [OpenRead(Below(d.value))] == old(log) + (Lookup(d.value) + [OpenRead(Below(d.value))]);
      log := log + [OpenRead(Below(d.value))];
      if !ok2 { return 550, None; }
      f := Some(Opened(SEND_FILE, Below(d.value), SeekStart(restOffs)));
      restOffs := 0;
      return 150, f;
    }

    method HandlerSTOR(arg: string, ok: bool) returns (code: nat, f: Option<Opened>)
      requires Valid()
      modifies this
      ensures Valid() && (View(), code, f) == Served(old(View()), STOR, arg, ok, true)
    {
      assert log == log + [];
      var g := Guarded(STOR);
      if g.Some? { return g.value, None; }
      var d := PathCat(wd, arg);
      if d == None { return 501, None; }
      CatNormal(wd, arg);
      log := log + [Truncate(Below(d.value), restOffs)];
      restOffs := 0;
      assert log + [OpenAppend(Below(d.value))]
          == old(log) + [Truncate(Below(d.value), old(restOffs)), OpenAppend(Below(d.value))];
      log := log + [OpenAppend(Below(d.value))];
      if !ok { return 550, None; }
      return 150, Some(Opened(RECV_FILE, Below(d.value), 0));
    }

    method HandlerLIST(ok: bool) returns (code: nat, f: Option<Opened>)
      requires Valid()
      modifies this
      ensures Valid() && (View(), code, f) == Served(old(View()), LIST, "", ok, true)
    {
      var g := Guarded(LIST);
      if g.Some? { return g.value, None; }
      var cmd := "ls -lH ";
      cmd := cmd + Below(wd);
      log := log + [Popen(cmd)];
      if !ok { return 550, None; }
      return 150, Some(Opened(SEND_PIPE, Below(wd), 0));
    }
  }
}
