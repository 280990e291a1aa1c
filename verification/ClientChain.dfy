/** The client's chains of callbacks (client/main.c). Chain is what they mean: a callback carries
    what it will need. Class Window is how the program does it: callbacks without data, and statics. */
module ClientChain {
  import opened Text
  import opened Requests
  import opened Replies
  import opened Path
  import opened Codecs

  /** What a data connection is for; fd is the descriptor of the local file. */
  datatype Job = Listing | Retrieve(name: string, fd: nat) | Store(name: string, fd: nat)

  type Address = a: seq<nat> | IsAddress(a) witness [0, 0, 0, 0, 0, 0]

  /** The callback that is pending; Moving is a transfer on the data connection. */
  datatype At =
    | Disconnected | LoggedOut | Idle
    | Auth1 | Auth2 | Auth3 | Sys1 | Sys2
    | List1 | Cwd1 | Rename1(to: string) | Rename2 | Mkd1 | Rm1
    | DataPasv1(job: Job) | DataPort1(job: Job) | Moving(job: Job) | Stor3
    | Disconn1

  /** The client: the mode, and the server's directory as far as known; and since its connection was
      made, reads of replies issued, requests written, transfers asked for and data connections that
      failed. */
  datatype Chain = Chain(at: At, passive: bool, cwd: Option<string>,
                         marks: nat, asked: seq<Request>, transfers: nat, failures: nat)

  const NOT_CONNECTED := Chain(Disconnected, true, None, 0, [], 0, 0)

  /** What the user starts; None for a local file that could not be opened. */
  datatype Start =
    | DoCwd(name: string) | DoRename(from: string, to: string) | DoMkd(name: string)
    | DoRm(isDir: bool, name: string)
    | DoRetr(name: string, fd: Option<nat>) | DoStor(name: string, fd: Option<nat>)
    | DoQuit

  /** What calls into the client. entry is the text of the entry a callback reads, port the local
      address when one could be had. */
  datatype Happening =
    | Connected
    | Click(start: Start, port: Option<Address>)
    | ModeClick
    | Mark(code: nat, text: string, entry: string, port: Option<Address>)
    | DataEnd       // everything has been read or written
    | DataFails     // no data connection

  function Plain(verb: string): Request { Request(verb, None) }

  function With(verb: string, arg: string): Request { Request(verb, Some(arg)) }

  function JobRequest(job: Job): Request
  {
    match job
    case Listing => Plain("LIST")
    case Retrieve(name, _) => With("RETR", name)
    case Store(name, _) => With("STOR", name)
  }

  function Stop(c: Chain): Chain { c.(at := Idle) }

  function StopLogin(c: Chain): Chain { c.(at := LoggedOut) }

  /** xfer_write of a request and xfer_read_mark for its reply. */
  function Ask(c: Chain, at: At, q: Request): Chain { c.(at := at, asked := c.asked + [q], marks := c.marks + 1) }

  /** do_data: without a local port, active mode ends before any command. */
  function DoData(c: Chain, job: Job, port: Option<Address>): Chain
  {
    if c.passive then Ask(c, DataPasv1(job), Plain("PASV"))
    else if port.Some? then Ask(c, DataPort1(job), With("PORT", Commas(port.value)))
    else Stop(c)
  }

  /** list_2, retr_1 and stor_1, called once the data connection is on its way. */
  function Inter(c: Chain, job: Job): Chain
  {
    Ask(c, Moving(job), JobRequest(job)).(transfers := c.transfers + 1)
  }

  function DoList(c: Chain): Chain { Ask(c, List1, Plain("PWD")) }

  function OnClick(c: Chain, start: Start, port: Option<Address>): Chain
  {
    match start
    case DoCwd(name) => Ask(c, Cwd1, With("CWD", name))
    case DoRename(from, to) => Ask(c, Rename1(to), With("RNFR", from))
    case DoMkd(name) => Ask(c, Mkd1, With("MKD", name))
    case DoRm(isDir, name) => Ask(c, Rm1, With(if isDir then "RMD" else "DELE", name))
    case DoRetr(name, fd) => if fd.Some? then DoData(c, Retrieve(name, fd.value), port) else Stop(c)
    case DoStor(name, fd) => if fd.Some? then DoData(c, Store(name, fd.value), port) else Stop(c)
    case DoQuit => Ask(c, Disconn1, Plain("QUIT"))
  }

  /** list_1, for a 257: no continuation where the source copies a text of length -1. */
  function OnDirectory(c: Chain, text: string, port: Option<Address>): Option<Chain>
  {
    match RecoverDirectory(text)
    case NoQuote => Some(Stop(c.(cwd := None)))
    case BadLength => None
    case Directory(path) => Some(DoData(c.(cwd := Some(path)), Listing, port))
  }

  /** The callback of the pending read. */
  function OnMark(c: Chain, code: nat, text: string, entry: string, port: Option<Address>): Option<Chain>
  {
    match c.at
    case Auth1 => Some(if code == 220 then Ask(c, Auth2, With("USER", entry)) else StopLogin(c))
    case Auth2 => Some(if code == 331 then Ask(c, Auth3, With("PASS", entry)) else StopLogin(c))
    case Auth3 => Some(if code == 230 then Ask(c, Sys1, With("TYPE", "I")) else StopLogin(c))
    case Sys1 => Some(if code == 200 then Ask(c, Sys2, Plain("SYST")) else Stop(c))
    case Sys2 => Some(if code == 215 then DoList(c) else Stop(c))
    case List1 => if code == 257 then OnDirectory(c, text, port) else Some(Stop(c))
    case Cwd1 => Some(if code == 250 then DoList(c) else Stop(c))
    case Rename1(to) => Some(if code == 250 then Ask(c, Rename2, With("RNTO", to)) else Stop(c))
    case Rename2 => Some(if code == 250 then DoList(c) else Stop(c))
    case Mkd1 => Some(if code == 250 then DoList(c) else Stop(c))
    case Rm1 => Some(if code == 250 then DoList(c) else Stop(c))
    case DataPasv1(job) => Some(if PasvAddress(code, text).Some? then Inter(c, job) else Stop(c))
    case DataPort1(job) => Some(if code == 200 then Inter(c, job) else Stop(c))
    case Stor3 => Some(if code == 226 then DoList(c) else Stop(c))
    case Disconn1 => Some(c.(at := Disconnected))
    case _ => None
  }

  /** list_3, retr_2 and stor_2 at the end of the data: read the completion reply. */
  function OnDataEnd(c: Chain, job: Job): Chain
  {
    c.(at := if job.Store? then Stor3 else Idle, marks := c.marks + 1)
  }

  /** data_2 without a connection: no completion reply is asked for. */
  function OnDataFails(c: Chain): Chain { Stop(c).(failures := c.failures + 1) }

  function Happen(c: Chain, h: Happening): Option<Chain>
  {
    match h
    case Connected =>
      if c.at == Disconnected || c.at == LoggedOut then Some(Chain(Auth1, c.passive, c.cwd, 1, [], 0, 0)) else None
    case Click(start, port) => if c.at != Idle then None else Some(OnClick(c, start, port))
    case ModeClick => Some(c.(passive := !c.passive))
    case Mark(code, text, entry, port) => OnMark(c, code, text, entry, port)
    case DataEnd => if c.at.Moving? then Some(OnDataEnd(c, c.at.job)) else None
    case DataFails => if c.at.Moving? then Some(OnDataFails(c)) else None
  }

  function Play(hs: seq<Happening>): Option<Chain>
  {
    if hs == [] then Some(NOT_CONNECTED)
    else
      match Play(hs[..|hs| - 1])
      case None => None
      case Some(c) => Happen(c, hs[|hs| - 1])
  }

  // ---- Counting ----

  predicate IsTransferRequest(q: Request) { q.verb == "LIST" || q.verb == "RETR" || q.verb == "STOR" }

  function TransfersIn(qs: seq<Request>): nat
  {
    if qs == [] then 0
    else TransfersIn(qs[..|qs| - 1]) + if IsTransferRequest(qs[|qs| - 1]) then 1 else 0
  }

  lemma TransfersMore(qs: seq<Request>, q: Request)
    ensures TransfersIn(qs + [q]) == TransfersIn(qs) + if IsTransferRequest(q) then 1 else 0
  {
    assert (qs + [q])[..|qs|] == qs;
  }

  /** One read for the welcome, one for each request and one for each transfer; the last is still to
      come for a transfer under way, and never comes for a failed connection. */
  predicate InStep(c: Chain)
  {
    || (c.at == Disconnected && c.marks == c.transfers == c.failures == 0 && c.asked == [])
    || (c.marks > 0 && c.transfers == TransfersIn(c.asked) &&
        c.marks + c.failures + (if c.at.Moving? then 1 else 0) == 1 + |c.asked| + c.transfers)
  }

  lemma AskInStep(c: Chain, at: At, q: Request)
    requires InStep(c) && c.marks > 0 && !c.at.Moving? && !at.Moving? && !IsTransferRequest(q)
    ensures true == InStep(Ask(c, at, q))
  {
    TransfersMore(c.asked, q);
  }

  lemma InterInStep(c: Chain, job: Job)
    requires InStep(c) && c.marks > 0 && !c.at.Moving?
    ensures true == InStep(Inter(c, job))
  {
    TransfersMore(c.asked, JobRequest(job));
  }

  lemma DoDataInStep(c: Chain, job: Job, port: Option<Address>)
    requires InStep(c) && c.marks > 0 && !c.at.Moving?
    ensures true == InStep(DoData(c, job, port))
  {
    AskInStep(c, DataPasv1(job), Plain("PASV"));
    if port.Some? { AskInStep(c, DataPort1(job), With("PORT", Commas(port.value))); }
  }

  lemma ClickInStep(c: Chain, start: Start, port: Option<Address>)
    requires InStep(c) && c.at == Idle
    ensures true == InStep(OnClick(c, start, port))
  {
    match start {
      case DoCwd(name) => AskInStep(c, Cwd1, With("CWD", name));
      case DoRename(from, to) => AskInStep(c, Rename1(to), With("RNFR", from));
      case DoMkd(name) => AskInStep(c, Mkd1, With("MKD", name));
      case DoRm(isDir, name) => AskInStep(c, Rm1, With(if isDir then "RMD" else "DELE", name));
      case DoRetr(name, fd) => if fd.Some? { DoDataInStep(c, Retrieve(name, fd.value), port); }
      case DoStor(name, fd) => if fd.Some? { DoDataInStep(c, Store(name, fd.value), port); }
      case DoQuit => AskInStep(c, Disconn1, Plain("QUIT"));
    }
  }

  lemma MarkInStep(c: Chain, code: nat, text: string, entry: string, port: Option<Address>)
    requires InStep(c) && OnMark(c, code, text, entry, port).Some?
    ensures true == InStep(OnMark(c, code, text, entry, port).value)
  {
    if c.at == Stor3 || c.at == Mkd1 || c.at == Rm1 || c.at == Cwd1 || c.at == Rename2 || c.at == Disconn1 {
      LastInStep(c, code, text, entry, port);
    } else {
      MoreInStep(c, code, text, entry, port);
    }
  }

  /** The callbacks that ask for the working directory, or for nothing. */
  lemma LastInStep(c: Chain, code: nat, text: string, entry: string, port: Option<Address>)
    requires InStep(c)
    requires c.at == Stor3 || c.at == Mkd1 || c.at == Rm1 || c.at == Cwd1 || c.at == Rename2 || c.at == Disconn1
    ensures OnMark(c, code, text, entry, port).Some? && true == InStep(OnMark(c, code, text, entry, port).value)
  {
    AskInStep(c, List1, Plain("PWD"));
    StopInStep(c);
  }

  /** The callbacks that ask for something other than the working directory. */
  lemma MoreInStep(c: Chain, code: nat, text: string, entry: string, port: Option<Address>)
    requires InStep(c) && OnMark(c, code, text, entry, port).Some?
    requires !(c.at == Stor3 || c.at == Mkd1 || c.at == Rm1 || c.at == Cwd1 || c.at == Rename2 || c.at == Disconn1)
    ensures true == InStep(OnMark(c, code, text, entry, port).value)
  {
    StopInStep(c);
    match c.at {
      case Auth1 => AskInStep(c, Auth2, With("USER", entry));
      case Auth2 => AskInStep(c, Auth3, With("PASS", entry));
      case Auth3 => AskInStep(c, Sys1, With("TYPE", "I"));
      case Sys1 => AskInStep(c, Sys2, Plain("SYST"));
      case Sys2 => AskInStep(c, List1, Plain("PWD"));
      case List1 => DirectoryInStep(c, text, port);
      case Rename1(to) => AskInStep(c, Rename2, With("RNTO", to));
      case DataPasv1(job) => InterInStep(c, job);
      case DataPort1(job) => InterInStep(c, job);
    }
  }

  lemma DirectoryInStep(c: Chain, text: string, port: Option<Address>)
    requires InStep(c) && c.marks > 0 && !c.at.Moving?
    ensures OnDirectory(c, text, port).Some? ==> true == InStep(OnDirectory(c, text, port).value)
  {
    match RecoverDirectory(text) {
      case NoQuote => StopInStep(c.(cwd := None));
      case BadLength =>
      case Directory(path) => DoDataInStep(c.(cwd := Some(path)), Listing, port);
    }
  }

  lemma StopInStep(c: Chain)
    requires InStep(c) && c.marks > 0 && !c.at.Moving?
    ensures true == InStep(Stop(c)) && true == InStep(StopLogin(c)) && true == InStep(c.(at := Disconnected))
  {
  }

  lemma HappenInStep(c: Chain, h: Happening)
    requires InStep(c) && Happen(c, h).Some?
    ensures true == InStep(Happen(c, h).value)
  {
    match h {
      case Click(start, port) => ClickInStep(c, start, port);
      case Mark(code, text, entry, port) => MarkInStep(c, code, text, entry, port);
      case _ =>
    }
  }

  lemma {:induction false} PlayInStep(hs: seq<Happening>)
    requires Play(hs).Some?
    ensures true == InStep(Play(hs).value)
  {
    if hs != [] {
      PlayInStep(hs[..|hs| - 1]);
      HappenInStep(Play(hs[..|hs| - 1]).value, hs[|hs| - 1]);
    }
  }

  /** Whenever a chain of operations has returned to idle, whatever the replies were, the client has
      asked for the welcome, one reply per request and one completion per LIST, RETR or STOR exactly
      when no data connection failed. */
  lemma ReadsMatchCommands(hs: seq<Happening>)
    requires Play(hs).Some? && Play(hs).value.at == Idle
    ensures var c := Play(hs).value;
      && (c.marks == 1 + |c.asked| + TransfersIn(c.asked) <==> c.failures == 0)
      && c.marks <= 1 + |c.asked| + TransfersIn(c.asked)
  {
    PlayInStep(hs);
  }

  // ---- The program: statics ----

  /** A callback without data; data_inter and data_next are the functions of one kind of job. */
  datatype Kind = LISTING | RETRIEVE | STORE

  datatype Callback =
    | Gone | Out | Nothing | Auth_1 | Auth_2 | Auth_3 | Sys_1 | Sys_2 | List_1 | Cwd_1 | Rename_1 | Rename_2
    | Mkd_1 | Rm_1 | Data_pasv_1 | Data_port_1 | Data_2 | Stor_3 | Disconn_1

  /** What data_2 starts. */
  datatype Copy = Collect | SendFrom(fd: nat) | ReceiveInto(fd: nat)

  function CopyFor(job: Job): Copy
  {
    match job
    case Listing => Collect
    case Retrieve(_, fd) => ReceiveInto(fd)
    case Store(_, fd) => SendFrom(fd)
  }

  /** How data_fd tells the jobs apart. */
  function Signed(kind: Kind, retrFd: nat, storFd: nat): int
  {
    match kind
    case LISTING => 0
    case RETRIEVE => 0 - retrFd
    case STORE => storFd
  }

  function JobOf(kind: Kind, retrName: string, retrFd: nat, storName: string, storFd: nat): Job
  {
    match kind
    case LISTING => Listing
    case RETRIEVE => Retrieve(retrName, retrFd)
    case STORE => Store(storName, storFd)
  }

  /** A callback with what it will find in the statics. */
  function AtOf(next: Callback, to: string, job: Job): At
  {
    match next
    case Gone => Disconnected
    case Out => LoggedOut
    case Nothing => Idle
    case Auth_1 => Auth1
    case Auth_2 => Auth2
    case Auth_3 => Auth3
    case Sys_1 => Sys1
    case Sys_2 => Sys2
    case List_1 => List1
    case Cwd_1 => Cwd1
    case Rename_1 => Rename1(to)
    case Rename_2 => Rename2
    case Mkd_1 => Mkd1
    case Rm_1 => Rm1
    case Data_pasv_1 => DataPasv1(job)
    case Data_port_1 => DataPort1(job)
    case Data_2 => Moving(job)
    case Stor_3 => Stor3
    case Disconn_1 => Disconn1
  }

  /** The text of the 257 reply of a server in directory wd. */
  ghost predicate Shows(text: string, wd: string)
  {
    Normal(wd) && text == Markf(Msg257(wd)) + "\n"
  }

  lemma ShownDirectory(text: string)
    ensures forall wd :: Shows(text, wd) ==> RecoverDirectory(text) == if |wd| <= 232 then Directory(wd) else BadLength
  {
    forall wd | Shows(text, wd)
      ensures RecoverDirectory(text) == if |wd| <= 232 then Directory(wd) else BadLength
    {
      NormalChars(wd);
      PwdText(wd);
    }
  }

  /** do_data does not depend on the callback it is called by. */
  lemma DoDataFrom(c: Chain, d: Chain, job: Job, port: Option<Address>)
    requires d == c.(at := d.at)
    ensures DoData(c, job, port) == DoData(d, job, port)
  {
  }

  /** list_1 by its cases. */
  lemma DirectoryMark(c: Chain, code: nat, text: string, port: Option<Address>)
    requires c.at == List1
    ensures var r := RecoverDirectory(text); var m := OnMark(c, code, text, "", port);
      if code != 257 then m == Some(Stop(c))
      else m == OnDirectory(c, text, port) && (m.None? <==> r.BadLength?) &&
           (r.Directory? ==> m.value.cwd == Some(r.path))
  {
  }

  class Window {
    var next: Callback
    var passiveMode: bool
    var cwd: Option<string>
    var dataFd: int
    var dataKind: Kind
    var renameTo: string
    var retrName: string
    var retrOutFd: nat
    var storName: string
    var storInFd: nat
    /** What went out to the control connection, and how many replies were asked for. */
    var written: string
    var marks: nat
    /** The requests that are what was written, transfers and failed data connections. */
    ghost var asked: seq<Request>
    ghost var transfers: nat
    ghost var failures: nat

    ghost function JobNow(): Job
      reads this
    {
      JobOf(dataKind, retrName, retrOutFd, storName, storInFd)
    }

    ghost function View(): Chain
      reads this
    {
      Chain(AtOf(next, renameTo, JobNow()), passiveMode, cwd, marks, asked, transfers, failures)
    }

    /** data_fd encodes the job by its sign, and what was written is the requests. */
    ghost predicate Valid()
      reads this
    {
      && written == WriteRequests(asked)
      && (next == Data_pasv_1 || next == Data_port_1 || next == Data_2 ==>
            dataFd == Signed(dataKind, retrOutFd, storInFd))
    }

    constructor ()
      ensures Valid() && View() == NOT_CONNECTED
    {
      next, passiveMode, cwd, dataFd, dataKind, renameTo := Gone, true, None, 0, LISTING, "";
      retrName, retrOutFd, storName, storInFd, written, marks := "", 0, "", 0, "", 0;
      asked, transfers, failures := [], 0, 0;
    }

    /** xfer_write of "verb[ arg]\r\n", and xfer_read_mark. */
    method Send(verb: string, arg: Option<string>, callback: Callback)
      requires written == WriteRequests(asked)
      modifies this`written, this`asked, this`marks, this`next
      ensures written == WriteRequests(asked)
      ensures View() == Ask(old(View()), AtOf(callback, renameTo, JobNow()), Request(verb, arg)) && next == callback
    {
      var s := if arg.Some? then verb + " " + arg.value else verb;
      WriteMore(asked, Request(verb, arg));
      written := written + (s + "\r\n");
      asked := asked + [Request(verb, arg)];
      marks := marks + 1;
      next := callback;
    }

    /** do_data, once the statics are set */
    method Announce(port: Option<Address>)
      requires written == WriteRequests(asked) && dataFd == Signed(dataKind, retrOutFd, storInFd)
      modifies this`written, this`asked, this`marks, this`next
      ensures Valid() && View() == DoData(old(View()), JobNow(), port)
    {
      if passiveMode {
        Send("PASV", None, Data_pasv_1);
      } else if port.Some? {
        Send("PORT", Some(Commas(port.value)), Data_port_1);
      } else {
        next := Nothing;
      }
    }

    /** do_data */
    method Data(fd: int, kind: Kind, port: Option<Address>)
      requires Valid() && fd == Signed(kind, retrOutFd, storInFd)
      modifies this`dataFd, this`dataKind, this`written, this`asked, this`marks, this`next
      ensures dataKind == kind
      ensures Valid() && View() == DoData(old(View()), JobNow(), port)
    {
      ghost var c := View();
      dataFd, dataKind := fd, kind;
      DoDataFrom(c, View(), JobNow(), port);
      Announce(port);
    }

    /** list_2, retr_1 or stor_1, by data_inter */
    method SendTransfer()
      requires Valid() && (next == Data_pasv_1 || next == Data_port_1)
      modifies this`written, this`asked, this`marks, this`next, this`transfers
      ensures Valid() && View() == Inter(old(View()), old(JobNow()))
    {
      transfers := transfers + 1;
      match dataKind {
        case LISTING => Send("LIST", None, Data_2);
        case RETRIEVE => Send("RETR", Some(retrName), Data_2);
        case STORE => Send("STOR", Some(storName), Data_2);
      }
    }

    /** data_2 with a connection: the sign of data_fd picks the copy loop. It is the right one
        exactly when the descriptor is not 0, which is taken for a listing. */
    method Data2() returns (copy: Copy)
      requires Valid() && next == Data_2
      ensures copy == CopyFor(JobNow()) <==> dataKind == LISTING || dataFd != 0
      ensures dataFd == 0 ==> copy == Collect
    {
      if dataFd > 0 { return SendFrom(dataFd); }
      if dataFd < 0 { return ReceiveInto(-dataFd); }
      return Collect;
    }

    /** list_1, the text between the quotes. From a server whose directory wd has at most 232 bytes it
        is wd. */
    method KeepDirectory(text: string) returns (found: Recovered)
      requires Valid()
      modifies this`cwd
      ensures Valid() && View() == old(View()).(cwd := cwd) && found == RecoverDirectory(text)
      ensures cwd == if found.Directory? then Some(found.path) else None
      ensures forall wd :: Shows(text, wd) ==> if |wd| <= 232 then cwd == Some(wd) else found.BadLength?
    {
      ShownDirectory(text);
      found := RecoverDirectory(text);
      cwd := if found.Directory? then Some(found.path) else None;
    }

    method DataForList(port: Option<Address>)
      requires Valid() && next == List_1
      modifies this`dataFd, this`dataKind, this`written, this`asked, this`marks, this`next
      ensures Valid() && View() == DoData(old(View()), Listing, port)
    {
      Data(0, LISTING, port);
    }

    /** list_1 for a 257; lost when it goes on to copy a text of length -1. */
    method Directory257(text: string, port: Option<Address>) returns (found: Recovered)
      requires Valid() && next == List_1
      modifies this
      ensures found == RecoverDirectory(text)
      ensures !found.BadLength? ==> Valid() && Some(View()) == OnDirectory(old(View()), text, port)
    {
      found := KeepDirectory(text);
      if found.Directory? {
        DataForList(port);
      } else {
        next := Nothing;
      }
    }

    /** list_1. From a server whose directory wd has at most 232 bytes, what it keeps is wd; from one
        with a longer one it is lost. */
    method List1Reply(code: nat, text: string, port: Option<Address>) returns (lost: bool)
      requires Valid() && next == List_1
      modifies this
      ensures lost <==> OnMark(old(View()), code, text, "", port).None?
      ensures !lost ==> Valid() && Some(View()) == OnMark(old(View()), code, text, "", port)
      ensures code == 257 ==> forall wd :: Shows(text, wd) ==>
                (lost <==> |wd| > 232) && (!lost ==> View().cwd == Some(wd))
    {
      ghost var c := View();
      DirectoryMark(c, code, text, port);
      ShownDirectory(text);
      if code == 257 {
        var found := Directory257(text, port);
        lost := found.BadLength?;
      } else {
        next := Nothing;
        lost := false;
      }
    }

    /** rename_1 */
    method Rename1Reply(code: nat)
      requires Valid() && next == Rename_1
      modifies this
      ensures Valid() && Some(View()) == OnMark(old(View()), code, "", "", None)
    {
      if code == 250 {
        Send("RNTO", Some(renameTo), Rename_2);
      } else {
        next := Nothing;
      }
    }

    /** data_pasv_1 and data_port_1 */
    method DataReply(code: nat, text: string)
      requires Valid() && (next == Data_pasv_1 || next == Data_port_1)
      modifies this
      ensures Valid() && Some(View()) == OnMark(old(View()), code, text, "", None)
    {
      if next == Data_pasv_1 {
        var address := DataPasv(code, text);
        if address == None { next := Nothing; } else { SendTransfer(); }
      } else {
        if code != 200 { next := Nothing; } else { SendTransfer(); }
      }
    }

    /** do_rename */
    method StartRename(from: string, to: string)
      requires Valid() && next == Nothing
      modifies this
      ensures Valid() && View() == OnClick(old(View()), DoRename(from, to), None)
    {
      renameTo := to;
      Send("RNFR", Some(from), Rename_1);
    }

    /** do_retr, with the local file opened */
    method StartRetr(name: string, fd: nat, port: Option<Address>)
      requires Valid() && next == Nothing
      modifies this
      ensures Valid() && View() == OnClick(old(View()), DoRetr(name, Some(fd)), port)
    {
      retrName, retrOutFd := name, fd;
      Data(0 - fd, RETRIEVE, port);
    }

    /** do_stor, with the local file opened */
    method StartStor(name: string, fd: nat, port: Option<Address>)
      requires Valid() && next == Nothing
      modifies this
      ensures Valid() && View() == OnClick(old(View()), DoStor(name, Some(fd)), port)
    {
      storName, storInFd := name, fd;
      Data(fd, STORE, port);
    }
  }

  lemma {:induction false} WriteMore(qs: seq<Request>, q: Request)
    ensures WriteRequests(qs + [q]) == WriteRequests(qs) + (Body(q) + "\r\n")
  {
    if qs == [] {
      assert qs + [q] == [q] && [q][1..] == [];
      assert Body(q) + "\r\n" + "" == "" + (Body(q) + "\r\n");
    } else {
      WriteMore(qs[1..], q);
      assert (qs + [q])[1..] == qs[1..] + [q];
      Assoc(Body(qs[0]) + "\r\n", WriteRequests(qs[1..]), Body(q) + "\r\n");
    }
  }
}
