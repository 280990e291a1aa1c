/** Building concrete runs of the server, step by step. */
module ServerScript {
  import opened Text
  import opened Requests
  import opened Codecs
  import opened Session
  import opened Server
  import opened ServerLogin

  /** One more step of a run. */
  lemma Go(evs: seq<Event>, s: Sys, e: Event) returns (evs': seq<Event>, s': Sys)
    requires Run(evs) == Some(s) && Next(s, e).Some?
    ensures evs' == evs + [e] && Next(s, e) == Some(s') && Run(evs') == Some(s')
    ensures PatientRun(evs') <==> PatientRun(evs) && Patient(s, e)
    ensures ReachedRun(evs') <==> ReachedRun(evs) && Reached(s, e)
  {
    evs', s' := evs + [e], Next(s, e).value;
    assert evs'[..|evs|] == evs;
  }

  /** A step of the session, or of the data thread, in which fallible calls answer yes. */
  function Sess(input: Input): Event { SessionStep(Env(input, true, true, 0)) }

  function Dat(yes: bool, st: nat): Event { DataStep(Env(Closed, yes, true, st)) }

  /** The later run is as disciplined as the earlier one. */
  predicate AsGood(evs: seq<Event>, evs0: seq<Event>)
  {
    (PatientRun(evs) <==> PatientRun(evs0)) && (ReachedRun(evs) <==> ReachedRun(evs0))
  }

  /** A text for a verb. */
  lemma Spell(v: Verb) returns (verb: string)
    requires v == USER || v == PASS || v == PORT || v == PASV || v == LIST
    ensures VerbOf(verb) == v
  {
    verb := if v == USER then "USER" else if v == PASS then "PASS" else if v == PORT then "PORT"
      else if v == PASV then "PASV" else "LIST";
  }

  /** The server reads a command. */
  lemma Receive(evs0: seq<Event>, s0: Sys, v: Verb, arg: string) returns (evs: seq<Event>, s: Sys)
    requires Run(evs0) == Some(s0) && s0.pc == Read
    requires v == USER || v == PASS || v == PORT || v == PASV || v == LIST
    ensures Run(evs) == Some(s) && s == s0.(pc := Xfer(v, arg), lines := s0.lines + 1)
    ensures ReachedRun(evs) <==> ReachedRun(evs0)
    ensures PatientRun(evs) <==> PatientRun(evs0) && (TransferRelated(v) ==> !Awaiting(s0.sent))
  {
    var verb := Spell(v);
    evs, s := Go(evs0, s0, Sess(Command(verb, arg)));
  }

  lemma PassXfer(evs0: seq<Event>, s0: Sys, v: Verb, arg: string) returns (evs: seq<Event>, s: Sys)
    requires Run(evs0) == Some(s0) && s0.pc == Xfer(v, arg) && s0.datFp.None? && v != TYPE
    ensures Run(evs) == Some(s) && s == Goto(s0, if NeedsAuth(v) then Auth(v, arg) else Exec(v, arg))
    ensures AsGood(evs, evs0)
  {
    evs, s := Go(evs0, s0, Sess(Closed));
  }

  function Entered(v: Verb, arg: string): Pc
  {
    if v == PORT then CtRead(ForPort(arg)) else if v == PASV then CtRead(ForPasv) else Data(v, arg)
  }

  lemma PassAuth(evs0: seq<Event>, s0: Sys, v: Verb, arg: string) returns (evs: seq<Event>, s: Sys)
    requires Run(evs0) == Some(s0) && s0.pc == Auth(v, arg) && s0.state.LoggedIn()
    requires v == PORT || v == PASV || v == LIST
    ensures Run(evs) == Some(s) && s == Goto(s0, Entered(v, arg)) && AsGood(evs, evs0)
  {
    evs, s := Go(evs0, s0, Sess(Closed));
  }

  lemma PassData(evs0: seq<Event>, s0: Sys, v: Verb, arg: string) returns (evs: seq<Event>, s: Sys)
    requires Run(evs0) == Some(s0) && s0.pc == Data(v, arg) && s0.state.HasData()
    ensures Run(evs) == Some(s) && s == Goto(s0, Exec(v, arg)) && AsGood(evs, evs0)
  {
    evs, s := Go(evs0, s0, Sess(Closed));
  }

  lemma Execute(evs0: seq<Event>, s0: Sys, v: Verb, arg: string) returns (evs: seq<Event>, s: Sys)
    requires Run(evs0) == Some(s0) && s0.pc == Exec(v, arg)
    ensures Run(evs) == Some(s) && s == ExecStep(s0, v, arg, Env(Closed, true, true, 0)) && AsGood(evs, evs0)
  {
    evs, s := Go(evs0, s0, Sess(Closed));
  }

  lemma Reply(evs0: seq<Event>, s0: Sys, code: nat, after: After) returns (evs: seq<Event>, s: Sys)
    requires Run(evs0) == Some(s0) && s0.pc == Say(code, after)
    ensures Run(evs) == Some(s) && s == SayStep(s0, code, after) && AsGood(evs, evs0)
    ensures Awaiting(s.sent) <==>
      code == 150 || (code != 226 && code != 451 && code != 425 && Awaiting(s0.sent))
  {
    evs, s := Go(evs0, s0, Sess(Closed));
    TellCounts(s0.sent, Sent(false, code));
  }

  /** Nothing to close. */
  lemma NoThreads(evs0: seq<Event>, s0: Sys, why: Why) returns (evs: seq<Event>, s: Sys)
    requires Run(evs0) == Some(s0) && s0.pc == CtRead(why) && !s0.running
    ensures Run(evs) == Some(s) && s == Return(s0, why) && AsGood(evs, evs0)
  {
    evs, s := Go(evs0, s0, Sess(Closed));
  }

  const ANON := Local(Some("anonymous/x"), "/", None, 0, Some("anonymous"), Some(("anonymous", "x")))

  /** Logged in, between two commands. */
  predicate Idle(s: Sys)
  {
    s.pc == Read && s.local == ANON && s.datFp.None? && s.state.LoggedIn()
  }

  lemma Welcome() returns (evs: seq<Event>, s: Sys)
    ensures Run(evs) == Some(s) && Disciplined(evs) && !Awaiting(s.sent)
    ensures s == INIT.(pc := Read, sent := s.sent)
  {
    TellCounts([], Sent(false, 220));
    evs, s := Go([], INIT, Sess(Closed));
  }

  lemma GiveUser(evs0: seq<Event>, s0: Sys) returns (evs: seq<Event>, s: Sys)
    requires Run(evs0) == Some(s0) && s0.pc == Exec(USER, "anonymous") && s0.state == CONN && s0.local == FRESH
    ensures Run(evs) == Some(s) && AsGood(evs, evs0)
    ensures s == s0.(pc := Say(331, ToRead), state := WAIT_PASS, local := FRESH.(asked := Some("anonymous")))
  {
    evs, s := Execute(evs0, s0, USER, "anonymous");
  }

  lemma GivePass(evs0: seq<Event>, s0: Sys) returns (evs: seq<Event>, s: Sys)
    requires Run(evs0) == Some(s0) && s0.pc == Exec(PASS, "x") && s0.state == WAIT_PASS
    requires s0.local == FRESH.(asked := Some("anonymous"))
    ensures Run(evs) == Some(s) && AsGood(evs, evs0)
    ensures s == s0.(pc := Say(230, ToRead), state := READY, local := ANON)
  {
    evs, s := Execute(evs0, s0, PASS, "x");
    assert "anonymous/" + "x" == "anonymous/x";
  }

  /** USER and its reply. */
  lemma Introduce(evs0: seq<Event>, s0: Sys) returns (evs: seq<Event>, s: Sys)
    requires Run(evs0) == Some(s0) && s0.pc == Read && s0.state == CONN && s0.local == FRESH && s0.datFp.None?
    requires !Awaiting(s0.sent)
    ensures Run(evs) == Some(s) && (Disciplined(evs0) ==> Disciplined(evs))
    ensures s == s0.(state := WAIT_PASS, local := FRESH.(asked := Some("anonymous")), lines := s.lines, sent := s.sent)
    ensures !Awaiting(s.sent)
  {
    evs, s := Receive(evs0, s0, USER, "anonymous");
    evs, s := PassXfer(evs, s, USER, "anonymous");
    evs, s := GiveUser(evs, s);
    evs, s := Reply(evs, s, 331, ToRead);
  }

  lemma LogIn() returns (evs: seq<Event>, s: Sys)
    ensures Run(evs) == Some(s) && Disciplined(evs)
    ensures Idle(s) && s.state == READY && s.thr.None? && !s.running && !Awaiting(s.sent) && s.created == 0
  {
    evs, s := Welcome();
    evs, s := Introduce(evs, s);
    evs, s := Receive(evs, s, PASS, "x");
    evs, s := PassXfer(evs, s, PASS, "x");
    evs, s := GivePass(evs, s);
    evs, s := Reply(evs, s, 230, ToRead);
  }

  /** A guarded command past its auth check. */
  lemma Ask(evs0: seq<Event>, s0: Sys, v: Verb, arg: string) returns (evs: seq<Event>, s: Sys)
    requires Run(evs0) == Some(s0) && Idle(s0) && (v == PORT || v == PASV || v == LIST)
    ensures Run(evs) == Some(s)
    ensures s == s0.(pc := Entered(v, arg), lines := s0.lines + 1)
    ensures ReachedRun(evs) <==> ReachedRun(evs0)
    ensures PatientRun(evs) <==> PatientRun(evs0) && !Awaiting(s0.sent)
  {
    evs, s := Receive(evs0, s0, v, arg);
    evs, s := PassXfer(evs, s, v, arg);
    evs, s := PassAuth(evs, s, v, arg);
  }

  /** Store the file: the end of an accepted command. */
  lemma Store(evs0: seq<Event>, s0: Sys, f: nat) returns (evs: seq<Event>, s: Sys)
    requires Run(evs0) == Some(s0) && s0.pc == Signal(f)
    ensures Run(evs) == Some(s) && s == SignalStep(s0, f) && AsGood(evs, evs0)
  {
    evs, s := Go(evs0, s0, Sess(Closed));
  }

  /** An accepted LIST: the file ends up in dat_fp. */
  lemma List(evs0: seq<Event>, s0: Sys) returns (evs: seq<Event>, s: Sys)
    requires Run(evs0) == Some(s0) && Idle(s0) && s0.state.HasData()
    ensures Run(evs) == Some(s) && s.pc == Read && s.local == ANON && s.state == s0.state
    ensures s.datFp == Some(s0.files) && s.running == s0.running
    ensures s.thr == (if s0.thr.Some? && s0.thr.value.at == Waiting then Some(s0.thr.value.(at := Woken)) else s0.thr)
    ensures PatientRun(evs) <==> PatientRun(evs0) && !Awaiting(s0.sent)
    ensures ReachedRun(evs) <==> ReachedRun(evs0)
  {
    evs, s := Ask(evs0, s0, LIST, "");
    evs, s := PassData(evs, s, LIST, "");
    evs, s := Execute(evs, s, LIST, "");
    evs, s := Reply(evs, s, 150, ToSignal(s0.files));
    evs, s := Store(evs, s, s0.files);
  }

  /** The end of cleanup, after dat_fp := NULL. */
  lemma Finish(evs0: seq<Event>, s0: Sys) returns (evs: seq<Event>, s: Sys)
    requires Run(evs0) == Some(s0) && s0.thr.Some? && s0.thr.value.at == Settle
    ensures Run(evs) == Some(s) && s.datFp == s0.datFp && s.thr.Some? && s.thr.value.at == Ended && AsGood(evs, evs0)
  {
    evs, s := Go(evs0, s0, Dat(true, 0));
    ReportFrame(s, s.thr.value);
    evs, s := Go(evs, s, Dat(true, 0));
  }

  lemma OpenPassive(evs0: seq<Event>, s0: Sys) returns (evs: seq<Event>, s: Sys)
    requires Run(evs0) == Some(s0) && s0.pc == PasvOpen
    ensures Run(evs) == Some(s) && s == s0.(state := PASV_MODE, pc := PasvRun) && AsGood(evs, evs0)
  {
    evs, s := Go(evs0, s0, Sess(Closed));
    evs, s := Go(evs, s, Sess(Closed));
  }

  lemma StartPassive(evs0: seq<Event>, s0: Sys) returns (evs: seq<Event>, s: Sys)
    requires Run(evs0) == Some(s0) && s0.pc == PasvRun
    ensures Run(evs) == Some(s) && AsGood(evs, evs0)
    ensures s == s0.(running := true, pc := Say(227, ToRead), thr := Some(PASSIVE), created := s0.created + 1)
  {
    evs, s := Go(evs0, s0, Sess(Closed));
    evs, s := Go(evs, s, Sess(Closed));
  }

  lemma AskPassive(evs0: seq<Event>, s0: Sys) returns (evs: seq<Event>, s: Sys)
    requires Run(evs0) == Some(s0) && Idle(s0) && !s0.running && !Awaiting(s0.sent)
    ensures Run(evs) == Some(s) && AsGood(evs, evs0)
    ensures s == s0.(state := PASV_MODE, pc := PasvRun, lines := s0.lines + 1)
  {
    evs, s := Ask(evs0, s0, PASV, "");
    evs, s := NoThreads(evs, s, ForPasv);
    evs, s := OpenPassive(evs, s);
  }

  /** Passive mode: the data thread waits for a connection. */
  lemma Pasv(evs0: seq<Event>, s0: Sys) returns (evs: seq<Event>, s: Sys)
    requires Run(evs0) == Some(s0) && Idle(s0) && !s0.running && s0.thr.None? && !Awaiting(s0.sent)
    ensures Run(evs) == Some(s) && Idle(s) && s.state == PASV_MODE && s.running && s.thr == Some(PASSIVE)
    ensures !Awaiting(s.sent) && AsGood(evs, evs0)
  {
    evs, s := AskPassive(evs0, s0);
    evs, s := StartPassive(evs, s);
    evs, s := Reply(evs, s, 227, ToRead);
  }

  lemma ScanPort(evs0: seq<Event>, s0: Sys, arg: string) returns (evs: seq<Event>, s: Sys)
    requires Run(evs0) == Some(s0) && s0.pc == PortScan(arg) && ScanAddress(arg).Some?
    ensures Run(evs) == Some(s) && s == s0.(pc := PortCreate, running := true) && AsGood(evs, evs0)
  {
    evs, s := Go(evs0, s0, Sess(Closed));
    evs, s := Go(evs, s, Sess(Closed));
  }

  lemma StartActive(evs0: seq<Event>, s0: Sys) returns (evs: seq<Event>, s: Sys)
    requires Run(evs0) == Some(s0) && s0.pc == PortCreate
    ensures Run(evs) == Some(s) && AsGood(evs, evs0)
    ensures s == s0.(state := PORT_MODE, pc := Say(200, ToRead), thr := Some(ACTIVE), created := s0.created + 1)
  {
    evs, s := Go(evs0, s0, Sess(Closed));
    evs, s := Go(evs, s, Sess(Closed));
  }

  /** An active data thread begins to wait for a file. */
  lemma Wait(evs0: seq<Event>, s0: Sys) returns (evs: seq<Event>, s: Sys)
    requires Run(evs0) == Some(s0) && s0.thr == Some(ACTIVE)
    ensures Run(evs) == Some(s) && s == s0.(thr := Some(ACTIVE.(at := Waiting))) && AsGood(evs, evs0)
  {
    evs, s := Go(evs0, s0, Dat(true, 0));
  }

  lemma AskActive(evs0: seq<Event>, s0: Sys, arg: string) returns (evs: seq<Event>, s: Sys)
    requires Run(evs0) == Some(s0) && Idle(s0) && !s0.running && !Awaiting(s0.sent) && ScanAddress(arg).Some?
    ensures Run(evs) == Some(s) && AsGood(evs, evs0)
    ensures s == s0.(pc := PortCreate, running := true, lines := s0.lines + 1)
  {
    evs, s := Ask(evs0, s0, PORT, arg);
    evs, s := NoThreads(evs, s, ForPort(arg));
    evs, s := ScanPort(evs, s, arg);
  }

  /** Active mode: the data thread has just been created. */
  lemma PortAtOnce(evs0: seq<Event>, s0: Sys, arg: string) returns (evs: seq<Event>, s: Sys)
    requires Run(evs0) == Some(s0) && Idle(s0) && !s0.running && s0.thr.None? && !Awaiting(s0.sent)
    requires ScanAddress(arg).Some?
    ensures Run(evs) == Some(s) && Idle(s) && s.state == PORT_MODE && s.running
    ensures s.thr == Some(ACTIVE) && !Awaiting(s.sent) && AsGood(evs, evs0)
  {
    evs, s := AskActive(evs0, s0, arg);
    evs, s := AnswerActive(evs, s);
  }

  lemma AnswerActive(evs0: seq<Event>, s0: Sys) returns (evs: seq<Event>, s: Sys)
    requires Run(evs0) == Some(s0) && s0.pc == PortCreate && !Awaiting(s0.sent)
    ensures Run(evs) == Some(s) && !Awaiting(s.sent) && AsGood(evs, evs0)
    ensures s == s0.(state := PORT_MODE, pc := Read, thr := Some(ACTIVE), created := s0.created + 1, sent := s.sent)
  {
    evs, s := StartActive(evs0, s0);
    evs, s := Reply(evs, s, 200, ToRead);
  }

  /** Active mode: the data thread waits for a file. */
  lemma Port(evs0: seq<Event>, s0: Sys, arg: string) returns (evs: seq<Event>, s: Sys)
    requires Run(evs0) == Some(s0) && Idle(s0) && !s0.running && s0.thr.None? && !Awaiting(s0.sent)
    requires ScanAddress(arg).Some?
    ensures Run(evs) == Some(s) && Idle(s) && s.state == PORT_MODE && s.running
    ensures s.thr == Some(ACTIVE.(at := Waiting)) && !Awaiting(s.sent) && AsGood(evs, evs0)
  {
    evs, s := PortAtOnce(evs0, s0, arg);
    evs, s := Wait(evs, s);
  }

  /** cleanup up to dat_fp := NULL. */
  lemma Clean(evs0: seq<Event>, s0: Sys) returns (evs: seq<Event>, s: Sys)
    requires Run(evs0) == Some(s0) && s0.thr.Some? && s0.thr.value.at == Close
    requires s0.pc == Read && s0.local == ANON && s0.state.LoggedIn()
    ensures Run(evs) == Some(s) && Idle(s) && s.state == s0.state && s.sent == s0.sent
    ensures s.thr.Some? && AsGood(evs, evs0)
    ensures s.thr.value.at == Settle && s.thr.value.fp == s0.thr.value.fp && s.thr.value.st == s0.thr.value.st
  {
    evs, s := Go(evs0, s0, Dat(true, 0));    // Close
    evs, s := Go(evs, s, Dat(true, 0));      // Forget
  }

  /** A passive data thread accepts its connection and takes the file. */
  lemma Serve(evs0: seq<Event>, s0: Sys) returns (evs: seq<Event>, s: Sys)
    requires Run(evs0) == Some(s0) && s0.thr == Some(PASSIVE) && s0.running && s0.datFp.Some?
    ensures Run(evs) == Some(s) && AsGood(evs, evs0)
    ensures s == s0.(thr := Some(PASSIVE.(at := Block, connected := true, fp := s0.datFp)))
  {
    evs, s := Go(evs0, s0, Dat(true, 0));    // Poll
    evs, s := Go(evs, s, Dat(true, 0));      // Accept
    evs, s := Go(evs, s, Dat(true, 0));      // Take
  }

  /** The whole listing is sent in one block. */
  lemma SendAll(evs0: seq<Event>, s0: Sys) returns (evs: seq<Event>, s: Sys)
    requires Run(evs0) == Some(s0) && s0.thr.Some? && s0.thr.value.at == Block
    ensures Run(evs) == Some(s) && s == s0.(thr := Some(s0.thr.value.(at := Close, st := 1))) && AsGood(evs, evs0)
  {
    evs, s := Go(evs0, s0, Dat(true, 1));
  }

  // ---- Scenes ----

  /** A passive LIST has been accepted. */
  lemma Listing() returns (evs: seq<Event>, s: Sys)
    ensures Run(evs) == Some(s) && s.pc == Read && s.local == ANON && s.state == PASV_MODE && s.running
    ensures s.datFp.Some? && s.thr == Some(PASSIVE) && Disciplined(evs)
  {
    evs, s := LogIn();
    evs, s := Pasv(evs, s);
    evs, s := List(evs, s);
  }

  /** The data thread sends the whole listing and clears dat_fp. */
  lemma SendListing(evs0: seq<Event>, s0: Sys) returns (evs: seq<Event>, s: Sys)
    requires Run(evs0) == Some(s0) && s0.thr == Some(PASSIVE) && s0.running && s0.datFp.Some?
    requires s0.pc == Read && s0.local == ANON && s0.state.LoggedIn()
    ensures Run(evs) == Some(s) && Idle(s) && s.state == s0.state && s.thr.Some? && AsGood(evs, evs0)
    ensures s.thr.value.at == Settle && s.thr.value.fp.Some? && s.thr.value.st == 1
  {
    evs, s := Serve(evs0, s0);
    evs, s := SendAll(evs, s);
    evs, s := Clean(evs, s);
  }

  /** A whole passive LIST, up to dat_fp := NULL. */
  lemma FirstList() returns (evs: seq<Event>, s: Sys)
    ensures Run(evs) == Some(s) && Idle(s) && s.state == PASV_MODE && s.thr.Some?
    ensures s.thr.value.at == Settle && s.thr.value.fp.Some? && s.thr.value.st == 1 && Disciplined(evs)
  {
    evs, s := Listing();
    evs, s := SendListing(evs, s);
  }

  /** The active connection fails, and 425 goes out. */
  lemma ConnectFails(evs0: seq<Event>, s0: Sys) returns (evs: seq<Event>, s: Sys)
    requires Run(evs0) == Some(s0) && s0.thr.Some? && s0.thr.value.at == Woken && s0.pc == Read
    ensures Run(evs) == Some(s) && s.thr.Some? && s.thr.value.at == Close
    ensures s.pc == Read && s.local == s0.local && s.state == s0.state
    ensures !Awaiting(s.sent) && !ReachedRun(evs) && (PatientRun(evs) <==> PatientRun(evs0))
  {
    evs, s := Go(evs0, s0, Dat(true, 0));    // Woken
    evs, s := Go(evs, s, Dat(false, 0));     // Connect
    TellCounts(s.sent, Sent(true, 425));
    evs, s := Go(evs, s, Dat(true, 0));      // Refused
  }

  lemma CreateFails(evs0: seq<Event>, s0: Sys) returns (evs: seq<Event>, s: Sys)
    requires Run(evs0) == Some(s0) && s0.pc == PasvCreate
    ensures Run(evs) == Some(s) && s == Goto(s0.(createFailed := true), Say(421, ToBye))
  {
    evs, s := Go(evs0, s0, SessionStep(Env(Closed, false, true, 0)));
  }

  lemma PrepareCreate(evs0: seq<Event>, s0: Sys) returns (evs: seq<Event>, s: Sys)
    requires Run(evs0) == Some(s0) && s0.pc == PasvRun
    ensures Run(evs) == Some(s) && s == Goto(s0.(running := true), PasvCreate)
  {
    evs, s := Go(evs0, s0, Sess(Closed));
  }

  /** Saying goodbye and closing, with thr_dat_running set and no thread. */
  lemma CloseWithout(evs0: seq<Event>, s0: Sys) returns (evs: seq<Event>, s: Sys)
    requires Run(evs0) == Some(s0) && s0.pc == CtRead(ForClose) && s0.running && s0.thr.None?
    ensures Run(evs) == Some(s) && s.pc == Freed && s.badJoin
    ensures s.createFailed == s0.createFailed && s.created == s0.created
  {
    evs, s := Go(evs0, s0, Sess(Closed));
    evs, s := Go(evs, s, Sess(Closed));
    evs, s := JoinNothing(evs, s);
  }

  lemma JoinNothing(evs0: seq<Event>, s0: Sys) returns (evs: seq<Event>, s: Sys)
    requires Run(evs0) == Some(s0) && s0.pc == CtJoin(ForClose) && s0.thr.None?
    ensures Run(evs) == Some(s) && s.pc == Freed && s.badJoin
    ensures s.createFailed == s0.createFailed && s.created == s0.created
  {
    evs, s := Go(evs0, s0, Sess(Closed));
    evs, s := Go(evs, s, Sess(Closed));
  }

  lemma Goodbye(evs0: seq<Event>, s0: Sys) returns (evs: seq<Event>, s: Sys)
    requires Run(evs0) == Some(s0) && s0.pc == Bye
    ensures Run(evs) == Some(s) && s == Goto(Tell(s0, false, 221), CtRead(ForClose))
  {
    evs, s := Go(evs0, s0, Sess(Closed));
  }

  lemma UpToCreate() returns (evs: seq<Event>, s: Sys)
    ensures Run(evs) == Some(s) && s.pc == PasvCreate && s.running && s.thr.None? && s.created == 0
  {
    evs, s := LogIn();
    evs, s := AskPassive(evs, s);
    evs, s := PrepareCreate(evs, s);
  }

  /** PASV when pthread_create fails: the session ends with a join of a thread that never was. */
  lemma FailedCreateJoins() returns (evs: seq<Event>)
    ensures Run(evs).Some? && Run(evs).value.pc == Freed
    ensures Run(evs).value.badJoin && Run(evs).value.createFailed && Run(evs).value.created == 0
  {
    var s: Sys;
    evs, s := UpToCreate();
    evs, s := CreateFails(evs, s);
    evs, s := Reply(evs, s, 421, ToBye);
    evs, s := Goodbye(evs, s);
    evs, s := CloseWithout(evs, s);
  }
}
