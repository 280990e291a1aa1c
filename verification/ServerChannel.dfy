/** The server with its replies cut up: a reply is begun, written in pieces and finished, and the
    other thread may move meanwhile. Server takes each reply as one step; this shows when it may. */
module ServerChannel {
  import opened Text
  import opened LineBuffer
  import opened Replies
  import opened Requests
  import opened Server
  import opened ServerLife
  import opened ServerLogin
  import opened ServerRuns
  import opened ServerScript
  import opened ControlChannel

  datatype Fine = Fine(sys: Sys, chan: Chan)

  /** A step that says nothing; a reply begun, continued and finished with the step that says it. */
  datatype FineEvent =
    | Silent(e: Event)
    | Begin(who: Who, text: string)
    | Part(who: Who, n: nat)
    | Finish(e: Event)

  function Mover(e: Event): Who { if e.SessionStep? then Who.Session else Who.Data }

  /** What a thread is about to say: the code, and whether under the lock. */
  function Speech(s: Sys, who: Who): Option<(nat, bool)>
  {
    if who == Who.Session then SessionSpeech(s.pc)
    else if s.thr.Some? then DataSpeech(s.thr.value)
    else None
  }

  function SessionSpeech(pc: Pc): Option<(nat, bool)>
  {
    match pc
    case Greet => Some((220, false))
    case Say(code, _) => Some((code, code != 202 && code != 500))
    case Bye => Some((221, false))
    case _ => None
  }

  function DataSpeech(t: Thread): Option<(nat, bool)>
  {
    if t.at == Refused then Some((425, true))
    else if t.at == Report && t.st == 1 then Some((226, true))
    else if t.at == Report && t.st == 2 then Some((451, true))
    else None
  }

  predicate Talking(c: Chan, who: Who)
  {
    c.holder == Some(who) || (who == Who.Session && c.bare.Some?)
  }

  /** What an event does to the channel. */
  function ActOf(f: Fine, fe: FineEvent): Option<Act>
  {
    match fe
    case Silent(_) => None
    case Begin(who, text) =>
      (match Speech(f.sys, who)
       case None => None
       case Some(sp) => Some(if sp.1 then Lock(who, Reply(sp.0, text)) else BareBegin(Reply(sp.0, text))))
    case Part(who, n) => Some(if f.chan.holder == Some(who) then Write(n) else BareWrite(n))
    case Finish(e) => Some(if f.chan.holder == Some(Mover(e)) then Unlock else BareEnd)
  }

  predicate Allowed(f: Fine, fe: FineEvent)
  {
    match fe
    case Silent(e) => Speech(f.sys, Mover(e)).None?
    case Begin(who, _) => Speech(f.sys, who).Some? && !Talking(f.chan, who)
    case Part(who, _) => Talking(f.chan, who)
    case Finish(e) => Talking(f.chan, Mover(e))
  }

  /** The step of the server, for the events that are one. */
  function StepOf(fe: FineEvent): Option<Event>
  {
    match fe
    case Silent(e) => Some(e)
    case Finish(e) => Some(e)
    case _ => None
  }

  function NextSys(s: Sys, fe: FineEvent): Option<Sys>
  {
    if StepOf(fe).Some? then Next(s, StepOf(fe).value) else Some(s)
  }

  function NextChan(f: Fine, fe: FineEvent): Option<Chan>
  {
    if ActOf(f, fe).Some? then Do(f.chan, ActOf(f, fe).value) else Some(f.chan)
  }

  function FineNext(f: Fine, fe: FineEvent): Option<Fine>
  {
    if !Allowed(f, fe) || NextSys(f.sys, fe).None? || NextChan(f, fe).None? then None
    else Some(Fine(NextSys(f.sys, fe).value, NextChan(f, fe).value))
  }

  function FineRun(fes: seq<FineEvent>): Option<Fine>
  {
    if fes == [] then Some(Fine(INIT, QUIET))
    else
      match FineRun(fes[..|fes| - 1])
      case None => None
      case Some(f) => FineNext(f, fes[|fes| - 1])
  }

  // ---- Projections ----

  function Events(fes: seq<FineEvent>): seq<Event>
  {
    if fes == [] then []
    else
      var e := StepOf(fes[|fes| - 1]);
      Events(fes[..|fes| - 1]) + if e.Some? then [e.value] else []
  }

  function Acts(fes: seq<FineEvent>): seq<Act>
  {
    if fes == [] then []
    else
      var before := fes[..|fes| - 1];
      var a := if FineRun(before).Some? then ActOf(FineRun(before).value, fes[|fes| - 1]) else None;
      Acts(before) + if a.Some? then [a.value] else []
  }

  /** Both projections of a run are runs. */
  lemma {:induction false} Projections(fes: seq<FineEvent>)
    requires FineRun(fes).Some?
    ensures Run(Events(fes)) == Some(FineRun(fes).value.sys)
    ensures DoAll(Acts(fes)) == Some(FineRun(fes).value.chan)
  {
    if fes != [] {
      var before, fe := fes[..|fes| - 1], fes[|fes| - 1];
      Projections(before);
      ExtendRun(Events(before), FineRun(before).value.sys, fe);
      ExtendActs(Acts(before), FineRun(before).value, fe);
    }
  }

  lemma ExtendRun(evs: seq<Event>, s: Sys, fe: FineEvent)
    requires Run(evs) == Some(s) && NextSys(s, fe).Some?
    ensures Run(evs + if StepOf(fe).Some? then [StepOf(fe).value] else []) == NextSys(s, fe)
  {
    if StepOf(fe).Some? {
      assert (evs + [StepOf(fe).value])[..|evs|] == evs;
    } else {
      assert evs + [] == evs;
    }
  }

  lemma ExtendActs(acts: seq<Act>, f: Fine, fe: FineEvent)
    requires DoAll(acts) == Some(f.chan) && NextChan(f, fe).Some?
    ensures DoAll(acts + if ActOf(f, fe).Some? then [ActOf(f, fe).value] else []) == NextChan(f, fe)
  {
    if ActOf(f, fe).Some? {
      assert (acts + [ActOf(f, fe).value])[..|acts|] == acts;
    } else {
      assert acts + [] == acts;
    }
  }

  // ---- Replies stay apart ----

  /** The session is about to speak without the lock, and the data thread with it. */
  predicate Clash(s: Sys)
  {
    SessionSpeech(s.pc).Some? && !SessionSpeech(s.pc).value.1 && Speech(s, Who.Data).Some?
  }

  predicate ClashFree(fes: seq<FineEvent>)
  {
    (FineRun(fes).Some? ==> !Clash(FineRun(fes).value.sys)) && (fes == [] || ClashFree(fes[..|fes| - 1]))
  }

  /** Who is talking is where the reply is said. */
  predicate Fit(f: Fine)
  {
    && (f.chan.holder == Some(Who.Session) ==> SessionSpeech(f.sys.pc).Some? && SessionSpeech(f.sys.pc).value.1)
    && (f.chan.bare.Some? ==> SessionSpeech(f.sys.pc).Some? && !SessionSpeech(f.sys.pc).value.1)
    && (f.chan.holder == Some(Who.Data) ==> Speech(f.sys, Who.Data).Some?)
  }

  /** A step of one thread leaves what the other is about to say. */
  lemma DataKeepsSpeech(s: Sys, env: Env)
    requires s.thr.Some? && DataNext(s, s.thr.value, env).Some?
    ensures SessionSpeech(DataNext(s, s.thr.value, env).value.pc) == SessionSpeech(s.pc)
  {
    DataFrame(s, env);
  }

  lemma SessionKeepsThread(s: Sys, env: Env)
    requires Life(s) && s.thr.Some? && (s.thr.value.at == Refused || s.thr.value.at == Report)
    requires SessionNext(s, env).Some?
    ensures SessionNext(s, env).value.thr == s.thr
  {
    match s.pc {
      case Read => ReadFrame(s, env.input);
      case Exec(v, arg) => ExecFrame(s, v, arg, env);
      case Greet => case Xfer(_, _) => case Auth(_, _) => case Data(_, _) => case Say(_, _) => case Signal(_) =>
      case Abor => case CtRead(_) => case CtClear(_) => case CtJoin(_) => case CtReset(_) => case PortScan(_) =>
      case PortRun => case PortCreate => case PortState => case PasvOpen => case PasvState => case PasvRun =>
      case PasvCreate => case Bye => case Freed =>
    }
  }

  lemma SessionKeepsSpeech(s: Sys, env: Env)
    requires Life(s) && Speech(s, Who.Data).Some? && SessionNext(s, env).Some?
    ensures Speech(SessionNext(s, env).value, Who.Data) == Speech(s, Who.Data)
  {
    SessionKeepsThread(s, env);
  }

  lemma FitStep(f: Fine, fe: FineEvent)
    requires Fit(f) && Life(f.sys) && FineNext(f, fe).Some?
    ensures true == Fit(FineNext(f, fe).value)
  {
    if StepOf(fe).Some? {
      FitMove(f, fe, StepOf(fe).value);
    }
  }

  lemma FitMove(f: Fine, fe: FineEvent, e: Event)
    requires Fit(f) && Life(f.sys) && FineNext(f, fe).Some? && StepOf(fe) == Some(e)
    ensures true == Fit(FineNext(f, fe).value)
  {
    match e {
      case SessionStep(env) => if f.chan.holder == Some(Who.Data) { SessionKeepsSpeech(f.sys, env); }
      case DataStep(env) => DataKeepsSpeech(f.sys, env);
    }
  }

  lemma {:induction false} FitRun(fes: seq<FineEvent>)
    requires FineRun(fes).Some?
    ensures true == Fit(FineRun(fes).value)
  {
    if fes != [] {
      var before := fes[..|fes| - 1];
      FitRun(before);
      Projections(before);
      RunLife(Events(before));
      FitStep(FineRun(before).value, fes[|fes| - 1]);
    }
  }

  lemma FitApart(f: Fine)
    requires Fit(f) && !Clash(f.sys)
    ensures !Overlap(f.chan)
  {
    if f.chan.holder.Some? {
      match f.chan.holder.value { case Session => case Data => }
    }
  }

  /** Runs of the server in which an unlocked reply of the session never meets one of the data thread
      are runs of the channel in which they stay apart. */
  lemma {:induction false} ClashFreeApart(fes: seq<FineEvent>)
    requires FineRun(fes).Some? && ClashFree(fes)
    ensures Apart(Acts(fes)) && DoAll(Acts(fes)) == Some(FineRun(fes).value.chan)
  {
    Projections(fes);
    FitRun(fes);
    FitApart(FineRun(fes).value);
    if fes != [] {
      var before := fes[..|fes| - 1];
      ClashFreeApart(before);
      var a := ActOf(FineRun(before).value, fes[|fes| - 1]);
      if a.Some? {
        assert Acts(fes)[..|Acts(fes)| - 1] == Acts(before);
      } else {
        assert Acts(fes) == Acts(before);
      }
    }
  }

  // ---- Replies are atomic ----

  function Codes(rs: seq<Reply>): seq<nat>
  {
    if rs == [] then [] else Codes(rs[..|rs| - 1]) + [rs[|rs| - 1].code]
  }

  function SentCodes(sent: seq<Sent>): seq<nat>
  {
    if sent == [] then [] else SentCodes(sent[..|sent| - 1]) + [sent[|sent| - 1].code]
  }

  lemma CodesMore(rs: seq<Reply>, r: Reply)
    ensures Codes(rs + [r]) == Codes(rs) + [r.code]
  {
    assert (rs + [r])[..|rs|] == rs;
  }

  lemma SentMore(sent: seq<Sent>, x: Sent)
    ensures SentCodes(sent + [x]) == SentCodes(sent) + [x.code]
  {
    assert (sent + [x])[..|sent|] == sent;
  }

  /** The code of the one reply under way. */
  function UnderWay(f: Fine): seq<nat>
  {
    if Talking(f.chan, Who.Session) && Speech(f.sys, Who.Session).Some? then [Speech(f.sys, Who.Session).value.0]
    else if Talking(f.chan, Who.Data) && Speech(f.sys, Who.Data).Some? then [Speech(f.sys, Who.Data).value.0]
    else []
  }

  /** The replies begun are those the server has sent, and the one under way. */
  predicate Matches(f: Fine) { Codes(f.chan.begun) == SentCodes(f.sys.sent) + UnderWay(f) }

  /** The step that finishes a reply is the one that sends its code. */
  lemma SaysIt(s: Sys, e: Event)
    requires Life(s) && Speech(s, Mover(e)).Some? && Next(s, e).Some?
    ensures exists b :: Next(s, e).value.sent == s.sent + [Sent(b, Speech(s, Mover(e)).value.0)]
  {
    match e {
      case SessionStep(env) =>
        assert SessionNext(s, env).value.sent == s.sent + [Sent(false, Speech(s, Mover(e)).value.0)];
      case DataStep(env) =>
        assert DataNext(s, s.thr.value, env).value.sent == s.sent + [Sent(true, Speech(s, Mover(e)).value.0)];
    }
  }

  lemma SaysNothing(s: Sys, e: Event)
    requires Life(s) && Speech(s, Mover(e)).None? && Next(s, e).Some?
    ensures Next(s, e).value.sent == s.sent
  {
    match e {
      case SessionStep(env) => SilentSession(s, env);
      case DataStep(env) => SilentThread(s, env);
    }
  }

  lemma SilentThread(s: Sys, env: Env)
    requires Life(s) && s.thr.Some? && Speech(s, Who.Data).None? && DataNext(s, s.thr.value, env).Some?
    ensures DataNext(s, s.thr.value, env).value.sent == s.sent
  {
    match s.thr.value.at {
      case Enter => case Waiting => case Woken => case Connect => case Refused => case Poll => case Accept =>
      case Take => case Probe => case Block => case Close => case Forget => case Settle => case Report => case Ended =>
    }
  }

  lemma MatchesSilent(f: Fine, e: Event)
    requires Matches(f) && Fit(f) && Life(f.sys) && FineNext(f, Silent(e)).Some?
    ensures true == Matches(FineNext(f, Silent(e)).value)
  {
    SaysNothing(f.sys, e);
    match e {
      case SessionStep(env) => if Speech(f.sys, Who.Data).Some? { SessionKeepsSpeech(f.sys, env); }
      case DataStep(env) => DataKeepsSpeech(f.sys, env);
    }
  }

  lemma MatchesBegin(f: Fine, who: Who, text: string)
    requires Matches(f) && Fit(f) && FineNext(f, Begin(who, text)).Some?
    requires !Overlap(FineNext(f, Begin(who, text)).value.chan)
    ensures true == Matches(FineNext(f, Begin(who, text)).value)
  {
    CodesMore(f.chan.begun, Reply(Speech(f.sys, who).value.0, text));
    match who { case Session => case Data => }
    assert UnderWay(f) == [];
  }

  lemma MatchesPart(f: Fine, who: Who, n: nat)
    requires Matches(f) && FineNext(f, Part(who, n)).Some?
    ensures true == Matches(FineNext(f, Part(who, n)).value)
  {
  }

  lemma FinishSpeaks(f: Fine, e: Event)
    requires Fit(f) && !Overlap(f.chan) && FineNext(f, Finish(e)).Some?
    ensures Speech(f.sys, Mover(e)).Some? && UnderWay(f) == [Speech(f.sys, Mover(e)).value.0]
    ensures var c := FineNext(f, Finish(e)).value.chan; c.holder.None? && c.bare.None? && c.begun == f.chan.begun
  {
    match Mover(e) { case Session => case Data => }
  }

  lemma MatchesFinish(f: Fine, e: Event)
    requires Matches(f) && Fit(f) && Life(f.sys) && !Overlap(f.chan) && FineNext(f, Finish(e)).Some?
    ensures true == Matches(FineNext(f, Finish(e)).value)
  {
    FinishSpeaks(f, e);
    SaysIt(f.sys, e);
    match e {
      case SessionStep(env) => FinishedBy(f, e, FineNext(f, Finish(e)).value);
      case DataStep(env) => FinishedBy(f, e, FineNext(f, Finish(e)).value);
    }
  }

  lemma FinishedBy(f: Fine, e: Event, f': Fine)
    requires Matches(f) && Speech(f.sys, Mover(e)).Some? && UnderWay(f) == [Speech(f.sys, Mover(e)).value.0]
    requires f'.chan.holder.None? && f'.chan.bare.None? && f'.chan.begun == f.chan.begun
    requires exists b :: f'.sys.sent == f.sys.sent + [Sent(b, Speech(f.sys, Mover(e)).value.0)]
    ensures true == Matches(f')
  {
    var b :| f'.sys.sent == f.sys.sent + [Sent(b, Speech(f.sys, Mover(e)).value.0)];
    SentMore(f.sys.sent, Sent(b, Speech(f.sys, Mover(e)).value.0));
    assert UnderWay(f') == [];
  }

  lemma MatchesStep(f: Fine, fe: FineEvent)
    requires Matches(f) && Fit(f) && Life(f.sys) && FineNext(f, fe).Some?
    requires !Overlap(f.chan) && !Overlap(FineNext(f, fe).value.chan)
    ensures true == Matches(FineNext(f, fe).value)
  {
    match fe {
      case Silent(e) => MatchesSilent(f, e);
      case Begin(who, text) => MatchesBegin(f, who, text);
      case Part(who, n) => MatchesPart(f, who, n);
      case Finish(e) => MatchesFinish(f, e);
    }
  }

  lemma {:induction false} MatchesRun(fes: seq<FineEvent>)
    requires FineRun(fes).Some? && ClashFree(fes)
    ensures true == Matches(FineRun(fes).value)
  {
    if fes != [] {
      var before := fes[..|fes| - 1];
      MatchesRun(before);
      Projections(before);
      RunLife(Events(before));
      FitRun(before);
      FitRun(fes);
      FitApart(FineRun(before).value);
      FitApart(FineRun(fes).value);
      MatchesStep(FineRun(before).value, fes[|fes| - 1]);
    }
  }

  /** Replies as single steps are justified, for every interleaving of pieces in which an unlocked
      reply of the session never meets one of the data thread: the server moves as in Server, and
      whenever no reply is under way the control output is whole replies with exactly the codes
      sent, in that order, and decodes to them. */
  lemma RepliesAreAtomic(fes: seq<FineEvent>)
    requires FineRun(fes).Some? && ClashFree(fes)
    ensures var f := FineRun(fes).value;
      && Run(Events(fes)) == Some(f.sys)
      && (f.chan.holder.None? && f.chan.bare.None? ==>
            && f.chan.out == PrintAll(f.chan.begun) && Codes(f.chan.begun) == SentCodes(f.sys.sent)
            && (AllSendable(f.chan.begun) ==>
                  ReadReplies(StripCR(f.chan.out), |f.chan.begun|) == Some((EndedAll(f.chan.begun), ""))))
  {
    Projections(fes);
    ClashFreeApart(fes);
    MatchesRun(fes);
    RepliesNeverMix(Acts(fes));
  }

  // ---- And where they do meet ----

  lemma Move1(fes: seq<FineEvent>, f: Fine, fe: FineEvent) returns (fes': seq<FineEvent>, f': Fine)
    requires FineRun(fes) == Some(f) && FineNext(f, fe).Some?
    ensures FineNext(f, fe) == Some(f') && FineRun(fes') == Some(f')
    ensures Events(fes') == Events(fes) + if StepOf(fe).Some? then [StepOf(fe).value] else []
  {
    fes', f' := fes + [fe], FineNext(f, fe).value;
    assert fes'[..|fes|] == fes;
  }

  /** What is left of a thread's reply. */
  function Rest(c: Chan, who: Who): string
  {
    if c.holder == Some(who) then c.left else if c.bare.Some? then c.bare.value else ""
  }

  /** All that is left of a reply goes out. */
  lemma WriteRest(fes0: seq<FineEvent>, f0: Fine, who: Who) returns (fes: seq<FineEvent>, f: Fine)
    requires FineRun(fes0) == Some(f0) && Talking(f0.chan, who) && Rest(f0.chan, who) != ""
    ensures FineRun(fes) == Some(f) && f.sys == f0.sys && Events(fes) == Events(fes0)
    ensures f.chan == if f0.chan.holder == Some(who) then f0.chan.(out := f0.chan.out + f0.chan.left, left := "")
                      else f0.chan.(out := f0.chan.out + f0.chan.bare.value, bare := Some(""))
  {
    var p := Rest(f0.chan, who);
    assert p[..|p|] == p && p[|p|..] == "" && Events(fes0) + [] == Events(fes0);
    fes, f := Move1(fes0, f0, Part(who, |p|));
  }

  lemma FinishSaying(fes0: seq<FineEvent>, f0: Fine, e: Event, s: Sys) returns (fes: seq<FineEvent>, f: Fine)
    requires FineRun(fes0) == Some(f0) && Talking(f0.chan, Mover(e)) && Next(f0.sys, e) == Some(s)
    requires if f0.chan.holder == Some(Mover(e)) then f0.chan.left == "" else f0.chan.bare == Some("")
    ensures FineRun(fes) == Some(f) && f.sys == s && Events(fes) == Events(fes0) + [e]
    ensures f.chan == if f0.chan.holder == Some(Mover(e)) then f0.chan.(holder := None) else f0.chan.(bare := None)
  {
    fes, f := Move1(fes0, f0, Finish(e));
  }

  lemma StartSaying(fes0: seq<FineEvent>, f0: Fine, who: Who, text: string) returns (fes: seq<FineEvent>, f: Fine)
    requires FineRun(fes0) == Some(f0) && f0.chan.holder.None? && f0.chan.bare.None? && Speech(f0.sys, who).Some?
    ensures FineRun(fes) == Some(f) && f.sys == f0.sys && Events(fes) == Events(fes0)
    ensures var (code, locked) := Speech(f0.sys, who).value; var p := Print(code, text);
      && p != "" && Talking(f.chan, who) && Rest(f.chan, who) == p && f.chan.out == f0.chan.out
      && (if locked then f.chan.holder == Some(who) && f.chan.bare.None? else f.chan.holder.None? && f.chan.bare.Some?)
  {
    assert Events(fes0) + [] == Events(fes0);
    NeverEmpty(Speech(f0.sys, who).value.0, text);
    fes, f := Move1(fes0, f0, Begin(who, text));
  }

  /** A whole reply, undisturbed. */
  lemma SayAll(fes0: seq<FineEvent>, f0: Fine, e: Event, s: Sys) returns (fes: seq<FineEvent>, f: Fine)
    requires FineRun(fes0) == Some(f0) && f0.chan.holder.None? && f0.chan.bare.None?
    requires Speech(f0.sys, Mover(e)).Some? && Next(f0.sys, e) == Some(s)
    ensures FineRun(fes) == Some(f) && f.sys == s && f.chan.holder.None? && f.chan.bare.None?
    ensures Events(fes) == Events(fes0) + [e]
  {
    fes, f := StartSaying(fes0, f0, Mover(e), "");
    fes, f := WriteRest(fes, f, Mover(e));
    fes, f := FinishSaying(fes, f, e, s);
  }

  lemma NeverEmpty(code: nat, text: string)
    ensures Print(code, text) != ""
  {
  }

  /** Every run of Server is one of these. */
  lemma {:induction false} Lift(evs: seq<Event>) returns (fes: seq<FineEvent>, f: Fine)
    requires Run(evs).Some?
    ensures FineRun(fes) == Some(f) && f.sys == Run(evs).value && f.chan.holder.None? && f.chan.bare.None?
    ensures Events(fes) == evs
  {
    if evs == [] {
      fes, f := [], Fine(INIT, QUIET);
    } else {
      var e := evs[|evs| - 1];
      assert evs == evs[..|evs| - 1] + [e];
      fes, f := Lift(evs[..|evs| - 1]);
      if Speech(f.sys, Mover(e)).Some? {
        fes, f := SayAll(fes, f, e, Run(evs).value);
      } else {
        fes, f := Move1(fes, f, Silent(e));
      }
    }
  }

  /** Three bytes of the report are out, and the goodbye is begun. */
  lemma ClashBegins(fes0: seq<FineEvent>, f0: Fine, t: string, g: string) returns (fes: seq<FineEvent>, f: Fine)
    requires FineRun(fes0) == Some(f0) && f0.chan.holder.None? && f0.chan.bare.None?
    requires Clash(f0.sys) && |Print(Speech(f0.sys, Who.Data).value.0, t)| > 5
    ensures FineRun(fes) == Some(f) && Overlap(f.chan) && f.sys == f0.sys && Events(fes) == Events(fes0)
    ensures var p := Print(Speech(f0.sys, Who.Data).value.0, t);
      && f.chan.out == f0.chan.out + p[..3] && f.chan.holder == Some(Who.Data) && f.chan.left == p[3..]
      && f.chan.bare == Some(Print(Speech(f0.sys, Who.Session).value.0, g))
  {
    fes, f := StartSaying(fes0, f0, Who.Data, t);
    assert Events(fes) + [] == Events(fes);
    fes, f := Move1(fes, f, Part(Who.Data, 3));
    assert Events(fes) + [] == Events(fes);
    fes, f := Move1(fes, f, Begin(Who.Session, g));
  }

  /** Exactly when two replies may overlap, for every run of the server: the run has a way of being
      cut up in which they do if and only if it ends with an unlocked reply of the session and a
      reply of the data thread both due. */
  lemma ClashExactly(evs: seq<Event>)
    requires Run(evs).Some?
    ensures (exists fes :: Overlaps(fes, evs)) <==> Clash(Run(evs).value)
  {
    if Clash(Run(evs).value) {
      var fes, f := Lift(evs);
      Front(Reply(Speech(f.sys, Who.Data).value.0, ""));
      var more, f' := ClashBegins(fes, f, "", "");
      assert Overlaps(more, evs);
    } else {
      forall fes | Overlaps(fes, evs)
        ensures false
      {
        Projections(fes);
        FitRun(fes);
        FitApart(FineRun(fes).value);
      }
    }
  }

  /** A cut-up form of a run whose end has two replies under way. */
  predicate Overlaps(fes: seq<FineEvent>, evs: seq<Event>)
  {
    FineRun(fes).Some? && Events(fes) == evs && Overlap(FineRun(fes).value.chan)
  }

  lemma SpeechCodes(s: Sys, t: string, g: string)
    requires Clash(s)
    ensures Colliding(Reply(Speech(s, Who.Data).value.0, t), Reply(Speech(s, Who.Session).value.0, g))
  {
  }

  /** And whenever that is so, they may come out mixed, whatever their texts: as neither order of the
      two. */
  lemma ClashMixes(evs: seq<Event>, t: string, g: string) returns (fes: seq<FineEvent>, before: string)
    requires Run(evs).Some? && Clash(Run(evs).value)
    ensures FineRun(fes).Some? && Events(fes) == (evs + [Sess(Closed)]) + [Dat(true, 0)]
    ensures var f := FineRun(fes).value; var s := Run(evs).value;
      var a, b := Reply(Speech(s, Who.Data).value.0, t), Reply(Speech(s, Who.Session).value.0, g);
      && f.chan.holder.None? && f.chan.bare.None?
      && f.chan.out == before + Mixture(a, b)
      && f.chan.out != before + PrintAll([a, b]) && f.chan.out != before + PrintAll([b, a])
  {
    var s := Run(evs).value;
    var f: Fine;
    SpeechCodes(s, t, g);
    fes, f := Lift(evs);
    before := f.chan.out;
    MixtureParts(before, Reply(Speech(s, Who.Data).value.0, t), Reply(Speech(s, Who.Session).value.0, g));
    fes, f := ClashBegins(fes, f, t, g);
    fes, f := WriteRest(fes, f, Who.Session);
    RunLife(evs);
    BothSpeak(s);
    fes, f := FinishBoth(fes, f, Next(Next(s, Sess(Closed)).value, Dat(true, 0)).value);
  }

  /** Neither reply is in the way of the other. */
  lemma BothSpeak(s: Sys)
    requires Clash(s) && Life(s)
    ensures Next(s, Sess(Closed)).Some? && Next(Next(s, Sess(Closed)).value, Dat(true, 0)).Some?
  {
    SessionKeepsSpeech(s, Env(Closed, true, true, 0));
  }

  lemma FinishBoth(fes0: seq<FineEvent>, f0: Fine, s: Sys) returns (fes: seq<FineEvent>, f: Fine)
    requires FineRun(fes0) == Some(f0) && f0.chan.holder == Some(Who.Data) && f0.chan.left != "" &&
      f0.chan.bare == Some("")
    requires Next(f0.sys, Sess(Closed)).Some? && Next(Next(f0.sys, Sess(Closed)).value, Dat(true, 0)) == Some(s)
    ensures FineRun(fes) == Some(f) && f.chan.holder.None? && f.chan.bare.None?
    ensures f.chan.out == f0.chan.out + f0.chan.left && Events(fes) == (Events(fes0) + [Sess(Closed)]) + [Dat(true, 0)]
  {
    fes, f := FinishSaying(fes0, f0, Sess(Closed), Next(f0.sys, Sess(Closed)).value);
    fes, f := WriteRest(fes, f, Who.Data);
    fes, f := FinishSaying(fes, f, Dat(true, 0), s);
  }
}
