/** What a client can do about replies that mix. The session answers without the lock only a line that
    is no command, and the end of the connection; a client that keeps these back while it awaits a
    completion reply never sees replies mixed, and one that does not can. */
module ServerClash {
  import opened Text
  import opened Requests
  import opened Replies
  import opened Session
  import opened Path
  import opened Server
  import opened ServerLife
  import opened ServerLogin
  import opened ServerRuns
  import opened ServerFiles
  import opened ServerReplies
  import opened ServerTells
  import opened ServerHandover
  import opened ServerScript
  import opened ControlChannel
  import opened ServerChannel
  import LineBuffer

  /** A malformed, over-long or unknown line, or the end of the control connection. */
  predicate Careless(input: Input)
  {
    match input
    case Command(verb, _) => VerbOf(verb) == OTHER
    case _ => true
  }

  /** About to reply without the lock. */
  predicate Bare(pc: Pc) { SessionSpeech(pc).Some? && !SessionSpeech(pc).value.1 }

  lemma CarelessRead(s: Sys, input: Input)
    ensures var s' := ReadStep(s, input);
      && s' == s.(pc := s'.pc, lines := s'.lines) && (Bare(s'.pc) <==> Careless(input))
  {
    ReadFrame(s, input);
    match input {
      case Command(verb, arg) => DispatchFrame(s, VerbOf(verb), arg);
      case _ =>
    }
  }

  lemma PathKnown(v: Verb, l: Local, d: string, ok1: bool, ok2: bool)
    requires v in {CWD, MKD, RMD, RNFR, DELE, RETR, STOR}
    ensures HandlePath(v, l, d, ok1, ok2).code in {250, 550, 150}
  {
  }

  /** A handler never answers as if the command were unknown. */
  lemma HandlerKnows(v: Verb, l: Local, arg: string, ok1: bool, ok2: bool)
    requires NeedsAuth(v) && v != PORT && v != PASV
    ensures Handle(v, l, arg, ok1, ok2).code !in {202, 500, 220}
  {
    if v in {CWD, MKD, RMD, RNFR, DELE, RETR, STOR} && Cat(l.wd, arg).Some? {
      PathKnown(v, l, Cat(l.wd, arg).value, ok1, ok2);
    }
  }

  lemma ExecNotBare(s: Sys, v: Verb, arg: string, env: Env)
    requires s.pc == Exec(v, arg) && Verbs(s.pc)
    ensures !Bare(ExecStep(s, v, arg, env).pc)
  {
    if v == USER {
      assert HandleUser(s.state, s.local, arg).2 in {503, 331};
    } else if v == PASS {
      assert HandlePass(s.state, s.local, arg).2 in {503, 530, 230};
    } else {
      HandlerKnows(v, s.local, arg, env.yes, env.yes2);
      assert ExecStep(s, v, arg, env).pc.Say? &&
             ExecStep(s, v, arg, env).pc.code == Handle(v, s.local, arg, env.yes, env.yes2).code;
    }
  }

  lemma GuardsNotBare(s: Sys, env: Env)
    requires s.pc.Xfer? || s.pc.Auth? || s.pc.Data? || s.pc.Greet? || s.pc.Signal? || s.pc.Abor? || s.pc.Bye?
    ensures SessionNext(s, env).Some? && !Bare(SessionNext(s, env).value.pc)
  {
  }

  lemma ModesNotBare(s: Sys, env: Env)
    requires s.pc.PortScan? || s.pc.PortRun? || s.pc.PortCreate? || s.pc.PortState?
          || s.pc.PasvOpen? || s.pc.PasvState? || s.pc.PasvRun? || s.pc.PasvCreate?
    ensures SessionNext(s, env).Some? && !Bare(SessionNext(s, env).value.pc)
  {
  }

  lemma EndNotBare(s: Sys, env: Env)
    requires s.pc.Say? || s.pc.CtRead? || s.pc.CtClear? || s.pc.CtJoin? || s.pc.CtReset?
    requires SessionNext(s, env).Some? && SessionNext(s, env).value.pc != Bye
    ensures !Bare(SessionNext(s, env).value.pc)
  {
  }

  /** Only a careless line and the end of the session lead to a reply without the lock. */
  lemma BareFrom(s: Sys, env: Env)
    requires Inv(s) && s.pc != Read && SessionNext(s, env).Some?
    ensures Bare(SessionNext(s, env).value.pc) ==> SessionNext(s, env).value.thr.None?
  {
    var pc := SessionNext(s, env).value.pc;
    if pc == Bye {
      ByeAlone(s, env);
    } else if s.pc.Exec? {
      ExecNotBare(s, s.pc.verb, s.pc.arg, env);
    } else if s.pc.Say? || s.pc.CtRead? || s.pc.CtClear? || s.pc.CtJoin? || s.pc.CtReset? {
      EndNotBare(s, env);
    } else if s.pc.Xfer? || s.pc.Auth? || s.pc.Data? || s.pc.Greet? || s.pc.Signal? || s.pc.Abor? || s.pc.Bye? {
      GuardsNotBare(s, env);
    } else if !s.pc.Freed? {
      ModesNotBare(s, env);
    }
  }

  // ---- A mindful client ----

  predicate Mindful(s: Sys, e: Event)
  {
    e.SessionStep? && s.pc == Read && Careless(e.env.input) ==> !Awaiting(s.sent)
  }

  /** A client that keeps careless lines back, and the connection open, while it awaits the
      completion of a transfer. */
  predicate MindfulRun(evs: seq<Event>)
  {
    evs == [] ||
    var before := evs[..|evs| - 1];
    MindfulRun(before) && (Run(before).Some? ==> Mindful(Run(before).value, evs[|evs| - 1]))
  }

  /** A reply without the lock comes while no completion is awaited, or with no data thread. */
  predicate Spared(s: Sys) { Bare(s.pc) ==> !Awaiting(s.sent) || s.thr.None? }

  /** The data thread says nothing that a client would have to await further. */
  lemma DataAwaits(s: Sys, env: Env)
    requires s.thr.Some? && s.thr.value.st <= 2 && DataNext(s, s.thr.value, env).Some?
    ensures Awaiting(DataNext(s, s.thr.value, env).value.sent) ==> Awaiting(s.sent)
  {
    if s.thr.value.at == Report {
      ReportAwaits(s, s.thr.value);
    } else if s.thr.value.at == Refused {
      TellCounts(s.sent, Sent(true, 425));
    } else {
      SilentData(s, s.thr.value, env);
    }
  }

  lemma ReportAwaits(s: Sys, t: Thread)
    requires t.st <= 2
    ensures Awaiting(ReportStep(s, t).sent) ==> Awaiting(s.sent)
  {
    TellCounts(s.sent, Sent(true, 226));
    TellCounts(s.sent, Sent(true, 451));
  }

  lemma SparedStep(s: Sys, e: Event)
    requires Inv(s) && Spared(s) && Mindful(s, e) && Next(s, e).Some?
    ensures true == Spared(Next(s, e).value)
  {
    match e {
      case DataStep(env) => DataFrame(s, env); DataAwaits(s, env);
      case SessionStep(env) => if s.pc == Read { CarelessRead(s, env.input); } else { BareFrom(s, env); }
    }
  }

  lemma {:induction false} SparedRun(evs: seq<Event>)
    requires MindfulRun(evs) && Run(evs).Some?
    ensures true == Spared(Run(evs).value)
  {
    if evs != [] {
      var before := evs[..|evs| - 1];
      SparedRun(before);
      RunKeeps(before);
      SparedStep(Run(before).value, evs[|evs| - 1]);
    }
  }

  /** For a disciplined client two replies can meet only while it awaits a completion. */
  lemma ClashAwaits(evs: seq<Event>)
    requires Disciplined(evs) && Run(evs).Some? && Clash(Run(evs).value)
    ensures Awaiting(Run(evs).value.sent)
  {
    HeldRun(evs);
    RunLife(evs);
  }

  lemma MindfulApart(evs: seq<Event>)
    requires Disciplined(evs) && MindfulRun(evs) && Run(evs).Some?
    ensures !Clash(Run(evs).value)
  {
    SparedRun(evs);
    if Clash(Run(evs).value) { ClashAwaits(evs); }
  }

  lemma {:induction false} MindfulClashFree(fes: seq<FineEvent>)
    requires FineRun(fes).Some? && Disciplined(Events(fes)) && MindfulRun(Events(fes))
    ensures ClashFree(fes)
  {
    Projections(fes);
    MindfulApart(Events(fes));
    if fes != [] {
      var before, e := fes[..|fes| - 1], StepOf(fes[|fes| - 1]);
      if e.Some? {
        assert Events(fes)[..|Events(fes)| - 1] == Events(before);
      } else {
        assert Events(fes) == Events(before);
      }
      MindfulClashFree(before);
    }
  }

  /** For a disciplined and mindful client, in every interleaving of the pieces of replies: the control
      output is whole replies with exactly the codes the server sent, in that order, and decodes to
      them. */
  lemma MindfulReplies(fes: seq<FineEvent>)
    requires FineRun(fes).Some? && Disciplined(Events(fes)) && MindfulRun(Events(fes))
    ensures var f := FineRun(fes).value;
      f.chan.holder.None? && f.chan.bare.None? ==>
        && f.chan.out == PrintAll(f.chan.begun) && Codes(f.chan.begun) == SentCodes(f.sys.sent)
        && (AllSendable(f.chan.begun) ==>
              ReadReplies(LineBuffer.StripCR(f.chan.out), |f.chan.begun|) == Some((EndedAll(f.chan.begun), "")))
  {
    MindfulClashFree(fes);
    RepliesAreAtomic(fes);
  }
}
