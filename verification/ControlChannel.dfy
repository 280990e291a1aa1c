/** Two threads writing replies to one control connection (server/client.h, server/io_utils.c). A
    reply goes out in as many writes as the socket likes. Replies made by mark and markf hold
    mutex_ctl meanwhile; the session's 220, 221, 202 and 500 replies do not. */
module ControlChannel {
  import opened Text
  import opened LineBuffer
  import opened Replies

  datatype Who = Session | Data

  /** What was written; who holds the lock and what is left of his reply; what is left of the
      session's reply without the lock; and the replies begun, in that order. */
  datatype Chan = Chan(out: string, holder: Option<Who>, left: string, bare: Option<string>, begun: seq<Reply>)

  const QUIET := Chan("", None, "", None, [])

  datatype Act =
    | Lock(who: Who, reply: Reply)
    | Write(n: nat)
    | Unlock
    | BareBegin(reply: Reply)
    | BareWrite(n: nat)
    | BareEnd

  /** One step. A thread sends one reply at a time: the session neither locks while it writes
      without the lock nor the other way round. */
  function Do(c: Chan, a: Act): Option<Chan>
  {
    match a
    case Lock(who, r) =>
      if c.holder.Some? || (who == Session && c.bare.Some?) then None
      else Some(c.(holder := Some(who), left := Print(r.code, r.text), begun := c.begun + [r]))
    case Write(n) =>
      if c.holder.None? || n == 0 || n > |c.left| then None
      else Some(c.(out := c.out + c.left[..n], left := c.left[n..]))
    case Unlock =>
      if c.holder.None? || c.left != "" then None else Some(c.(holder := None))
    case BareBegin(r) =>
      if c.bare.Some? || c.holder == Some(Session) then None
      else Some(c.(bare := Some(Print(r.code, r.text)), begun := c.begun + [r]))
    case BareWrite(n) =>
      if c.bare.None? || n == 0 || n > |c.bare.value| then None
      else Some(c.(out := c.out + c.bare.value[..n], bare := Some(c.bare.value[n..])))
    case BareEnd =>
      if c.bare.None? || c.bare.value != "" then None else Some(c.(bare := None))
  }

  function DoAll(acts: seq<Act>): Option<Chan>
  {
    if acts == [] then Some(QUIET)
    else
      match DoAll(acts[..|acts| - 1])
      case None => None
      case Some(c) => Do(c, acts[|acts| - 1])
  }

  /** An unlocked reply overlaps with one of the data thread. */
  predicate Overlap(c: Chan) { c.bare.Some? && c.holder.Some? }

  /** No state of the run has an overlap. */
  predicate Apart(acts: seq<Act>)
  {
    (DoAll(acts).Some? ==> !Overlap(DoAll(acts).value)) && (acts == [] || Apart(acts[..|acts| - 1]))
  }

  function Unwritten(c: Chan): string
  {
    (if c.holder.Some? then c.left else "") + (if c.bare.Some? then c.bare.value else "")
  }

  /** What was written is what was begun, up to the end of the one reply under way. */
  predicate InOrder(c: Chan)
  {
    && !Overlap(c) && c.out + Unwritten(c) == PrintAll(c.begun)
    && (c.holder.None? ==> c.left == "")
  }

  lemma {:induction false} PrintAllAppend(rs: seq<Reply>, r: Reply)
    ensures PrintAll(rs + [r]) == PrintAll(rs) + Print(r.code, r.text)
  {
    if rs == [] {
      assert rs + [r] == [r] && [r][1..] == [];
      assert "" + Print(r.code, r.text) == Print(r.code, r.text) + "";
    } else {
      PrintAllAppend(rs[1..], r);
      assert (rs + [r])[1..] == rs[1..] + [r];
      Assoc(Print(rs[0].code, rs[0].text), PrintAll(rs[1..]), Print(r.code, r.text));
    }
  }

  lemma WriteSome(out: string, left: string, n: nat)
    requires n <= |left|
    ensures (out + left[..n]) + left[n..] == out + left
  {
    assert left == left[..n] + left[n..];
    Assoc(out, left[..n], left[n..]);
  }

  lemma Plus(s: string)
    ensures s + "" == s && "" + s == s
  {
  }

  lemma StepInOrder(c: Chan, a: Act)
    requires InOrder(c) && Do(c, a).Some? && !Overlap(Do(c, a).value)
    ensures InOrder(Do(c, a).value)
  {
    var c' := Do(c, a).value;
    Plus(c.left);
    Plus(c.out);
    if c.bare.Some? { Plus(c.bare.value); }
    match a {
      case Lock(_, r) =>
        PrintAllAppend(c.begun, r);
        Plus(Print(r.code, r.text));
      case BareBegin(r) =>
        PrintAllAppend(c.begun, r);
        Plus(Print(r.code, r.text));
      case Write(n) =>
        WriteSome(c.out, c.left, n);
        Plus(c'.left);
      case BareWrite(n) =>
        WriteSome(c.out, c.bare.value, n);
        Plus(c'.bare.value);
      case Unlock =>
      case BareEnd =>
    }
  }

  lemma {:induction false} RunInOrder(acts: seq<Act>)
    requires DoAll(acts).Some? && Apart(acts)
    ensures InOrder(DoAll(acts).value)
  {
    if acts == [] {
      Plus("");
    } else {
      RunInOrder(acts[..|acts| - 1]);
      StepInOrder(DoAll(acts[..|acts| - 1]).value, acts[|acts| - 1]);
    }
  }

  /** Whenever no reply is under way, the control output is the concatenation of whole replies in
      the order they were begun, and decodes to exactly them - in every interleaving of two threads
      and every cutting-up of writes, as long as unlocked replies stay apart from the data thread's. */
  lemma RepliesNeverMix(acts: seq<Act>)
    requires DoAll(acts).Some? && Apart(acts)
    ensures var c := DoAll(acts).value;
      c.holder.None? && c.bare.None? ==>
        && c.out == PrintAll(c.begun)
        && (AllSendable(c.begun) ==> ReadReplies(StripCR(c.out), |c.begun|) == Some((EndedAll(c.begun), "")))
  {
    RunInOrder(acts);
    var c := DoAll(acts).value;
    if c.holder.None? && c.bare.None? {
      Plus(c.out);
      if AllSendable(c.begun) {
        RepliesRoundTrip(c.begun, "");
        Plus(StripCR(c.out));
      }
    }
  }

  predicate AllLocked(acts: seq<Act>) { forall i :: 0 <= i < |acts| ==> !acts[i].BareBegin? }

  /** With the lock alone there is never an overlap. */
  lemma {:induction false} LockedApart(acts: seq<Act>)
    requires AllLocked(acts)
    ensures Apart(acts) && (DoAll(acts).Some? ==> DoAll(acts).value.bare.None?)
  {
    if acts != [] {
      LockedApart(acts[..|acts| - 1]);
    }
  }

  lemma TwoReplies(a: Reply, b: Reply)
    ensures PrintAll([a, b]) == Print(a.code, a.text) + Print(b.code, b.text)
  {
    PrintAllAppend([a], b);
    PrintAllAppend([], a);
    assert [a] + [b] == [a, b] && [] + [a] == [a];
    Plus(Print(a.code, a.text));
  }

  /** A reply of the data thread, and one that the session makes without the lock. */
  predicate Colliding(t: Reply, g: Reply)
  {
    && (t.code == 226 || t.code == 451 || t.code == 425)
    && (g.code == 220 || g.code == 221 || g.code == 202 || g.code == 500)
  }

  /** Three bytes of the first, the whole of the second, and the rest of the first. */
  function Mixture(t: Reply, g: Reply): string
  {
    var p := Print(t.code, t.text);
    if |p| < 3 then p else (p[..3] + Print(g.code, g.text)) + p[3..]
  }

  /** Every reply begins with its code and a character that is no digit. */
  lemma Front(r: Reply)
    ensures var p := Print(r.code, r.text);
      |p| > 5 && p[..3] == CodeDigits(r.code) && !IsDigit(p[3])
  {
    var k := IndexOf(r.text, '\n');
    var line := r.text[..k];
    assert forall sep :: (CodeDigits(r.code) + [sep] + line)[..3] == CodeDigits(r.code);
    assert Print(r.code, r.text)[..3] == CodeDigits(r.code);
  }

  lemma CodesDiffer(t: Reply, g: Reply)
    requires Colliding(t, g)
    ensures CodeDigits(t.code) != CodeDigits(g.code)
  {
    assert CodeDigits(226) == "226" && CodeDigits(451) == "451" && CodeDigits(425) == "425";
    assert CodeDigits(220) == "220" && CodeDigits(221) == "221" && CodeDigits(202) == "202" && CodeDigits(500) == "500";
  }

  /** The mixture is not the two replies in either order. */
  lemma MixtureIsNeither(t: Reply, g: Reply)
    requires Colliding(t, g)
    ensures Mixture(t, g) != PrintAll([t, g]) && Mixture(t, g) != PrintAll([g, t])
  {
    Front(t);
    Front(g);
    CodesDiffer(t, g);
    TwoReplies(t, g);
    TwoReplies(g, t);
    var p, q := Print(t.code, t.text), Print(g.code, g.text);
    assert Mixture(t, g)[..3] == p[..3] && Mixture(t, g)[3] == q[0] == q[..3][0];
    assert (p + q)[3] == p[3] && (q + p)[..3] == q[..3];
  }

  /** The mixture behind what was sent before. */
  lemma MixtureParts(out: string, t: Reply, g: Reply)
    requires Colliding(t, g)
    ensures var p, q := Print(t.code, t.text), Print(g.code, g.text);
      && |p| > 5 && q != "" && ((out + p[..3]) + q) + p[3..] == out + Mixture(t, g)
    ensures out + Mixture(t, g) != out + PrintAll([t, g]) && out + Mixture(t, g) != out + PrintAll([g, t])
  {
    Front(t);
    Front(g);
    var p, q := Print(t.code, t.text), Print(g.code, g.text);
    Assoc(out, p[..3], q);
    Assoc(out, p[..3] + q, p[3..]);
    MixtureIsNeither(t, g);
    Cancel(out, Mixture(t, g), PrintAll([t, g]));
    Cancel(out, Mixture(t, g), PrintAll([g, t]));
  }

  lemma Cancel(p: string, a: string, b: string)
    requires a != b
    ensures p + a != p + b
  {
    assert a == (p + a)[|p|..] && b == (p + b)[|p|..];
  }
}
