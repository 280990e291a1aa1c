/** Replies on the control connection: send_mark prints a code and a text of any number of lines
    (section 4.2 of RFC 959), read_mark_thr reads one back. */
module Replies {
  import opened Text
  import opened Wire
  import opened LineBuffer

  const LINE_SIZE := 1024

  datatype Reply = Reply(code: nat, text: string)

  /** The three digits send_mark prints for a code. */
  function CodeDigits(code: nat): (s: string)
    ensures |s| == 3 && AllDigits(s)
  {
    [Digit(code / 100 % 10), Digit(code / 10 % 10), Digit(code % 10)]
  }

  function CodeValue(s: string): nat
    requires |s| >= 3 && IsDigit(s[0]) && IsDigit(s[1]) && IsDigit(s[2])
  {
    (s[0] as int - '0' as int) * 100 + (s[1] as int - '0' as int) * 10 + (s[2] as int - '0' as int)
  }

  /** One line of a reply: the code, '-' or ' ', and the text. */
  function Head(code: nat, sep: char, line: string): string { CodeDigits(code) + [sep] + line }

  /** The whole printed reply: every line but the last is marked '-', the last ' '. */
  function Print(code: nat, msg: string): string
    decreases |msg|
  {
    var p := IndexOf(msg, '\n');
    if p >= |msg| - 1 then Head(code, ' ', msg[..p]) + "\r\n"
    else Head(code, '-', msg[..p]) + "\r\n" + Print(code, msg[p + 1..])
  }

  function PrintAll(rs: seq<Reply>): string
  {
    if rs == [] then "" else Print(rs[0].code, rs[0].text) + PrintAll(rs[1..])
  }

  /** A text with exactly one final LF ensured. */
  function Ended(msg: string): string
  {
    if msg != "" && msg[|msg| - 1] == '\n' then msg else msg + "\n"
  }

  predicate FinalLine(l: string)
  {
    |l| >= 4 && IsDigit(l[0]) && IsDigit(l[1]) && IsDigit(l[2]) && l[3] == ' '
  }

  /** What the reader appends for a line longer than its buffer: the part that fitted, and a NUL
      because the count it gets is the buffer size. */
  function Piece(v: string): string
    requires |LineOf(v)| >= 4
  {
    if |LineOf(v)| < LINE_SIZE then LineOf(v)[4..] else LineOf(v)[4..LINE_SIZE - 1] + ['\0']
  }

  /** Reading one reply from a stream, in meaning: the reply and what follows it; None when the
      stream ends first. Lines shorter than four bytes are passed over. */
  function ReadReply(v: string): Option<(Reply, string)>
    decreases |v|
  {
    if v == "" then None
    else if |LineOf(v)| < 4 then ReadReply(AfterLine(v))
    else if FinalLine(LineOf(v)) then
      Some((Reply(CodeValue(LineOf(v)), Piece(v) + "\n"), AfterLine(v)))
    else
      match ReadReply(AfterLine(v))
      case None => None
      case Some(r) => Some((Reply(r.0.code, Piece(v) + "\n" + r.0.text), r.1))
  }

  /** Reading n replies one after the other. */
  function ReadReplies(v: string, n: nat): Option<(seq<Reply>, string)>
    decreases n
  {
    if n == 0 then Some(([], v))
    else
      match ReadReply(v)
      case None => None
      case Some(r) =>
        match ReadReplies(r.1, n - 1)
        case None => None
        case Some(rest) => Some(([r.0] + rest.0, rest.1))
  }

  /** Texts the reader takes whole: no CR, no NUL, lines of at most 1019 bytes. */
  predicate Sendable(msg: string)
    decreases |msg|
  {
    var p := IndexOf(msg, '\n');
    && p <= LINE_SIZE - 5 && '\r' !in msg[..p] && '\0' !in msg[..p]
    && (p < |msg| - 1 ==> Sendable(msg[p + 1..]))
  }

  // ---- Round trip ----

  lemma ThreeDigits(code: nat)
    requires code < 1000
    ensures code == 100 * (code / 100 % 10) + 10 * (code / 10 % 10) + code % 10
  {
  }

  lemma CodeRoundTrip(code: nat)
    requires code < 1000
    ensures CodeValue(CodeDigits(code)) == code
  {
    ThreeDigits(code);
  }

  lemma DigitsPlain(s: string)
    requires AllDigits(s)
    ensures '\r' !in s
  {
  }

  /** Seen through the line buffer, a printed line is its characters and an LF. */
  lemma StripLine(code: nat, sep: char, line: string)
    requires sep != '\r' && '\r' !in line
    ensures StripCR(Head(code, sep, line) + "\r\n") == Head(code, sep, line) + "\n"
  {
    DigitsPlain(CodeDigits(code));
    StripNone(Head(code, sep, line));
    StripAppend(Head(code, sep, line), "\r\n");
    assert "\r\n"[1..] == "\n" && "\n"[1..] == "";
  }

  /** The first line of a stream that begins with head and an LF. */
  lemma FirstLine(head: string, rest: string)
    requires '\n' !in head
    ensures var v := head + "\n" + rest;
            v != "" && LineOf(v) == head && AfterLine(v) == rest
  {
    var v := head + "\n" + rest;
    assert v == head + ['\n'] + rest;
    IndexOfPrefix(head, '\n', rest);
    assert v[..|head|] == head && v[|head| + 1..] == rest;
  }

  lemma HeadLine(code: nat, sep: char, line: string)
    requires code < 1000 && sep != '\n' && '\n' !in line
    ensures '\n' !in Head(code, sep, line) && Head(code, sep, line)[4..] == line
    ensures |Head(code, sep, line)| == |line| + 4 && CodeValue(Head(code, sep, line)) == code
    ensures FinalLine(Head(code, sep, line)) <==> sep == ' '
  {
    CodeRoundTrip(code);
    assert forall i :: 0 <= i < 3 ==> Head(code, sep, line)[i] == CodeDigits(code)[i];
  }

  /** Reading at a line of a printed reply. */
  lemma ReadHead(code: nat, sep: char, line: string, rest: string)
    requires code < 1000 && sep != '\n' && '\n' !in line && |line| <= LINE_SIZE - 5
    ensures var v := Head(code, sep, line) + "\n" + rest;
      ReadReply(v) ==
        if sep == ' ' then Some((Reply(code, line + "\n"), rest))
        else match ReadReply(rest)
             case None => None
             case Some(r) => Some((Reply(r.0.code, line + "\n" + r.0.text), r.1))
  {
    HeadLine(code, sep, line);
    FirstLine(Head(code, sep, line), rest);
  }

  lemma NoEnd(msg: string)
    ensures '\n' !in msg[..IndexOf(msg, '\n')]
  {
  }

  /** What is read back from a printed reply is its code and its text with one final LF, and
      nothing behind it is consumed. */
  lemma {:induction false} ReplyRoundTrip(code: nat, msg: string, rest: string)
    requires code < 1000 && Sendable(msg)
    ensures ReadReply(StripCR(Print(code, msg)) + rest) == Some((Reply(code, Ended(msg)), rest))
    decreases |msg|, 0
  {
    var p := IndexOf(msg, '\n');
    NoEnd(msg);
    if p >= |msg| - 1 {
      StripLine(code, ' ', msg[..p]);
      ReadHead(code, ' ', msg[..p], rest);
    } else {
      RoundTripStep(code, msg[..p], msg[p + 1..], rest);
    }
    EndedSplit(msg);
  }

  lemma EndedSplit(msg: string)
    ensures var p := IndexOf(msg, '\n');
      Ended(msg) == if p >= |msg| - 1 then msg[..p] + "\n" else msg[..p] + "\n" + Ended(msg[p + 1..])
  {
    var p := IndexOf(msg, '\n');
    if p < |msg| {
      SplitAt(msg, p);
    }
    if p < |msg| - 1 {
      var t := msg[p + 1..];
      assert t[|t| - 1] == msg[|msg| - 1];
      Assoc(msg[..p] + "\n", t, "\n");
    }
  }

  lemma {:induction false} RoundTripStep(code: nat, line: string, tail: string, rest: string)
    requires code < 1000 && Sendable(tail) && |line| <= LINE_SIZE - 5
    requires '\n' !in line && '\r' !in line && '\0' !in line
    ensures ReadReply(StripCR(Head(code, '-', line) + "\r\n" + Print(code, tail)) + rest)
         == Some((Reply(code, line + "\n" + Ended(tail)), rest))
    decreases |tail|, 1
  {
    var h := Head(code, '-', line);
    StripLine(code, '-', line);
    StripAppend(h + "\r\n", Print(code, tail));
    var inner := StripCR(Print(code, tail));
    Assoc(h + "\n", inner, rest);
    ReadHead(code, '-', line, inner + rest);
    ReplyRoundTrip(code, tail, rest);
  }

  predicate AllSendable(rs: seq<Reply>)
  {
    forall r :: r in rs ==> r.code < 1000 && Sendable(r.text)
  }

  function EndedAll(rs: seq<Reply>): seq<Reply>
  {
    if rs == [] then [] else [Reply(rs[0].code, Ended(rs[0].text))] + EndedAll(rs[1..])
  }

  /** Any list of replies decodes to itself, and the decoder stops exactly behind it. */
  lemma {:induction false} RepliesRoundTrip(rs: seq<Reply>, rest: string)
    requires AllSendable(rs)
    ensures ReadReplies(StripCR(PrintAll(rs)) + rest, |rs|) == Some((EndedAll(rs), rest))
  {
    if rs == [] {
      assert "" + rest == rest;
    } else {
      var r, inner := rs[0], StripCR(PrintAll(rs[1..]));
      StripAppend(Print(r.code, r.text), PrintAll(rs[1..]));
      Assoc(StripCR(Print(r.code, r.text)), inner, rest);
      ReplyRoundTrip(r.code, r.text, inner + rest);
      RepliesRoundTrip(rs[1..], rest);
    }
  }

  // ---- The code ----

  /** send_mark: prefix, line and end of line go out by three calls of write_all; the offset at
      stands for the pointer msg. Its results are not looked at, as in the source. */
  method SendMark(fd: Sock, code: nat, msg: string)
    modifies fd`sent, fd`stalls, fd`broken
    ensures old(fd.broken) ==> fd.broken
    ensures !fd.broken ==> fd.sent == old(fd.sent) + Print(code, msg)
  {
    var at: nat := 0;
    ghost var goal := old(fd.sent) + Print(code, msg);
    ghost var todo := Print(code, msg);
    assert msg[0..] == msg;
    var lastLine := false;
    while !lastLine
      invariant at <= |msg| && (old(fd.broken) ==> fd.broken)
      invariant !lastLine ==> todo == Print(code, msg[at..])
      invariant !fd.broken ==> (if lastLine then fd.sent else fd.sent + todo) == goal
      decreases |msg| - at, !lastLine
    {
      var cur := msg[at..];
      var p := IndexOf(cur, '\n');
      // No more LF's, or terminating LF
      lastLine := p == |cur| || p + 1 == |cur|;
      var sep := if lastLine then ' ' else '-';
      ghost var was := fd.sent;
      SendLine(fd, code, sep, cur[..p]);
      if !lastLine {
        todo := Print(code, cur[p + 1..]);
        Assoc(was, Head(code, sep, cur[..p]) + "\r\n", todo);
        at := at + p + 1;
        assert cur[p + 1..] == msg[at..];
      }
    }
  }

  /** The three writes of one line. */
  method SendLine(fd: Sock, code: nat, sep: char, line: string)
    modifies fd`sent, fd`stalls, fd`broken
    ensures old(fd.broken) ==> fd.broken
    ensures !fd.broken ==> fd.sent == old(fd.sent) + (Head(code, sep, line) + "\r\n")
  {
    var pfx := CodeDigits(code) + [sep];
    var left := fd.WriteAll(pfx);   // Prefix
    left := fd.WriteAll(line);      // Line
    left := fd.WriteAll("\r\n");    // EOL
    Assoc(old(fd.sent), pfx, line);
    Assoc(old(fd.sent), pfx + line, "\r\n");
  }

  /** Buffers of the same length that agree up to the first NUL of b, which a has too; what a C
      string keeps behind its NUL is nobody's business. */
  predicate Alike(a: string, b: string)
  {
    |a| == |b| && var k := IndexOf(b, '\0'); a[..k] == b[..k] && (k < |b| ==> a[k] == '\0')
  }

  lemma AlikeCString(a: string, b: string)
    requires Alike(a, b)
    ensures CString(a) == CString(b)
  {
    var k := IndexOf(b, '\0');
    assert forall i :: 0 <= i < k ==> a[i] == a[..k][i] == b[..k][i];
    IndexOfUnique(a, '\0', k);
  }

  lemma AlikeAppend(a: string, b: string, c: string, d: string)
    requires Alike(a, b) && Alike(c, d)
    ensures Alike(a + c, b + d)
  {
    var k, m := IndexOf(b, '\0'), IndexOf(d, '\0');
    if k < |b| {
      IndexOfUnique(b + d, '\0', k);
      assert (a + c)[..k] == a[..k] && (b + d)[..k] == b[..k];
    } else {
      IndexOfUnique(b + d, '\0', |b| + m);
      assert a[..k] == a && b[..k] == b;
      assert (a + c)[..|b| + m] == a + c[..m] && (b + d)[..|b| + m] == b + d[..m];
    }
  }

  /** strcpy of the rest of a line behind what is already collected; the line ends at its first NUL,
      at index end. */
  method CopyTail(dst: array<char>, at: nat, line: array<char>, ghost end: nat)
    requires dst != line && 4 <= end < line.Length && line[end] == '\0' && at + (end - 4) < dst.Length
    requires forall i :: 4 <= i < end ==> line[i] != '\0'
    modifies dst
    ensures dst[..at] == old(dst[..at]) && dst[at + (end - 4)] == '\0'
    ensures forall k :: at <= k < at + (end - 4) ==> dst[k] == line[k - at + 4]
  {
    var i := 4;
    while line[i] != '\0'
      invariant 4 <= i <= end
      invariant dst[..at] == old(dst[..at])
      invariant forall k :: at <= k < at + (i - 4) ==> dst[k] == line[k - at + 4]
      decreases end - i
    {
      dst[at + (i - 4)] := line[i];
      i := i + 1;
    }
    dst[at + (i - 4)] := '\0';
  }

  /** realloc to a capacity doubled until more than need bytes fit. */
  method Grow(buf: array<char>, len: nat, need: nat) returns (r: array<char>)
    requires 0 < buf.Length && len <= buf.Length
    ensures r.Length > need && r.Length >= buf.Length && r[..len] == buf[..len] && (r == buf || fresh(r))
  {
    var cap := buf.Length;
    while need >= cap
      invariant cap >= buf.Length
      decreases need - cap
    {
      cap := cap * 2;
    }
    if cap == buf.Length { return buf; }
    r := new char[cap];
    forall i | 0 <= i < len { r[i] := buf[i]; }
  }

  /** read_mark_thr, on a stream that holds a whole reply. The text is the C string the callback
      gets: it ends at the first NUL, be it sent or the mark of a line that did not fit. */
  method ReadMark(b: Rlb) returns (code: nat, text: string)
    requires b.Valid() && ReadReply(b.View()).Some?
    modifies b, b.buf, b.fd`incoming
    ensures b.Valid()
    ensures code == ReadReply(old(b.View())).value.0.code
    ensures text == CString(ReadReply(old(b.View())).value.0.text)
    ensures b.View() == ReadReply(old(b.View())).value.1
  {
    var buf := new char[64];
    var len: nat := 0;
    code := 0;
    var line := new char[LINE_SIZE];
    ghost var goal := ReadReply(b.View()).value;
    ghost var done := "";
    assert buf[..0] == "" && "" + goal.0.text == goal.0.text;
    assert true == Reading(b.View(), goal, done);

    while true
      invariant b.Valid() && true == Reading(b.View(), goal, done)
      invariant fresh(buf) && fresh(line) && line.Length == LINE_SIZE && line != buf
      invariant len < buf.Length && Alike(buf[..len], done)
      decreases |b.View()|
    {
      var last: bool;
      buf, len, last, code, done := NextLine(b, buf, len, line, goal, done);
      if last { break; }
    }
    text := EndText(buf, len, done);
  }

  /** One turn of the loop. */
  method NextLine(b: Rlb, buf0: array<char>, len0: nat, line: array<char>, ghost goal: (Reply, string),
    ghost done0: string)
    returns (buf: array<char>, len: nat, last: bool, code: nat, ghost done: string)
    requires b.Valid() && Reading(b.View(), goal, done0)
    requires line.Length == LINE_SIZE && line != b.buf && buf0 != b.buf && buf0 != line
    requires len0 < buf0.Length && Alike(buf0[..len0], done0)
    modifies b, b.buf, b.fd`incoming, buf0, line
    ensures b.Valid() && |b.View()| < |old(b.View())|
    ensures (buf == buf0 || fresh(buf)) && len < buf.Length && Alike(buf[..len], done)
    ensures last ==> goal == (Reply(code, done), b.View())
    ensures !last ==> Reading(b.View(), goal, done)
  {
    ghost var v := b.View();
    NotDone(v, goal, done0);
    ghost var was := buf0[..len0];
    buf, len, last, code := TakeLine(b, buf0, len0, line);
    assert buf[..len] == was + buf[|was|..len];
    done := Collected(v, goal, was, buf[|was|..len], done0);
  }

  /** End the collected text. */
  method EndText(buf: array<char>, len: nat, ghost done: string) returns (text: string)
    requires len < buf.Length && Alike(buf[..len], done)
    modifies buf
    ensures text == CString(done)
  {
    AlikeCString(buf[..len], done);
    ghost var all := buf[..len];
    buf[len] := '\0';
    assert buf[..len] == all;
    text := CString(buf[..len]);
  }

  /** Read one line and collect it; last when it ends the reply. */
  method TakeLine(b: Rlb, buf0: array<char>, len0: nat, line: array<char>)
    returns (buf: array<char>, len: nat, last: bool, code: nat)
    requires b.Valid() && b.View() != ""
    requires line.Length == LINE_SIZE && line != b.buf && buf0 != b.buf && buf0 != line && len0 < buf0.Length
    modifies b, b.buf, b.fd`incoming, buf0, line
    ensures b.Valid() && b.View() == AfterLine(old(b.View()))
    ensures (buf == buf0 || fresh(buf)) && 0 < buf.Length && len0 <= len < buf.Length
    ensures buf[..len0] == old(buf0[..len0])
    ensures var v := old(b.View());
      && (if |LineOf(v)| < 4 then len == len0 else Alike(buf[len0..len], Piece(v) + "\n"))
      && last == FinalLine(LineOf(v)) && (last ==> code == CodeValue(LineOf(v)))
  {
    buf, len, last, code := buf0, len0, false, 0;
    ghost var v := b.View();
    ghost var was := buf0[..len0];
    var lnsz := b.ReadLine(line);
    assert buf[..len0] == was;
    if lnsz >= 4 {
      LineRead(line[..], v, lnsz);
      buf, len := AddLine(buf, len, line, lnsz);
      if IsDigit(line[0]) && IsDigit(line[1]) && IsDigit(line[2]) && line[3] == ' ' {
        code := (line[0] as int - '0' as int) * 100 + (line[1] as int - '0' as int) * 10
          + (line[2] as int - '0' as int);
        last := true;
      }
    }
  }

  /** What the line buffer holds behind a read of a line of at least four bytes. */
  lemma LineRead(line: string, v: string, n: int)
    requires v != "" && |line| == LINE_SIZE && n == LineResult(v, LINE_SIZE) >= 4
    requires var text := LineText(v, LINE_SIZE); line[..|text|] == text && line[|text|] == '\0'
    ensures |LineOf(v)| >= 4 && n <= LINE_SIZE && line[..4] == LineOf(v)[..4] && line[4..n] == Piece(v)
    ensures IndexOf(line[4..], '\0') <= n - 4 && 4 + IndexOf(line[4..], '\0') < LINE_SIZE
  {
    var text := LineText(v, LINE_SIZE);
    assert line[4..][|text| - 4] == '\0';
    assert line[..4] == line[..|text|][..4] == text[..4];
    assert line[4..|text|] == line[..|text|][4..];
  }

  /** What is collected behind the first line of v. */
  function Gather(v: string, done: string): string
  {
    if |LineOf(v)| < 4 then done else done + (Piece(v) + "\n")
  }

  /** With done collected, what is read from v completes the reply. */
  predicate Reading(v: string, goal: (Reply, string), done: string)
  {
    match ReadReply(v)
    case None => false
    case Some(r) => goal == (Reply(r.0.code, done + r.0.text), r.1)
  }

  /** Behind a line, the reply is complete or the rest of it is still to come. */
  lemma Collected(v: string, goal: (Reply, string), was: string, more: string, before: string) returns (done: string)
    requires Reading(v, goal, before) && Alike(was, before)
    requires if |LineOf(v)| < 4 then more == "" else Alike(more, Piece(v) + "\n")
    ensures Alike(was + more, done)
    ensures FinalLine(LineOf(v)) ==> goal == (Reply(CodeValue(LineOf(v)), done), AfterLine(v))
    ensures !FinalLine(LineOf(v)) ==> Reading(AfterLine(v), goal, done)
  {
    done := Gather(v, before);
    if |LineOf(v)| >= 4 {
      AlikeAppend(was, before, more, Piece(v) + "\n");
      if !FinalLine(LineOf(v)) {
        Assoc(before, Piece(v) + "\n", ReadReply(AfterLine(v)).value.0.text);
      }
    } else {
      assert was + more == was;
    }
  }

  lemma NotDone(v: string, goal: (Reply, string), done: string)
    requires Reading(v, goal, done)
    ensures v != "" && |AfterLine(v)| < |v|
  {
  }

  /** Collect a line of n bytes without its prefix, and an LF. */
  method AddLine(buf0: array<char>, len0: nat, line: array<char>, n: nat)
    returns (buf: array<char>, len: nat)
    requires buf0 != line && len0 < buf0.Length && 4 <= n <= line.Length
    requires IndexOf(line[4..], '\0') <= n - 4 && 4 + IndexOf(line[4..], '\0') < line.Length
    modifies buf0
    ensures (buf == buf0 || fresh(buf)) && buf != line && len == len0 + (n - 4) + 1 < buf.Length
    ensures buf[..len0] == old(buf0[..len0]) && Alike(buf[len0..len], line[4..n] + "\n")
  {
    ghost var k := IndexOf(line[4..], '\0');
    ghost var piece := line[4..n];
    assert forall i :: 0 <= i < k ==> line[4 + i] == line[4..][i];
    assert line[4 + k] == line[4..][k];
    buf := Grow(buf0, len0, len0 + n - 3);
    CopyTail(buf, len0, line, 4 + k);
    len := len0 + (n - 4);
    ghost var part := buf[len0..len];
    ghost var head := buf[..len0];
    Copied(part, piece, k);
    buf[len] := '\n';
    len := len + 1;
    assert buf[..len0] == head && buf[len0..len] == part + "\n";
  }

  /** A copy up to the first NUL. */
  lemma Copied(dst: string, piece: string, k: nat)
    requires |dst| == |piece| && k <= |piece| && (forall i :: 0 <= i < k ==> dst[i] == piece[i])
    requires k < |piece| ==> dst[k] == piece[k] == '\0'
    requires forall i :: 0 <= i < k ==> piece[i] != '\0'
    ensures Alike(dst + "\n", piece + "\n")
  {
    IndexOfUnique(piece, '\0', k);
    assert dst[..k] == piece[..k];
    IndexOfUnique("\n", '\0', 1);
    AlikeAppend(dst, piece, "\n", "\n");
  }
}
