/** The read-line buffer (server/io_utils.c): rlb_get_char and rlb_read_line over a socket that
    delivers its bytes in arbitrary pieces. Everything is stated on View(), the bytes still to
    come without their CRs, so no result depends on the pieces. */
module LineBuffer {
  import opened Text
  import opened Wire

  const BUFSIZE := 1024

  function StripCR(s: string): string
  {
    if s == "" then "" else if s[0] == '\r' then StripCR(s[1..]) else [s[0]] + StripCR(s[1..])
  }

  lemma {:induction false} StripAppend(a: string, b: string)
    ensures StripCR(a + b) == StripCR(a) + StripCR(b)
  {
    if a == "" {
      assert a + b == b;
    } else {
      StripAppend(a[1..], b);
      assert (a + b)[1..] == a[1..] + b;
    }
  }

  lemma {:induction false} StripNone(s: string)
    requires '\r' !in s
    ensures StripCR(s) == s
  {
    if s != "" {
      StripNone(s[1..]);
    }
  }

  /** The first line of v, without its LF. */
  function LineOf(v: string): string { v[..IndexOf(v, '\n')] }

  /** What follows the first line. */
  function AfterLine(v: string): string
  {
    var i := IndexOf(v, '\n');
    if i < |v| then v[i + 1..] else ""
  }

  /** The value rlb_read_line returns with a buffer of n >= 2 bytes. */
  function LineResult(v: string, n: nat): int
  {
    if v == "" then -1 else if |LineOf(v)| < n then |LineOf(v)| else n
  }

  /** What it leaves in the buffer before the NUL. */
  function LineText(v: string, n: nat): string
    requires n >= 2
  {
    if |LineOf(v)| < n then LineOf(v) else LineOf(v)[..n - 1]
  }

  /** The lines that successive calls give: until a call returns -1. */
  function AllLines(v: string): seq<string>
    decreases |v|
  {
    if v == "" then [] else [LineOf(v)] + AllLines(AfterLine(v))
  }

  function Unlines(lines: seq<string>): string
  {
    if lines == [] then "" else lines[0] + "\n" + Unlines(lines[1..])
  }

  /** Nothing is lost, added or reordered: the lines put together are the stream, with the last
      line ended if it was not. */
  lemma {:induction false} LinesAreTheStream(v: string)
    ensures Unlines(AllLines(v)) == if v == "" || v[|v| - 1] == '\n' then v else v + "\n"
    decreases |v|
  {
    if v != "" {
      var i := IndexOf(v, '\n');
      var l, t := LineOf(v), AfterLine(v);
      LinesAreTheStream(t);
      UnlinesCons(l, AllLines(t));
      if i < |v| {
        SplitAtLine(v);
        Assoc(l + "\n", t, "\n");
        assert t != "" ==> t[|t| - 1] == v[|v| - 1];
        assert t == "" ==> l + "\n" + t == l + "\n";
      } else {
        assert v + "\n" + "" == v + "\n";
      }
    }
  }

  lemma UnlinesCons(l: string, ls: seq<string>)
    ensures Unlines([l] + ls) == l + "\n" + Unlines(ls)
  {
    assert ([l] + ls)[1..] == ls;
  }

  lemma SplitAtLine(v: string)
    requires IndexOf(v, '\n') < |v|
    ensures v == LineOf(v) + "\n" + AfterLine(v)
  {
    SplitAt(v, IndexOf(v, '\n'));
  }

  class Rlb {
    const fd: Sock
    const buf: array<char>
    var head: nat
    var tail: nat
    var noMore: bool

    ghost predicate Valid()
      reads this, fd
    {
      buf.Length == BUFSIZE && head <= tail <= BUFSIZE && (noMore ==> head == tail && fd.incoming == "")
    }

    ghost function View(): string
      reads this, buf, fd
      requires Valid()
    {
      StripCR(buf[head..tail] + fd.incoming)
    }

    constructor (fd: Sock)
      ensures Valid() && this.fd == fd && fresh(buf) && View() == StripCR(fd.incoming)
    {
      this.fd := fd;
      buf := new char[BUFSIZE];
      head, tail, noMore := 0, 0, false;
      new;
      assert buf[0..0] + fd.incoming == fd.incoming;
    }

    /** The next byte that is not a CR; LF at the end of the stream. */
    method GetChar() returns (c: char)
      requires Valid()
      modifies this, buf, fd`incoming
      ensures Valid()
      ensures old(View()) != "" ==>
        c == old(View())[0] && View() == old(View())[1..] && noMore == old(noMore)
      ensures old(View()) == "" ==> c == '\n' && View() == "" && noMore
    {
      while true
        invariant Valid() && View() == old(View()) && noMore == old(noMore)
        decreases |fd.incoming| + tail - head
      {
        if tail <= head {
          // Refill buffer
          ghost var was := fd.incoming;
          assert buf[head..tail] + fd.incoming == fd.incoming;
          var bytes := fd.ReadBlocking(BUFSIZE);
          if bytes == "" {
            noMore := true;
            assert buf[head..tail] + fd.incoming == "";
            return '\n';
          }
          forall i | 0 <= i < |bytes| { buf[i] := bytes[i]; }
          head, tail := 0, |bytes|;
          assert buf[head..tail] == bytes;
        }
        c := buf[head];
        assert buf[head..tail] == [c] + buf[head + 1..tail];
        Assoc([c], buf[head + 1..tail], fd.incoming);
        head := head + 1;
        if c != '\r' { break; }
      }
    }

    /** The first loop of rlb_read_line: fetch until the line ends or the buffer is full. */
    method Fill(out: array<char>) returns (i: nat)
      requires Valid() && out != buf && out.Length >= 2
      modifies this, buf, fd`incoming, out
      ensures Valid() && 0 < i <= out.Length
      ensures old(View()) == "" ==> noMore
      ensures old(View()) != "" && old(View())[0] == '\n' ==> !noMore
      ensures var v := old(View()); var len := IndexOf(v, '\n');
              if len < out.Length then
                i == len + 1 && out[len] == '\n' && View() == AfterLine(v) && out[..len] == v[..len]
              else i == out.Length && out[i - 1] != '\n' && View() == v[i..] && out[..i] == v[..i]
    {
      ghost var v := View();
      ghost var len := IndexOf(v, '\n');
      assert v[0..] == v;
      i := 0;
      while i < out.Length
        invariant 0 <= i <= out.Length && i <= len && Valid()
        invariant View() == v[i..] && out[..i] == v[..i]
        invariant i > 0 ==> out[i - 1] == v[i - 1] && out[i - 1] != '\n'
        invariant i == 0 && v != "" ==> !noMore
      {
        var c := GetChar();
        ghost var was := out[..i];
        out[i] := c;
        assert out[..i] == was;
        i := i + 1;
        if c == '\n' { break; }
        assert c == v[i - 1] && v[i - 1..][1..] == v[i..];
        assert out[..i] == was + [c] && v[..i] == v[..i - 1] + [c];
      }
    }

    /** Truncate extraneous content: k bytes of the line v begins with have been fetched. */
    method Skip(ghost v: string, ghost k0: nat)
      requires Valid() && k0 <= IndexOf(v, '\n') && View() == v[k0..]
      modifies this, buf, fd`incoming
      ensures Valid() && View() == AfterLine(v)
    {
      ghost var k := k0;
      ghost var len := IndexOf(v, '\n');
      var ch := GetChar();
      while ch != '\n'
        invariant Valid() && k <= len && (ch == '\n' <==> k == len)
        invariant View() == if k < len then v[k + 1..] else AfterLine(v)
        decreases len - k
      {
        ch := GetChar();
        k := k + 1;
      }
    }

    /** rlb_read_line with a buffer of out.Length bytes. */
    method ReadLine(out: array<char>) returns (n: int)
      requires Valid() && out != buf
      modifies this, buf, fd`incoming, out
      ensures Valid()
      ensures out.Length < 2 ==> n == 0 && View() == old(View()) && (out.Length == 1 ==> out[0] == '\0')
      ensures out.Length >= 2 ==>
        && View() == AfterLine(old(View()))
        && n == LineResult(old(View()), out.Length)
        && var text := LineText(old(View()), out.Length);
           |text| < out.Length && out[..|text|] == text && out[|text|] == '\0'
    {
      var size := out.Length;
      if size == 0 { return 0; }
      if size == 1 { out[0] := '\0'; return 0; }

      ghost var v := View();
      var i := Fill(out);

      // Truncate LF
      if out[i - 1] == '\n' { i := i - 1; }

      if i == size {
        // Truncate extraneous content
        Skip(v, i);
        ghost var text := out[..size - 1];
        assert text == out[..size][..size - 1] == v[..size][..size - 1] == LineText(v, size);
        out[i - 1] := '\0';
        assert out[..size - 1] == text;
        return size;
      } else {
        ghost var text := out[..i];
        out[i] := '\0';
        assert out[..i] == text == LineText(v, size);
        // Return -1 on closed socket or error
        if i == 0 && noMore { return -1; }
        return i;
      }
    }
  }
}
