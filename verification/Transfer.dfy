/** Data transfer: process_block and the data loop (server/client_xfer_thr.h), the client's copy
    loops (client/xfer.c), and resuming with REST. */
module Transfer {
  import opened Text
  import opened Wire
  import opened Requests
  import opened Path
  import opened Replies
  import opened Session

  const BUF_SIZE := 1024
  const BLOCK_SIZE := 65536

  /** A stdio FILE: read from a position, or written at the end. */
  class File {
    var content: string
    var pos: nat
    var eof: bool
    var err: bool

    ghost predicate Valid()
      reads this
    {
      eof ==> pos >= |content|
    }

    constructor (content: string, pos: nat)
      ensures this.content == content && this.pos == pos && !eof && !err && Valid()
    {
      this.content, this.pos, eof, err := content, pos, false, false;
    }

    /** fread: all it asks for, unless the end or an error comes first. */
    method Fread(max: nat) returns (bytes: string)
      requires Valid() && max > 0
      modifies this`pos, this`eof, this`err
      ensures Valid() && |bytes| <= max && (|bytes| < max ==> eof || err)
      ensures pos == old(pos) + |bytes| && bytes == Slice(content, old(pos), pos)
      ensures old(err) ==> err
    {
      var fail: bool := *;
      var rest := if pos < |content| then |content| - pos else 0;
      var k := if max <= rest then max else rest;
      if fail {
        k :| 0 <= k <= rest && k < max;
        err := true;
      } else if k < max {
        eof := true;
      }
      bytes := if pos < |content| then content[pos..pos + k] else "";
      pos := pos + k;
    }

    /** fwrite to a file opened for appending. */
    method Fwrite(bytes: string)
      modifies this`content, this`err
      ensures err || content == old(content) + bytes
      ensures old(err) ==> err
      ensures old(content) <= content
    {
      var fail: bool := *;
      if fail {
        err := true;
      } else {
        content := content + bytes;
      }
    }
  }

  /** The bytes of a file between two positions, which may lie behind its end. */
  function Slice(s: string, from: nat, to: nat): string
    requires from <= to
  {
    if from >= |s| then "" else if to >= |s| then s[from..] else s[from..to]
  }

  /** The bytes of a file from a position on. */
  function Suffix(s: string, from: nat): string { if from >= |s| then "" else s[from..] }

  lemma SliceAppend(s: string, a: nat, b: nat, c: nat)
    requires a <= b <= c
    ensures Slice(s, a, b) + Slice(s, b, c) == Slice(s, a, c)
  {
  }

  /** double_and_limit */
  function DoubleAndLimit(x: nat, limit: nat): (y: nat)
    ensures y <= limit && y <= 2 * x && (y == 2 * x || y == limit)
  {
    if 2 * x < limit then 2 * x else limit
  }

  // ---- Sending ----

  /** process_block, sending: 0 to go on, 1 when the file is complete, 2 on a read error. */
  method SendBlock(conn: Sock, fp: File) returns (st: nat)
    requires fp.Valid()
    modifies conn`sent, conn`stalls, conn`broken, fp`pos, fp`eof, fp`err
    ensures fp.Valid() && old(fp.pos) <= fp.pos
    ensures old(conn.broken) ==> conn.broken
    ensures !conn.broken ==> conn.sent == old(conn.sent) + Slice(fp.content, old(fp.pos), fp.pos)
    ensures st == (if fp.eof then 1 else if fp.err then 2 else 0)
    ensures st == 0 ==> old(fp.pos) < fp.pos <= |fp.content|
    ensures conn.stalls <= old(conn.stalls)
  {
    var bytes := fp.Fread(BUF_SIZE);
    if |bytes| > 0 {
      var left := conn.WriteAll(bytes);
      assert bytes[..|bytes|] == bytes;
    } else {
      assert conn.sent + bytes == conn.sent;
    }
    if fp.eof { return 1; }
    if fp.err { return 2; }
    return 0;
  }

  /** The loop of a data thread that sends: it may be told to stop at any turn (status 0). At every
      moment the bytes sent are those of the file from its start offset on, in order; with status 1
      they are all of them. Both hold unless the connection broke, which the source does not notice. */
  method SendLoop(conn: Sock, fp: File) returns (st: nat)
    requires fp.Valid()
    modifies conn`sent, conn`stalls, conn`broken, fp`pos, fp`eof, fp`err
    ensures fp.Valid() && old(fp.pos) <= fp.pos
    ensures !conn.broken ==> conn.sent == old(conn.sent) + Slice(fp.content, old(fp.pos), fp.pos)
    ensures st == 1 ==> fp.pos >= |fp.content|
    ensures st == 1 && !conn.broken ==> conn.sent == old(conn.sent) + Suffix(fp.content, old(fp.pos))
    ensures st == 2 ==> fp.err
  {
    st := 0;
    ghost var start := fp.pos;
    assert conn.sent == old(conn.sent) + Slice(fp.content, start, fp.pos) by {
      assert Slice(fp.content, start, start) == "";
    }
    while true
      invariant fp.Valid() && start <= fp.pos
      invariant old(conn.broken) ==> conn.broken
      invariant !conn.broken ==> conn.sent == old(conn.sent) + Slice(fp.content, start, fp.pos)
      decreases |fp.content| - fp.pos
    {
      var running: bool := *;
      if !running { return 0; }
      ghost var was := fp.pos;
      ghost var sent := conn.sent;
      st := SendBlock(conn, fp);
      SliceAppend(fp.content, start, was, fp.pos);
      Assoc(old(conn.sent), Slice(fp.content, start, was), Slice(fp.content, was, fp.pos));
      if st != 0 { break; }
    }
  }

  // ---- Receiving ----

  /** process_block, receiving; a read error counts as the end, as in the source. */
  method RecvBlock(conn: Sock, fp: File, sleep0: nat) returns (st: nat, sleep: nat)
    requires 0 < sleep0 <= 200000
    modifies conn`incoming, conn`stalls, conn`broken, fp`content, fp`err
    ensures 0 < sleep <= 200000
    ensures (old(fp.err) ==> fp.err) && (old(conn.broken) ==> conn.broken)
    ensures !fp.err ==> fp.content + conn.incoming == old(fp.content) + old(conn.incoming)
    ensures old(fp.content) <= fp.content
    ensures st == 1 && !conn.broken ==> conn.incoming == ""
    ensures st == 2 ==> fp.err
    ensures st == 0 ==> |conn.incoming| < |old(conn.incoming)|
                        || (conn.incoming == old(conn.incoming) && conn.stalls < old(conn.stalls))
  {
    sleep := sleep0;
    var complete := false;
    var r := conn.Read(BUF_SIZE);
    match r {
      case Data(bytes) =>
        sleep := 1000;
        ghost var was := fp.content;
        fp.Fwrite(bytes);
        Assoc(was, bytes, conn.incoming);
      case Again =>
        sleep := DoubleAndLimit(sleep, 200000);
      case Failed =>
        complete := true;   // Treat transfer as complete
      case Eof =>
        complete := true;
    }
    if complete { return 1, sleep; }
    if fp.err { return 2, sleep; }
    return 0, sleep;
  }

  /** The loop of a data thread that receives: at every moment the file has grown by the bytes
      received so far, in order; with status 1 by all of them. The first holds unless a write to the
      file failed, the second unless a read from the connection did. */
  method RecvLoop(conn: Sock, fp: File) returns (st: nat)
    modifies conn`incoming, conn`stalls, conn`broken, fp`content, fp`err
    ensures !fp.err ==> fp.content + conn.incoming == old(fp.content) + old(conn.incoming)
    ensures old(fp.content) <= fp.content
    ensures st == 1 && !conn.broken ==> conn.incoming == ""
    ensures st == 1 && !conn.broken && !fp.err ==> fp.content == old(fp.content) + old(conn.incoming)
    ensures st == 2 ==> fp.err
  {
    st := 0;
    var sleep := 1000;
    while true
      invariant 0 < sleep <= 200000
      invariant !fp.err ==> fp.content + conn.incoming == old(fp.content) + old(conn.incoming)
      invariant (old(fp.err) ==> fp.err) && (old(conn.broken) ==> conn.broken)
      invariant old(fp.content) <= fp.content
      decreases |conn.incoming|, conn.stalls
    {
      var running: bool := *;
      if !running { return 0; }
      st, sleep := RecvBlock(conn, fp, sleep);
      if st != 0 { break; }
    }
    assert conn.incoming == "" ==> fp.content + conn.incoming == fp.content;
  }

  // ---- The client's loops ----

  /** read_all_thr: collect what the peer sends, in a buffer doubled when it is full. A read that
      fails ends the loop like the end of the stream. */
  method ReadEverything(conn: Sock) returns (text: string)
    modifies conn`incoming, conn`broken
    ensures old(conn.incoming) == text + conn.incoming
    ensures conn.incoming != "" ==> conn.broken
    ensures text == old(conn.incoming) <==> conn.incoming == ""
  {
    var buf := new char[64];
    var len: nat := 0;
    assert buf[..0] == "" && "" + conn.incoming == conn.incoming;
    while true
      invariant fresh(buf) && len < buf.Length
      invariant buf[..len] + conn.incoming == old(conn.incoming)
      decreases |conn.incoming|
    {
      ghost var before := buf[..len];
      var r := conn.ReadOrFail(BLOCK_SIZE);
      if !r.Data? { break; }
      var block := r.bytes;
      buf := Grow(buf, len, len + |block|);
      forall i | 0 <= i < |block| { buf[len + i] := block[i]; }
      assert buf[..len] == before && buf[len..len + |block|] == block;
      assert buf[..len + |block|] == buf[..len] + buf[len..len + |block|];
      Assoc(before, block, conn.incoming);
      len := len + |block|;
    }
    buf[len] := '\0';
    text := buf[..len];
    assert conn.incoming == "" ==> text + conn.incoming == text;
  }

  /** write_all_from_thr: send a local file block by block. What is sent is always a beginning of
      the file, and all of it unless the connection broke or the file could not be read; the source
      reports the end of the transfer in every case. */
  method SendLocal(local: Sock, conn: Sock)
    requires local != conn
    modifies local`incoming, local`broken, conn`sent, conn`stalls, conn`broken
    ensures exists n: nat :: n <= |old(local.incoming)| && conn.sent == old(conn.sent) + old(local.incoming)[..n]
    ensures old(conn.broken) ==> conn.broken
    ensures !conn.broken && !local.broken ==> conn.sent == old(conn.sent) + old(local.incoming)
  {
    ghost var file := old(local.incoming);
    ghost var n: nat := 0;
    assert file[..0] == "" && file[0..] == file;
    while true
      invariant n <= |file| && local.incoming == file[n..] && conn.sent == old(conn.sent) + file[..n]
      invariant conn.broken == old(conn.broken)
      decreases |local.incoming|
    {
      var r := local.ReadOrFail(BLOCK_SIZE);
      if !r.Data? { break; }
      var block := r.bytes;
      assert block == file[n..n + |block|] by { assert (block + local.incoming)[..|block|] == block; }
      assert local.incoming == file[n + |block|..];
      var left := conn.WriteAll(block);
      ghost var took := |block| - left;
      assert file[..n] + block[..took] == file[..n + took];
      Assoc(old(conn.sent), file[..n], block[..took]);
      n := n + took;
      if left != 0 { return; }
    }
    assert local.incoming == "" ==> file[..n] == file;
  }

  /** One write() of a block: how many bytes were taken, or -1. */
  datatype WriteCall = WriteCall(block: string, taken: int) {
    function Took(): int { if taken == -1 then 0 else taken }
  }

  type Attempt = w: WriteCall | w.block != "" && (w.taken == -1 || 0 < w.taken <= |w.block|)
    witness WriteCall("x", 1)

  /** The blocks that were offered, and what was taken of them. */
  function Offered(ws: seq<Attempt>): string
  {
    if ws == [] then "" else Offered(ws[..|ws| - 1]) + ws[|ws| - 1].block
  }

  function Taken(ws: seq<Attempt>): string
  {
    if ws == [] then "" else Taken(ws[..|ws| - 1]) + ws[|ws| - 1].block[..ws[|ws| - 1].Took()]
  }

  lemma {:induction false} OneMore(ws: seq<Attempt>, w: Attempt)
    ensures Offered(ws + [w]) == Offered(ws) + w.block && Taken(ws + [w]) == Taken(ws) + w.block[..w.Took()]
  {
    assert (ws + [w])[..|ws|] == ws;
  }

  /** Every write() took its whole block. */
  predicate AllWhole(ws: seq<Attempt>) { forall i :: 0 <= i < |ws| ==> ws[i].taken == |ws[i].block| }

  /** What was taken is what was offered exactly when every write was whole. */
  lemma {:induction false} TakenWhole(ws: seq<Attempt>)
    ensures |Taken(ws)| <= |Offered(ws)|
    ensures |Taken(ws)| == |Offered(ws)| <==> AllWhole(ws)
    ensures Taken(ws) == Offered(ws) <==> AllWhole(ws)
  {
    if ws != [] {
      var before, w := ws[..|ws| - 1], ws[|ws| - 1];
      TakenWhole(before);
      assert AllWhole(ws) <==> AllWhole(before) && w.taken == |w.block|;
      if |Taken(ws)| == |Offered(ws)| {
        assert w.block[..w.Took()] == w.block;
      }
    }
  }

  /** read_all_to_thr: copy what the peer sends to a local descriptor, with one write() a block, and
      report the end whatever happened. ws lists the writes: the blocks put together are what was
      read, the local file grows by what was taken of them, and the loop ends at the end of the
      stream, at a failed read, or at a failed write. The copy is exact if and only if everything
      was read and every write was whole. */
  method ReceiveTo(conn: Sock, local: Sock) returns (len: nat, ghost ws: seq<Attempt>)
    requires conn != local
    modifies conn`incoming, conn`broken, local`sent, local`stalls, local`broken
    ensures old(conn.incoming) == Offered(ws) + conn.incoming && len == |Offered(ws)|
    ensures local.sent == old(local.sent) + Taken(ws)
    ensures forall i :: 0 <= i < |ws| - 1 ==> ws[i].taken != -1
    ensures conn.incoming != "" ==> conn.broken || (ws != [] && ws[|ws| - 1].taken == -1)
    ensures local.sent == old(local.sent) + old(conn.incoming) <==> AllWhole(ws) && conn.incoming == ""
  {
    len, ws := 0, [];
    assert "" + conn.incoming == conn.incoming && local.sent + "" == local.sent;
    while true
      invariant forall i :: 0 <= i < |ws| ==> ws[i].taken != -1
      invariant old(conn.incoming) == Offered(ws) + conn.incoming && len == |Offered(ws)|
      invariant local.sent == old(local.sent) + Taken(ws)
      decreases |conn.incoming|
    {
      var r := conn.ReadOrFail(BLOCK_SIZE);
      if !r.Data? { break; }
      var block := r.bytes;
      len := len + |block|;
      ghost var was := ws;
      var n, again := local.Write(block);
      ws := ws + [WriteCall(block, n)];
      OneMore(was, WriteCall(block, n));
      Assoc(Offered(was), block, conn.incoming);
      Assoc(old(local.sent), Taken(was), block[..WriteCall(block, n).Took()]);
      assert n == -1 ==> local.sent + "" == local.sent;
      if n == -1 { break; }
    }
    TakenWhole(ws);
    Exactly(old(local.sent), Taken(ws), Offered(ws), conn.incoming);
  }

  lemma Exactly(was: string, taken: string, offered: string, rest: string)
    requires |taken| <= |offered|
    ensures was + taken == was + (offered + rest) <==> taken == offered && rest == ""
  {
    if was + taken == was + (offered + rest) {
      assert |taken| == |offered| + |rest|;
      assert taken == (was + taken)[|was|..] == offered + rest;
    }
  }

  // ---- Both ends ----

  /** A whole RETR: the server sends the file from an offset, the client copies what arrives. When
      the server reports the end and no connection broke, the local file grows by exactly the rest
      of the file if and only if every local write was whole. */
  method Download(fp: File, conn: Sock, local: Sock) returns (st: nat, ghost ws: seq<Attempt>)
    requires fp.Valid() && conn != local && conn.sent == ""
    modifies fp`pos, fp`eof, fp`err, conn`sent, conn`stalls, conn`broken, local`sent, local`stalls, local`broken
    ensures local.sent == old(local.sent) + Taken(ws)
    ensures !conn.broken ==> Offered(ws) <= Suffix(fp.content, old(fp.pos))
    ensures st == 1 && !conn.broken ==>
      (local.sent == old(local.sent) + Suffix(fp.content, old(fp.pos)) <==> AllWhole(ws))
  {
    st := SendLoop(conn, fp);
    assert forall s: string :: "" + s == s;
    assert Slice(fp.content, old(fp.pos), fp.pos) <= Suffix(fp.content, old(fp.pos));
    var arrived := new Sock(conn.sent, 0);
    var len: nat;
    len, ws := ReceiveTo(arrived, local);
    if arrived.broken { conn.broken := true; }
  }

  /** A whole STOR: the client sends a local file, the server appends what arrives. */
  method Upload(local: Sock, conn: Sock, fp: File) returns (st: nat)
    requires local != conn && conn.sent == ""
    modifies local`incoming, local`broken, conn`sent, conn`stalls, conn`broken, fp`content, fp`err
    ensures st == 1 && !conn.broken && !local.broken && !fp.err ==>
      fp.content == old(fp.content) + old(local.incoming)
  {
    ghost var file := local.incoming;
    SendLocal(local, conn);
    assert "" + file == file;
    var arrived := new Sock(conn.sent, conn.stalls);
    st := RecvLoop(arrived, fp);
    if arrived.broken { conn.broken := true; }
  }

  // ---- Resuming ----

  /** What truncate to a size_t does to a file: a size past the signed range fails. */
  function Truncated(content: string, size: nat): string
  {
    if size >= OFF_RANGE then content
    else if size <= |content| then content[..size]
    else content + seq(size - |content|, _ => '\0')
  }

  /** The REST argument for an offset. */
  lemma RestRoundTrip(n: nat)
    requires n < SIZE_RANGE
    ensures ParseOffset(Decimal(n)) == Some(n)
  {
    ScanDecimal(n, "");
    assert Decimal(n) + "" == Decimal(n);
    assert n % SIZE_RANGE == n;
  }

  /** A REST with any argument and an accepted RETR: the session's record behind it, and where the
      file is read from. */
  function MarkThenRetr(l: Local, mark: string, arg: string): Outcome
  {
    Handle(RETR, Handle(REST, l, mark, true, true).local, arg, true, true)
  }

  function RestThenRetr(l: Local, offs: nat, arg: string): Outcome { MarkThenRetr(l, Decimal(offs), arg) }

  /** REST makes the next transfer start where it says if and only if it says 0 or more and less than
      2^63, and only that transfer. A negative offset, or one from there to 2^64, makes it start at 0. */
  lemma RestStartsThere(l: Local, mark: string, arg: string)
    requires ScanInt(mark).Some? && Cat(l.wd, arg).Some?
    ensures var n := ScanInt(mark).value.0; var o := MarkThenRetr(l, mark, arg);
      && o.file.Some? && o.local.rest == 0
      && (o.file.value.start == n <==> 0 <= n < OFF_RANGE)
      && (-OFF_RANGE <= n < 0 || OFF_RANGE <= n < SIZE_RANGE ==> o.file.value.start == 0)
      && var again := Handle(RETR, o.local, arg, true, true);
         again.file.Some? && again.file.value.start == 0
  {
    WrappedOffset(ScanInt(mark).value.0);
  }

  lemma WrappedOffset(n: int)
    ensures 0 <= n < SIZE_RANGE ==> n % SIZE_RANGE == n
    ensures -SIZE_RANGE <= n < 0 ==> n % SIZE_RANGE == n + SIZE_RANGE
  {
    if -SIZE_RANGE <= n < 0 { assert n % SIZE_RANGE == (n + SIZE_RANGE) % SIZE_RANGE; }
  }

  /** A REST that is no number changes nothing. */
  lemma BadRestIgnored(l: Local, mark: string, arg: string)
    requires ScanInt(mark).None?
    ensures MarkThenRetr(l, mark, arg) == Handle(RETR, l, arg, true, true)
  {
  }

  /** The offset that the client of a cut transfer sends. */
  lemma RestDecimal(l: Local, offs: nat, arg: string)
    requires offs < OFF_RANGE && Cat(l.wd, arg).Some?
    ensures var o := RestThenRetr(l, offs, arg); o.file.Some? && o.file.value.start == offs && o.local.rest == 0
  {
    RestRoundTrip(offs);
  }

  /** Any number of RETRs of a file, cut short after the given counts, each resumed with REST at the
      number of bytes already received. */
  function Retrieved(l: Local, arg: string, content: string, cuts: seq<nat>): string
  {
    if cuts == [] then ""
    else
      var got := Retrieved(l, arg, content, cuts[..|cuts| - 1]);
      var o := RestThenRetr(l, |got|, arg);
      if o.file.None? then got
      else
        var start := o.file.value.start;
        got + Slice(content, start, start + cuts[|cuts| - 1])
  }

  /** The pieces always join to a beginning of the file: to all of it as soon as the last RETR runs
      to the end. */
  lemma {:induction false} ResumedRetr(l: Local, arg: string, content: string, cuts: seq<nat>)
    requires |content| < OFF_RANGE && Cat(l.wd, arg).Some?
    ensures var got := Retrieved(l, arg, content, cuts);
      && got <= content
      && (cuts != [] && cuts[|cuts| - 1] >= |content| ==> got == content)
    decreases |cuts|
  {
    if cuts != [] {
      var before := cuts[..|cuts| - 1];
      ResumedRetr(l, arg, content, before);
      var got := Retrieved(l, arg, content, before);
      RestDecimal(l, |got|, arg);
      SliceAppend(content, 0, |got|, |got| + cuts[|cuts| - 1]);
      assert Slice(content, 0, |got|) == got;
    }
  }

  /** What an accepted STOR and the bytes that arrive make of a file that exists. */
  function StoredBy(ops: seq<StoreOp>, content: string, data: string): string
  {
    if |ops| == 2 && ops[0].Truncate? && ops[1].OpenAppend? && ops[1].path == ops[0].path
    then Truncated(content, ops[0].size) + data
    else content
  }

  /** A REST for offs and an accepted STOR. */
  function RestThenStor(l: Local, offs: nat, arg: string): Outcome
  {
    Handle(STOR, Handle(REST, l, Decimal(offs), true, true).local, arg, true, true)
  }

  /** A first STOR from the start and any number of further ones, each with REST at the current
      length of the file; each is cut short after the given count. */
  function Stored(l: Local, arg: string, was: string, whole: string, cuts: seq<nat>): string
  {
    if cuts == [] then was
    else if |cuts| == 1 then
      StoredBy(Handle(STOR, l.(rest := 0), arg, true, true).ops, was, Slice(whole, 0, cuts[0]))
    else
      var file := Stored(l, arg, was, whole, cuts[..|cuts| - 1]);
      StoredBy(RestThenStor(l, |file|, arg).ops, file, Slice(whole, |file|, |file| + cuts[|cuts| - 1]))
  }

  lemma StorOps(l: Local, offs: nat, arg: string)
    requires offs < OFF_RANGE && Cat(l.wd, arg).Some?
    ensures var d := Below(Cat(l.wd, arg).value);
      && RestThenStor(l, offs, arg).ops == [Truncate(d, offs), OpenAppend(d)]
      && Handle(STOR, l.(rest := 0), arg, true, true).ops == [Truncate(d, 0), OpenAppend(d)]
      && RestThenStor(l, offs, arg).local.rest == 0
  {
    RestRoundTrip(offs);
  }

  /** Whatever the file held before, after the first STOR it is always a beginning of the uploaded
      data, and all of it as soon as the last STOR runs to the end. */
  lemma {:induction false} ResumedStor(l: Local, arg: string, was: string, whole: string, cuts: seq<nat>)
    requires |whole| < OFF_RANGE && Cat(l.wd, arg).Some? && cuts != []
    ensures var file := Stored(l, arg, was, whole, cuts);
      && file <= whole
      && (cuts[|cuts| - 1] >= |whole| ==> file == whole)
    decreases |cuts|
  {
    if |cuts| == 1 {
      StorOps(l, 0, arg);
      assert Truncated(was, 0) == "";
      assert "" + Slice(whole, 0, cuts[0]) == Slice(whole, 0, cuts[0]);
    } else {
      var before := cuts[..|cuts| - 1];
      ResumedStor(l, arg, was, whole, before);
      StoredMore(l, arg, Stored(l, arg, was, whole, before), whole, cuts[|cuts| - 1]);
    }
  }

  lemma StoredMore(l: Local, arg: string, file: string, whole: string, cut: nat)
    requires |whole| < OFF_RANGE && Cat(l.wd, arg).Some? && file <= whole
    ensures var more := StoredBy(RestThenStor(l, |file|, arg).ops, file, Slice(whole, |file|, |file| + cut));
      more <= whole && (cut >= |whole| ==> more == whole)
  {
    StorOps(l, |file|, arg);
    assert Truncated(file, |file|) == file;
    SliceAppend(whole, 0, |file|, |file| + cut);
    assert Slice(whole, 0, |file|) == file;
  }
}
