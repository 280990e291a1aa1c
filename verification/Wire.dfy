/** Sockets as the program sees them: a read gives any non-empty piece of what is to come, a
    write takes any non-empty piece of what is offered, and a non-blocking descriptor may refuse
    finitely often. Every proof about a caller holds for all these choices. */
module Wire {

  datatype ReadResult = Data(bytes: string) | Eof | Again | Failed

  class Sock {
    /** Bytes the peer sent that have not been read. */
    var incoming: string
    /** Bytes accepted for the peer, since the connection was made. */
    var sent: string
    /** How many more EAGAIN there will be. */
    var stalls: nat
    /** A read or a write has failed for good. */
    var broken: bool

    constructor (incoming: string, stalls: nat)
      ensures this.incoming == incoming && this.stalls == stalls && sent == "" && !broken
    {
      this.incoming, this.stalls, this.sent, this.broken := incoming, stalls, "", false;
    }

    /** read() on a blocking descriptor: a piece, or end of stream. */
    method ReadBlocking(max: nat) returns (bytes: string)
      requires max > 0
      modifies this`incoming
      ensures old(incoming) == bytes + incoming && |bytes| <= max
      ensures bytes == "" ==> incoming == ""
    {
      if incoming == "" { return ""; }
      var k :| 1 <= k <= max && k <= |incoming|;
      bytes := incoming[..k];
      incoming := incoming[k..];
    }

    /** read() on a blocking descriptor that may also fail: data, end of stream or failure. */
    method ReadOrFail(max: nat) returns (r: ReadResult)
      requires max > 0
      modifies this`incoming, this`broken
      ensures !r.Again?
      ensures r.Data? ==> 0 < |r.bytes| <= max && old(incoming) == r.bytes + incoming
      ensures !r.Data? ==> incoming == old(incoming)
      ensures r.Eof? ==> incoming == ""
      ensures broken == if r.Failed? then true else old(broken)
    {
      if * {
        broken := true;
        return Failed;
      }
      if incoming == "" { return Eof; }
      var bytes := ReadBlocking(max);
      return Data(bytes);
    }

    /** read() on a non-blocking descriptor. */
    method Read(max: nat) returns (r: ReadResult)
      requires max > 0
      modifies this`incoming, this`stalls, this`broken
      ensures r.Data? ==> 0 < |r.bytes| <= max && old(incoming) == r.bytes + incoming
                          && stalls == old(stalls) && broken == old(broken)
      ensures !r.Data? ==> incoming == old(incoming)
      ensures r.Eof? ==> incoming == "" && stalls == old(stalls) && broken == old(broken)
      ensures r.Again? ==> stalls < old(stalls) && broken == old(broken)
      ensures r.Failed? ==> broken && stalls == old(stalls)
    {
      var refuse: bool := *;
      if stalls > 0 && refuse {
        stalls := stalls - 1;
        return Again;
      }
      if * {
        broken := true;
        return Failed;
      }
      if incoming == "" { return Eof; }
      var bytes := ReadBlocking(max);
      return Data(bytes);
    }

    /** write(): how many bytes were taken; -1 with again for EAGAIN, -1 alone for an error. */
    method Write(bytes: string) returns (n: int, again: bool)
      requires bytes != ""
      modifies this`sent, this`stalls, this`broken
      ensures n == -1 || 0 < n <= |bytes|
      ensures n > 0 ==> sent == old(sent) + bytes[..n] && stalls == old(stalls) && broken == old(broken)
      ensures n == -1 ==> sent == old(sent)
      ensures n == -1 && again ==> stalls < old(stalls) && broken == old(broken)
      ensures n == -1 && !again ==> broken && stalls == old(stalls)
    {
      var refuse: bool := *;
      if stalls > 0 && refuse {
        stalls := stalls - 1;
        return -1, true;
      }
      if * {
        broken := true;
        return -1, false;
      }
      var k :| 0 < k <= |bytes|;
      sent := sent + bytes[..k];
      return k, false;
    }

    /** write_all: the number of bytes that were not written. What was written is always the
        beginning of the message, and all of it unless the connection broke. */
    method WriteAll(bytes: string) returns (left: nat)
      modifies this`sent, this`stalls, this`broken
      ensures left <= |bytes| && sent == old(sent) + bytes[..|bytes| - left]
      ensures left > 0 ==> broken
      ensures left == 0 ==> broken == old(broken)
      ensures stalls <= old(stalls)
    {
      var at: nat := 0;
      assert bytes[..0] == "";
      while at < |bytes|
        invariant at <= |bytes| && sent == old(sent) + bytes[..at]
        invariant broken == old(broken) && stalls <= old(stalls)
        decreases |bytes| - at, stalls
      {
        var result, again := Write(bytes[at..]);
        if result == -1 {
          if again { continue; }
          return |bytes| - at;
        }
        assert bytes[..at + result] == bytes[..at] + bytes[at..][..result];
        at := at + result;
      }
      assert bytes[..|bytes|] == bytes;
      return 0;
    }

    /** read_all: reads until len bytes, end of stream or an error. */
    method ReadAll(len: nat) returns (bytes: string)
      modifies this`incoming, this`stalls, this`broken
      ensures old(incoming) == bytes + incoming && |bytes| <= len
      ensures |bytes| < len ==> incoming == "" || broken
    {
      bytes := "";
      while |bytes| < len
        invariant old(incoming) == bytes + incoming && |bytes| <= len
        decreases len - |bytes|, stalls
      {
        var r := Read(len - |bytes|);
        match r
        case Again => continue;
        case Failed => return;
        case Eof => break;
        case Data(b) => bytes := bytes + b;
      }
    }
  }
}
