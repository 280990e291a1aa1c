/** Addresses and directories in replies and requests: the 227 reply and the PORT argument
    (section 4.1.2 of RFC 959), and the 257 reply, from the side that prints to the side that
    scans. */
module Codecs {
  import opened Text
  import opened LineBuffer
  import opened Replies
  import opened Requests
  import opened Path

  const UINT_RANGE := 0x1_0000_0000
  const MARKF_SIZE := 256

  /** %u: an unsigned int, wrapped; section 7.21.6.2 of C11 leaves out-of-range values open. */
  function ScanUint(s: string): Option<(nat, string)>
  {
    match ScanInt(s)
    case None => None
    case Some(r) => Some((r.0 % UINT_RANGE, r.1))
  }

  /** sscanf with n conversions %u separated by commas, when all n succeed. */
  function ScanList(s: string, n: nat): (r: Option<seq<nat>>)
    ensures r.Some? ==> |r.value| == n
    decreases n, |s|
  {
    if n == 0 then Some([]) else
      match ScanUint(s)
      case None => None
      case Some(x) =>
        if n == 1 then Some([x.0])
        else if x.1 == "" || x.1[0] != ',' then None
        else
          match ScanList(x.1[1..], n - 1)
          case None => None
          case Some(xs) => Some([x.0] + xs)
  }

  predicate IsAddress(a: seq<nat>) { |a| == 6 && forall i :: 0 <= i < 6 ==> a[i] < 256 }

  /** Six numbers below 256, as both ends demand. */
  function ScanAddress(s: string): (r: Option<seq<nat>>)
    ensures r.Some? ==> IsAddress(r.value)
  {
    match ScanList(s, 6)
    case None => None
    case Some(a) => if IsAddress(a) then Some(a) else None
  }

  /** The port both ends make of the last two numbers. */
  function PortNumber(a: seq<nat>): nat
    requires IsAddress(a)
  {
    a[4] * 256 + a[5]
  }

  predicate IsHost(host: seq<nat>) { |host| == 4 && forall i :: 0 <= i < 4 ==> host[i] < 256 }

  /** The six bytes of a socket address, in network order, as ephemeral() copies them. */
  function SocketBytes(host: seq<nat>, port: nat): seq<nat> { host + [port / 256, port % 256] }

  lemma SocketAddress(host: seq<nat>, port: nat)
    requires IsHost(host) && port < 0x1_0000
    ensures var a := SocketBytes(host, port); IsAddress(a) && a[..4] == host && PortNumber(a) == port
  {
    assert port / 256 < 256 && 256 * (port / 256) + port % 256 == port;
  }

  /** The range check both ends make on the scanned numbers. */
  method AllBytes(x: seq<nat>) returns (ok: bool)
    ensures ok <==> forall i :: 0 <= i < |x| ==> x[i] < 256
  {
    for i := 0 to |x|
      invariant forall j :: 0 <= j < i ==> x[j] < 256
    {
      if x[i] >= 256 { return false; }
    }
    return true;
  }

  /** The scan and the range check of handler_PORT, and of data_pasv_1 behind its search. */
  method ReadAddress(arg: string) returns (r: Option<seq<nat>>)
    ensures r == ScanAddress(arg)
  {
    var x := ScanList(arg, 6);
    if x.None? { return None; }
    var ok := AllBytes(x.value);
    r := if ok then x else None;
  }

  /** The text from the first digit on. */
  function FromDigit(s: string): (t: string)
    ensures t == "" || IsDigit(t[0])
    decreases |s|
  {
    if s == "" || IsDigit(s[0]) then s else FromDigit(s[1..])
  }

  /** What data_pasv_1 makes of a reply. */
  function PasvAddress(code: nat, s: string): Option<seq<nat>>
  {
    if code != 227 || FromDigit(s) == "" then None else ScanAddress(FromDigit(s))
  }

  /** data_pasv_1 up to the connection. */
  method DataPasv(code: nat, s: string) returns (r: Option<seq<nat>>)
    ensures r == PasvAddress(code, s)
  {
    if code != 227 { return None; }
    var p := 0;
    assert s[0..] == s;
    while p < |s| && !IsDigit(s[p])
      invariant 0 <= p <= |s| && FromDigit(s[p..]) == FromDigit(s)
    {
      assert s[p..][1..] == s[p + 1..];
      p := p + 1;
    }
    if p == |s| { return None; }
    r := ReadAddress(s[p..]);
  }

  // ---- Printing ----

  function Commas(a: seq<nat>): string
    requires a != []
  {
    if |a| == 1 then Decimal(a[0]) else Decimal(a[0]) + "," + Commas(a[1..])
  }

  /** markf: the text is printed into 256 bytes. */
  function Markf(s: string): string { if |s| < MARKF_SIZE then s else s[..MARKF_SIZE - 1] }

  const PASV_HEAD := "Entering Passive Mode ("

  function Msg227(a: seq<nat>): string
    requires a != []
  {
    PASV_HEAD + Commas(a) + ")"
  }

  const PWD_HEAD := "Working directory is \""

  function Msg257(wd: string): string { PWD_HEAD + wd + "\"." }

  // ---- Addresses ----

  /** The list is what the scan makes of its own printing. */
  predicate ScannedBack(a: seq<nat>, rest: string)
    requires a != []
  {
    ScanList(Commas(a) + rest, |a|) == Some(a)
  }

  lemma {:induction false} ScanCommas(a: seq<nat>, rest: string)
    requires a != [] && (forall i :: 0 <= i < |a| ==> a[i] < UINT_RANGE) && (rest == "" || !IsDigit(rest[0]))
    ensures true == ScannedBack(a, rest)
    decreases |a|
  {
    if |a| == 1 {
      ScanLast(a, rest);
    } else {
      ScanCommas(a[1..], rest);
      ScanNext(a, rest);
    }
  }

  lemma ScanUintDecimal(x: nat, rest: string)
    requires x < UINT_RANGE && (rest == "" || !IsDigit(rest[0]))
    ensures ScanUint(Decimal(x) + rest) == Some((x, rest))
  {
    ScanDecimal(x, rest);
    Unwrapped(Decimal(x) + rest, x, rest);
  }

  lemma Unwrapped(s: string, x: nat, rest: string)
    requires x < UINT_RANGE && ScanInt(s) == Some((x, rest))
    ensures ScanUint(s) == Some((x, rest))
  {
    assert x % UINT_RANGE == x;
  }

  lemma ScanLast(a: seq<nat>, rest: string)
    requires |a| == 1 && a[0] < UINT_RANGE && (rest == "" || !IsDigit(rest[0]))
    ensures true == ScannedBack(a, rest)
  {
    ScanUintDecimal(a[0], rest);
    assert a == [a[0]];
  }

  lemma ScanNext(a: seq<nat>, rest: string)
    requires |a| > 1 && a[0] < UINT_RANGE && true == ScannedBack(a[1..], rest)
    ensures true == ScannedBack(a, rest)
  {
    CommasSplit(a, rest);
    ScanFirst(Commas(a) + rest, a[0], Commas(a[1..]) + rest, |a|, a[1..]);
    assert a == [a[0]] + a[1..];
  }

  lemma ScanFirst(text: string, x: nat, t: string, n: nat, xs: seq<nat>)
    requires n > 1 && x < UINT_RANGE && text == Decimal(x) + ("," + t) && ScanList(t, n - 1) == Some(xs)
    ensures ScanList(text, n) == Some([x] + xs)
  {
    ScanUintDecimal(x, "," + t);
    assert ("," + t)[1..] == t;
  }

  lemma CommasSplit(a: seq<nat>, rest: string)
    requires |a| > 1
    ensures Commas(a) + rest == Decimal(a[0]) + ("," + (Commas(a[1..]) + rest))
  {
    var d, m := Decimal(a[0]), Commas(a[1..]);
    Assoc(d, ",", m);
    Assoc(d, "," + m, rest);
    Assoc(",", m, rest);
  }

  /** An address printed by either end is scanned back by the other. */
  lemma AddressRoundTrip(a: seq<nat>, rest: string)
    requires IsAddress(a) && (rest == "" || !IsDigit(rest[0]))
    ensures ScanAddress(Commas(a) + rest) == Some(a)
  {
    ScanCommas(a, rest);
  }

  predicate Inert(s: string) { forall i :: 0 <= i < |s| ==> s[i] == ',' || IsDigit(s[i]) }

  lemma {:induction false} CommasInert(a: seq<nat>)
    requires a != [] && forall i :: 0 <= i < |a| ==> a[i] < 1000
    ensures Inert(Commas(a)) && IsDigit(Commas(a)[0]) && |Commas(a)| <= 4 * |a| - 1
    decreases |a|
  {
    assert Pow10(3) == 1000 by { assert Pow10(2) == 100 by { assert Pow10(1) == 10; } }
    DecimalLength(a[0], 3);
    if |a| > 1 {
      CommasInert(a[1..]);
    }
  }

  lemma {:induction false} SkipTo(pre: string, s: string)
    requires (forall i :: 0 <= i < |pre| ==> !IsDigit(pre[i])) && s != "" && IsDigit(s[0])
    ensures FromDigit(pre + s) == s
  {
    if pre == "" {
      assert pre + s == s;
    } else {
      SkipTo(pre[1..], s);
      assert (pre + s)[1..] == pre[1..] + s;
    }
  }

  /** A text of one short line without CR, LF or NUL can be sent. */
  lemma OneLineSendable(s: string)
    requires OneLine(s) && |s| <= LINE_SIZE - 5
    ensures Sendable(s) && Ended(s) == s + "\n"
  {
    IndexOfUnique(s, '\n', |s|);
  }

  /** The client gets from the 227 reply the host and the port the server listens on, whatever
      follows on the connection. */
  lemma PasvEndToEnd(host: seq<nat>, port: nat, rest: string)
    requires IsHost(host) && port < 0x1_0000
    ensures var r := ReadReply(StripCR(Print(227, Markf(Msg227(SocketBytes(host, port))))) + rest);
      && r.Some? && r.value.1 == rest
      && var a := PasvAddress(r.value.0.code, r.value.0.text);
         a.Some? && a.value[..4] == host && PortNumber(a.value) == port
  {
    var a := SocketBytes(host, port);
    SocketAddress(host, port);
    CommasInert(a);
    var msg := Msg227(a);
    OneLineSendable(msg);
    ReplyRoundTrip(227, msg, rest);
    PasvText(a);
  }

  lemma PasvText(a: seq<nat>)
    requires IsAddress(a)
    ensures PasvAddress(227, Msg227(a) + "\n") == Some(a)
  {
    CommasInert(a);
    var tail := Commas(a) + ")\n";
    assert Msg227(a) + "\n" == PASV_HEAD + tail;
    NoDigitInHead();
    SkipTo(PASV_HEAD, tail);
    AddressRoundTrip(a, ")\n");
  }

  lemma NoDigitInHead()
    ensures forall i :: 0 <= i < |PASV_HEAD| ==> !IsDigit(PASV_HEAD[i])
  {
  }

  /** The server gets from the PORT request the host and the port the client listens on. */
  lemma PortEndToEnd(host: seq<nat>, port: nat, rest: string)
    requires IsHost(host) && port < 0x1_0000
    ensures var v := StripCR("PORT " + Commas(SocketBytes(host, port)) + "\r\n" + rest);
      && NextInput(v).Command? && VerbOf(NextInput(v).verb) == PORT && AfterLine(v) == StripCR(rest)
      && var a := ScanAddress(NextInput(v).arg);
         a.Some? && a.value[..4] == host && PortNumber(a.value) == port
  {
    var a := SocketBytes(host, port);
    SocketAddress(host, port);
    CommasInert(a);
    var q := Request("PORT", Some(Commas(a)));
    BodyOneLine(q);
    assert Body(q) == "PORT " + Commas(a) by { assert "PORT" + " " == "PORT "; }
    PortLine(Commas(a), rest);
    AddressRoundTrip(a, "");
    assert Commas(a) + "" == Commas(a);
  }

  lemma PortLine(arg: string, rest: string)
    requires OneLine(arg) && OneLine("PORT " + arg) && 5 + |arg| < CMD_SIZE
    ensures var v := StripCR("PORT " + arg + "\r\n" + rest);
            NextInput(v) == Command("PORT", arg) && VerbOf("PORT") == PORT && AfterLine(v) == StripCR(rest)
  {
    RequestLine("PORT " + arg, rest);
    PortParsed(arg);
    assert |"PORT " + arg| == 5 + |arg|;
  }

  lemma PortParsed(arg: string)
    requires OneLine(arg)
    ensures ParseLine("PORT " + arg) == Command("PORT", arg) && VerbOf("PORT") == PORT
  {
    var q := Request("PORT", Some(arg));
    assert Body(q) == "PORT " + arg by { assert "PORT" + " " == "PORT "; }
    ParseBody(q);
    assert Upper("PORT") == "PORT";
  }

  // ---- Directories ----

  datatype Recovered = NoQuote | BadLength | Directory(path: string)

  /** list_1: the text between the first and the last double quote. When they are the same quote
      the source computes the length -1 and copies with it. */
  function RecoverDirectory(s: string): Recovered
  {
    var q := LastIndexOf(s, '"');
    if q.None? then NoQuote
    else
      var p := IndexOf(s, '"') + 1;
      if q.value < p then BadLength else Directory(s[p..q.value])
  }

  lemma NormalChars(wd: string)
    requires Normal(wd)
    ensures ValidText(wd) && OneLine(wd) && '"' !in wd
  {
    StackCanonical(wd);
    NormalText(Stack(wd));
  }

  lemma QuotedPart(pre: string, s: string, post: string)
    requires '"' !in pre && '"' !in s && '"' !in post
    ensures RecoverDirectory(pre + "\"" + s + "\"" + post) == Directory(s)
  {
    var t := pre + "\"" + s + "\"" + post;
    var q := |pre| + 1 + |s|;
    assert forall j :: 0 <= j < |pre| ==> t[j] == pre[j] && pre[j] in pre;
    IndexOfUnique(t, '"', |pre|);
    assert t[q + 1..] == post;
    LastIndexOfUnique(t, '"', q);
    assert t[|pre| + 1..q] == s;
  }

  lemma UnclosedPart(pre: string, s: string)
    requires '"' !in pre && '"' !in s
    ensures RecoverDirectory(pre + "\"" + s) == BadLength
  {
    var t := pre + "\"" + s;
    assert forall j :: 0 <= j < |pre| ==> t[j] == pre[j] && pre[j] in pre;
    IndexOfUnique(t, '"', |pre|);
    assert t[|pre| + 1..] == s;
    LastIndexOfUnique(t, '"', |pre|);
  }

  /** The client recovers the server's working directory from the 257 reply exactly when it has at
      most 232 bytes; for a longer one the closing quote is cut off and the client's length is -1. */
  lemma PwdEndToEnd(wd: string, rest: string)
    requires Normal(wd)
    ensures var r := ReadReply(StripCR(Print(257, Markf(Msg257(wd)))) + rest);
      && r.Some? && r.value.0.code == 257 && r.value.1 == rest
      && (RecoverDirectory(r.value.0.text) == Directory(wd) <==> |wd| <= 232)
      && (|wd| > 232 ==> RecoverDirectory(r.value.0.text) == BadLength)
  {
    NormalChars(wd);
    var msg := Markf(Msg257(wd));
    assert OneLine(PWD_HEAD) && OneLine("\".");
    OneLineSendable(msg);
    ReplyRoundTrip(257, msg, rest);
    PwdText(wd);
  }

  lemma PwdText(wd: string)
    requires '"' !in wd
    ensures var r := RecoverDirectory(Markf(Msg257(wd)) + "\n");
      if |wd| <= 232 then r == Directory(wd) else r == BadLength
  {
    var pre := "Working directory is ";
    var text := Markf(Msg257(wd)) + "\n";
    if |wd| <= 231 {
      assert text == pre + "\"" + wd + "\"" + ".\n";
      QuotedPart(pre, wd, ".\n");
    } else if |wd| == 232 {
      assert text == pre + "\"" + wd + "\"" + "\n";
      QuotedPart(pre, wd, "\n");
    } else {
      assert text == pre + "\"" + (wd[..233] + "\n");
      assert forall i :: 0 <= i < 233 ==> wd[i] in wd;
      UnclosedPart(pre, wd[..233] + "\n");
    }
  }
}
