/** The request parser of client_run_loop (server/client.c) and the request lines the client
    writes (client/main.c). */
module Requests {
  import opened Text
  import opened LineBuffer

  const CMD_SIZE := 1024

  datatype Verb =
    | QUIT | SYST | TYPE | USER | PASS | PORT | PASV | CWD | PWD | MKD | RMD | RNFR | RNTO | DELE
    | LIST | REST | RETR | STOR | ABOR | OTHER

  /** The comparisons of process_command, in its order. */
  function VerbOf(s: string): Verb
  {
    if s == "QUIT" then QUIT else if s == "SYST" then SYST else if s == "TYPE" then TYPE
    else if s == "USER" then USER else if s == "PASS" then PASS else if s == "PORT" then PORT
    else if s == "PASV" then PASV else if s == "CWD" then CWD else if s == "PWD" then PWD
    else if s == "MKD" then MKD else if s == "RMD" then RMD else if s == "RNFR" then RNFR
    else if s == "RNTO" then RNTO else if s == "DELE" then DELE else if s == "LIST" then LIST
    else if s == "REST" then REST else if s == "RETR" then RETR else if s == "STOR" then STOR
    else if s == "ABOR" then ABOR else OTHER
  }

  /** What the run loop sees next. */
  datatype Input = Closed | TooLong | Malformed | Command(verb: string, arg: string)

  predicate Letter(c: char) { IsUpper(c) || IsLower(c) }

  function Upper(s: string): (u: string)
    ensures |u| == |s| && forall i :: 0 <= i < |s| ==> u[i] == ToUpper(s[i])
  {
    seq(|s|, i requires 0 <= i < |s| => ToUpper(s[i]))
  }

  /** How many of the characters from offset i on are letters. */
  function LettersEnd(s: string, i: nat): (k: nat)
    requires i <= |s|
    ensures i <= k <= |s| && (k < |s| ==> !Letter(s[k]))
    ensures forall j :: i <= j < k ==> Letter(s[j])
    decreases |s| - i
  {
    if i == |s| || !Letter(s[i]) then i else LettersEnd(s, i + 1)
  }

  /** The verb and the argument of a line; a NUL ends the line early. */
  function ParseLine(line: string): Input
  {
    var s := CString(line);
    var k := LettersEnd(s, 0);
    if k == |s| then Command(Upper(s), "")
    else if s[k] == ' ' then Command(Upper(s[..k]), s[k + 1..])
    else Malformed
  }

  function NextInput(v: string): Input
  {
    if v == "" then Closed
    else if |LineOf(v)| >= CMD_SIZE then TooLong
    else ParseLine(LineOf(v))
  }

  /** Everything the run loop sees until the connection closes. */
  function Inputs(v: string): seq<Input>
    decreases |v|
  {
    if v == "" then [] else [NextInput(v)] + Inputs(AfterLine(v))
  }

  /** The scanning loop: upper-case the letters and the character behind them in place. */
  method UpperVerb(cmd: array<char>, ghost s: string) returns (p: nat)
    requires |s| < cmd.Length && cmd[..|s|] == s && cmd[|s|] == '\0'
    requires forall i :: 0 <= i < |s| ==> s[i] != '\0'
    modifies cmd
    ensures p == LettersEnd(s, 0) && cmd[..p] == Upper(s[..p])
    ensures cmd[p] == (if p < |s| then ToUpper(s[p]) else '\0')
    ensures forall i :: p < i < |s| ==> cmd[i] == s[i]
    ensures p < |s| ==> cmd[|s|] == '\0'
  {
    ghost var k := LettersEnd(s, 0);
    assert forall i :: 0 <= i < |s| ==> cmd[i] == cmd[..|s|][i];
    p := 0;
    cmd[p] := ToUpper(cmd[p]);
    while 'A' <= cmd[p] && cmd[p] <= 'Z'
      invariant 0 <= p <= k
      invariant forall i :: 0 <= i <= p && i < |s| ==> cmd[i] == ToUpper(s[i])
      invariant forall i :: p < i < |s| ==> cmd[i] == s[i]
      invariant cmd[|s|] == '\0'
      decreases k - p
    {
      assert Letter(s[p]);
      p := p + 1;
      cmd[p] := ToUpper(cmd[p]);
    }
  }

  /** Parse the verb and the argument. */
  method Parse(cmd: array<char>, n: nat) returns (r: Input)
    requires n < cmd.Length && cmd[n] == '\0'
    modifies cmd
    ensures r == ParseLine(old(cmd[..n]))
  {
    ghost var s := CString(cmd[..n]);
    assert cmd[..|s|] == s && cmd[|s|] == '\0';
    var p := UpperVerb(cmd, s);
    if cmd[p] != ' ' && cmd[p] != '\0' { return Malformed; }
    var verb := cmd[..p];
    if cmd[p] == '\0' {
      assert s[..p] == s;
      return Command(verb, "");
    }
    cmd[p] := '\0';
    ArgTail(cmd[p + 1..], s[p + 1..]);
    return Command(verb, CString(cmd[p + 1..]));
  }

  lemma ArgTail(rest: string, arg: string)
    requires |arg| < |rest| && rest[|arg|] == '\0'
    requires forall i :: 0 <= i < |arg| ==> rest[i] == arg[i] != '\0'
    ensures CString(rest) == arg
  {
    IndexOfUnique(rest, '\0', |arg|);
  }

  /** One turn of client_run_loop up to the call of process_command. */
  method ReadCommand(b: Rlb, cmd: array<char>) returns (r: Input)
    requires b.Valid() && cmd.Length == CMD_SIZE && cmd != b.buf
    modifies b, b.buf, b.fd`incoming, cmd
    ensures b.Valid() && b.View() == AfterLine(old(b.View()))
    ensures r == NextInput(old(b.View()))
  {
    ghost var v := b.View();
    var n := b.ReadLine(cmd);
    if n < 0 { return Closed; }
    if n == CMD_SIZE { return TooLong; }
    assert cmd[..n] == LineOf(v);
    r := Parse(cmd, n);
  }

  // ---- Round trip ----

  /** A request as the client writes it, with or without an argument. */
  datatype Request = Request(verb: string, arg: Option<string>)

  function Body(q: Request): string
  {
    if q.arg.Some? then q.verb + " " + q.arg.value else q.verb
  }

  function WriteRequests(qs: seq<Request>): string
  {
    if qs == [] then "" else Body(qs[0]) + "\r\n" + WriteRequests(qs[1..])
  }

  /** No character that ends a line or a string. */
  predicate OneLine(s: string)
  {
    forall i :: 0 <= i < |s| ==> s[i] != '\r' && s[i] != '\n' && s[i] != '\0'
  }

  predicate WellFormed(q: Request)
  {
    (forall i :: 0 <= i < |q.verb| ==> Letter(q.verb[i])) && (q.arg.Some? ==> OneLine(q.arg.value))
  }

  function ArgText(q: Request): string { if q.arg.Some? then q.arg.value else "" }

  /** What the server makes of a request: the upper-cased verb and the untouched argument, or one
      over-long line. */
  function Received(q: Request): Input
  {
    if |Body(q)| >= CMD_SIZE then TooLong else Command(Upper(q.verb), ArgText(q))
  }

  function ReceivedAll(qs: seq<Request>): seq<Input>
  {
    if qs == [] then [] else [Received(qs[0])] + ReceivedAll(qs[1..])
  }

  lemma BodyOneLine(q: Request)
    requires WellFormed(q)
    ensures OneLine(Body(q))
  {
    assert forall i :: 0 <= i < |q.verb| ==> q.verb[i] != '\r' && q.verb[i] != '\n' && q.verb[i] != '\0';
  }

  lemma LettersEndIs(s: string, i: nat, k: nat)
    requires i <= k <= |s| && (k < |s| ==> !Letter(s[k]))
    requires forall j :: i <= j < k ==> Letter(s[j])
    ensures LettersEnd(s, i) == k
  {
  }

  lemma ParseBody(q: Request)
    requires WellFormed(q)
    ensures ParseLine(Body(q)) == Command(Upper(q.verb), ArgText(q))
  {
    var s := Body(q);
    BodyOneLine(q);
    IndexOfUnique(s, '\0', |s|);
    assert CString(s) == s;
    assert forall j :: 0 <= j < |q.verb| ==> s[j] == q.verb[j];
    LettersEndIs(s, 0, |q.verb|);
    assert s[..|q.verb|] == q.verb;
    assert q.arg.Some? ==> s[|q.verb| + 1..] == q.arg.value;
  }

  lemma RequestLine(body: string, rest: string)
    requires OneLine(body)
    ensures StripCR(body + "\r\n" + rest) == body + "\n" + StripCR(rest)
    ensures var v := body + "\n" + StripCR(rest);
            v != "" && LineOf(v) == body && AfterLine(v) == StripCR(rest)
  {
    var r := StripCR(rest);
    StripNone(body);
    StripAppend(body, "\r\n");
    assert "\r\n"[1..] == "\n" && "\n"[1..] == "";
    StripAppend(body + "\r\n", rest);
    var v := body + "\n" + r;
    assert v == body + ['\n'] + r;
    IndexOfPrefix(body, '\n', r);
    assert v[..|body|] == body && v[|body| + 1..] == r;
  }

  /** Whatever requests the client writes and however the network cuts them up, the run loop sees
      exactly those requests, in order; an over-long one is dropped whole. */
  lemma {:induction false} RequestsRoundTrip(qs: seq<Request>)
    requires forall q :: q in qs ==> WellFormed(q)
    ensures Inputs(StripCR(WriteRequests(qs))) == ReceivedAll(qs)
  {
    if qs != [] {
      var q := qs[0];
      BodyOneLine(q);
      RequestLine(Body(q), WriteRequests(qs[1..]));
      ParseBody(q);
      RequestsRoundTrip(qs[1..]);
    }
  }
}
