/** Characters, searches and decimal numbers, as the C library gives them to the program.
    A C string is the sequence of its bytes before the terminating NUL, so "the character is
    NUL" reads here as "the index is the length". */
module Text {

  datatype Option<+T> = None | Some(value: T)

  lemma Assoc(a: string, b: string, c: string)
    ensures a + (b + c) == (a + b) + c
  {
  }

  lemma SplitAt(s: string, i: nat)
    requires i < |s|
    ensures s == s[..i] + [s[i]] + s[i + 1..]
  {
  }

  predicate IsDigit(c: char) { '0' <= c <= '9' }

  /** isspace() in the C locale. */
  predicate IsSpace(c: char) { c == ' ' || '\t' <= c <= '\r' }

  predicate IsUpper(c: char) { 'A' <= c <= 'Z' }

  predicate IsLower(c: char) { 'a' <= c <= 'z' }

  /** toupper() in the C locale. */
  function ToUpper(c: char): (u: char)
    ensures !IsLower(u)
    ensures u == '\0' <==> c == '\0'
    ensures u == ' ' <==> c == ' '
  {
    if IsLower(c) then (c as int - 32) as char else c
  }

  function IndexFrom(s: string, c: char, from: nat): (i: nat)
    requires from <= |s|
    ensures from <= i <= |s| && (i < |s| ==> s[i] == c)
    ensures forall j :: from <= j < i ==> s[j] != c
    decreases |s| - from
  {
    if from == |s| || s[from] == c then from else IndexFrom(s, c, from + 1)
  }

  /** Index of the first occurrence (strchr), or the length. */
  function IndexOf(s: string, c: char): (i: nat)
    ensures i <= |s| && (i < |s| ==> s[i] == c)
    ensures forall j :: 0 <= j < i ==> s[j] != c
  {
    IndexFrom(s, c, 0)
  }

  /** The first occurrence is the only one with nothing before it. */
  lemma IndexOfUnique(s: string, c: char, i: nat)
    requires i <= |s| && (i < |s| ==> s[i] == c)
    requires forall j :: 0 <= j < i ==> s[j] != c
    ensures IndexOf(s, c) == i
  {
  }

  /** A buffer read as a C string. */
  function CString(s: string): string { s[..IndexOf(s, '\0')] }

  lemma IndexOfPrefix(a: string, c: char, b: string)
    requires c !in a
    ensures IndexOf(a + [c] + b, c) == |a|
  {
    var s := a + [c] + b;
    assert forall j :: 0 <= j < |a| ==> s[j] == a[j] && a[j] in a;
    IndexOfUnique(s, c, |a|);
  }

  /** Index of the last occurrence (strrchr). */
  function LastIndexOf(s: string, c: char): (r: Option<nat>)
    ensures r.None? <==> c !in s
    ensures r.Some? ==> r.value < |s| && s[r.value] == c && c !in s[r.value + 1..]
  {
    if s == "" then None
    else
      var n := |s| - 1;
      assert s == s[..n] + [s[n]];
      if s[n] == c then Some(n)
      else
        var r := LastIndexOf(s[..n], c);
        if r.Some? then
          assert s[r.value + 1..] == s[..n][r.value + 1..] + [s[n]];
          r
        else r
  }

  lemma LastIndexOfUnique(s: string, c: char, i: nat)
    requires i < |s| && s[i] == c && c !in s[i + 1..]
    ensures LastIndexOf(s, c) == Some(i)
  {
    var k := LastIndexOf(s, c).value;
    assert forall j :: i < j < |s| ==> s[j] == s[i + 1..][j - i - 1] != c;
    assert forall j :: k < j < |s| ==> s[j] == s[k + 1..][j - k - 1] != c;
  }

  function Digit(n: nat): (c: char)
    requires n < 10
    ensures IsDigit(c) && c as int - '0' as int == n
  {
    ('0' as int + n) as char
  }

  /** What %d and %u print for a non-negative number. */
  function Decimal(n: nat): (s: string)
    ensures s != "" && forall i :: 0 <= i < |s| ==> IsDigit(s[i])
  {
    if n < 10 then [Digit(n)] else Decimal(n / 10) + [Digit(n % 10)]
  }

  predicate AllDigits(s: string) { forall i :: 0 <= i < |s| ==> IsDigit(s[i]) }

  function Value(s: string): nat
    requires AllDigits(s)
  {
    if s == "" then 0 else 10 * Value(s[..|s| - 1]) + (s[|s| - 1] as int - '0' as int)
  }

  lemma {:induction false} ValueOfDecimal(n: nat)
    ensures Value(Decimal(n)) == n
  {
    if n >= 10 {
      ValueOfDecimal(n / 10);
      assert Decimal(n)[..|Decimal(n)| - 1] == Decimal(n / 10);
    } else {
      assert Decimal(n)[..0] == "";
    }
  }

  /** Different numbers print differently. */
  lemma DecimalInjective(m: nat, n: nat)
    requires Decimal(m) == Decimal(n)
    ensures m == n
  {
    ValueOfDecimal(m);
    ValueOfDecimal(n);
  }

  function Pow10(k: nat): (p: nat)
    ensures p > 0
  {
    if k == 0 then 1 else 10 * Pow10(k - 1)
  }

  /** A number below 10^k takes at most k digits. */
  lemma {:induction false} DecimalLength(n: nat, k: nat)
    requires k > 0 && n < Pow10(k)
    ensures |Decimal(n)| <= k
  {
    if n >= 10 {
      assert Pow10(k) == 10 * Pow10(k - 1);
      DecimalLength(n / 10, k - 1);
    }
  }

  /** Where the run of digits that starts at i ends. */
  function DigitsEnd(s: string, i: nat): (k: nat)
    requires i <= |s|
    ensures i <= k <= |s| && (forall j :: i <= j < k ==> IsDigit(s[j]))
    ensures k < |s| ==> !IsDigit(s[k])
    decreases |s| - i
  {
    if i == |s| || !IsDigit(s[i]) then i else DigitsEnd(s, i + 1)
  }

  /** Where the run of white space that starts at i ends. */
  function SpacesEnd(s: string, i: nat): (k: nat)
    requires i <= |s|
    ensures i <= k <= |s| && (k < |s| ==> !IsSpace(s[k]))
    decreases |s| - i
  {
    if i == |s| || !IsSpace(s[i]) then i else SpacesEnd(s, i + 1)
  }

  /** The sign and magnitude that a %u or %zd conversion reads at the start of s, with what
      follows. None when there is no number. */
  function ScanInt(s: string): (r: Option<(int, string)>)
  {
    var i := SpacesEnd(s, 0);
    var signed := i < |s| && (s[i] == '-' || s[i] == '+');
    var from := if signed then i + 1 else i;
    var k := DigitsEnd(s, from);
    if k == from then None
    else Some((if signed && s[i] == '-' then -(Value(s[from..k]) as int) else Value(s[from..k]), s[k..]))
  }

  /** Scanning a printed number gives the number and stops right behind it. */
  lemma ScanDecimal(n: nat, rest: string)
    requires rest == "" || !IsDigit(rest[0])
    ensures ScanInt(Decimal(n) + rest) == Some((n, rest))
  {
    var d := Decimal(n);
    var s := d + rest;
    assert forall j :: 0 <= j < |d| ==> IsDigit(s[j]) && s[j] == d[j];
    assert SpacesEnd(s, 0) == 0;
    assert DigitsEnd(s, 0) == |d| by { assert |d| < |s| ==> s[|d|] == rest[0]; }
    assert s[0..|d|] == d && s[|d|..] == rest;
    ValueOfDecimal(n);
  }
}
