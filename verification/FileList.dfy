/** The client's file list (client/model_filelist.c): the search for a name that is not taken. */
module FileList {
  import opened Text

  const INT_MAX := 0x7fff_ffff

  datatype FileRec = FileRec(isDir: int, name: string, size: int, date: string)

  function Names(files: seq<FileRec>): seq<string>
  {
    seq(|files|, i requires 0 <= i < |files| => files[i].name)
  }

  /** The part of a local path behind its last '/'. */
  function BaseName(path: string): string
  {
    match LastIndexOf(path, '/')
    case None => path
    case Some(i) => path[i + 1..]
  }

  /** Where the extension starts: at the last '.', or at the end. */
  function DotAt(f: string): (k: nat)
    ensures k <= |f|
  {
    match LastIndexOf(f, '.')
    case None => |f|
    case Some(i) => i
  }

  /** The i-th alternative: base, underscore, number, extension. */
  function Alternative(f: string, i: nat): string
  {
    f[..DotAt(f)] + "_" + Decimal(i) + f[DotAt(f)..]
  }

  /** The first k alternatives are all in use. */
  predicate AllTaken(f: string, names: seq<string>, k: nat)
  {
    forall j :: 1 <= j <= k ==> Alternative(f, j) in names
  }

  function NewFolder(i: nat): string { "new_folder_" + Decimal(i) }

  // ---- Pigeonhole ----

  function Elements(names: seq<string>): set<string> { set x | x in names }

  lemma {:induction false} ElementsCard(names: seq<string>)
    ensures |Elements(names)| <= |names|
  {
    if names == [] {
      assert Elements(names) == {};
    } else {
      ElementsCard(names[1..]);
      assert Elements(names) == {names[0]} + Elements(names[1..]);
    }
  }

  function Image(g: nat -> string, k: nat): set<string>
  {
    if k == 0 then {} else Image(g, k - 1) + {g(k - 1)}
  }

  lemma {:induction false} ImageMember(g: nat -> string, k: nat, x: string) returns (i: nat)
    requires x in Image(g, k)
    ensures i < k && g(i) == x
  {
    if x == g(k - 1) {
      i := k - 1;
    } else {
      i := ImageMember(g, k - 1, x);
    }
  }

  lemma {:induction false} ImageCard(g: nat -> string, k: nat)
    requires forall i: nat, j: nat :: i < j < k ==> g(i) != g(j)
    ensures |Image(g, k)| == k
  {
    if k > 0 {
      ImageCard(g, k - 1);
      if g(k - 1) in Image(g, k - 1) {
        var i := ImageMember(g, k - 1, g(k - 1));
        assert false;
      }
    }
  }

  lemma {:induction false} SubsetCard(a: set<string>, b: set<string>)
    requires a <= b
    ensures |a| <= |b|
    decreases a
  {
    if a != {} {
      var x :| x in a;
      SubsetCard(a - {x}, b - {x});
    }
  }

  /** k different names that are all in the list need a list of k entries. */
  lemma Pigeonhole(g: nat -> string, k: nat, names: seq<string>)
    requires forall i: nat, j: nat :: i < j < k ==> g(i) != g(j)
    requires forall i: nat :: i < k ==> g(i) in names
    ensures k <= |names|
  {
    ImageCard(g, k);
    forall x | x in Image(g, k) ensures x in Elements(names) {
      var i := ImageMember(g, k, x);
    }
    SubsetCard(Image(g, k), Elements(names));
    ElementsCard(names);
  }

  lemma AlternativesDiffer(f: string, i: nat, j: nat)
    requires i != j
    ensures Alternative(f, i) != Alternative(f, j) && Alternative(f, i) != f
  {
    var k := DotAt(f);
    var a, b := Alternative(f, i), Alternative(f, j);
    assert |a| == |f| + 1 + |Decimal(i)|;
    if a == b {
      assert a[k + 1..k + 1 + |Decimal(i)|] == Decimal(i);
      assert b[k + 1..k + 1 + |Decimal(j)|] == Decimal(j);
      DecimalInjective(i, j);
    }
  }

  lemma FoldersDiffer(i: nat, j: nat)
    requires i != j
    ensures NewFolder(i) != NewFolder(j)
  {
    if NewFolder(i) == NewFolder(j) {
      assert NewFolder(i)[11..] == Decimal(i) && NewFolder(j)[11..] == Decimal(j);
      DecimalInjective(i, j);
    }
  }

  /** A taken name f leaves an alternative free among any |names| of them. */
  lemma AlternativeBound(f: string, names: seq<string>, k: nat)
    requires f in names && AllTaken(f, names, k)
    ensures k < |names|
  {
    var g := (n: nat) => if n == 0 then f else Alternative(f, n);
    forall i: nat, j: nat | i < j < k + 1 ensures g(i) != g(j) {
      AlternativesDiffer(f, j, i);
    }
    Pigeonhole(g, k + 1, names);
  }

  lemma FolderBound(names: seq<string>, k: nat)
    requires forall i :: 1 <= i <= k ==> NewFolder(i) in names
    ensures k <= |names|
  {
    var g := (n: nat) => NewFolder(n + 1);
    forall i: nat, j: nat | i < j < k ensures g(i) != g(j) {
      FoldersDiffer(i + 1, j + 1);
    }
    Pigeonhole(g, k, names);
  }

  /** The suffixes below 10^8 have at most eight digits, so an alternative fits its buffer. */
  lemma AlternativeFits(f: string, i: nat)
    requires i < 100_000_000
    ensures |Alternative(f, i)| + 1 <= |f| + 10
  {
    PowersOfTen();
    DecimalLength(i, 8);
  }

  lemma PowersOfTen()
    ensures Pow10(8) == 100_000_000 && Pow10(10) == 10_000_000_000
  {
    assert Pow10(2) == 10 * (10 * Pow10(0));
    assert Pow10(4) == 10 * (10 * Pow10(2));
    assert Pow10(6) == 10 * (10 * Pow10(4));
    assert Pow10(8) == 10 * (10 * Pow10(6));
    assert Pow10(10) == 10 * (10 * Pow10(8));
  }

  // ---- The searches ----

  /** The statics of the file list. */
  class Model {
    var files: seq<FileRec>

    constructor (recs: seq<FileRec>)
      ensures files == recs
    {
      files := recs;
    }

    /** file_exists */
    method FileExists(name: string) returns (found: bool)
      ensures found <==> name in Names(files)
    {
      for i := 0 to |files|
        invariant forall j :: 0 <= j < i ==> Names(files)[j] != name
      {
        if files[i].name == name {
          assert Names(files)[i] == name;
          return true;
        }
      }
      return false;
    }

    /** file_list_get_upload_name. The buffer of strlen(f) + 10 bytes holds every candidate as long
        as the list has fewer than 10^8 entries. */
    method GetUploadName(localPath: string) returns (r: string)
      requires |files| < 100_000_000
      ensures r !in Names(files)
      ensures var f := BaseName(localPath);
        if f !in Names(files) then r == f
        else exists i :: 1 <= i <= |files| && r == Alternative(f, i) && AllTaken(f, Names(files), i - 1)
    {
      var f := BaseName(localPath);
      var taken := FileExists(f);
      if !taken { return f; }

      var out := new char[|f| + 10];
      var baseLen := DotAt(f);
      forall k | 0 <= k < baseLen { out[k] := f[k]; }
      assert out[..baseLen] == f[..baseLen];
      var i := 1;
      while true
        invariant 1 <= i && out[..baseLen] == f[..baseLen]
        invariant AllTaken(f, Names(files), i - 1)
        decreases |files| - i
      {
        AlternativeBound(f, Names(files), i - 1);
        var len := PrintAlternative(out, f, i);
        taken := FileExists(out[..len]);
        if !taken { return out[..len]; }
        i := i + 1;
      }
    }

    /** The new-folder search of modelSetCellValue, with its buffer of 32 bytes. */
    method NewFolderName() returns (r: string)
      requires |files| < INT_MAX
      ensures exists i :: 1 <= i <= |files| + 1 && r == NewFolder(i)
                          && forall j :: 1 <= j < i ==> NewFolder(j) in Names(files)
      ensures r !in Names(files)
    {
      var s := new char[32];
      var i := 1;
      while true
        invariant 1 <= i
        invariant forall j :: 1 <= j < i ==> NewFolder(j) in Names(files)
        decreases |files| + 1 - i
      {
        FolderBound(Names(files), i - 1);
        PowersOfTen();
        DecimalLength(i, 10);
        var len := Print(s, 0, NewFolder(i));
        assert s[..0] + NewFolder(i) == NewFolder(i);
        var taken := FileExists(s[..len]);
        if !taken { return s[..len]; }
        i := i + 1;
      }
    }
  }

  /** Print the suffix and the extension behind the base that is already there. */
  method PrintAlternative(out: array<char>, f: string, i: nat) returns (len: nat)
    requires i < 100_000_000 && out.Length == |f| + 10 && out[..DotAt(f)] == f[..DotAt(f)]
    modifies out
    ensures len < out.Length && out[..len] == Alternative(f, i) && out[len] == '\0'
    ensures out[..DotAt(f)] == f[..DotAt(f)]
  {
    AlternativeFits(f, i);
    len := Print(out, DotAt(f), "_" + Decimal(i) + f[DotAt(f)..]);
    Assoc(f[..DotAt(f)], "_" + Decimal(i), f[DotAt(f)..]);
    Assoc(f[..DotAt(f)], "_", Decimal(i));
  }

  /** sprintf of text into out at an offset; the result is where the NUL is. */
  method Print(out: array<char>, at: nat, text: string) returns (len: nat)
    requires at + |text| + 1 <= out.Length
    modifies out
    ensures len == at + |text| && out[..len] == old(out[..at]) + text && out[len] == '\0'
    ensures out[..at] == old(out[..at])
  {
    len := at + |text|;
    forall k | 0 <= k < |text| { out[at + k] := text[k]; }
    out[len] := '\0';
  }
}
