/** Path normalisation (server/path_utils.c): the in-place normaliser path_cat, the component
    stack it computes with, and the laws that make it safe to feed its results to the store. */
module Path {
  import opened Text

  // ---- The meaning: a stack of components ----

  predicate AllowedChar(c: char) {
    '0' <= c <= '9' || 'A' <= c <= 'Z' || 'a' <= c <= 'z' || c == '-' || c == '.' || c == '_'
  }

  /** Every character of an argument is allowed or a separator. */
  predicate ValidText(s: string) { forall i :: 0 <= i < |s| ==> s[i] == '/' || AllowedChar(s[i]) }

  predicate Rooted(p: string) { p != "" && p[0] == '/' }

  /** Split at every '/'; n separators give n + 1 items, some perhaps empty. */
  function Items(s: string): (r: seq<string>)
    ensures r != []
    decreases |s|
  {
    var i := IndexOf(s, '/');
    if i == |s| then [s] else [s[..i]] + Items(s[i + 1..])
  }

  /** Text without a separator. */
  predicate Plain(x: string) { forall i :: 0 <= i < |x| ==> x[i] != '/' }

  function Joined(cs: seq<string>): string
  {
    if cs == [] then "" else "/" + cs[0] + Joined(cs[1..])
  }

  /** The text of a component stack; the empty stack is the root directory. */
  function Render(cs: seq<string>): string { if cs == [] then "/" else Joined(cs) }

  /** The stack a rooted path stands for. */
  function Stack(p: string): seq<string>
    requires Rooted(p)
  {
    if p == "/" then [] else Items(p[1..])
  }

  function Pop(cs: seq<string>): seq<string>
  {
    if cs == [] then []
    else
      var up := cs[..|cs| - 1];
      if up == [""] then [] else up
  }

  /** One item of an argument: "" and "." stay, ".." goes up, anything else goes down. */
  function Visit(cs: seq<string>, item: string): seq<string>
  {
    if item == "" || item == "." then cs
    else if item == ".." then Pop(cs)
    else cs + [item]
  }

  function Walk(cs: seq<string>, items: seq<string>): seq<string>
    decreases |items|
  {
    if items == [] then cs else Walk(Visit(cs, items[0]), items[1..])
  }

  function Base(wd: string, rel: string): seq<string>
    requires Rooted(wd)
  {
    if rel == "" || rel[0] == '/' then [] else Stack(wd)
  }

  /** What path_cat means. */
  function Cat(wd: string, rel: string): Option<string>
  {
    if !Rooted(wd) || !ValidText(rel) then None
    else Some(Render(Walk(Base(wd, rel), Items(rel))))
  }

  /** Stacks that are the stack of some rooted path. */
  predicate Canonical(cs: seq<string>)
  {
    cs != [""] && forall x :: x in cs ==> Plain(x)
  }

  /** A file or directory name that is neither empty nor "." nor "..". */
  predicate Ordinary(x: string)
  {
    x != "" && x != "." && x != ".." && forall i :: 0 <= i < |x| ==> AllowedChar(x[i])
  }

  predicate NormalStack(cs: seq<string>) { forall x :: x in cs ==> Ordinary(x) }

  /** A normalised absolute path: ordinary components only, no trailing slash except root. */
  predicate Normal(p: string) { Rooted(p) && NormalStack(Stack(p)) }

  // ---- Splitting and rendering are inverse ----

  lemma {:induction false} JoinedAppend(cs: seq<string>, ds: seq<string>)
    ensures Joined(cs + ds) == Joined(cs) + Joined(ds)
  {
    if cs == [] {
      assert cs + ds == ds;
    } else {
      JoinedAppend(cs[1..], ds);
      assert (cs + ds)[1..] == cs[1..] + ds;
      var h, t := "/" + cs[0], Joined(cs[1..]);
      assert h + (t + Joined(ds)) == (h + t) + Joined(ds);
    }
  }

  lemma JoinedOne(x: string)
    ensures Joined([x]) == "/" + x
  {
    assert [x][1..] == [];
  }

  lemma {:induction false} JoinedItems(s: string)
    ensures Joined(Items(s)) == "/" + s
    decreases |s|
  {
    var i := IndexOf(s, '/');
    if i == |s| {
      JoinedOne(s);
    } else {
      JoinedItems(s[i + 1..]);
      assert ([s[..i]] + Items(s[i + 1..]))[1..] == Items(s[i + 1..]);
      assert s == s[..i] + "/" + s[i + 1..];
    }
  }

  lemma {:induction false} ItemsAppend(a: string, b: string)
    ensures Items(a + "/" + b) == Items(a) + Items(b)
    decreases |a|
  {
    var s := a + "/" + b;
    var i := IndexOf(a, '/');
    if i == |a| {
      assert s == a + ['/'] + b;
      IndexOfPrefix(a, '/', b);
      assert s[..|a|] == a && s[|a| + 1..] == b;
    } else {
      assert s == a[..i] + ['/'] + (a[i + 1..] + "/" + b);
      IndexOfPrefix(a[..i], '/', a[i + 1..] + "/" + b);
      assert s[..i] == a[..i] && s[i + 1..] == a[i + 1..] + "/" + b;
      ItemsAppend(a[i + 1..], b);
    }
  }

  lemma {:induction false} ItemsPlain(s: string)
    ensures forall x :: x in Items(s) ==> Plain(x)
    decreases |s|
  {
    var i := IndexOf(s, '/');
    if i < |s| {
      ItemsPlain(s[i + 1..]);
    }
  }

  lemma ItemsOne(x: string)
    requires Plain(x)
    ensures Items(x) == [x]
  {
  }

  lemma JoinedRooted(cs: seq<string>)
    requires cs != []
    ensures Rooted(Joined(cs)) && Joined(cs)[1..] == cs[0] + Joined(cs[1..])
  {
    assert Joined(cs) == "/" + (cs[0] + Joined(cs[1..]));
  }

  lemma ItemsCons(x: string, t: string)
    requires Plain(x)
    ensures Items(x + ("/" + t)) == [x] + Items(t)
  {
    Assoc(x, "/", t);
    ItemsOne(x);
    ItemsAppend(x, t);
  }

  lemma {:induction false} ItemsJoined(cs: seq<string>)
    requires cs != [] && forall x :: x in cs ==> Plain(x)
    ensures Rooted(Joined(cs)) && Items(Joined(cs)[1..]) == cs
  {
    JoinedRooted(cs);
    var x, rest := cs[0], cs[1..];
    if rest == [] {
      ItemsOne(x);
      assert x + Joined(rest) == x;
    } else {
      ItemsJoined(rest);
      JoinedRooted(rest);
      assert Joined(rest) == "/" + Joined(rest)[1..];
      ItemsCons(x, Joined(rest)[1..]);
      assert [x] + rest == cs;
    }
  }

  lemma StackCanonical(p: string)
    requires Rooted(p)
    ensures Canonical(Stack(p)) && Render(Stack(p)) == p
  {
    ItemsPlain(p[1..]);
    JoinedItems(p[1..]);
    assert p == "/" + p[1..];
    JoinedOne("");
    assert "/" + "" == "/";
  }

  lemma StackRender(cs: seq<string>)
    requires Canonical(cs)
    ensures Rooted(Render(cs)) && Stack(Render(cs)) == cs
  {
    if cs != [] {
      ItemsJoined(cs);
      ItemsOne("");
      assert "/"[1..] == "";
    }
  }

  // ---- Walks ----

  lemma {:induction false} WalkAppend(cs: seq<string>, xs: seq<string>, ys: seq<string>)
    ensures Walk(cs, xs + ys) == Walk(Walk(cs, xs), ys)
    decreases |xs|
  {
    if xs == [] {
      assert xs + ys == ys;
    } else {
      WalkAppend(Visit(cs, xs[0]), xs[1..], ys);
      assert (xs + ys)[1..] == xs[1..] + ys;
    }
  }

  lemma VisitCanonical(cs: seq<string>, item: string)
    requires Canonical(cs) && Plain(item)
    ensures Canonical(Visit(cs, item))
  {
    if cs != [] {
      assert cs == cs[..|cs| - 1] + [cs[|cs| - 1]];
    }
    assert cs != [] ==> |cs + [item]| != |[""]|;
    assert [] + [item] == [item] && [item][0] == item;
  }

  lemma {:induction false} WalkCanonical(cs: seq<string>, items: seq<string>)
    requires Canonical(cs) && forall x :: x in items ==> Plain(x)
    ensures Canonical(Walk(cs, items))
    decreases |items|
  {
    if items != [] {
      VisitCanonical(cs, items[0]);
      WalkCanonical(Visit(cs, items[0]), items[1..]);
    }
  }

  lemma {:induction false} WalkNormal(cs: seq<string>, items: seq<string>)
    requires NormalStack(cs)
    requires forall x :: x in items ==> forall i :: 0 <= i < |x| ==> AllowedChar(x[i])
    ensures NormalStack(Walk(cs, items))
    decreases |items|
  {
    if items != [] {
      WalkNormal(Visit(cs, items[0]), items[1..]);
    }
  }

  /** Ordinary items are simply pushed. */
  lemma {:induction false} WalkOrdinary(cs: seq<string>, items: seq<string>)
    requires NormalStack(items)
    ensures Walk(cs, items) == cs + items
    decreases |items|
  {
    if items == [] {
      assert cs + items == cs;
    } else {
      assert Ordinary(items[0]) && Visit(cs, items[0]) == cs + [items[0]];
      WalkOrdinary(cs + [items[0]], items[1..]);
      assert cs + [items[0]] + items[1..] == cs + items;
    }
  }

  lemma {:induction false} ItemsValid(s: string)
    requires ValidText(s)
    ensures forall x :: x in Items(s) ==> forall i :: 0 <= i < |x| ==> AllowedChar(x[i])
    decreases |s|
  {
    var k := IndexOf(s, '/');
    assert forall i :: 0 <= i < k ==> s[i] == s[..k][i] != '/';
    if k < |s| {
      ItemsValid(s[k + 1..]);
    }
  }

  lemma NormalCanonical(cs: seq<string>)
    requires NormalStack(cs)
    ensures Canonical(cs)
  {
    forall x | x in cs ensures Plain(x) {
      assert forall i :: 0 <= i < |x| ==> AllowedChar(x[i]);
    }
    assert !Ordinary("");
    assert forall i :: 0 <= i < |cs| ==> Ordinary(cs[i]);
  }

  lemma NormalIsRender(cs: seq<string>)
    requires NormalStack(cs)
    ensures Canonical(cs) && Normal(Render(cs)) && Stack(Render(cs)) == cs
  {
    NormalCanonical(cs);
    StackRender(cs);
  }

  // ---- The laws ----

  /** A result is always a rooted path; its stack is the walk. */
  lemma CatStack(wd: string, rel: string)
    requires Cat(wd, rel).Some?
    ensures Rooted(Cat(wd, rel).value)
    ensures Stack(Cat(wd, rel).value) == Walk(Base(wd, rel), Items(rel))
  {
    StackCanonical(wd);
    ItemsPlain(rel);
    WalkCanonical(Base(wd, rel), Items(rel));
    StackRender(Walk(Base(wd, rel), Items(rel)));
  }

  /** Results are normalised, whatever the argument: no ".." survives, so a result never leaves
      the root directory. */
  lemma CatNormal(wd: string, rel: string)
    requires Cat(wd, rel).Some?
    requires Normal(wd) || rel == "" || rel[0] == '/'
    ensures Normal(Cat(wd, rel).value)
  {
    CatStack(wd, rel);
    ItemsValid(rel);
    WalkNormal(Base(wd, rel), Items(rel));
  }

  /** Going by a and then by b is going by a/b. */
  lemma CatCompose(wd: string, a: string, b: string)
    requires a != "" && b != "" && b[0] != '/'
    requires Cat(wd, a).Some?
    ensures Cat(Cat(wd, a).value, b) == Cat(wd, a + "/" + b)
  {
    CatStack(wd, a);
    var s := a + "/" + b;
    assert forall i :: 0 <= i < |b| ==> s[|a| + 1 + i] == b[i];
    if ValidText(b) {
      assert ValidText(s);
      ItemsAppend(a, b);
      WalkAppend(Base(wd, a), Items(a), Items(b));
    } else {
      assert !ValidText(s);
    }
  }

  lemma CatDown(wd: string, name: string)
    requires Rooted(wd) && Ordinary(name)
    ensures Cat(wd, name) == Some(Render(Stack(wd) + [name]))
  {
    NormalCanonical([name]);
    ItemsOne(name);
    WalkOne(Stack(wd), name);
  }

  lemma CatDotDot(wd: string)
    requires Rooted(wd)
    ensures Cat(wd, "..") == Some(Render(Pop(Stack(wd))))
  {
    ItemsOne("..");
    WalkOne(Stack(wd), "..");
    assert ValidText("..");
  }

  /** Entering an ordinary name and going up again changes nothing. */
  lemma CatUp(wd: string, name: string)
    requires Rooted(wd) && Ordinary(name)
    ensures Cat(wd, name).Some? && Cat(Cat(wd, name).value, "..") == Some(wd)
  {
    var cs := Stack(wd);
    StackCanonical(wd);
    CatDown(wd, name);
    NormalCanonical([name]);
    VisitCanonical(cs, name);
    StackRender(cs + [name]);
    CatDotDot(Render(cs + [name]));
    assert (cs + [name])[..|cs|] == cs;
  }

  lemma WalkOne(cs: seq<string>, x: string)
    ensures Walk(cs, [x]) == Visit(cs, x)
  {
    assert [x][1..] == [];
  }

  /** A normalised path is where it says it is. */
  lemma CatSelf(wd: string, p: string)
    requires Rooted(wd) && Normal(p)
    ensures Cat(wd, p) == Some(p)
  {
    var cs := Stack(p);
    StackCanonical(p);
    assert p == "/" + p[1..] == "" + "/" + p[1..];
    ItemsAppend("", p[1..]);
    ItemsOne("");
    NormalText(cs);
    WalkAppend([], [""], Items(p[1..]));
    WalkOne([], "");
    if p == "/" {
      WalkOne([], "");
    } else {
      WalkOrdinary([], cs);
      assert [] + cs == cs;
    }
  }

  lemma {:induction false} NormalText(cs: seq<string>)
    requires NormalStack(cs)
    ensures ValidText(Joined(cs)) && ValidText(Render(cs))
  {
    if cs != [] {
      NormalText(cs[1..]);
      var x, t := cs[0], Joined(cs[1..]);
      assert Ordinary(x);
      assert ValidText("/" + x + t);
    }
  }

  // ---- The in-place algorithm ----

  /** Popping truncates the text at its last component. */
  lemma RenderPop(cs: seq<string>)
    requires Canonical(cs) && cs != []
    ensures var up := Joined(cs[..|cs| - 1]);
            Render(cs) == up + "/" + cs[|cs| - 1]
            && Render(Pop(cs)) == (if |up| + 1 > 1 then up else "/")
  {
    var init, last := cs[..|cs| - 1], cs[|cs| - 1];
    assert cs == init + [last];
    JoinedAppend(init, [last]);
    JoinedOne(last);
    assert init == [""] ==> Joined(init) == "/" by { JoinedOne(""); assert "/" + "" == "/"; }
  }

  lemma RenderPush(cs: seq<string>, item: string)
    requires Canonical(cs)
    ensures Render(cs + [item]) == (if |Render(cs)| > 1 then Render(cs) + "/" + item else "/" + item)
    ensures |Render(cs)| > 1 <==> cs != []
  {
    JoinedAppend(cs, [item]);
    JoinedOne(item);
    if cs != [] {
      StackRender(cs);
      assert Joined(cs)[0] == '/';
      assert |Joined(cs)| == 1 ==> Joined(cs) == "/";
    }
  }

  /** What the outer loop of path_cat knows when its pointers are at offsets c and d. */
  ghost predicate Progress(wd: string, rel: string, c: nat, d: nat, cs: seq<string>)
    requires Rooted(wd)
  {
    && d <= |rel| && c <= |rel| + 1 && Canonical(cs)
    && (forall i :: 0 <= i < c && i < |rel| ==> rel[i] == '/' || AllowedChar(rel[i]))
    && var target := Walk(Base(wd, rel), Items(rel));
       if d < |rel| then c <= |rel| && Walk(cs, Items(rel[c..])) == target
       else cs == target && ValidText(rel)
  }

  lemma ProgressStart(wd: string, rel: string)
    requires Rooted(wd)
    ensures Progress(wd, rel, 0, 0, Base(wd, rel))
  {
    StackCanonical(wd);
    if rel == "" {
      ItemsOne("");
      WalkOne(Base(wd, rel), "");
    } else {
      assert rel[0..] == rel;
    }
  }

  lemma ProgressStep(wd: string, rel: string, c: nat, d0: nat, d: nat, cs: seq<string>)
    requires Rooted(wd) && d0 < |rel| && Progress(wd, rel, c, d0, cs) && IsItem(rel, c, d)
    ensures Plain(rel[c..d]) && Progress(wd, rel, d + 1, d, Visit(cs, rel[c..d]))
  {
    WalkItem(cs, rel, c, d);
  }

  lemma ProgressEnd(wd: string, rel: string, c: nat, cs: seq<string>)
    requires Rooted(wd) && Progress(wd, rel, c, |rel|, cs)
    ensures Cat(wd, rel) == Some(Render(cs))
  {
  }

  /** rel[c..d] is a maximal run of allowed characters. */
  predicate IsItem(rel: string, c: nat, d: nat)
  {
    && c <= d <= |rel| && (d < |rel| ==> rel[d] == '/')
    && forall i :: c <= i < d ==> rel[i] != '/' && AllowedChar(rel[i])
  }

  /** path_cat: the buffer of strlen(wd) + strlen(rel) + 2 bytes is edited in place; c and d are
      the offsets of the source's two pointers into rel. */
  method PathCat(wd: string, rel: string) returns (r: Option<string>)
    ensures r == Cat(wd, rel)
    ensures r.None? <==>
      wd == "" || wd[0] != '/' || exists i :: 0 <= i < |rel| && rel[i] != '/' && !AllowedChar(rel[i])
  {
    if wd == "" || wd[0] != '/' { return None; }
    var buf := new char[|wd| + |rel| + 2];
    var len := CopyBase(buf, wd, rel);
    ghost var cs := Base(wd, rel);
    ProgressStart(wd, rel);

    var c: nat, d: nat := 0, 0;
    while d < |rel|
      invariant true == Progress(wd, rel, c, d, cs)
      invariant 1 <= len <= |wd| + c
      invariant buf[..len] == Render(cs)
      decreases |rel| + 1 - c
    {
      ghost var d0 := d;
      var ok: bool;
      d, ok := FindItem(rel, c);
      if !ok { return None; }
      len, c, cs := Advance(buf, len, wd, rel, c, d0, d, cs);
    }

    ProgressEnd(wd, rel, c, cs);
    buf[len] := '\0';
    return Some(buf[..len]);
  }

  /** Process the item and step both pointers past it. */
  method Advance(buf: array<char>, len0: nat, wd: string, rel: string, c0: nat, ghost d0: nat, d: nat,
                 ghost cs0: seq<string>)
    returns (len: nat, c: nat, ghost cs: seq<string>)
    requires Rooted(wd) && d0 < |rel| && Progress(wd, rel, c0, d0, cs0) && IsItem(rel, c0, d)
    requires buf.Length == |wd| + |rel| + 2
    requires 1 <= len0 <= |wd| + c0 && buf[..len0] == Render(cs0)
    modifies buf
    ensures true == Progress(wd, rel, c, d, cs)
    ensures c == d + 1 && 1 <= len <= |wd| + c <= buf.Length && buf[..len] == Render(cs)
  {
    ProgressStep(wd, rel, c0, d0, d, cs0);
    len := Process(buf, len0, rel, c0, d, cs0);
    c, cs := d + 1, Visit(cs0, rel[c0..d]);
  }

  /** strcpy of the starting directory. */
  method CopyBase(buf: array<char>, wd: string, rel: string) returns (len: nat)
    requires Rooted(wd) && |wd| < buf.Length
    modifies buf
    ensures 1 <= len <= |wd| && buf[..len] == Render(Base(wd, rel))
  {
    StackCanonical(wd);
    var init := if rel == "" || rel[0] == '/' then "/" else wd;
    len := |init|;
    forall i | 0 <= i < len { buf[i] := init[i]; }
    assert buf[..len] == init;
  }

  /** Find the current item: it ends at d, and is not ok at a character outside the allowed set. */
  method FindItem(rel: string, c: nat) returns (d: nat, ok: bool)
    requires c <= |rel|
    ensures ok ==> IsItem(rel, c, d)
    ensures !ok ==> !ValidText(rel)
  {
    d, ok := c, true;
    while d < |rel| && rel[d] != '/'
      invariant c <= d <= |rel|
      invariant forall i :: c <= i < d ==> AllowedChar(rel[i]) && rel[i] != '/'
    {
      if !AllowedChar(rel[d]) { ok := false; return; }
      d := d + 1;
    }
  }

  /** Visiting the next item leaves the rest of the walk. */
  lemma WalkItem(cs: seq<string>, rel: string, c: nat, d: nat)
    requires c <= d <= |rel| && (d < |rel| ==> rel[d] == '/')
    requires (forall i :: c <= i < d ==> rel[i] != '/') && Canonical(cs)
    ensures Plain(rel[c..d]) && Canonical(Visit(cs, rel[c..d]))
    ensures Walk(cs, Items(rel[c..])) ==
      (if d < |rel| then Walk(Visit(cs, rel[c..d]), Items(rel[d + 1..])) else Visit(cs, rel[c..d]))
  {
    NextItem(rel, c, d);
    WalkOne(cs, rel[c..d]);
    if d < |rel| {
      WalkAppend(cs, [rel[c..d]], Items(rel[d + 1..]));
    } else {
      assert [rel[c..d]] + [] == [rel[c..d]];
    }
    VisitCanonical(cs, rel[c..d]);
  }

  /** One item of the argument, rel[c..d], worked into the buffer. */
  method Process(buf: array<char>, len0: nat, rel: string, c0: nat, d: nat, ghost cs: seq<string>)
    returns (len: nat)
    requires c0 <= d <= |rel| && 1 <= len0 && len0 + (d - c0) + 1 < buf.Length
    requires Canonical(cs) && buf[..len0] == Render(cs) && Plain(rel[c0..d])
    modifies buf
    ensures 1 <= len <= len0 + (d - c0) + 1 && buf[..len] == Render(Visit(cs, rel[c0..d]))
  {
    len := len0;
    ghost var item := rel[c0..d];
    if d - c0 == 0 || (d - c0 == 1 && rel[c0] == '.') {
      assert item == "" || item == ".";
    } else if d - c0 == 2 && rel[c0] == '.' && rel[c0 + 1] == '.' {
      assert item == "..";
      len := GoUp(buf, len, cs);
    } else {
      assert item != "" && item != "." && item != "..";
      len := Push(buf, len, rel, c0, d, cs);
    }
  }

  /** The last branch: append a separator, unless at the root, and the item. */
  method Push(buf: array<char>, len0: nat, rel: string, c0: nat, d: nat, ghost cs: seq<string>)
    returns (len: nat)
    requires c0 <= d <= |rel| && 1 <= len0 && len0 + (d - c0) + 1 < buf.Length
    requires Canonical(cs) && buf[..len0] == Render(cs)
    modifies buf
    ensures 1 <= len <= len0 + (d - c0) + 1 && buf[..len] == Render(cs + [rel[c0..d]])
  {
    RenderPush(cs, rel[c0..d]);
    ghost var was := Render(cs);
    ghost var head := if |was| > 1 then was + "/" else "/";
    StackRender(cs);
    len := len0;
    var c := c0;
    if len > 1 { buf[len] := '/'; len := len + 1; }
    assert buf[..len0] == was;
    ghost var from := len;
    assert buf[..from] == head;
    while c < d
      invariant c0 <= c <= d && len == from + (c - c0)
      invariant buf[..len] == head + rel[c0..c]
    {
      ghost var before := buf[..len];
      buf[len] := rel[c];
      assert buf[..len] == before;
      len, c := len + 1, c + 1;
      assert buf[..len] == before + [rel[c - 1]];
      assert rel[c0..c] == rel[c0..c - 1] + [rel[c - 1]];
    }
  }

  lemma NextItem(rel: string, c: nat, d: nat)
    requires c <= d <= |rel| && (d < |rel| ==> rel[d] == '/')
    requires forall i :: c <= i < d ==> rel[i] != '/'
    ensures Items(rel[c..]) == [rel[c..d]] + (if d < |rel| then Items(rel[d + 1..]) else [])
  {
    var s := rel[c..];
    assert s[..d - c] == rel[c..d];
    assert forall j :: 0 <= j < d - c ==> s[j] == rel[c + j];
    IndexOfUnique(s, '/', d - c);
    if d < |rel| {
      assert s[d - c + 1..] == rel[d + 1..];
    } else {
      assert s == rel[c..d];
    }
  }

  /** The ".." branch: scan back to the previous '/' and drop it unless it is the leading one. */
  method GoUp(buf: array<char>, len0: nat, ghost cs: seq<string>) returns (len: nat)
    requires 1 <= len0 <= buf.Length && Canonical(cs) && buf[..len0] == Render(cs)
    ensures 1 <= len <= len0 && buf[..len] == Render(Pop(cs))
  {
    ghost var up := if cs == [] then "" else Joined(cs[..|cs| - 1]);
    ghost var last := if cs == [] then "" else cs[|cs| - 1];
    if cs != [] { RenderPop(cs); }
    assert Plain(last) && buf[..len0] == up + "/" + last;
    len := ScanBack(buf, len0, up, last);
    if len > 1 { len := len - 1; }
    assert buf[..|up|] == buf[..|up| + 1][..|up|];
  }

  method ScanBack(buf: array<char>, len0: nat, ghost up: string, ghost last: string) returns (len: nat)
    requires 1 <= len0 <= buf.Length && buf[..len0] == up + "/" + last && Plain(last)
    ensures len == |up| + 1 <= len0 && buf[..len] == up + "/"
  {
    len := len0;
    assert forall i :: |up| < i < len0 ==> buf[i] == buf[..len0][i] == last[i - |up| - 1];
    assert buf[|up|] == buf[..len0][|up|] == '/';
    while buf[len - 1] != '/'
      invariant |up| + 1 <= len <= len0
      decreases len
    {
      len := len - 1;
    }
    assert buf[..len] == buf[..len0][..len];
  }
}
