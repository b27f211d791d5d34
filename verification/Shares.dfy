/**
 The list of shared folders: kept without duplicates or a folder inside another, in an order of its
 own, so that a list is determined by what it covers.
 */
module Shares {
  import opened Basics
  import opened Sorting
  import opened Text

  // ----- Paths -----

  function Trimmed(s: string): (r: string)
    ensures r <= s && (r != [] ==> r[|r| - 1] != '/') && forall i :: |r| <= i < |s| ==> s[i] == '/'
  {
    if s != [] && s[|s| - 1] == '/' then Trimmed(s[..|s| - 1]) else s
  }

  /** A share as it is listed: no slash at its end, unless it is the root. */
  function Tidy(s: string): string {
    if Trimmed(s) == [] then "/" else Trimmed(s)
  }

  /** A folder holds itself and what is below it: names count component by component, so `/a` does not hold `/ab`. */
  predicate Within(path: string, base: string) {
    var b := Trimmed(base);
    b == [] || path == b || b + "/" <= path
  }

  ghost predicate Absolute(path: string) {
    path != [] && path[0] == '/'
  }

  ghost predicate AllAbsolute(shares: seq<string>) {
    forall i :: 0 <= i < |shares| ==> Absolute(shares[i])
  }

  /** Whether some share holds the path. */
  ghost predicate Covered(path: string, shares: seq<string>) {
    exists i :: 0 <= i < |shares| && Within(path, shares[i])
  }

  ghost predicate IsTidy(p: string) {
    p == "/" || (p != [] && p[|p| - 1] != '/')
  }

  lemma {:induction false} TrimmedStops(s: string)
    requires s == [] || s[|s| - 1] != '/'
    ensures Trimmed(s) == s
  {
  }

  lemma TidyIsTidy(s: string)
    ensures IsTidy(Tidy(s)) && Trimmed(Tidy(s)) == Trimmed(s)
  {
    TrimmedStops(Trimmed(s));
    if Trimmed(s) == [] {
      assert "/"[..0] == [];
    }
  }

  lemma WithinTidy(path: string, base: string)
    ensures Within(path, Tidy(base)) <==> Within(path, base)
  {
    TidyIsTidy(base);
  }

  lemma WithinItself(p: string)
    requires IsTidy(p)
    ensures Within(p, p)
  {
    if p == "/" {
      assert p[..0] == [];
    } else {
      TrimmedStops(p);
    }
  }

  lemma TidyTrims(p: string)
    requires IsTidy(p)
    ensures Trimmed(p) == if p == "/" then [] else p
  {
    if p == "/" {
      assert p[..0] == [];
    }
  }

  lemma WithinTransitive(a: string, b: string, c: string)
    requires IsTidy(b) && IsTidy(c) && Within(a, b) && Within(b, c)
    ensures Within(a, c)
  {
    TidyTrims(b);
    TidyTrims(c);
  }

  lemma WithinAntisymmetric(a: string, b: string)
    requires IsTidy(a) && IsTidy(b) && Within(a, b) && Within(b, a)
    ensures a == b
  {
    TidyTrims(a);
    TidyTrims(b);
  }

  /** Two shares that hold one path are nested. */
  lemma Nested(path: string, a: string, b: string)
    requires IsTidy(a) && IsTidy(b) && Within(path, a) && Within(path, b)
    ensures Within(a, b) || Within(b, a)
  {
    TidyTrims(a);
    TidyTrims(b);
    if a != "/" && b != "/" && a != b {
      var (x, y) := if |a| <= |b| then (a, b) else (b, a);
      assert x <= path && y <= path;
      assert y[..|x|] == x == path[..|x|];
      if |x| < |y| {
        assert y[|x|] == path[|x|] == '/';
        assert x + "/" <= y;
      }
    }
  }

  // ----- Components -----

  /** The names between the slashes. */
  function Split(s: string): (r: seq<string>)
    ensures r != []
  {
    if s == [] then [[]]
    else if s[0] == '/' then [[]] + Split(s[1..])
    else [[s[0]] + Split(s[1..])[0]] + Split(s[1..])[1..]
  }

  function Unsplit(names: seq<string>): string
    requires names != []
  {
    if |names| == 1 then names[0] else names[0] + "/" + Unsplit(names[1..])
  }

  lemma {:induction false} SplitAtSlash(a: string, b: string)
    ensures Split(a + "/" + b) == Split(a) + Split(b)
  {
    if a == [] {
      assert a + "/" + b == "/" + b;
    } else {
      assert (a + "/" + b)[1..] == a[1..] + "/" + b;
      SplitAtSlash(a[1..], b);
    }
  }

  lemma UnsplitSlash(names: seq<string>)
    requires names != []
    ensures Unsplit([[]] + names) == "/" + Unsplit(names)
  {
    assert ([[]] + names)[1..] == names;
    assert [] + "/" == "/";
  }

  lemma UnsplitFront(c: char, names: seq<string>)
    requires names != []
    ensures Unsplit([[c] + names[0]] + names[1..]) == [c] + Unsplit(names)
  {
    var longer := [[c] + names[0]] + names[1..];
    assert longer[1..] == names[1..];
    if |names| > 1 {
      assert [c] + names[0] + "/" + Unsplit(names[1..]) == [c] + (names[0] + "/" + Unsplit(names[1..]));
    }
  }

  lemma {:induction false} Unsplits(s: string)
    ensures Unsplit(Split(s)) == s
  {
    if s != [] {
      Unsplits(s[1..]);
      assert s == [s[0]] + s[1..];
      if s[0] == '/' {
        UnsplitSlash(Split(s[1..]));
      } else {
        UnsplitFront(s[0], Split(s[1..]));
      }
    }
  }

  lemma {:induction false} UnsplitJoins(a: seq<string>, b: seq<string>)
    requires a != [] && b != []
    ensures Unsplit(a + b) == Unsplit(a) + "/" + Unsplit(b)
  {
    assert (a + b)[1..] == a[1..] + b;
    if |a| > 1 {
      UnsplitJoins(a[1..], b);
    } else {
      assert a[1..] + b == b;
    }
  }

  /** A folder holds exactly the paths whose components begin with its own; the root holds all. */
  lemma WithinByComponents(path: string, base: string)
    ensures Within(path, base) <==> Trimmed(base) == "" || Split(Trimmed(base)) <= Split(path)
  {
    var b := Trimmed(base);
    if b + "/" <= path {
      var rest := path[|b| + 1..];
      assert path == b + "/" + rest;
      SplitAtSlash(b, rest);
    }
    if Split(b) <= Split(path) {
      Unsplits(b);
      Unsplits(path);
      var more := Split(path)[|Split(b)|..];
      assert Split(path) == Split(b) + more;
      if more == [] {
        assert Split(path) == Split(b);
      } else {
        UnsplitJoins(Split(b), more);
        assert path == b + "/" + Unsplit(more);
      }
    }
  }

  // ----- Orders -----

  lemma {:induction false} LenGrows(s: string, t: string)
    requires s <= t
    ensures Len(s) <= Len(t) && (s != t ==> Len(s) < Len(t))
  {
    if s != t {
      assert s <= t[..|t| - 1];
      LenGrows(s, t[..|t| - 1]);
    }
  }

  const DEFAULT_SHARES: seq<string> := ["/Users", "/Volumes", "/var/folders"]

  /** Where a share stands among the defaults; after all of them if it is none. */
  function Place(p: string): nat {
    if p == DEFAULT_SHARES[0] then 0 else if p == DEFAULT_SHARES[1] then 1 else if p == DEFAULT_SHARES[2] then 2 else 3
  }

  /** The order of the final list. */
  predicate Before(a: string, b: string) {
    Place(a) < Place(b) || (Place(a) == Place(b) && TextLess(a, b))
  }

  predicate Shorter(a: string, b: string) {
    Len(a) < Len(b)
  }

  lemma BeforeTotal(a: string, b: string)
    ensures a == b || Before(a, b) || Before(b, a)
    ensures !(Before(a, b) && Before(b, a))
  {
    TextTotal(a, b);
  }

  lemma BeforeTransitive(a: string, b: string, c: string)
    requires Before(a, b) && Before(b, c)
    ensures Before(a, c)
  {
    if TextLess(a, b) && TextLess(b, c) {
      TextTransitive(a, b, c);
    }
  }

  lemma BeforeIsWeak()
    ensures Weak(Before) && Weak(Shorter)
  {
    forall a, b
      ensures Before(a, b) ==> !Before(b, a)
    {
      BeforeTotal(a, b);
    }
    forall a, b, c | !Before(b, a) && !Before(c, b)
      ensures !Before(c, a)
    {
      BeforeTotal(a, b);
      BeforeTotal(b, c);
      BeforeTotal(a, c);
      if Before(a, b) && Before(b, c) {
        BeforeTransitive(a, b, c);
      }
    }
  }

  // ----- The normal form -----

  /** A listed folder that is inside no other. */
  ghost predicate Outermost(shares: seq<string>, p: string) {
    && (exists i :: 0 <= i < |shares| && Tidy(shares[i]) == p)
    && (forall i :: 0 <= i < |shares| && Within(p, shares[i]) ==> Tidy(shares[i]) == p)
  }

  ghost predicate NonNested(s: seq<string>) {
    forall x, y :: x in s && y in s && Within(x, y) ==> x == y
  }

  ghost predicate AllTidy(s: seq<string>) {
    forall x :: x in s ==> IsTidy(x)
  }

  /** The outermost folders of a list, once each and in order. */
  ghost predicate NormalForm(r: seq<string>, shares: seq<string>) {
    Sorted(Before, r) && NoDup(r) && AllTidy(r) && forall p :: p in r <==> Outermost(shares, p)
  }

  predicate Holding(kept: seq<string>, x: string) {
    exists k :: k in kept && Within(x, k)
  }

  ghost predicate HoldsAll(kept: seq<string>, front: seq<string>) {
    forall x :: x in front ==> Holding(kept, x)
  }

  /** What the filter keeps of a prefix of the sorted list: some of it, holding all of it. */
  ghost predicate Kept(kept: seq<string>, front: seq<string>) {
    && NoDup(kept) && AllTidy(kept)
    && (forall x :: x in kept ==> x in front)
    && HoldsAll(kept, front)
  }

  lemma {:induction false} LenAtLeast(s: string)
    ensures Len(s) >= |s|
  {
    if s != [] {
      LenAtLeast(s[..|s| - 1]);
    }
  }

  lemma RootIsShort()
    ensures Len("/") == 1 && IsTidy("/")
  {
    assert "/"[..0] == [];
  }

  /** A folder inside another has the longer name, but for the root, which holds every name. */
  lemma InsideIsLonger(k: string, x: string)
    requires IsTidy(k) && IsTidy(x) && Within(k, x) && k != x && x != "/"
    ensures Len(x) < Len(k)
  {
    TidyTrims(x);
    LenGrows(x, x + "/");
    LenGrows(x + "/", k);
  }

  /** Nothing but the root holds the root. */
  lemma RootIsOutermost(k: string)
    requires IsTidy(k) && Within("/", k)
    ensures k == "/"
  {
    TidyTrims(k);
  }

  lemma KeepOne(kept: seq<string>, front: seq<string>, x: string)
    requires Kept(kept, front) && IsTidy(x) && !Holding(kept, x)
    ensures Kept(kept + [x], front + [x])
  {
    WithinItself(x);
    assert x in kept + [x];
    forall y | y in front + [x]
      ensures Holding(kept + [x], y)
    {
      if y in front {
        var k :| k in kept && Within(y, k);
        assert k in kept + [x];
      }
    }
    assert x !in kept;
  }

  lemma HoldsOneMore(kept: seq<string>, front: seq<string>, x: string)
    requires HoldsAll(kept, front) && Holding(kept, x)
    ensures HoldsAll(kept, front + [x])
  {
  }

  lemma SkipOne(kept: seq<string>, front: seq<string>, x: string)
    requires Kept(kept, front) && Holding(kept, x)
    ensures Kept(kept, front + [x])
  {
    HoldsOneMore(kept, front, x);
  }

  /** The list so far has no folder in another. */
  lemma StaysNonNested(kept: seq<string>, x: string)
    requires NonNested(kept) && AllTidy(kept) && IsTidy(x) && !Holding(kept, x)
    requires x != "/" || kept == []
    requires forall k :: k in kept ==> Len(k) <= Len(x)
    ensures NonNested(kept + [x])
  {
    forall k | k in kept && Within(k, x)
      ensures k == x
    {
      if k != x {
        InsideIsLonger(k, x);
      }
    }
  }

  /** The sorted list is the given one, tidied. */
  ghost predicate Lists(sorted: seq<string>, shares: seq<string>) {
    forall x :: x in sorted <==> exists i :: 0 <= i < |shares| && Tidy(shares[i]) == x
  }

  lemma KeptIsOutermost(shares: seq<string>, sorted: seq<string>, kept: seq<string>, p: string)
    requires Kept(kept, sorted) && NonNested(kept) && Lists(sorted, shares)
    ensures p in kept <==> Outermost(shares, p)
  {
    if p in kept {
      forall i | 0 <= i < |shares| && Within(p, shares[i])
        ensures Tidy(shares[i]) == p
      {
        var q := Tidy(shares[i]);
        TidyIsTidy(shares[i]);
        assert q in sorted;
        var k :| k in kept && Within(q, k);
        WithinTransitive(p, q, k);
        WithinAntisymmetric(p, q);
      }
    }
    if Outermost(shares, p) {
      assert p in sorted;
      var k :| k in kept && Within(p, k);
      var i :| 0 <= i < |shares| && Tidy(shares[i]) == k;
      WithinTidy(p, shares[i]);
    }
  }

  // ----- Where the root stands -----

  /** As short as the root, and not it. */
  predicate OneByte(p: string) {
    Len(p) == 1 && p != "/"
  }

  /** If the root is listed, no name of one byte is listed before it. An absolute one never is. */
  ghost predicate Orderly(paths: seq<string>) {
    forall m :: 0 <= m < |paths| && OneByte(paths[m]) && "/" in paths ==> "/" in paths[..m]
  }

  /** Sorted by length, a list is orderly exactly when the root, if it is there, comes first. */
  lemma SortedOrderly(paths: seq<string>)
    requires AllTidy(paths) && AllTidy(Sort(Shorter, paths)) && Sorted(Shorter, Sort(Shorter, paths))
    ensures Orderly(paths) <==> RootFirst(Sort(Shorter, paths))
  {
    var sorted := Sort(Shorter, paths);
    OrderlyIffNoneEarly(paths);
    OrderlyIffNoneEarly(sorted);
    forall x
      ensures Early(sorted, x) <==> Early(paths, x)
    {
      SortedEarly(paths, x);
    }
    FirstOfSorted(sorted);
  }

  lemma FirstOfSorted(sorted: seq<string>)
    requires AllTidy(sorted) && Sorted(Shorter, sorted)
    ensures Orderly(sorted) <==> RootFirst(sorted)
  {
    if "/" in sorted {
      var i := FirstRoot(sorted);
      BeforeRootIsShort(sorted, i);
      if i > 0 {
        InPrefix(sorted, 0, i);
        assert "/" !in sorted[..0];
      } else {
        assert forall m :: 0 < m <= |sorted| ==> sorted[..m][0] == "/";
      }
    }
  }

  lemma {:induction false} AbsoluteIsOrderly(shares: seq<string>, paths: seq<string>)
    requires AllAbsolute(shares) && |paths| == |shares| && forall i :: 0 <= i < |shares| ==> paths[i] == Tidy(shares[i])
    ensures Orderly(paths)
  {
    forall m | 0 <= m < |paths|
      ensures !OneByte(paths[m])
    {
      LenAtLeast(paths[m]);
      assert Absolute(shares[m]) && paths[m][0] == '/';
    }
  }

  // ----- normalized_shares -----

  function Tidied(shares: seq<string>): (paths: seq<string>)
    ensures |paths| == |shares| && forall i :: 0 <= i < |shares| ==> paths[i] == Tidy(shares[i])
  {
    seq(|shares|, i requires 0 <= i < |shares| => Tidy(shares[i]))
  }

  lemma TidiedIsTidy(shares: seq<string>)
    ensures AllTidy(Tidied(shares))
  {
    forall x | x in Tidied(shares)
      ensures IsTidy(x)
    {
      var i :| 0 <= i < |shares| && Tidied(shares)[i] == x;
      TidyIsTidy(shares[i]);
    }
  }

  /** What the filter keeps: every name that no name kept before holds. */
  function Outer(paths: seq<string>): seq<string> {
    if paths == [] then []
    else
      var n := |paths| - 1;
      var kept := Outer(paths[..n]);
      if Holding(kept, paths[n]) then kept else kept + [paths[n]]
  }

  method KeepOutermost(paths: seq<string>) returns (kept: seq<string>)
    ensures kept == Outer(paths)
  {
    kept := [];
    for i := 0 to |paths|
      invariant kept == Outer(paths[..i])
    {
      assert paths[..i + 1][..i] == paths[..i];
      if !Holding(kept, paths[i]) {
        kept := kept + [paths[i]];
      }
    }
    assert paths[..|paths|] == paths;
  }

  ghost predicate RootFirst(paths: seq<string>) {
    "/" in paths ==> paths[0] == "/"
  }

  lemma OuterSplits(paths: seq<string>)
    requires paths != []
    ensures var n := |paths| - 1; paths == paths[..n] + [paths[n]]
  {
  }

  lemma {:induction false} OuterKeeps(paths: seq<string>)
    requires AllTidy(paths)
    ensures Kept(Outer(paths), paths) && (paths != [] ==> paths[0] in Outer(paths))
  {
    if paths != [] {
      var n := |paths| - 1;
      var front := paths[..n];
      OuterSplits(paths);
      OuterKeeps(front);
      if Holding(Outer(front), paths[n]) {
        SkipOne(Outer(front), front, paths[n]);
      } else {
        KeepOne(Outer(front), front, paths[n]);
      }
      assert n > 0 ==> front[0] == paths[0];
      assert n == 0 ==> Outer(front) == [];
    }
  }

  lemma FrontOf(paths: seq<string>, n: nat)
    requires n < |paths| && Sorted(Shorter, paths) && AllTidy(paths) && RootFirst(paths)
    ensures Sorted(Shorter, paths[..n]) && AllTidy(paths[..n]) && RootFirst(paths[..n])
  {
  }

  lemma {:induction false} OuterNonNested(paths: seq<string>)
    requires Sorted(Shorter, paths) && AllTidy(paths) && RootFirst(paths)
    ensures NonNested(Outer(paths))
  {
    if paths != [] {
      var n := |paths| - 1;
      FrontOf(paths, n);
      OuterNonNested(paths[..n]);
      if !Holding(Outer(paths[..n]), paths[n]) {
        OuterKeeps(paths[..n]);
        StaysOrderly(Outer(paths[..n]), paths, n);
      }
    }
  }

  /** Whether the filter keeps a list with no folder in another is whether the root, if there, comes first. */
  lemma OuterIff(paths: seq<string>)
    requires Sorted(Shorter, paths) && AllTidy(paths)
    ensures NonNested(Outer(paths)) <==> RootFirst(paths)
  {
    if RootFirst(paths) {
      OuterNonNested(paths);
    } else {
      OuterKeeps(paths);
      RootIsKept(Outer(paths), paths);
    }
  }

  lemma StaysOrderly(kept: seq<string>, paths: seq<string>, i: nat)
    requires i < |paths| && Sorted(Shorter, paths) && AllTidy(paths) && ("/" in paths ==> paths[0] == "/")
    requires Kept(kept, paths[..i]) && (i > 0 ==> paths[0] in kept) && NonNested(kept) && !Holding(kept, paths[i])
    ensures NonNested(kept + [paths[i]])
  {
    WithinItself(paths[i]);
    forall k | k in kept
      ensures Len(k) <= Len(paths[i])
    {
      var j :| 0 <= j < i && paths[..i][j] == k;
      assert !Shorter(paths[i], paths[j]);
    }
    assert i == 0 ==> kept == [] by {
      assert kept != [] ==> kept[0] in paths[..i];
    }
    StaysNonNested(kept, paths[i]);
  }

  lemma RootIsKept(kept: seq<string>, paths: seq<string>)
    requires Kept(kept, paths) && "/" in paths && paths[0] in kept && paths[0] != "/"
    ensures !NonNested(kept)
  {
    var k :| k in kept && Within("/", k);
    RootIsOutermost(k);
    TidyTrims("/");
    assert Within(paths[0], "/");
  }

  function NormalizedOf(shares: seq<string>): seq<string> {
    Sort(Before, Outer(Sort(Shorter, Tidied(shares))))
  }

  /** The result covers what the list does, whatever the list; it is the normal form exactly when the list is orderly. */
  lemma NormalizedIs(shares: seq<string>)
    ensures var r := NormalizedOf(shares);
            && SameCoverage(r, shares) && Sorted(Before, r) && NoDup(r) && AllTidy(r)
            && (Orderly(Tidied(shares)) ==> NormalForm(r, shares))
            && (NonNested(r) <==> Orderly(Tidied(shares)))
  {
    var sorted := Sort(Shorter, Tidied(shares));
    SortedTidied(shares);
    OuterKeeps(sorted);
    OuterIff(sorted);
    SortedOrderly(Tidied(shares));
    SortedKept(shares, sorted, Outer(sorted));
  }

  /** `normalized_shares`. */
  method Normalized(shares: seq<string>) returns (r: seq<string>)
    ensures r == NormalizedOf(shares)
    ensures SameCoverage(r, shares)
    ensures Orderly(Tidied(shares)) ==> NormalForm(r, shares)
    ensures NonNested(r) <==> Orderly(Tidied(shares))
  {
    var sorted := Sort(Shorter, Tidied(shares));
    var kept := KeepOutermost(sorted);
    r := Sort(Before, kept);
    NormalizedIs(shares);
  }

  lemma SortedTidied(shares: seq<string>)
    ensures var sorted := Sort(Shorter, Tidied(shares));
            && AllTidy(Tidied(shares)) && Sorted(Shorter, sorted) && AllTidy(sorted)
            && Lists(sorted, shares)
  {
    var sorted := Sort(Shorter, Tidied(shares));
    TidiedIsTidy(shares);
    BeforeIsWeak();
    SortSorts(Shorter, Tidied(shares));
    forall x
      ensures x in sorted <==> x in Tidied(shares)
      ensures x in Tidied(shares) <==> exists i :: 0 <= i < |shares| && Tidy(shares[i]) == x
    {
      SortHolds(Shorter, Tidied(shares), x);
      assert x in Tidied(shares) <==> exists i :: 0 <= i < |shares| && Tidied(shares)[i] == x;
    }
  }

  lemma SortedKept(shares: seq<string>, sorted: seq<string>, kept: seq<string>)
    requires Kept(kept, sorted) && Lists(sorted, shares)
    ensures var r := Sort(Before, kept);
            && SameCoverage(r, shares) && (NonNested(r) <==> NonNested(kept)) && (NonNested(kept) ==> NormalForm(r, shares))
            && Sorted(Before, r) && NoDup(r) && AllTidy(r)
  {
    BeforeIsWeak();
    SortSorts(Before, kept);
    SortNoDup(Before, kept);
    var r := Sort(Before, kept);
    forall p
      ensures p in r <==> p in kept
    {
      SortHolds(Before, kept, p);
    }
    if NonNested(kept) {
      forall p
        ensures p in kept <==> Outermost(shares, p)
      {
        KeptIsOutermost(shares, sorted, kept, p);
      }
    }
    forall path
      ensures Covered(path, r) <==> Covered(path, shares)
    {
      KeptCovers(shares, sorted, kept, r, path);
    }
  }

  lemma KeptCoversAll(shares: seq<string>, sorted: seq<string>, kept: seq<string>, path: string, i: nat) returns (k: string)
    requires Kept(kept, sorted) && Lists(sorted, shares) && i < |shares| && Within(path, shares[i])
    ensures k in kept && Within(path, k)
  {
    var q := Tidy(shares[i]);
    TidyIsTidy(shares[i]);
    WithinTidy(path, shares[i]);
    assert q in sorted;
    assert Holding(kept, q);
    k :| k in kept && Within(q, k);
    WithinTransitive(path, q, k);
  }

  lemma KeptCoversOnly(shares: seq<string>, sorted: seq<string>, k: string, path: string)
    requires Lists(sorted, shares) && k in sorted && Within(path, k)
    ensures Covered(path, shares)
  {
    var i :| 0 <= i < |shares| && Tidy(shares[i]) == k;
    WithinTidy(path, shares[i]);
  }

  lemma KeptCovers(shares: seq<string>, sorted: seq<string>, kept: seq<string>, r: seq<string>, path: string)
    requires Kept(kept, sorted) && Lists(sorted, shares) && forall x :: x in r <==> x in kept
    ensures Covered(path, r) <==> Covered(path, shares)
  {
    if Covered(path, shares) {
      var i: nat :| i < |shares| && Within(path, shares[i]);
      var k := KeptCoversAll(shares, sorted, kept, path, i);
      var j :| 0 <= j < |r| && r[j] == k;
      assert Within(path, r[j]);
    }
    if Covered(path, r) {
      var j :| 0 <= j < |r| && Within(path, r[j]);
      assert r[j] in r && r[j] in kept && r[j] in sorted;
      KeptCoversOnly(shares, sorted, r[j], path);
    }
  }

  // ----- What the normal form is worth -----

  lemma NormalIsNonNested(r: seq<string>, shares: seq<string>)
    requires NormalForm(r, shares)
    ensures NonNested(r)
  {
    forall x, y | x in r && y in r && Within(x, y)
      ensures x == y
    {
      var i :| 0 <= i < |shares| && Tidy(shares[i]) == y;
      WithinTidy(x, shares[i]);
    }
  }

  /** How deep a folder can be in others. */
  function Depth(p: string): nat {
    if p == "/" then 0 else Len(p)
  }

  /** Every listed folder is in an outermost one. */
  lemma InOutermost(r: seq<string>, shares: seq<string>, i: nat) returns (k: string)
    requires NormalForm(r, shares) && i < |shares|
    ensures k in r && Within(Tidy(shares[i]), k)
    decreases Depth(Tidy(shares[i]))
  {
    var p := Tidy(shares[i]);
    TidyIsTidy(shares[i]);
    WithinItself(p);
    if p in r {
      k := p;
    } else {
      assert !Outermost(shares, p);
      var j :| 0 <= j < |shares| && Within(p, shares[j]) && Tidy(shares[j]) != p;
      var q := Tidy(shares[j]);
      TidyIsTidy(shares[j]);
      WithinTidy(p, shares[j]);
      LenAtLeast(p);
      if p == "/" {
        RootIsOutermost(q);
      } else if q != "/" {
        InsideIsLonger(p, q);
      }
      k := InOutermost(r, shares, j);
      WithinTransitive(p, q, k);
    }
  }

  /** Normalising covers exactly what was covered. */
  lemma CoverageKept(r: seq<string>, shares: seq<string>, path: string)
    requires NormalForm(r, shares)
    ensures Covered(path, r) <==> Covered(path, shares)
  {
    if Covered(path, shares) {
      var i :| 0 <= i < |shares| && Within(path, shares[i]);
      TidyIsTidy(shares[i]);
      WithinTidy(path, shares[i]);
      var k := InOutermost(r, shares, i);
      WithinTransitive(path, Tidy(shares[i]), k);
      var j :| 0 <= j < |r| && r[j] == k;
      assert Within(path, r[j]);
    }
    if Covered(path, r) {
      var j :| 0 <= j < |r| && Within(path, r[j]);
      assert r[j] in r;
      var i :| 0 <= i < |shares| && Tidy(shares[i]) == r[j];
      WithinTidy(path, shares[i]);
    }
  }

  ghost predicate SameCoverage(a: seq<string>, b: seq<string>) {
    forall path :: Covered(path, a) <==> Covered(path, b)
  }

  /** A list in normal form: tidy, in order, nothing inside another. */
  ghost predicate Normal(r: seq<string>) {
    Sorted(Before, r) && NoDup(r) && AllTidy(r) && NonNested(r)
  }

  /** In order: the defaults that are listed first, in their own order, and the rest as text. */
  lemma DefaultsFirst(r: seq<string>, i: nat, j: nat)
    requires Sorted(Before, r) && NoDup(r) && i < j < |r|
    ensures r[j] in DEFAULT_SHARES ==> r[i] in DEFAULT_SHARES
    ensures forall k, m :: 0 <= k < 3 && 0 <= m < 3 && r[i] == DEFAULT_SHARES[k] && r[j] == DEFAULT_SHARES[m] ==> k < m
    ensures r[i] !in DEFAULT_SHARES && r[j] !in DEFAULT_SHARES ==> TextLess(r[i], r[j])
  {
    BeforeTotal(r[i], r[j]);
    assert !Before(r[j], r[i]);
  }

  lemma NormalMember(a: seq<string>, b: seq<string>, x: string)
    requires Normal(a) && Normal(b) && SameCoverage(a, b) && x in a
    ensures x in b
  {
    WithinItself(x);
    var i :| 0 <= i < |a| && a[i] == x;
    assert Covered(x, a) && Covered(x, b);
    var j :| 0 <= j < |b| && Within(x, b[j]);
    assert b[j] in b;
    WithinItself(b[j]);
    assert Covered(b[j], b) && Covered(b[j], a);
    var k :| 0 <= k < |a| && Within(b[j], a[k]);
    assert a[k] in a;
    WithinTransitive(x, b[j], a[k]);
    WithinAntisymmetric(x, b[j]);
  }

  lemma {:induction false} SortedIsUnique(a: seq<string>, b: seq<string>)
    requires Sorted(Before, a) && NoDup(a) && Sorted(Before, b) && NoDup(b) && forall x :: x in a <==> x in b
    ensures a == b
  {
    assert a != [] ==> a[0] in b;
    assert b != [] ==> b[0] in a;
    if a != [] && b != [] {
      FirstIsLeast(a, b[0]);
      FirstIsLeast(b, a[0]);
      BeforeTotal(a[0], b[0]);
      forall x
        ensures x in a[1..] <==> x in b[1..]
      {
        RestHolds(a, x);
        RestHolds(b, x);
      }
      SortedIsUnique(a[1..], b[1..]);
      assert a == [a[0]] + a[1..] && b == [b[0]] + b[1..];
    }
  }

  lemma FirstIsLeast(a: seq<string>, x: string)
    requires Sorted(Before, a) && x in a
    ensures !Before(x, a[0])
  {
    BeforeTotal(x, a[0]);
  }

  lemma RestHolds(a: seq<string>, x: string)
    requires a != [] && NoDup(a)
    ensures x in a[1..] <==> x in a && x != a[0]
  {
  }

  lemma NormalFormIsNormal(r: seq<string>, shares: seq<string>)
    requires NormalForm(r, shares)
    ensures Normal(r)
  {
    NormalIsNonNested(r, shares);
  }

  /** Two lists cover the same paths exactly when they normalise to the same list. */
  lemma CanonicalForm(a: seq<string>, b: seq<string>, r: seq<string>, q: seq<string>)
    requires NormalForm(r, a) && NormalForm(q, b)
    ensures SameCoverage(a, b) <==> r == q
  {
    NormalFormIsNormal(r, a);
    NormalFormIsNormal(q, b);
    forall path
      ensures Covered(path, r) <==> Covered(path, a)
      ensures Covered(path, q) <==> Covered(path, b)
    {
      CoverageKept(r, a, path);
      CoverageKept(q, b, path);
    }
    if SameCoverage(a, b) {
      SameElements(r, q);
      SortedIsUnique(r, q);
    }
  }

  lemma SameElements(r: seq<string>, q: seq<string>)
    requires Normal(r) && Normal(q) && SameCoverage(r, q)
    ensures forall x :: x in r <==> x in q
  {
    forall x
      ensures x in r <==> x in q
    {
      if x in r {
        NormalMember(r, q, x);
      }
      if x in q {
        NormalMember(q, r, x);
      }
    }
  }

  // ----- When the order of a list matters -----

  /** A name of one byte that is listed before a root that is listed. */
  ghost predicate Early(paths: seq<string>, x: string) {
    "/" in paths && OneByte(x) && exists m :: 0 <= m < |paths| && paths[m] == x && "/" !in paths[..m]
  }

  lemma OrderlyIffNoneEarly(paths: seq<string>)
    ensures Orderly(paths) <==> forall x :: !Early(paths, x)
  {
    if !Orderly(paths) {
      var m :| 0 <= m < |paths| && OneByte(paths[m]) && "/" in paths && "/" !in paths[..m];
      assert Early(paths, paths[m]);
    }
  }

  lemma EarlyIn(paths: seq<string>, x: string, m: nat)
    requires m < |paths| && paths[m] == x && "/" in paths && OneByte(x) && "/" !in paths[..m]
    ensures Early(paths, x)
  {
  }

  /** One more name in front that is no root. */
  lemma EarlyFrom(y: string, s: seq<string>, x: string)
    requires y != "/"
    ensures Early([y] + s, x) <==> Early(s, x) || (y == x && OneByte(x) && "/" in s)
  {
    var all := [y] + s;
    if Early(s, x) {
      var m :| 0 <= m < |s| && s[m] == x && "/" !in s[..m];
      assert all[..m + 1] == [y] + s[..m];
      EarlyIn(all, x, m + 1);
    }
    if y == x && OneByte(x) && "/" in s {
      assert all[..0] == [];
      EarlyIn(all, x, 0);
    }
    if Early(all, x) {
      var m :| 0 <= m < |all| && all[m] == x && "/" !in all[..m];
      assert m > 0 ==> all[..m] == [y] + s[..m - 1];
    }
  }

  lemma NoneEarlyBehindRoot(s: seq<string>, x: string)
    requires s != [] && s[0] == "/"
    ensures !Early(s, x)
  {
    assert forall m :: 0 < m <= |s| ==> s[..m][0] == "/";
  }

  lemma {:induction false} EarlyByTies(s: seq<string>, x: string)
    ensures "/" in Ties(Shorter, "/", s) <==> "/" in s
    ensures Early(Ties(Shorter, "/", s), x) <==> Early(s, x)
  {
    if s != [] {
      EarlyByTies(s[1..], x);
      RootIsShort();
      assert s == [s[0]] + s[1..];
      if s[0] == "/" {
        NoneEarlyBehindRoot(s, x);
        NoneEarlyBehindRoot(Ties(Shorter, "/", s), x);
      } else {
        EarlyFrom(s[0], s[1..], x);
        if Tie(Shorter, "/", s[0]) {
          EarlyFrom(s[0], Ties(Shorter, "/", s[1..]), x);
        } else {
          assert [] + Ties(Shorter, "/", s[1..]) == Ties(Shorter, "/", s[1..]);
        }
      }
    }
  }

  lemma SortedEarly(paths: seq<string>, x: string)
    ensures Early(Sort(Shorter, paths), x) <==> Early(paths, x)
  {
    BeforeIsWeak();
    SortStable(Shorter, paths, "/");
    EarlyByTies(paths, x);
    EarlyByTies(Sort(Shorter, paths), x);
  }

  lemma OneByteHoldsItself(x: string, k: string)
    requires IsTidy(x) && IsTidy(k) && Len(x) == 1 && OneByte(k) && Within(x, k)
    ensures x == k
  {
    if x != k {
      InsideIsLonger(x, k);
    }
  }

  /** Of names of one byte the filter keeps all. */
  lemma {:induction false} OuterOfShort(paths: seq<string>, x: string)
    requires forall y :: y in paths ==> IsTidy(y) && OneByte(y)
    ensures x in Outer(paths) <==> x in paths
  {
    if paths != [] {
      var n := |paths| - 1;
      OuterSplits(paths);
      OuterOfShort(paths[..n], x);
      if k :| k in Outer(paths[..n]) && Within(paths[n], k) {
        OuterOfShort(paths[..n], k);
        OneByteHoldsItself(paths[n], k);
      }
    }
  }

  /** The root holds all that comes after it. */
  lemma {:induction false} OuterStops(paths: seq<string>, i: nat)
    requires i < |paths| && "/" in Outer(paths[..i + 1])
    ensures Outer(paths) == Outer(paths[..i + 1])
  {
    if i + 1 < |paths| {
      var n := |paths| - 1;
      assert paths[..n][..i + 1] == paths[..i + 1];
      OuterStops(paths[..n], i);
      TidyTrims("/");
      assert Holding(Outer(paths[..n]), paths[n]);
    } else {
      assert paths[..i + 1] == paths;
    }
  }

  lemma RootIsNew(paths: seq<string>, i: nat)
    requires i < |paths| && paths[i] == "/" && forall y :: y in paths[..i] ==> IsTidy(y) && OneByte(y)
    ensures forall x :: x in Outer(paths[..i + 1]) <==> x == "/" || x in paths[..i]
  {
    assert paths[..i + 1][..i] == paths[..i];
    forall x
      ensures x in Outer(paths[..i]) <==> x in paths[..i]
    {
      OuterOfShort(paths[..i], x);
    }
    if k :| k in Outer(paths[..i]) && Within("/", k) {
      RootIsOutermost(k);
    }
  }

  lemma {:induction false} FirstRoot(paths: seq<string>) returns (i: nat)
    requires "/" in paths
    ensures i < |paths| && paths[i] == "/" && "/" !in paths[..i]
  {
    if paths[0] == "/" {
      i := 0;
    } else {
      var j := FirstRoot(paths[1..]);
      i := j + 1;
      assert paths[..i] == [paths[0]] + paths[1..][..j];
    }
  }

  lemma BeforeRootIsShort(sorted: seq<string>, i: nat)
    requires i < |sorted| && Sorted(Shorter, sorted) && AllTidy(sorted) && sorted[i] == "/" && "/" !in sorted[..i]
    ensures forall y :: y in sorted[..i] ==> IsTidy(y) && OneByte(y)
  {
    RootIsShort();
    forall y | y in sorted[..i]
      ensures IsTidy(y) && OneByte(y)
    {
      var m :| 0 <= m < i && sorted[m] == y;
      assert !Shorter(sorted[i], sorted[m]);
      assert y in sorted && y != "/";
      LenAtLeast(y);
    }
  }

  /** Of a sorted list with a root, the filter keeps the root and the names before it. */
  lemma OuterWithRoot(sorted: seq<string>, x: string)
    requires Sorted(Shorter, sorted) && AllTidy(sorted) && "/" in sorted
    ensures x in Outer(sorted) <==> x == "/" || Early(sorted, x)
  {
    var i := FirstRoot(sorted);
    BeforeRootIsShort(sorted, i);
    RootIsNew(sorted, i);
    OuterStops(sorted, i);
    EarlyIsBefore(sorted, i, x);
  }

  lemma InPrefix(s: seq<string>, i: nat, m: nat)
    requires i < m <= |s|
    ensures s[i] in s[..m]
  {
    assert s[..m][i] == s[i];
  }

  lemma NoLater(s: seq<string>, i: nat, m: nat)
    requires i < |s| && m <= |s| && s[i] !in s[..m]
    ensures m <= i
  {
    if m > i {
      InPrefix(s, i, m);
    }
  }

  lemma EarlyIsBefore(paths: seq<string>, i: nat, x: string)
    requires i < |paths| && paths[i] == "/" && "/" !in paths[..i] && forall y :: y in paths[..i] ==> OneByte(y)
    ensures Early(paths, x) <==> x in paths[..i]
  {
    if x in paths[..i] {
      var m :| 0 <= m < i && paths[m] == x;
      assert "/" !in paths[..m];
      EarlyIn(paths, x, m);
    }
    if Early(paths, x) {
      var m: nat :| m < |paths| && paths[m] == x && "/" !in paths[..m];
      NoLater(paths, i, m);
      InPrefix(paths, m, i);
    }
  }

  /** With a root listed, what is left is the root and the one-byte names listed before it. */
  lemma NormalizedWithRoot(shares: seq<string>, x: string)
    requires "/" in Tidied(shares)
    ensures x in NormalizedOf(shares) <==> x == "/" || Early(Tidied(shares), x)
  {
    var sorted := Sort(Shorter, Tidied(shares));
    SortedTidied(shares);
    SortHolds(Shorter, Tidied(shares), "/");
    SortHolds(Before, Outer(sorted), x);
    OuterWithRoot(sorted, x);
    SortedEarly(Tidied(shares), x);
  }

  /** The root is listed exactly when the list covers the path of no name. */
  lemma RootIsCovered(shares: seq<string>)
    ensures "/" in Tidied(shares) <==> Covered("", shares)
  {
    forall i | 0 <= i < |shares|
      ensures Tidy(shares[i]) == "/" <==> Within("", shares[i])
    {
      TidyIsTidy(shares[i]);
    }
    assert "/" in Tidied(shares) <==> exists i :: 0 <= i < |shares| && Tidied(shares)[i] == "/";
  }

  ghost predicate SameEarly(a: seq<string>, b: seq<string>) {
    forall x :: Early(Tidied(a), x) <==> Early(Tidied(b), x)
  }

  lemma EarlyIsKept(a: seq<string>, b: seq<string>)
    requires NormalizedOf(a) == NormalizedOf(b) && SameCoverage(a, b)
    ensures SameEarly(a, b)
  {
    RootIsCovered(a);
    RootIsCovered(b);
    forall x
      ensures Early(Tidied(a), x) <==> Early(Tidied(b), x)
    {
      if "/" in Tidied(a) {
        NormalizedWithRoot(a, x);
        NormalizedWithRoot(b, x);
      }
    }
  }

  lemma SameFromEarly(a: seq<string>, b: seq<string>)
    requires SameCoverage(a, b) && SameEarly(a, b)
    ensures NormalizedOf(a) == NormalizedOf(b)
  {
    NormalizedIs(a);
    NormalizedIs(b);
    RootIsCovered(a);
    RootIsCovered(b);
    if "/" in Tidied(a) {
      forall x
        ensures x in NormalizedOf(a) <==> x in NormalizedOf(b)
      {
        NormalizedWithRoot(a, x);
        NormalizedWithRoot(b, x);
      }
      SortedIsUnique(NormalizedOf(a), NormalizedOf(b));
    } else {
      OrderlyIffNoneEarly(Tidied(a));
      OrderlyIffNoneEarly(Tidied(b));
      CanonicalForm(a, b, NormalizedOf(a), NormalizedOf(b));
    }
  }

  lemma CoverageTransitive(a: seq<string>, b: seq<string>, c: seq<string>)
    requires SameCoverage(a, b) && SameCoverage(a, c)
    ensures SameCoverage(b, c)
  {
  }

  /**
   For every two lists: they normalise to the same list if and only if they cover the same paths and
   list the same one-byte names before a root. Absolute lists have none of those.
   */
  lemma CanonicalIff(a: seq<string>, b: seq<string>)
    ensures NormalizedOf(a) == NormalizedOf(b) <==> SameCoverage(a, b) && SameEarly(a, b)
  {
    if NormalizedOf(a) == NormalizedOf(b) {
      NormalizedIs(a);
      NormalizedIs(b);
      CoverageTransitive(NormalizedOf(a), a, b);
      EarlyIsKept(a, b);
    } else if SameCoverage(a, b) && SameEarly(a, b) {
      SameFromEarly(a, b);
    }
  }

  /** In a list in its final order, the names before the root are those the order puts there. */
  lemma EarlyInOrder(r: seq<string>, x: string)
    requires Sorted(Before, r) && NoDup(r) && "/" in r && OneByte(x)
    ensures Early(r, x) <==> x in r && Before(x, "/")
  {
    BeforeTotal(x, "/");
    var q :| 0 <= q < |r| && r[q] == "/";
    if x in r {
      var m :| 0 <= m < |r| && r[m] == x;
      assert m < q ==> !Before(r[q], r[m]);
      assert q < m ==> !Before(r[m], r[q]);
      if m < q {
        assert "/" !in r[..m];
        EarlyIn(r, x, m);
      } else {
        assert forall m' :: 0 <= m' < |r| && r[m'] == x ==> m' == m;
        assert r[..m][q] == "/";
      }
    }
  }

  lemma TidyStays(r: seq<string>)
    requires AllTidy(r)
    ensures Tidied(r) == r
  {
    forall i | 0 <= i < |r|
      ensures Tidy(r[i]) == r[i]
    {
      assert r[i] in r;
      TidyTrims(r[i]);
    }
  }

  /** For every list: normalising again changes nothing if and only if every one-byte name listed before a root also sorts before it. */
  lemma IdempotentIff(shares: seq<string>)
    ensures NormalizedOf(NormalizedOf(shares)) == NormalizedOf(shares) <==>
            forall x :: Early(Tidied(shares), x) ==> Before(x, "/")
  {
    var r := NormalizedOf(shares);
    NormalizedIs(shares);
    CanonicalIff(r, shares);
    TidyStays(r);
    RootIsCovered(shares);
    RootIsCovered(r);
    forall x
      ensures Early(r, x) <==> Early(Tidied(shares), x) && Before(x, "/")
    {
      if "/" in r && OneByte(x) {
        NormalizedWithRoot(shares, x);
        EarlyInOrder(r, x);
      }
    }
  }

  /** For every two lists of the same entries: the order matters only for which one-byte names come before a root. */
  lemma OrderIndependentIff(a: seq<string>, b: seq<string>)
    requires forall x :: x in a <==> x in b
    ensures NormalizedOf(a) == NormalizedOf(b) <==> SameEarly(a, b)
  {
    assert forall i :: 0 <= i < |a| ==> a[i] in b;
    assert forall i :: 0 <= i < |b| ==> b[i] in a;
    CanonicalIff(a, b);
  }

  /** An orderly list, as every list of absolute paths is, has no such names: normalising is idempotent and no order matters. */
  lemma OrderlyIsCanonical(a: seq<string>, b: seq<string>)
    requires Orderly(Tidied(a)) && Orderly(Tidied(b))
    ensures NormalizedOf(a) == NormalizedOf(b) <==> SameCoverage(a, b)
    ensures NormalizedOf(NormalizedOf(a)) == NormalizedOf(a)
  {
    OrderlyIffNoneEarly(Tidied(a));
    OrderlyIffNoneEarly(Tidied(b));
    CanonicalIff(a, b);
    IdempotentIff(a);
  }

  lemma NormalIsOrderly(r: seq<string>)
    requires Normal(r)
    ensures Orderly(Tidied(r)) && NormalizedOf(r) == r
  {
    TidyStays(r);
    forall m | 0 <= m < |r| && OneByte(r[m]) && "/" in r
      ensures false
    {
      TidyTrims("/");
      assert r[m] in r && Within(r[m], "/");
    }
    NormalizedIs(r);
    NormalFormIsNormal(NormalizedOf(r), r);
    SameElements(NormalizedOf(r), r);
    SortedIsUnique(NormalizedOf(r), r);
  }

  lemma OneLetter()
    ensures IsTidy("a") && IsTidy("/") && Tidy("a") == "a" && OneByte("a") && Before("/", "a") && !Before("a", "/")
  {
    assert "a"[..0] == [];
    TrimmedStops("a");
    RootIsShort();
    BeforeTotal("/", "a");
  }

  /** A list that is not orderly stays nested, and normalised again it is not. */
  lemma RelativeBeforeRoot()
    ensures NormalizedOf(["a", "/"]) == ["/", "a"]
  {
    var s, t := ["a", "/"], ["/", "a"];
    OneLetter();
    TidyStays(s);
    NormalizedIs(s);
    assert "/" !in s[..0];
    EarlyIn(s, "a", 0);
    forall x
      ensures x in NormalizedOf(s) <==> x in t
    {
      NormalizedWithRoot(s, x);
      EarlyIsBefore(s, 1, x);
    }
    SortedIsUnique(NormalizedOf(s), t);
  }

  lemma RootBeforeRelative()
    ensures NormalizedOf(["/", "a"]) == ["/"]
  {
    var t := ["/", "a"];
    OneLetter();
    TidyStays(t);
    NormalizedIs(t);
    forall x
      ensures x in NormalizedOf(t) <==> x in ["/"]
    {
      NormalizedWithRoot(t, x);
      NoneEarlyBehindRoot(t, x);
    }
    SortedIsUnique(NormalizedOf(t), ["/"]);
  }

  // ----- Changing the list -----

  lemma CoveredByOneMore(shares: seq<string>, p: string, path: string)
    ensures Covered(path, shares + [p]) <==> Covered(path, shares) || Within(path, p)
  {
    var more := shares + [p];
    if Covered(path, shares) {
      var i :| 0 <= i < |shares| && Within(path, shares[i]);
      assert Within(path, more[i]);
    }
    if Within(path, p) {
      assert Within(path, more[|shares|]);
    }
  }

  lemma WithinTrimmed(path: string, p: string)
    ensures Within(path, Trimmed(p)) <==> Within(path, p)
  {
    TrimmedStops(Trimmed(p));
  }

  /** A list that does not cover some path does not have the root. */
  lemma UncoveredIsOrderly(shares: seq<string>, path: string)
    requires !Covered(path, shares) && path != []
    ensures Orderly(Tidied(shares + [path])) || Tidy(path) == "/"
  {
    forall i | 0 <= i < |shares|
      ensures Tidy(shares[i]) != "/"
    {
      WithinTidy(path, shares[i]);
      TidyTrims("/");
    }
  }

  lemma {:induction false} TrimmedIsWithin(s: string)
    ensures Within(s, s)
  {
    var t := Trimmed(s);
    SlashesFollow(s);
  }

  lemma {:induction false} SlashesFollow(s: string)
    ensures s == Trimmed(s) || Trimmed(s) + "/" <= s
  {
    if s != [] && s[|s| - 1] == '/' {
      SlashesFollow(s[..|s| - 1]);
      assert s == s[..|s| - 1] + "/";
    }
  }

  /** Two shares, however written, that hold one path are nested. */
  lemma AnyNested(path: string, a: string, b: string)
    requires Within(path, a) && Within(path, b)
    ensures Within(a, b) || Within(b, a)
  {
    TidyIsTidy(a);
    TidyIsTidy(b);
    WithinTidy(path, a);
    WithinTidy(path, b);
    Nested(path, Tidy(a), Tidy(b));
    if Within(Tidy(a), Tidy(b)) {
      NamedWithin(a, b);
    } else {
      NamedWithin(b, a);
    }
  }

  lemma NamedWithin(a: string, b: string)
    requires Within(Tidy(a), Tidy(b))
    ensures Within(a, b)
  {
    TidyIsTidy(a);
    TidyIsTidy(b);
    SlashesFollow(a);
    TrimmedIsWithin(a);
    WithinTidy(a, a);
    WithinTransitive(a, Tidy(a), Tidy(b));
    WithinTidy(a, b);
  }

  ghost function Without(shares: seq<string>, n: nat): seq<string>
    requires n < |shares|
  {
    shares[..n] + shares[n + 1..]
  }

  lemma WithoutHolds(shares: seq<string>, n: nat, path: string)
    requires n < |shares|
    ensures Covered(path, Without(shares, n)) <==> exists i :: 0 <= i < |shares| && i != n && Within(path, shares[i])
  {
    var less := Without(shares, n);
    if Covered(path, less) {
      var i :| 0 <= i < |less| && Within(path, less[i]);
      assert shares[if i < n then i else i + 1] == less[i];
    }
    if i :| 0 <= i < |shares| && i != n && Within(path, shares[i]) {
      assert less[if i < n then i else i - 1] == shares[i];
    }
  }

  /** No other entry is in this one or around it. */
  ghost predicate StandsAlone(shares: seq<string>, n: nat)
    requires n < |shares|
  {
    forall i :: 0 <= i < |shares| && i != n ==> !Within(shares[i], shares[n]) && !Within(shares[n], shares[i])
  }

  /** Without an entry, exactly its paths are no longer covered. */
  ghost predicate LosesExactly(shares: seq<string>, n: nat)
    requires n < |shares|
  {
    forall path :: Covered(path, Without(shares, n)) <==> Covered(path, shares) && !Within(path, shares[n])
  }

  lemma AloneLosesExactly(shares: seq<string>, n: nat, path: string)
    requires n < |shares| && StandsAlone(shares, n)
    ensures Covered(path, Without(shares, n)) <==> Covered(path, shares) && !Within(path, shares[n])
  {
    WithoutHolds(shares, n, path);
    if i :| 0 <= i < |shares| && i != n && Within(path, shares[i]) {
      if Within(path, shares[n]) {
        AnyNested(path, shares[i], shares[n]);
      }
    }
  }

  /** Taking an entry off any list takes exactly its paths off what is covered if, and only if, it stands alone. */
  lemma LosesExactlyIffAlone(shares: seq<string>, n: nat)
    requires n < |shares|
    ensures LosesExactly(shares, n) <==> StandsAlone(shares, n)
  {
    if StandsAlone(shares, n) {
      forall path
        ensures Covered(path, Without(shares, n)) <==> Covered(path, shares) && !Within(path, shares[n])
      {
        AloneLosesExactly(shares, n, path);
      }
    } else {
      var i :| 0 <= i < |shares| && i != n && (Within(shares[i], shares[n]) || Within(shares[n], shares[i]));
      var path := if Within(shares[i], shares[n]) then shares[i] else shares[n];
      TrimmedIsWithin(path);
      WithoutHolds(shares, n, path);
      assert Covered(path, Without(shares, n)) && Within(path, shares[n]);
    }
  }

  lemma NormalStandsAlone(shares: seq<string>, n: nat)
    requires Normal(shares) && n < |shares|
    ensures StandsAlone(shares, n) && Normal(Without(shares, n))
  {
    var less := Without(shares, n);
    assert forall i :: 0 <= i < |less| ==> less[i] == shares[if i < n then i else i + 1];
    assert forall x :: x in less ==> x in shares;
    assert forall i :: 0 <= i < |shares| ==> shares[i] in shares;
  }

  class Config {
    /** Whatever the file says: only an older format's list is normalised when it is read. */
    var shares: seq<string>

    constructor (given: seq<string>)
      ensures shares == given
    {
      shares := given;
    }

    /**
     Shares a folder: the paths covered grow by exactly the folder's, and the list is normal, whatever
     it was. A relative path, the root or a folder already covered is refused.
     */
    method Share(path: string) returns (ok: bool)
      modifies this
      ensures ok <==> Absolute(Trimmed(path)) && !Covered(Trimmed(path), old(shares))
      ensures !ok ==> shares == old(shares)
      ensures ok ==> Normal(shares) && forall p :: Covered(p, shares) <==> Covered(p, old(shares)) || Within(p, path)
    {
      var trimmed := Trimmed(path);
      if trimmed == [] || trimmed[0] != '/' || exists i :: 0 <= i < |shares| && Within(trimmed, shares[i]) {
        return false;
      }
      UncoveredIsOrderly(shares, trimmed);
      TrimmedStops(trimmed);
      shares := Normalized(shares + [trimmed]);
      NormalFormIsNormal(shares, old(shares) + [trimmed]);
      forall p
        ensures Covered(p, old(shares) + [trimmed]) <==> Covered(p, old(shares)) || Within(p, path)
      {
        CoveredByOneMore(old(shares), trimmed, p);
        WithinTrimmed(p, path);
      }
      ok := true;
    }

    /**
     Takes the first entry of that name off the list: the paths covered shrink by exactly the folder's
     if, and only if, it stands alone, as every entry of a normal list does.
     */
    method Unshare(path: string) returns (ok: bool)
      modifies this
      ensures ok <==> Trimmed(path) in old(shares)
      ensures !ok ==> shares == old(shares)
      ensures ok ==> exists n :: 0 <= n < |old(shares)| && old(shares)[n] == Trimmed(path) && Trimmed(path) !in old(shares)[..n]
                              && shares == Without(old(shares), n)
                              && (LosesExactly(old(shares), n) <==> StandsAlone(old(shares), n))
                              && (Normal(old(shares)) ==> LosesExactly(old(shares), n) && Normal(shares))
    {
      var trimmed := Trimmed(path);
      for i := 0 to |shares|
        invariant shares == old(shares) && trimmed !in shares[..i]
      {
        if shares[i] == trimmed {
          LosesExactlyIffAlone(shares, i);
          if Normal(shares) {
            NormalStandsAlone(shares, i);
          }
          shares := shares[..i] + shares[i + 1..];
          return true;
        }
        assert shares[..i + 1] == shares[..i] + [shares[i]];
      }
      assert shares[..|shares|] == shares;
      ok := false;
    }
  }

  /** Every entry of a normal list can be unshared by its own name but the root, whose name is trimmed away before it is looked for. */
  lemma AllButTheRoot(shares: seq<string>, s: string)
    requires Normal(shares) && s in shares
    ensures Trimmed(s) in shares <==> s != "/"
  {
    TidyTrims(s);
    assert !IsTidy([]);
  }

  /** `upgraded_shares`: a list that names the home folder is read as the defaults and whatever else it named. */
  method Upgraded(shares: seq<string>, home: string) returns (r: seq<string>)
    ensures NamesFolder(shares, home) ==>
              forall p :: Covered(p, r) <==> Covered(p, DEFAULT_SHARES) || CoveredElsewhere(p, shares, home)
    ensures !NamesFolder(shares, home) ==> SameCoverage(r, shares)
    ensures AllAbsolute(shares) ==> Normal(r)
  {
    var given := if Names(shares, home) then DEFAULT_SHARES + Others(shares, home) else shares;
    r := Normalized(given);
    UpgradedCovers(shares, home);
    NamesIff(shares, home);
    forall p
      ensures Covered(p, Others(shares, home)) <==> CoveredElsewhere(p, shares, home)
    {
      OthersCover(shares, home, p);
    }
    if AllAbsolute(shares) {
      UpgradedIsNormal(shares, home, given, r);
    }
  }

  lemma UpgradedIsNormal(shares: seq<string>, home: string, given: seq<string>, r: seq<string>)
    requires AllAbsolute(shares) && (given == shares || given == DEFAULT_SHARES + Others(shares, home))
    requires Orderly(Tidied(given)) ==> NormalForm(r, given)
    ensures Normal(r)
  {
    OthersAreListed(shares, home);
    AbsoluteIsOrderly(given, Tidied(given));
    NormalFormIsNormal(r, given);
  }

  lemma UpgradedCovers(shares: seq<string>, home: string)
    ensures forall p :: Covered(p, DEFAULT_SHARES + Others(shares, home)) <==> Covered(p, DEFAULT_SHARES) || Covered(p, Others(shares, home))
  {
    forall p
      ensures Covered(p, DEFAULT_SHARES + Others(shares, home)) <==> Covered(p, DEFAULT_SHARES) || Covered(p, Others(shares, home))
    {
      CoveredByBoth(DEFAULT_SHARES, Others(shares, home), p);
    }
  }

  /** Whether the list names the home folder. */
  predicate Names(shares: seq<string>, home: string) {
    exists i :: 0 <= i < |shares| && Trimmed(shares[i]) == Trimmed(home)
  }

  function Slashes(n: nat): string {
    seq(n, _ => '/')
  }

  /** The same name, but for slashes at the end. */
  ghost predicate SameFolder(a: string, b: string) {
    exists x, m: nat, n: nat :: a == x + Slashes(m) && b == x + Slashes(n)
  }

  ghost predicate NamesFolder(shares: seq<string>, home: string) {
    exists i :: 0 <= i < |shares| && SameFolder(shares[i], home)
  }

  lemma {:induction false} SlashesTrimmed(x: string, n: nat)
    ensures Trimmed(x + Slashes(n)) == Trimmed(x)
  {
    var s := x + Slashes(n);
    if n > 0 {
      assert s[..|s| - 1] == x + Slashes(n - 1);
      SlashesTrimmed(x, n - 1);
    } else {
      assert s == x;
    }
  }

  lemma SameFolderIff(a: string, b: string)
    ensures SameFolder(a, b) <==> Trimmed(a) == Trimmed(b)
  {
    if x, m: nat, n: nat :| a == x + Slashes(m) && b == x + Slashes(n) {
      SlashesTrimmed(x, m);
      SlashesTrimmed(x, n);
    }
    if Trimmed(a) == Trimmed(b) {
      var x := Trimmed(a);
      assert a == x + Slashes(|a| - |x|) && b == x + Slashes(|b| - |x|);
    }
  }

  lemma NamesIff(shares: seq<string>, home: string)
    ensures Names(shares, home) <==> NamesFolder(shares, home)
  {
    forall i | 0 <= i < |shares|
      ensures SameFolder(shares[i], home) <==> Trimmed(shares[i]) == Trimmed(home)
    {
      SameFolderIff(shares[i], home);
    }
  }

  function Others(shares: seq<string>, home: string): seq<string> {
    if shares == [] then [] else (if Trimmed(shares[0]) != Trimmed(home) then [shares[0]] else []) + Others(shares[1..], home)
  }

  ghost predicate HeldElsewhere(path: string, share: string, home: string) {
    !SameFolder(share, home) && Within(path, share)
  }

  /** Some share that is not the home folder itself holds the path. */
  ghost predicate CoveredElsewhere(path: string, shares: seq<string>, home: string) {
    exists i :: 0 <= i < |shares| && HeldElsewhere(path, shares[i], home)
  }

  lemma ElsewhereFrom(path: string, shares: seq<string>, home: string)
    requires shares != []
    ensures CoveredElsewhere(path, shares, home) <==> HeldElsewhere(path, shares[0], home) || CoveredElsewhere(path, shares[1..], home)
  {
    if i :| 0 <= i < |shares[1..]| && HeldElsewhere(path, shares[1..][i], home) {
      assert shares[i + 1] == shares[1..][i];
    }
    if i :| 0 < i < |shares| && HeldElsewhere(path, shares[i], home) {
      assert shares[1..][i - 1] == shares[i];
    }
  }

  lemma OneCovers(path: string, share: string)
    ensures Covered(path, [share]) <==> Within(path, share)
  {
    assert [share][0] == share;
  }

  lemma {:induction false} OthersCover(shares: seq<string>, home: string, path: string)
    ensures Covered(path, Others(shares, home)) <==> CoveredElsewhere(path, shares, home)
  {
    if shares != [] {
      OthersCover(shares[1..], home, path);
      SameFolderIff(shares[0], home);
      ElsewhereFrom(path, shares, home);
      if Trimmed(shares[0]) != Trimmed(home) {
        CoveredByBoth([shares[0]], Others(shares[1..], home), path);
        OneCovers(path, shares[0]);
      } else {
        assert [] + Others(shares[1..], home) == Others(shares[1..], home);
      }
    }
  }

  lemma {:induction false} OthersAreListed(shares: seq<string>, home: string)
    requires AllAbsolute(shares)
    ensures AllAbsolute(Others(shares, home))
  {
    if shares != [] {
      OthersAreListed(shares[1..], home);
    }
  }

  lemma CoveredByBoth(a: seq<string>, b: seq<string>, path: string)
    ensures Covered(path, a + b) <==> Covered(path, a) || Covered(path, b)
  {
    if Covered(path, a) {
      var i :| 0 <= i < |a| && Within(path, a[i]);
      assert (a + b)[i] == a[i];
    }
    if Covered(path, b) {
      var i :| 0 <= i < |b| && Within(path, b[i]);
      assert (a + b)[|a| + i] == b[i];
    }
  }
}
