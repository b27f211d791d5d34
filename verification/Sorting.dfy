/** Sorting by an order under which different things may rank the same, and the order of text. */
module Sorting {
  import opened Basics

  // ----- Sorting -----

  /** A strict weak order. */
  ghost predicate Weak<T(!new)>(less: (T, T) -> bool) {
    && (forall a, b :: less(a, b) ==> !less(b, a))
    && (forall a, b, c :: !less(b, a) && !less(c, b) ==> !less(c, a))
  }

  ghost predicate Sorted<T>(less: (T, T) -> bool, s: seq<T>) {
    forall i, j :: 0 <= i < j < |s| ==> !less(s[j], s[i])
  }

  function Insert<T>(less: (T, T) -> bool, x: T, s: seq<T>): seq<T> {
    if s == [] then [x] else if less(s[0], x) then [s[0]] + Insert(less, x, s[1..]) else [x] + s
  }

  function Sort<T>(less: (T, T) -> bool, s: seq<T>): seq<T> {
    if s == [] then [] else Insert(less, s[0], Sort(less, s[1..]))
  }

  lemma {:induction false} InsertHolds<T>(less: (T, T) -> bool, x: T, s: seq<T>, y: T)
    ensures y in Insert(less, x, s) <==> y == x || y in s
  {
    if s != [] && less(s[0], x) {
      InsertHolds(less, x, s[1..], y);
    }
  }

  lemma {:induction false} SortHolds<T>(less: (T, T) -> bool, s: seq<T>, y: T)
    ensures y in Sort(less, s) <==> y in s
  {
    if s != [] {
      SortHolds(less, s[1..], y);
      InsertHolds(less, s[0], Sort(less, s[1..]), y);
    }
  }

  lemma SortedFrom<T>(less: (T, T) -> bool, x: T, s: seq<T>)
    requires Sorted(less, s) && forall y :: y in s ==> !less(y, x)
    ensures Sorted(less, [x] + s)
  {
  }

  lemma {:induction false} InsertSorts<T(!new)>(less: (T, T) -> bool, x: T, s: seq<T>)
    requires Weak(less) && Sorted(less, s)
    ensures Sorted(less, Insert(less, x, s))
  {
    if s != [] {
      if less(s[0], x) {
        InsertSorts(less, x, s[1..]);
        forall y | y in Insert(less, x, s[1..])
          ensures !less(y, s[0])
        {
          InsertHolds(less, x, s[1..], y);
        }
        SortedFrom(less, s[0], Insert(less, x, s[1..]));
      } else {
        forall y | y in s
          ensures !less(y, x)
        {
          assert y != s[0] ==> !less(y, s[0]);
        }
        SortedFrom(less, x, s);
      }
    }
  }

  lemma {:induction false} SortSorts<T(!new)>(less: (T, T) -> bool, s: seq<T>)
    requires Weak(less)
    ensures Sorted(less, Sort(less, s))
  {
    if s != [] {
      SortSorts(less, s[1..]);
      InsertSorts(less, s[0], Sort(less, s[1..]));
    }
  }

  lemma {:induction false} InsertNoDup<T>(less: (T, T) -> bool, x: T, s: seq<T>)
    requires NoDup(s) && x !in s
    ensures NoDup(Insert(less, x, s))
  {
    if s != [] && less(s[0], x) {
      InsertNoDup(less, x, s[1..]);
      InsertHolds(less, x, s[1..], s[0]);
    }
  }

  lemma {:induction false} SortNoDup<T>(less: (T, T) -> bool, s: seq<T>)
    requires NoDup(s)
    ensures NoDup(Sort(less, s))
  {
    if s != [] {
      SortNoDup(less, s[1..]);
      SortHolds(less, s[1..], s[0]);
      InsertNoDup(less, s[0], Sort(less, s[1..]));
    }
  }

  predicate Tie<T>(less: (T, T) -> bool, x: T, y: T) {
    !less(x, y) && !less(y, x)
  }

  /** Those that rank with `x`, in their order. */
  function Ties<T>(less: (T, T) -> bool, x: T, s: seq<T>): seq<T> {
    if s == [] then [] else IfTie(less, x, s[0]) + Ties(less, x, s[1..])
  }

  function IfTie<T>(less: (T, T) -> bool, x: T, y: T): seq<T> {
    if Tie(less, x, y) then [y] else []
  }

  lemma TiesFrom<T>(less: (T, T) -> bool, x: T, y: T, s: seq<T>)
    ensures Ties(less, x, [y] + s) == IfTie(less, x, y) + Ties(less, x, s)
  {
    assert ([y] + s)[1..] == s;
  }

  lemma EitherOrder<T>(a: seq<T>, b: seq<T>, c: seq<T>)
    requires a == [] || b == []
    ensures a + (b + c) == b + (a + c)
  {
    assert a + (b + c) == a + b + c && b + (a + c) == b + a + c;
  }

  lemma TieClash<T(!new)>(less: (T, T) -> bool, z: T, y: T, x: T)
    requires Weak(less) && less(z, y) && Tie(less, x, y)
    ensures !Tie(less, x, z)
  {
  }

  lemma {:induction false} InsertTies<T>(less: (T, T) -> bool, y: T, s: seq<T>, x: T)
    requires forall z :: z in s && less(z, y) && Tie(less, x, y) ==> !Tie(less, x, z)
    ensures Ties(less, x, Insert(less, y, s)) == IfTie(less, x, y) + Ties(less, x, s)
  {
    if s != [] && less(s[0], y) {
      InsertTies(less, y, s[1..], x);
      TiesFrom(less, x, s[0], Insert(less, y, s[1..]));
      EitherOrder(IfTie(less, x, s[0]), IfTie(less, x, y), Ties(less, x, s[1..]));
    } else {
      TiesFrom(less, x, y, s);
    }
  }

  /** Sorting is stable: what ranks the same stays in order. */
  lemma {:induction false} SortStable<T(!new)>(less: (T, T) -> bool, s: seq<T>, x: T)
    requires Weak(less)
    ensures Ties(less, x, Sort(less, s)) == Ties(less, x, s)
  {
    if s != [] {
      SortStable(less, s[1..], x);
      var rest := Sort(less, s[1..]);
      forall z | z in rest && less(z, s[0]) && Tie(less, x, s[0])
        ensures !Tie(less, x, z)
      {
        TieClash(less, z, s[0], x);
      }
      InsertTies(less, s[0], rest, x);
    }
  }

  // ----- Text -----

  /** The order of text, by its characters; that of its bytes is the same. */
  predicate TextLess(a: string, b: string) {
    b != [] && (a == [] || a[0] < b[0] || (a[0] == b[0] && TextLess(a[1..], b[1..])))
  }

  lemma {:induction false} TextTotal(a: string, b: string)
    ensures a == b || TextLess(a, b) || TextLess(b, a)
    ensures !(TextLess(a, b) && TextLess(b, a))
  {
    if a != [] && b != [] {
      TextTotal(a[1..], b[1..]);
      assert a == [a[0]] + a[1..] && b == [b[0]] + b[1..];
    }
  }

  lemma {:induction false} TextTransitive(a: string, b: string, c: string)
    requires TextLess(a, b) && TextLess(b, c)
    ensures TextLess(a, c)
  {
    if a != [] && a[0] == b[0] == c[0] {
      TextTransitive(a[1..], b[1..], c[1..]);
    }
  }
}
