/** Which generations of an installation are surplus: not the selected one, not the newest other, none in use. */
module Prune {
  import opened Basics
  import opened Sorting

  /** A path as its components. */
  type Path = seq<string>

  datatype Entry = Entry(name: string, isDir: bool)

  // ----- Versions -----

  datatype Version = Version(major: nat, minor: nat, patch: nat)

  predicate IsDigit(c: char) {
    '0' <= c <= '9'
  }

  /** A decimal without leading zeros that fits 64 bits. */
  function Decimal(s: string): (r: Option<nat>)
    ensures r.Some? ==> r.value < 0x1_0000_0000_0000_0000
  {
    if s == [] || (exists i :: 0 <= i < |s| && !IsDigit(s[i])) || (|s| > 1 && s[0] == '0') then None
    else
      var n := Digits(s);
      if n < 0x1_0000_0000_0000_0000 then Some(n) else None
  }

  function Digits(s: string): nat
    requires forall i :: 0 <= i < |s| ==> IsDigit(s[i])
  {
    if s == [] then 0
    else
      assert IsDigit(s[|s| - 1]);
      10 * Digits(s[..|s| - 1]) + (s[|s| - 1] as int - '0' as int)
  }

  /** The part before the first dot, and what follows the dot if there is one. */
  function Cut(s: string): (r: (string, Option<string>)) {
    if s == [] then ([], None)
    else if s[0] == '.' then ([], Some(s[1..]))
    else
      var (head, rest) := Cut(s[1..]);
      ([s[0]] + head, rest)
  }

  /** A stable version: three decimals and nothing else. */
  function StableVersion(name: string): Option<Version> {
    var (a, rest) := Cut(name);
    if rest.None? then None
    else
      var (b, last) := Cut(rest.value);
      if last.None? then None
      else
        var x, y, z := Decimal(a), Decimal(b), Decimal(last.value);
        if x.Some? && y.Some? && z.Some? then Some(Version(x.value, y.value, z.value)) else None
  }

  predicate VersionLess(a: Version, b: Version) {
    a.major < b.major || (a.major == b.major && (a.minor < b.minor || (a.minor == b.minor && a.patch < b.patch)))
  }

  // ----- Versions as they are written -----

  function Decimals(n: nat): string {
    (if n < 10 then "" else Decimals(n / 10)) + [DigitOf(n % 10)]
  }

  function DigitOf(d: nat): char
    requires d < 10
  {
    "0123456789"[d]
  }

  lemma DigitIsRead(d: nat)
    requires d < 10
    ensures IsDigit(DigitOf(d)) && DigitOf(d) as int - '0' as int == d
  {
  }

  lemma ReadsDigit(c: char)
    requires IsDigit(c)
    ensures DigitOf(c as int - '0' as int) == c
  {
  }

  function Written(v: Version): string {
    Decimals(v.major) + "." + Decimals(v.minor) + "." + Decimals(v.patch)
  }

  ghost predicate AllDigits(s: string) {
    forall i :: 0 <= i < |s| ==> IsDigit(s[i])
  }

  /** The version's numbers fit 64 bits. */
  ghost predicate Fits(v: Version) {
    v.major < 0x1_0000_0000_0000_0000 && v.minor < 0x1_0000_0000_0000_0000 && v.patch < 0x1_0000_0000_0000_0000
  }

  lemma {:induction false} DecimalsAreRead(n: nat)
    ensures Decimals(n) != "" && AllDigits(Decimals(n)) && Digits(Decimals(n)) == n
    ensures Decimals(n)[0] == '0' ==> n == 0 && |Decimals(n)| == 1
  {
    DigitIsRead(n % 10);
    if n >= 10 {
      DecimalsAreRead(n / 10);
      assert Decimals(n)[..|Decimals(n)| - 1] == Decimals(n / 10);
      assert Decimals(n)[0] == Decimals(n / 10)[0];
    } else {
      assert Decimals(n) == [DigitOf(n)];
      assert Decimals(n)[..0] == "";
    }
  }

  lemma LastDigit(s: string, front: string, d: nat)
    requires s != "" && AllDigits(s) && front == s[..|s| - 1] && d == s[|s| - 1] as int - '0' as int
    ensures d < 10 && DigitOf(d) == s[|s| - 1] && s == front + [DigitOf(d)] && Digits(s) == 10 * Digits(front) + d
  {
    assert IsDigit(s[|s| - 1]);
    ReadsDigit(s[|s| - 1]);
  }

  lemma OneDigitMore(q: nat, d: nat, n: nat)
    requires d < 10 && n == 10 * q + d
    ensures Decimals(n) == if q == 0 then [DigitOf(d)] else Decimals(q) + [DigitOf(d)]
  {
    assert n / 10 == q && n % 10 == d;
  }

  lemma {:induction false} ReadIsDecimals(s: string, n: nat)
    requires s != "" && AllDigits(s) && (s[0] == '0' ==> |s| == 1) && n == Digits(s)
    ensures s == Decimals(n)
  {
    var front, d: nat := s[..|s| - 1], s[|s| - 1] as int - '0' as int;
    LastDigit(s, front, d);
    var q := Digits(front);
    OneDigitMore(q, d, n);
    if front != "" {
      ReadIsDecimals(front, q);
      NotZero(front);
    }
  }

  lemma {:induction false} NotZero(s: string)
    requires s != "" && AllDigits(s) && s[0] != '0'
    ensures Digits(s) > 0
  {
    if |s| > 1 {
      NotZero(s[..|s| - 1]);
    }
  }

  lemma DecimalIffWritten(s: string, n: nat)
    ensures Decimal(s) == Some(n) <==> n < 0x1_0000_0000_0000_0000 && s == Decimals(n)
  {
    DecimalsAreRead(n);
    if s != "" && AllDigits(s) && (s[0] == '0' ==> |s| == 1) {
      ReadIsDecimals(s, Digits(s));
    }
  }

  lemma {:induction false} CutAtDot(a: string, b: string)
    requires '.' !in a
    ensures Cut(a + "." + b) == (a, Some(b))
  {
    if a == "" {
      assert a + "." + b == "." + b;
    } else {
      assert (a + "." + b)[1..] == a[1..] + "." + b;
      CutAtDot(a[1..], b);
      assert a == [a[0]] + a[1..];
    }
  }

  lemma {:induction false} CutJoins(s: string)
    ensures var (a, rest) := Cut(s); '.' !in a && s == if rest.Some? then a + "." + rest.value else a
  {
    if s != "" && s[0] != '.' {
      CutJoins(s[1..]);
    }
  }

  lemma NoDotInDecimals(n: nat)
    ensures '.' !in Decimals(n)
  {
    DecimalsAreRead(n);
    assert !IsDigit('.');
  }

  /** A name is a stable version exactly when it is the version written out. */
  lemma StableIffWritten(name: string, v: Version)
    ensures StableVersion(name) == Some(v) <==> Fits(v) && name == Written(v)
  {
    if StableVersion(name) == Some(v) {
      StableIsWritten(name, v);
    }
    if Fits(v) && name == Written(v) {
      WrittenIsStable(v);
    }
  }

  lemma StableIsWritten(name: string, v: Version)
    requires StableVersion(name) == Some(v)
    ensures Fits(v) && name == Written(v)
  {
    var a, b, c := StableParts(name, v);
    DecimalIffWritten(a, v.major);
    DecimalIffWritten(b, v.minor);
    DecimalIffWritten(c, v.patch);
  }

  lemma StableParts(name: string, v: Version) returns (a: string, b: string, c: string)
    requires StableVersion(name) == Some(v)
    ensures name == a + "." + b + "." + c
    ensures Decimal(a) == Some(v.major) && Decimal(b) == Some(v.minor) && Decimal(c) == Some(v.patch)
  {
    var rest := Cut(name).1.value;
    a, b, c := Cut(name).0, Cut(rest).0, Cut(rest).1.value;
    CutJoins(name);
    CutJoins(rest);
    DotsJoin(a, b, c);
  }

  lemma DotsJoin(a: string, b: string, c: string)
    ensures a + "." + (b + "." + c) == a + "." + b + "." + c
  {
  }

  lemma WrittenIsStable(v: Version)
    requires Fits(v)
    ensures StableVersion(Written(v)) == Some(v)
  {
    var a, b, c := Decimals(v.major), Decimals(v.minor), Decimals(v.patch);
    NoDotInDecimals(v.major);
    NoDotInDecimals(v.minor);
    assert Written(v) == a + "." + (b + "." + c);
    CutAtDot(a, b + "." + c);
    CutAtDot(b, c);
    DecimalIffWritten(a, v.major);
    DecimalIffWritten(b, v.minor);
    DecimalIffWritten(c, v.patch);
  }

  /** A version as one number: its three in a row of 64 bits each. */
  ghost function Number(v: Version): nat {
    (v.major * 0x1_0000_0000_0000_0000 + v.minor) * 0x1_0000_0000_0000_0000 + v.patch
  }

  /** Of two generations named for versions, the one of the greater version ranks higher. */
  lemma NewerRanksHigher(v: Version, w: Version)
    requires Fits(v) && Fits(w)
    ensures Less(Written(v), Written(w)) <==> Number(v) < Number(w)
  {
    WrittenIsStable(v);
    WrittenIsStable(w);
    LessTotal(Written(v), Written(w));
  }

  /** No version ranks below every version. */
  predicate RankLess(a: Option<Version>, b: Option<Version>) {
    b.Some? && (a.None? || VersionLess(a.value, b.value))
  }

  /** The order generations are sorted in: by version, then by name. */
  predicate Less(a: string, b: string) {
    RankLess(StableVersion(a), StableVersion(b)) || (StableVersion(a) == StableVersion(b) && TextLess(a, b))
  }

  lemma LessTotal(a: string, b: string)
    ensures a == b || Less(a, b) || Less(b, a)
    ensures !(Less(a, b) && Less(b, a))
  {
    TextTotal(a, b);
  }

  lemma LessTransitive(a: string, b: string, c: string)
    requires Less(a, b) && Less(b, c)
    ensures Less(a, c)
  {
    if TextLess(a, b) && TextLess(b, c) {
      TextTransitive(a, b, c);
    }
  }

  /** An adopted generation ranks below every version. */
  lemma LegacyRanksLowest(hash: string, name: string)
    requires StableVersion(name).Some?
    ensures Less("legacy-" + hash, name)
  {
    var legacy := "legacy-" + hash;
    assert legacy[0] == 'l';
    assert Cut(legacy).0[0] == 'l';
    assert !IsDigit(Cut(legacy).0[0]);
  }

  lemma LessIsWeak()
    ensures Weak(Less)
  {
    forall a, b
      ensures Less(a, b) ==> !Less(b, a)
    {
      LessTotal(a, b);
    }
    forall a, b, c | !Less(b, a) && !Less(c, b)
      ensures !Less(c, a)
    {
      LessTotal(a, b);
      LessTotal(b, c);
      LessTotal(a, c);
      if Less(a, b) && Less(b, c) {
        LessTransitive(a, b, c);
      }
    }
  }

  /** What is left of a sorted list without its last is what something in it exceeds. */
  lemma PopTakesTheGreatest(s: seq<string>, x: string)
    requires Sorted(Less, s) && NoDup(s) && s != []
    ensures x in s[..|s| - 1] <==> x in s && exists y :: y in s && Less(x, y)
  {
    var n := |s| - 1;
    if i :| 0 <= i < n && s[i] == x {
      LessTotal(x, s[n]);
      assert s[n] in s && Less(x, s[n]);
    }
    if x in s && exists y :: y in s && Less(x, y) {
      var y :| y in s && Less(x, y);
      LessTotal(x, y);
      var i :| 0 <= i <= n && s[i] == y;
      assert i == n || !Less(s[n], s[i]);
    }
  }

  // ----- surplus -----

  /** A generation other than the selected one; dot-named directories are an installer's staging. */
  predicate IsOther(e: Entry, releases: Path, current: Path) {
    !(e.name != [] && e.name[0] == '.') && e.isDir && releases + [e.name] != current
  }

  /** Some running executable was started from the generation. */
  predicate InUse(path: Path, running: seq<Path>) {
    exists i :: 0 <= i < |running| && path <= running[i]
  }

  /** The generations other than the selected one. */
  ghost predicate Other(entries: seq<Entry>, releases: Path, current: Path, name: string) {
    exists i :: 0 <= i < |entries| && entries[i].name == name && IsOther(entries[i], releases, current)
  }

  /** A generation to delete: neither the selected one nor the greatest other, and not in use. */
  ghost predicate IsSurplus(entries: seq<Entry>, releases: Path, current: Path, running: seq<Path>, name: string) {
    && Other(entries, releases, current, name)
    && (exists next :: Other(entries, releases, current, next) && Less(name, next))
    && !InUse(releases + [name], running)
  }

  ghost predicate DistinctNames(entries: seq<Entry>) {
    forall i, j :: 0 <= i < j < |entries| ==> entries[i].name != entries[j].name
  }

  method Others(releases: Path, entries: seq<Entry>, current: Path) returns (others: seq<string>)
    requires DistinctNames(entries)
    ensures NoDup(others)
    ensures forall name :: name in others <==> Other(entries, releases, current, name)
  {
    others := [];
    for i := 0 to |entries|
      invariant NoDup(others)
      invariant forall name :: name in others <==> Other(entries[..i], releases, current, name)
    {
      OtherOfOneMore(entries, releases, current, i);
      if IsOther(entries[i], releases, current) {
        others := others + [entries[i].name];
      }
    }
    assert entries[..|entries|] == entries;
  }

  lemma OtherOfOneMore(entries: seq<Entry>, releases: Path, current: Path, i: nat)
    requires i < |entries|
    ensures DistinctNames(entries) ==> !Other(entries[..i], releases, current, entries[i].name)
    ensures forall name :: Other(entries[..i + 1], releases, current, name) <==>
              Other(entries[..i], releases, current, name) || (name == entries[i].name && IsOther(entries[i], releases, current))
  {
    forall name
      ensures Other(entries[..i + 1], releases, current, name) <==>
              Other(entries[..i], releases, current, name) || (name == entries[i].name && IsOther(entries[i], releases, current))
    {
      assert entries[..i + 1] == entries[..i] + [entries[i]];
      if Other(entries[..i], releases, current, name) {
        var j :| 0 <= j < i && entries[..i][j].name == name && IsOther(entries[..i][j], releases, current);
        assert entries[..i + 1][j].name == name;
      }
      if name == entries[i].name && IsOther(entries[i], releases, current) {
        assert entries[..i + 1][i].name == name;
      }
    }
  }

  /** The generations to delete, exactly. */
  method Surplus(releases: Path, entries: seq<Entry>, current: Path, running: seq<Path>) returns (r: seq<string>)
    requires DistinctNames(entries)
    ensures forall name :: name in r <==> IsSurplus(entries, releases, current, running, name)
  {
    var others := Others(releases, entries, current);
    LessIsWeak();
    SortSorts(Less, others);
    SortNoDup(Less, others);
    var sorted := Sort(Less, others);
    forall name
      ensures name in sorted <==> Other(entries, releases, current, name)
    {
      SortHolds(Less, others, name);
    }
    var older := sorted;
    if sorted != [] {
      older := sorted[..|sorted| - 1];
      forall name
        ensures name in older <==> name in sorted && exists y :: y in sorted && Less(name, y)
      {
        PopTakesTheGreatest(sorted, name);
      }
    }
    r := [];
    for i := 0 to |older|
      invariant forall name :: name in r <==> name in older[..i] && !InUse(releases + [name], running)
    {
      assert older[..i + 1] == older[..i] + [older[i]];
      if !InUse(releases + [older[i]], running) {
        r := r + [older[i]];
      }
    }
    assert older[..|older|] == older;
  }

  /** A generation named for a version goes exactly when nothing runs from it and there is one of a later version that is not the selected one. */
  lemma SurplusIffOlder(entries: seq<Entry>, releases: Path, current: Path, running: seq<Path>, v: Version)
    requires Fits(v) && Entry(Written(v), true) in entries && current != releases + [Written(v)]
    ensures IsSurplus(entries, releases, current, running, Written(v)) <==>
            && (forall i :: 0 <= i < |running| ==> !(releases + [Written(v)] <= running[i]))
            && exists w :: Fits(w) && Number(v) < Number(w) && Entry(Written(w), true) in entries && current != releases + [Written(w)]
  {
    WrittenIsOther(entries, releases, current, v);
    if w :| Fits(w) && Number(v) < Number(w) && Entry(Written(w), true) in entries && current != releases + [Written(w)] {
      NewerRanksHigher(v, w);
      WrittenIsOther(entries, releases, current, w);
    }
    if next :| Other(entries, releases, current, next) && Less(Written(v), next) {
      var w := OnlyVersionsOutrank(v, next);
      NewerRanksHigher(v, w);
    }
  }

  lemma OnlyVersionsOutrank(v: Version, next: string) returns (w: Version)
    requires Fits(v) && Less(Written(v), next)
    ensures Fits(w) && next == Written(w)
  {
    WrittenIsStable(v);
    w := StableVersion(next).value;
    StableIffWritten(next, w);
  }

  lemma WrittenIsOther(entries: seq<Entry>, releases: Path, current: Path, v: Version)
    requires Entry(Written(v), true) in entries && current != releases + [Written(v)]
    ensures Other(entries, releases, current, Written(v))
  {
    var i :| 0 <= i < |entries| && entries[i] == Entry(Written(v), true);
    DecimalsAreRead(v.major);
    assert Written(v)[0] == Decimals(v.major)[0];
    assert (releases + [Written(v)])[..|releases|] == releases;
    assert IsOther(entries[i], releases, current);
  }

  /** What is never deleted. */
  lemma NeverSurplus(entries: seq<Entry>, releases: Path, current: Path, running: seq<Path>, name: string)
    requires IsSurplus(entries, releases, current, running, name)
    ensures releases + [name] != current && forall i :: 0 <= i < |running| ==> !(releases + [name] <= running[i])
    ensures Entry(name, true) in entries && (name != "" ==> name[0] != '.')
    ensures exists kept :: Other(entries, releases, current, kept) && !IsSurplus(entries, releases, current, running, kept) && Less(name, kept)
  {
    var next :| Other(entries, releases, current, next) && Less(name, next);
    var n := Greatest(entries, releases, current);
    assert n == next || Less(next, n);
    if n != next {
      LessTransitive(name, next, n);
    }
    assert !IsSurplus(entries, releases, current, running, n) by {
      if y :| Other(entries, releases, current, y) && Less(n, y) {
        LessTotal(n, y);
      }
    }
  }

  lemma {:induction false} Greatest(entries: seq<Entry>, releases: Path, current: Path) returns (n: string)
    requires exists name :: Other(entries, releases, current, name)
    ensures Other(entries, releases, current, n)
    ensures forall name :: Other(entries, releases, current, name) ==> name == n || Less(name, n)
  {
    var before, last := entries[..|entries| - 1], entries[|entries| - 1];
    OtherOfOneMore(entries, releases, current, |before|);
    assert entries[..|before| + 1] == entries && entries[..|before|] == before;
    assert forall name :: Other(entries, releases, current, name) <==>
             Other(before, releases, current, name) || (name == last.name && IsOther(last, releases, current));
    n := last.name;
    if exists name :: Other(before, releases, current, name) {
      var m := Greatest(before, releases, current);
      LessTotal(m, n);
      if !IsOther(last, releases, current) || Less(n, m) {
        n := m;
      } else {
        forall name | Other(before, releases, current, name)
          ensures name == n || Less(name, n)
        {
          if name != m && m != n {
            LessTransitive(name, m, n);
          }
        }
      }
    }
  }
}
