/**
 The port reconciler: bringing the host's forwards to a desired set through a mapper that may
 refuse to open or to withdraw any of them, a port at a time and all of its addresses or none.
 */
module Ports {
  import opened Basics
  import opened Sorting

  datatype Proto = Tcp | Udp
  datatype Addr = V4(bits: nat) | V6(bits: nat)
  datatype Published = Published(addr: Addr, port: nat, proto: Proto)

  /** A protocol and port: the addresses published on it stand or fall together. */
  datatype Group = Group(proto: Proto, port: nat)

  /** A port that could not be forwarded, and the binding whose refusal was the reason. */
  datatype Unforwarded = Unforwarded(proto: Proto, port: nat, addrs: seq<Addr>, reason: Published)

  datatype Call = Expose(p: Published) | Unexpose(p: Published)
  datatype Made = Made(call: Call, ok: bool)

  /** What is recorded, what the mapper has open, and every call made of the mapper. */
  datatype Ports = Ports(forwarded: set<Published>, failed: map<Group, Unforwarded>, open: set<Published>, made: seq<Made>)

  function GroupOf(p: Published): Group {
    Group(p.proto, p.port)
  }

  function Members(desired: set<Published>, g: Group): set<Published> {
    set p | p in desired && GroupOf(p) == g
  }

  function Groups(desired: set<Published>): set<Group> {
    set p | p in desired :: GroupOf(p)
  }

  // ----- Order -----

  predicate Before(a: Addr, b: Addr) {
    (a.V4? && b.V6?) || (a.V4? && b.V4? && a.bits < b.bits) || (a.V6? && b.V6? && a.bits < b.bits)
  }

  ghost predicate Ascending(s: seq<Addr>) {
    forall i, j :: 0 <= i < j < |s| ==> Before(s[i], s[j])
  }

  function Addrs(s: seq<Published>): (r: seq<Addr>)
    ensures |r| == |s| && forall i :: 0 <= i < |s| ==> r[i] == s[i].addr
  {
    seq(|s|, i requires 0 <= i < |s| => s[i].addr)
  }

  /** The addresses of a group, each once, in ascending order. */
  ghost predicate Lists(addrs: seq<Addr>, members: set<Published>) {
    Ascending(addrs) && Elements(addrs) == set p | p in members :: p.addr
  }

  /** Ascending is the older family first, and by number within each. */
  lemma AscendingIs(addrs: seq<Addr>, i: nat, j: nat)
    requires Ascending(addrs) && i < j < |addrs|
    ensures addrs[i].V6? ==> addrs[j].V6?
    ensures (addrs[i].V4? && addrs[j].V4?) || (addrs[i].V6? && addrs[j].V6?) ==> addrs[i].bits < addrs[j].bits
  {
    assert Before(addrs[i], addrs[j]);
  }

  /** The order of bindings of one port, whose addresses alone differ. */
  predicate ByAddr(a: Published, b: Published) {
    Before(a.addr, b.addr)
  }

  ghost predicate Apart(s: seq<Published>) {
    forall i, j :: 0 <= i < j < |s| ==> s[i].addr != s[j].addr
  }

  lemma SortApart(s: seq<Published>)
    requires Apart(s)
    ensures Elements(Sort(ByAddr, s)) == Elements(s) && Ascending(Addrs(Sort(ByAddr, s)))
  {
    var t := Sort(ByAddr, s);
    assert Weak(ByAddr);
    SortSorts(ByAddr, s);
    SortNoDup(ByAddr, s);
    forall p
      ensures p in t <==> p in s
    {
      SortHolds(ByAddr, s, p);
    }
    forall i, j | 0 <= i < j < |t|
      ensures Before(t[i].addr, t[j].addr)
    {
      assert t[i] in s && t[j] in s && t[i] != t[j];
      assert !ByAddr(t[j], t[i]);
    }
  }

  // ----- What is asked of the mapper -----

  ghost predicate AllWithdrawn(made: seq<Made>, n: nat) {
    forall i :: n <= i < |made| && made[i].call.Unexpose? ==> made[i].ok
  }

  ghost predicate NoneRefused(made: seq<Made>, n: nat) {
    forall i :: n <= i < |made| && made[i].call.Expose? ==> made[i].ok
  }

  /** What a mapper that started with nothing has open after these calls: a call that fails changes nothing. */
  ghost function OpenBy(made: seq<Made>): set<Published> {
    if made == [] then {}
    else
      var before, last := OpenBy(made[..|made| - 1]), made[|made| - 1];
      if !last.ok then before
      else
        match last.call
        case Expose(p) => before + {p}
        case Unexpose(p) => before - {p}
  }

  ghost predicate Answered(answers: (nat, Call) -> bool, made: seq<Made>) {
    forall i: nat {:trigger answers(i, made[i].call)} :: i < |made| ==> made[i].ok == answers(i, made[i].call)
  }

  /** An answer that is never given is not among those heard. */
  lemma NeverHeard(answers: (nat, Call) -> bool, made: seq<Made>, call: Call, ok: bool)
    requires Answered(answers, made) && forall i: nat :: answers(i, call) != ok
    ensures Made(call, ok) !in made
  {
    forall i: nat | i < |made|
      ensures made[i] != Made(call, ok)
    {
      assert made[i].ok == answers(i, made[i].call);
    }
  }

  class Mapper {
    /** What the host answers to the n-th call: anything. */
    const answers: (nat, Call) -> bool
    var open: set<Published>
    var made: seq<Made>

    ghost predicate Valid()
      reads this
    {
      open == OpenBy(made) && Answered(answers, made)
    }

    constructor (answers: (nat, Call) -> bool)
      ensures Valid() && this.answers == answers && made == []
    {
      this.answers := answers;
      open := {};
      made := [];
    }

    method Expose(p: Published) returns (ok: bool)
      requires Valid()
      modifies this
      ensures Valid() && made == old(made) + [Made(Call.Expose(p), ok)]
      ensures open == if ok then old(open) + {p} else old(open)
    {
      ok := answers(|made|, Call.Expose(p));
      made := made + [Made(Call.Expose(p), ok)];
      if ok {
        open := open + {p};
      }
    }

    method Unexpose(p: Published) returns (ok: bool)
      requires Valid()
      modifies this
      ensures Valid() && made == old(made) + [Made(Call.Unexpose(p), ok)]
      ensures open == if ok then old(open) - {p} else old(open)
    {
      ok := answers(|made|, Call.Unexpose(p));
      made := made + [Made(Call.Unexpose(p), ok)];
      if ok {
        open := open - {p};
      }
    }
  }

  // ----- Withdrawing -----

  /** Forwards no longer wanted, but for the `rest`, are withdrawn, and forgotten if that succeeds. */
  ghost predicate Withdrawn(a: Ports, b: Ports, desired: set<Published>, rest: set<Published>) {
    && a.made <= b.made && b.failed == a.failed
    && b.forwarded <= a.forwarded && a.forwarded * desired <= b.forwarded
    && rest <= b.forwarded - desired
    && (a.forwarded <= a.open ==> b.forwarded <= b.open)
    && (AllWithdrawn(b.made, |a.made|) ==> b.forwarded == a.forwarded * desired + rest)
    && (AllWithdrawn(b.made, |a.made|) && a.forwarded == a.open ==> b.forwarded == b.open)
    && NoneRefused(b.made, |a.made|)
    && (b.made == a.made ==> b == a)
    && (b.made == a.made <==> rest == a.forwarded - desired)
    && (forall p :: p in a.forwarded && p !in b.forwarded ==> Made(Unexpose(p), true) in b.made[|a.made|..])
  }

  /** The state after a withdrawal that was answered `ok`. */
  ghost function AfterUnexpose(b: Ports, p: Published, ok: bool): Ports {
    Ports(if ok then b.forwarded - {p} else b.forwarded, b.failed, if ok then b.open - {p} else b.open, b.made + [Made(Unexpose(p), ok)])
  }

  lemma WithdrawOne(a: Ports, b: Ports, desired: set<Published>, rest: set<Published>, p: Published, ok: bool)
    requires Withdrawn(a, b, desired, rest) && p in rest
    ensures Withdrawn(a, AfterUnexpose(b, p, ok), desired, rest - {p})
  {
    var c := AfterUnexpose(b, p, ok);
    assert c.made[|b.made|] == Made(Unexpose(p), ok);
    assert c.made[|a.made|..] == b.made[|a.made|..] + [Made(Unexpose(p), ok)];
    assert AllWithdrawn(c.made, |a.made|) <==> AllWithdrawn(b.made, |a.made|) && ok by {
      AddCall(b.made, Made(Unexpose(p), ok), |a.made|);
    }
    assert NoneRefused(c.made, |a.made|) by {
      AddCall(b.made, Made(Unexpose(p), ok), |a.made|);
    }
  }

  lemma AddCall(made: seq<Made>, one: Made, n: nat)
    requires n <= |made|
    ensures AllWithdrawn(made + [one], n) <==> AllWithdrawn(made, n) && (one.call.Unexpose? ==> one.ok)
    ensures NoneRefused(made + [one], n) <==> NoneRefused(made, n) && (one.call.Expose? ==> one.ok)
  {
    var more := made + [one];
    assert more[|made|] == one;
    assert forall i :: n <= i < |made| ==> more[i] == made[i];
  }

  // ----- Trying a port -----

  /** Those of `s` that are in `held`, or that are not. */
  function Sift(s: seq<Published>, held: set<Published>, inside: bool): seq<Published> {
    if s == [] then []
    else if (s[0] in held) == inside then [s[0]] + Sift(s[1..], held, inside)
    else Sift(s[1..], held, inside)
  }

  lemma {:induction false} SiftSifts(s: seq<Published>, held: set<Published>, inside: bool)
    ensures Elements(Sift(s, held, inside)) == if inside then Elements(s) * held else Elements(s) - held
  {
    if s != [] {
      assert s == [s[0]] + s[1..];
      SiftSifts(s[1..], held, inside);
      assert Elements([s[0]] + s[1..]) == {s[0]} + Elements(s[1..]);
      assert Elements([s[0]] + Sift(s[1..], held, inside)) == {s[0]} + Elements(Sift(s[1..], held, inside));
    }
  }

  lemma AllHeld(s: seq<Published>, held: set<Published>)
    requires Sift(s, held, false) == []
    ensures Elements(s) <= held
  {
    SiftSifts(s, held, false);
    assert Elements(s) - held == Elements<Published>([]);
    forall p | p in Elements(s)
      ensures p in held
    {
      assert p !in Elements(s) - held;
    }
  }

  /** What every try keeps, whatever the mapper answers: only the port's own bindings change. */
  ghost predicate Framed(a: Ports, b: Ports, m: set<Published>, g: Group) {
    && a.made <= b.made
    && a.forwarded - m == b.forwarded - m
    && a.failed - {g} == b.failed - {g}
    && (a.forwarded <= a.open ==> b.forwarded <= b.open)
    && (AllWithdrawn(b.made, |a.made|) && a.forwarded == a.open ==> b.forwarded == b.open)
    && (forall p :: p in b.forwarded && p !in a.forwarded ==> Made(Expose(p), true) in b.made[|a.made|..])
  }

  /** A record of the port's own failure: its protocol, its number, and every address of it in order. */
  ghost predicate Records(failure: Unforwarded, m: set<Published>, g: Group) {
    failure.proto == g.proto && failure.port == g.port && Lists(failure.addrs, m)
  }

  /** The reason on record is one of the port's own bindings, which the mapper refused since. */
  ghost predicate Refused(made: seq<Made>, n: nat, m: set<Published>, failure: Unforwarded) {
    n <= |made| && failure.reason in m && Made(Expose(failure.reason), false) in made[n..]
  }

  /** A port that is not all forwarded is opened on every address, or closed on every one with the failure on record. */
  ghost predicate Tried(a: Ports, b: Ports, m: set<Published>, g: Group) {
    && Framed(a, b, m, g)
    && if m <= a.forwarded then b == a
       else
         && a.made < b.made
         && (|| (m <= b.forwarded && g !in b.failed)
             || (m !! b.forwarded && g in b.failed && Records(b.failed[g], m, g) && Refused(b.made, |a.made|, m, b.failed[g])))
  }

  lemma LeftAlone(a: Ports, m: set<Published>, g: Group)
    requires m <= a.forwarded
    ensures Tried(a, a, m, g)
  {
  }

  lemma OpenedAll(a: Ports, b: Ports, m: set<Published>, g: Group)
    requires a.made < b.made && !(m <= a.forwarded)
    requires b.forwarded == a.forwarded + (m - a.forwarded) && b.open == a.open + (m - a.forwarded) && b.failed == a.failed - {g}
    requires forall p :: p in m - a.forwarded ==> Made(Expose(p), true) in b.made[|a.made|..]
    ensures Tried(a, b, m, g)
  {
  }

  lemma ClosedAll(a: Ports, made: seq<Made>, b: Ports, m: set<Published>, g: Group, held: seq<Published>, bound: seq<Published>)
    requires a.made < made <= b.made && !(m <= a.forwarded)
    requires Elements(held) == m * a.forwarded && Elements(bound) <= m - a.forwarded
    requires AllWithdrawn(made, |a.made|)
    requires b.forwarded == a.forwarded - Elements(held + bound)
    requires a.open + Elements(bound) - Elements(held + bound) <= b.open
    requires AllWithdrawn(b.made, |made|) ==> b.open == a.open + Elements(bound) - Elements(held + bound)
    requires b.failed - {g} == a.failed - {g} && g in b.failed && Records(b.failed[g], m, g) && Refused(made, |a.made|, m, b.failed[g])
    ensures Tried(a, b, m, g)
  {
    assert Elements(held + bound) == Elements(held) + Elements(bound);
    assert b.forwarded == a.forwarded - m;
    StillRefused(made, b.made, |a.made|, |a.made|, m, b.failed[g]);
  }

  lemma StillRefused(made: seq<Made>, more: seq<Made>, n: nat, k: nat, m: set<Published>, failure: Unforwarded)
    requires made <= more && k <= n && Refused(made, n, m, failure)
    ensures Refused(more, k, m, failure) && !NoneRefused(more, k)
  {
    var i :| 0 <= i < |made[n..]| && made[n..][i] == Made(Expose(failure.reason), false);
    assert more[k..][n - k + i] == made[n + i] == more[n + i];
  }

  lemma NoneRefusedMeans(made: seq<Made>, n: nat, k: nat, m: set<Published>, failure: Unforwarded)
    requires k <= n && NoneRefused(made, k)
    ensures !Refused(made, n, m, failure)
  {
    if Refused(made, n, m, failure) {
      StillRefused(made, made, n, k, m, failure);
    }
  }

  lemma AddrsOfMembers(members: seq<Published>)
    requires Ascending(Addrs(members))
    ensures Lists(Addrs(members), Elements(members))
  {
    var addrs, all := Elements(Addrs(members)), set p | p in Elements(members) :: p.addr;
    forall x
      ensures x in addrs <==> x in all
    {
      if x in addrs {
        var i :| 0 <= i < |members| && Addrs(members)[i] == x;
        assert members[i] in Elements(members);
      }
      if x in all {
        var p :| p in Elements(members) && p.addr == x;
        var i :| 0 <= i < |members| && members[i] == p;
        assert Addrs(members)[i] == x;
      }
    }
  }

  // ----- A pass over every desired port -----

  ghost predicate SameRecord(a: Ports, b: Ports, g: Group) {
    (g in b.failed <==> g in a.failed) && (g in b.failed && g in a.failed ==> b.failed[g] == a.failed[g])
  }

  ghost predicate GroupSettled(a: Ports, b: Ports, m: set<Published>, g: Group) {
    if m <= a.forwarded then m <= b.forwarded && SameRecord(a, b, g)
    else
      || (m <= b.forwarded && g !in b.failed)
      || (m !! b.forwarded && g in b.failed && Records(b.failed[g], m, g) && Refused(b.made, |a.made|, m, b.failed[g]))
  }

  ghost predicate GroupWaits(a: Ports, b: Ports, m: set<Published>, g: Group) {
    m * a.forwarded == m * b.forwarded && SameRecord(a, b, g)
  }

  /** Every desired port but those still to do has been tried. */
  ghost predicate Passed(a: Ports, b: Ports, desired: set<Published>, todo: set<Group>) {
    && a.made <= b.made
    && a.forwarded - desired == b.forwarded - desired
    && b.failed.Keys <= Groups(desired)
    && (forall g :: g in todo ==> GroupWaits(a, b, Members(desired, g), g))
    && (forall g :: g in Groups(desired) - todo ==> GroupSettled(a, b, Members(desired, g), g))
    && (a.forwarded <= a.open ==> b.forwarded <= b.open)
    && (AllWithdrawn(b.made, |a.made|) && a.forwarded == a.open ==> b.forwarded == b.open)
    && (forall p :: p in b.forwarded && p !in a.forwarded ==> Made(Expose(p), true) in b.made[|a.made|..])
    && (b.made == a.made ==> b == a)
    && (b.made == a.made <==> forall g :: g in Groups(desired) - todo ==> Members(desired, g) <= a.forwarded)
  }

  lemma GroupsApart(desired: set<Published>, g: Group, h: Group)
    requires g != h
    ensures Members(desired, g) !! Members(desired, h)
  {
  }

  lemma DisjointMeet(m: set<Published>, s: set<Published>)
    ensures m !! s <==> m * s == {}
  {
    if m * s == {} {
      forall p | p in m
        ensures p !in s
      {
        assert p !in m * s;
      }
    }
  }

  lemma OthersUntouched(a: Ports, b: Ports, c: Ports, desired: set<Published>, g: Group, h: Group)
    requires Framed(b, c, Members(desired, g), g) && g != h && a.made <= b.made
    ensures GroupWaits(a, b, Members(desired, h), h) ==> GroupWaits(a, c, Members(desired, h), h)
    ensures GroupSettled(a, b, Members(desired, h), h) ==> GroupSettled(a, c, Members(desired, h), h)
  {
    var m := Members(desired, h);
    GroupsApart(desired, g, h);
    assert m * b.forwarded == m * (b.forwarded - Members(desired, g));
    assert m * c.forwarded == m * (c.forwarded - Members(desired, g));
    assert m <= b.forwarded <==> m * b.forwarded == m;
    assert m <= c.forwarded <==> m * c.forwarded == m;
    assert h in b.failed <==> h in b.failed - {g};
    assert h in c.failed <==> h in c.failed - {g};
    DisjointMeet(m, b.forwarded);
    DisjointMeet(m, c.forwarded);
    assert h in b.failed ==> b.failed[h] == (b.failed - {g})[h];
    assert h in c.failed ==> c.failed[h] == (c.failed - {g})[h];
    if h in b.failed && Refused(b.made, |a.made|, m, b.failed[h]) {
      StillRefused(b.made, c.made, |a.made|, |a.made|, m, b.failed[h]);
    }
  }

  lemma ThisSettled(a: Ports, b: Ports, c: Ports, m: set<Published>, g: Group)
    requires a.made <= b.made && GroupWaits(a, b, m, g) && Tried(b, c, m, g)
    ensures GroupSettled(a, c, m, g)
  {
    assert m <= a.forwarded <==> m * a.forwarded == m;
    assert m <= b.forwarded <==> m * b.forwarded == m;
    if g in c.failed && Refused(c.made, |b.made|, m, c.failed[g]) {
      StillRefused(c.made, c.made, |b.made|, |a.made|, m, c.failed[g]);
    }
  }

  lemma TriedOpens(a: Ports, b: Ports, c: Ports, m: set<Published>, g: Group)
    requires a.made <= b.made && Framed(b, c, m, g)
    requires a.forwarded <= a.open ==> b.forwarded <= b.open
    requires AllWithdrawn(b.made, |a.made|) && a.forwarded == a.open ==> b.forwarded == b.open
    requires forall p :: p in b.forwarded && p !in a.forwarded ==> Made(Expose(p), true) in b.made[|a.made|..]
    ensures a.forwarded <= a.open ==> c.forwarded <= c.open
    ensures AllWithdrawn(c.made, |a.made|) && a.forwarded == a.open ==> c.forwarded == c.open
    ensures forall p :: p in c.forwarded && p !in a.forwarded ==> Made(Expose(p), true) in c.made[|a.made|..]
  {
    assert AllWithdrawn(c.made, |a.made|) ==> AllWithdrawn(b.made, |a.made|) && AllWithdrawn(c.made, |b.made|);
    assert c.made[|a.made|..] == b.made[|a.made|..] + c.made[|b.made|..];
  }

  lemma TriedCalls(a: Ports, b: Ports, c: Ports, desired: set<Published>, todo: set<Group>, g: Group)
    requires Passed(a, b, desired, todo) && g in todo && g in Groups(desired) && Tried(b, c, Members(desired, g), g)
    ensures c.made == a.made ==> c == a
    ensures c.made == a.made <==> forall h :: h in Groups(desired) - (todo - {g}) ==> Members(desired, h) <= a.forwarded
  {
    var m := Members(desired, g);
    assert m <= a.forwarded <==> m * a.forwarded == m;
    assert m <= b.forwarded <==> m * b.forwarded == m;
    assert Groups(desired) - (todo - {g}) == Groups(desired) - todo + {g};
    assert b.made == a.made && c.made == b.made <==> c.made == a.made;
  }

  lemma OneMorePassed(a: Ports, b: Ports, c: Ports, desired: set<Published>, todo: set<Group>, g: Group)
    requires Passed(a, b, desired, todo) && g in todo && g in Groups(desired) && Tried(b, c, Members(desired, g), g)
    ensures Passed(a, c, desired, todo - {g})
  {
    forall h | h in todo - {g}
      ensures GroupWaits(a, c, Members(desired, h), h)
    {
      OthersUntouched(a, b, c, desired, g, h);
    }
    forall h | h in Groups(desired) - (todo - {g})
      ensures GroupSettled(a, c, Members(desired, h), h)
    {
      if h == g {
        ThisSettled(a, b, c, Members(desired, g), g);
      } else {
        OthersUntouched(a, b, c, desired, g, h);
      }
    }
    assert a.forwarded - desired == c.forwarded - desired by {
      assert b.forwarded - desired == b.forwarded - Members(desired, g) - desired;
      assert c.forwarded - desired == c.forwarded - Members(desired, g) - desired;
    }
    assert c.failed.Keys <= Groups(desired) by {
      assert forall h :: h in c.failed && h != g ==> h in c.failed - {g};
    }
    TriedOpens(a, b, c, Members(desired, g), g);
    TriedCalls(a, b, c, desired, todo, g);
  }

  // ----- What a whole pass gives -----

  ghost predicate SamePort(p: Published, q: Published) {
    p.proto == q.proto && p.port == q.port
  }

  /** Every desired port is forwarded on all its addresses or on none. */
  ghost predicate AllOrNone(forwarded: set<Published>, desired: set<Published>) {
    forall p, q :: p in desired && q in desired && SamePort(p, q) && p in forwarded ==> q in forwarded
  }

  /** The ports of `desired` that are forwarded nowhere. */
  ghost function Closed(forwarded: set<Published>, desired: set<Published>): set<Group> {
    set g | g in Groups(desired) && Members(desired, g) !! forwarded
  }

  /** No port on record as failed is one whose every desired address is already forwarded. */
  ghost predicate NoneStale(a: Ports, desired: set<Published>) {
    forall g :: g in Groups(desired) && Members(desired, g) <= a.forwarded ==> g !in a.failed
  }

  /** What is recorded is what is open, and no port on record as failed has a forward. */
  ghost predicate Clean(a: Ports) {
    a.forwarded == a.open && forall p :: p in a.forwarded ==> GroupOf(p) !in a.failed
  }

  /** Records of failures at ports nobody wants any more are dropped. */
  ghost predicate Retained(a: Ports, b: Ports, desired: set<Published>) {
    b.forwarded == a.forwarded && b.open == a.open && b.made == a.made && b.failed == (map g | g in a.failed && g in Groups(desired) :: a.failed[g])
  }

  /** One call of `apply`, from its start to its end. */
  ghost predicate Applied(a: Ports, d: Ports, desired: set<Published>) {
    d.open == OpenBy(d.made) && exists b, c :: Through(a, b, c, d, desired)
  }

  datatype Stage = TheWithdrawals | TheRecords | TheTries

  ghost predicate Does(stage: Stage, a: Ports, b: Ports, c: Ports, d: Ports, desired: set<Published>) {
    match stage
    case TheWithdrawals => Withdrawn(a, b, desired, {})
    case TheRecords => Retained(b, c, desired)
    case TheTries => Passed(c, d, desired, {})
  }

  ghost predicate Through(a: Ports, b: Ports, c: Ports, d: Ports, desired: set<Published>) {
    forall stage {:trigger Does(stage, a, b, c, d, desired)} :: Does(stage, a, b, c, d, desired)
  }

  lemma Stages(a: Ports, d: Ports, desired: set<Published>) returns (b: Ports, c: Ports)
    requires Applied(a, d, desired)
    ensures Withdrawn(a, b, desired, {}) && Retained(b, c, desired) && Passed(c, d, desired, {})
  {
    b, c :| Through(a, b, c, d, desired);
    assert Does(TheWithdrawals, a, b, c, d, desired) && Does(TheRecords, a, b, c, d, desired) && Does(TheTries, a, b, c, d, desired);
  }

  lemma AllStages(a: Ports, b: Ports, c: Ports, d: Ports, desired: set<Published>)
    requires d.open == OpenBy(d.made)
    requires Withdrawn(a, b, desired, {}) && Retained(b, c, desired) && Passed(c, d, desired, {})
    ensures Applied(a, d, desired)
  {
    assert Through(a, b, c, d, desired);
  }

  lemma MembersAreWanted(desired: set<Published>, p: Published)
    requires p in desired
    ensures p in Members(desired, GroupOf(p)) && GroupOf(p) in Groups(desired)
  {
  }

  lemma SomeMember(desired: set<Published>, g: Group) returns (p: Published)
    requires g in Groups(desired)
    ensures p in Members(desired, g)
  {
    p :| p in desired && GroupOf(p) == g;
  }

  /** Whatever the mapper answers: all or none of each port, and nothing recorded as open that is not. */
  lemma AppliedAllOrNone(a: Ports, d: Ports, desired: set<Published>)
    requires Applied(a, d, desired)
    ensures a.made <= d.made && AllOrNone(d.forwarded, desired)
    ensures a.forwarded <= a.open ==> d.forwarded <= d.open
    ensures d.failed.Keys <= Groups(desired)
  {
    var b, c := Stages(a, d, desired);
    forall p, q | p in desired && q in desired && SamePort(p, q) && p in d.forwarded
      ensures q in d.forwarded
    {
      assert GroupSettled(c, d, Members(desired, GroupOf(p)), GroupOf(p));
      assert p in Members(desired, GroupOf(p)) && q in Members(desired, GroupOf(p));
    }
  }

  /** A desired binding is left closed only if the mapper refused one of its own port in this very pass: no port pays for another. */
  lemma ClosedOnlyIfRefused(a: Ports, d: Ports, desired: set<Published>, p: Published) returns (q: Published)
    requires Applied(a, d, desired) && p in desired && p !in d.forwarded
    ensures q in desired && SamePort(p, q) && |a.made| <= |d.made| && Made(Expose(q), false) in d.made[|a.made|..]
  {
    var g := GroupOf(p);
    AppliedAllOrNone(a, d, desired);
    forall r | r in Members(desired, g)
      ensures r !in d.forwarded
    {
      assert SamePort(r, p);
    }
    FailedNamesEveryAddress(a, d, desired, g);
    q := d.failed[g].reason;
  }

  lemma WantedKept(a: Ports, b: Ports, desired: set<Published>, m: set<Published>)
    requires Withdrawn(a, b, desired, {}) && m <= desired
    ensures m <= a.forwarded <==> m <= b.forwarded
  {
    assert forall p :: p in m && p in a.forwarded ==> p in a.forwarded * desired;
  }

  /** The record of failures is exactly the closed ports if, and only if, none of it was stale. */
  lemma FailedIsClosedIffNoneStale(a: Ports, d: Ports, desired: set<Published>)
    requires Applied(a, d, desired)
    ensures d.failed.Keys == Closed(d.forwarded, desired) <==> NoneStale(a, desired)
  {
    var b, c := Stages(a, d, desired);
    forall g | g in Groups(desired)
      ensures (g in d.failed <==> g in Closed(d.forwarded, desired)) <==> (Members(desired, g) <= a.forwarded ==> g !in a.failed)
    {
      assert GroupSettled(c, d, Members(desired, g), g);
      WantedKept(a, b, desired, Members(desired, g));
      var p := SomeMember(desired, g);
    }
    if d.failed.Keys == Closed(d.forwarded, desired) {
      assert forall g :: g in d.failed <==> g in Closed(d.forwarded, desired);
    } else if NoneStale(a, desired) {
      assert forall g :: g in d.failed.Keys <==> g in Closed(d.forwarded, desired);
    }
  }

  /** The failure on record names every address of a closed port, in order, and the one that was refused. */
  lemma FailedNamesEveryAddress(a: Ports, d: Ports, desired: set<Published>, g: Group)
    requires Applied(a, d, desired) && g in Closed(d.forwarded, desired)
    ensures g in d.failed && Records(d.failed[g], Members(desired, g), g)
    ensures Refused(d.made, |a.made|, Members(desired, g), d.failed[g])
  {
    var b, c := Stages(a, d, desired);
    assert GroupSettled(c, d, Members(desired, g), g);
    var p := SomeMember(desired, g);
    StillRefused(d.made, d.made, |c.made|, |a.made|, Members(desired, g), d.failed[g]);
  }

  lemma CleanIsNotStale(a: Ports, desired: set<Published>)
    requires Clean(a)
    ensures NoneStale(a, desired)
  {
    forall g | g in Groups(desired) && Members(desired, g) <= a.forwarded
      ensures g !in a.failed
    {
      var p := SomeMember(desired, g);
      assert p in a.forwarded && GroupOf(p) == g;
    }
  }

  lemma LaterCallsToo(made: seq<Made>, n: nat, m: nat)
    requires n <= m
    ensures AllWithdrawn(made, n) ==> AllWithdrawn(made, m)
    ensures NoneRefused(made, n) ==> NoneRefused(made, m)
  {
  }

  lemma EarlierCallsToo(made: seq<Made>, more: seq<Made>, n: nat)
    requires made <= more
    ensures AllWithdrawn(more, n) ==> AllWithdrawn(made, n)
  {
  }

  /**
   If withdrawals succeed: what is recorded is what is open, nothing is forwarded that is not
   desired, and the failures on record are exactly the closed ports. The next pass starts as clean.
   */
  lemma WithdrawalsSucceed(a: Ports, d: Ports, desired: set<Published>)
    requires Applied(a, d, desired) && Clean(a) && AllWithdrawn(d.made, |a.made|)
    ensures Clean(d) && d.forwarded <= desired
    ensures d.failed.Keys == Closed(d.forwarded, desired)
  {
    var b, c := Stages(a, d, desired);
    LaterCallsToo(d.made, |a.made|, |c.made|);
    EarlierCallsToo(b.made, d.made, |a.made|);
    CleanIsNotStale(a, desired);
    FailedIsClosedIffNoneStale(a, d, desired);
    OnlyDesired(a, d, desired);
    forall p | p in d.forwarded
      ensures GroupOf(p) !in d.failed
    {
      MembersAreWanted(desired, p);
    }
  }

  lemma NoneClosed(desired: set<Published>)
    ensures Closed(desired, desired) == {}
  {
    forall g | g in Groups(desired)
      ensures g !in Closed(desired, desired)
    {
      var p := SomeMember(desired, g);
    }
  }

  lemma OnlyDesired(a: Ports, d: Ports, desired: set<Published>)
    requires Applied(a, d, desired) && AllWithdrawn(d.made, |a.made|)
    ensures d.forwarded <= desired
  {
    var b, c := Stages(a, d, desired);
    EarlierCallsToo(b.made, d.made, |a.made|);
    assert c.forwarded - desired == {};
    assert d.forwarded - desired == {};
    forall p | p in d.forwarded
      ensures p in desired
    {
      assert p !in d.forwarded - desired;
    }
  }

  lemma AllDesired(a: Ports, d: Ports, desired: set<Published>)
    requires Applied(a, d, desired) && NoneRefused(d.made, |a.made|)
    ensures desired <= d.forwarded
  {
    var b, c := Stages(a, d, desired);
    forall p | p in desired
      ensures p in d.forwarded
    {
      var g := GroupOf(p);
      MembersAreWanted(desired, p);
      assert GroupSettled(c, d, Members(desired, g), g);
      if g in d.failed {
        NoneRefusedMeans(d.made, |c.made|, |a.made|, Members(desired, g), d.failed[g]);
      }
    }
  }

  /**
   From any state at all, if withdrawals succeed and nothing is refused, a pass reaches exactly what
   is desired, and nothing is left on record as failed exactly if no record was stale; from a clean
   state that is what is open, too.
   */
  lemma Converges(a: Ports, d: Ports, desired: set<Published>)
    requires Applied(a, d, desired) && AllWithdrawn(d.made, |a.made|) && NoneRefused(d.made, |a.made|)
    ensures d.forwarded == desired && (d.failed.Keys == {} <==> NoneStale(a, desired))
    ensures Clean(a) ==> d.open == desired && d.failed.Keys == {}
  {
    OnlyDesired(a, d, desired);
    AllDesired(a, d, desired);
    FailedIsClosedIffNoneStale(a, d, desired);
    NoneClosed(desired);
    if Clean(a) {
      WithdrawalsSucceed(a, d, desired);
    }
  }

  /** A pass asks nothing of the mapper exactly when what is desired is what is forwarded. */
  lemma QuietIffConverged(a: Ports, d: Ports, desired: set<Published>)
    requires Applied(a, d, desired)
    ensures d.made == a.made <==> a.forwarded == desired
    ensures d.made == a.made ==> d.forwarded == a.forwarded && d.open == a.open
  {
    var b, c := Stages(a, d, desired);
    assert d.made == a.made <==> b.made == a.made && d.made == b.made;
    if a.forwarded == desired {
      assert a.forwarded - desired == {};
      forall g | g in Groups(desired)
        ensures Members(desired, g) <= c.forwarded
      {
        WantedKept(a, b, desired, Members(desired, g));
      }
    }
    if d.made == a.made {
      assert a.forwarded - desired == {};
      forall p | p in desired
        ensures p in a.forwarded
      {
        MembersAreWanted(desired, p);
        assert Members(desired, GroupOf(p)) <= c.forwarded;
      }
    }
  }

  // ----- Every history -----

  const NOTHING := Ports({}, map[], {}, [])

  /** Passes over one desired set after another, from nothing forwarded. */
  ghost predicate IsHistory(states: seq<Ports>, wanted: seq<set<Published>>) {
    && |states| == |wanted| + 1 && states[0] == NOTHING
    && forall i :: 0 <= i < |wanted| ==> Applied(states[i], states[i + 1], wanted[i])
  }

  /** A failure on record is of its own port: the mapper was asked for one of its addresses, and refused. */
  ghost predicate Explained(made: seq<Made>, g: Group, failure: Unforwarded) {
    && failure.proto == g.proto == failure.reason.proto && failure.port == g.port == failure.reason.port
    && failure.reason.addr in failure.addrs && Made(Expose(failure.reason), false) in made
  }

  ghost predicate AllExplained(a: Ports) {
    forall g :: g in a.failed ==> Explained(a.made, g, a.failed[g])
  }

  lemma RefusedIsExplained(a: Ports, d: Ports, m: set<Published>, g: Group)
    requires forall p :: p in m ==> GroupOf(p) == g
    requires g in d.failed && Records(d.failed[g], m, g) && Refused(d.made, |a.made|, m, d.failed[g])
    ensures Explained(d.made, g, d.failed[g])
  {
    assert d.failed[g].reason.addr in Elements(d.failed[g].addrs);
  }

  lemma AppliedExplains(a: Ports, d: Ports, desired: set<Published>)
    requires Applied(a, d, desired) && AllExplained(a)
    ensures AllExplained(d)
  {
    var b, c := Stages(a, d, desired);
    forall g | g in d.failed
      ensures Explained(d.made, g, d.failed[g])
    {
      var m := Members(desired, g);
      assert GroupSettled(c, d, m, g);
      if m <= c.forwarded {
        assert c.failed[g] == a.failed[g] && a.made <= d.made;
        assert Explained(a.made, g, a.failed[g]);
      } else {
        RefusedIsExplained(c, d, m, g);
      }
    }
  }

  /** After any history, refusals and failed withdrawals included, a port is all or none, and what is recorded is open. */
  lemma {:induction false} EveryHistory(states: seq<Ports>, wanted: seq<set<Published>>, n: nat)
    requires IsHistory(states, wanted) && n <= |wanted|
    ensures states[n].forwarded <= states[n].open == OpenBy(states[n].made)
    ensures n > 0 ==> AllOrNone(states[n].forwarded, wanted[n - 1])
    ensures n > 0 ==> states[n - 1].made <= states[n].made
    ensures AllExplained(states[n])
  {
    if n > 0 {
      EveryHistory(states, wanted, n - 1);
      AppliedExplains(states[n - 1], states[n], wanted[n - 1]);
      AppliedAllOrNone(states[n - 1], states[n], wanted[n - 1]);
    }
  }

  /** After any history in which withdrawals succeed, the record of forwards and failures is exact. */
  lemma {:induction false} EveryCleanHistory(states: seq<Ports>, wanted: seq<set<Published>>, n: nat)
    requires IsHistory(states, wanted) && n <= |wanted| && AllWithdrawn(states[n].made, 0)
    ensures Clean(states[n])
    ensures n > 0 ==> states[n].forwarded <= wanted[n - 1]
    ensures n > 0 ==> states[n].failed.Keys == Closed(states[n].forwarded, wanted[n - 1])
    ensures n > 0 ==> forall g :: g in states[n].failed ==> Records(states[n].failed[g], Members(wanted[n - 1], g), g)
  {
    if n > 0 {
      EveryHistory(states, wanted, n);
      EarlierCallsToo(states[n - 1].made, states[n].made, 0);
      EveryCleanHistory(states, wanted, n - 1);
      LaterCallsToo(states[n].made, 0, |states[n - 1].made|);
      WithdrawalsSucceed(states[n - 1], states[n], wanted[n - 1]);
      forall g | g in states[n].failed
        ensures Records(states[n].failed[g], Members(wanted[n - 1], g), g)
      {
        FailedNamesEveryAddress(states[n - 1], states[n], wanted[n - 1], g);
      }
    }
  }

  lemma OneMember(p: Published)
    ensures Groups({p}) == {GroupOf(p)} && Members({p}, GroupOf(p)) == {p}
  {
  }

  lemma FirstPass(a: Published, d: Ports)
    requires Applied(NOTHING, d, {a}) && Made(Expose(a), false) !in d.made
    ensures d.forwarded == {a} && d.failed.Keys == {}
  {
    var b, c := Stages(NOTHING, d, {a});
    OneMember(a);
    assert GroupSettled(c, d, {a}, GroupOf(a));
    assert d.forwarded - {a} == {};
  }

  lemma SecondPass(a: Published, x: Published, s: Ports, d: Ports)
    requires a != x && GroupOf(a) == GroupOf(x) && s.forwarded == {a} && Applied(s, d, {x})
    requires Made(Unexpose(a), true) !in d.made && Made(Expose(x), true) !in d.made
    ensures d.forwarded == {a} && d.failed.Keys == {GroupOf(a)}
  {
    var b, c := Stages(s, d, {x});
    OneMember(x);
    assert GroupSettled(c, d, {x}, GroupOf(x));
    assert a in b.forwarded;
    assert a in c.forwarded - {x} && d.forwarded - {x} == {a};
  }

  lemma ThirdPass(a: Published, s: Ports, d: Ports)
    requires s.forwarded == {a} && s.failed.Keys == {GroupOf(a)} && Applied(s, d, {a})
    ensures d.forwarded == {a} && d.failed.Keys == {GroupOf(a)}
  {
    var b, c := Stages(s, d, {a});
    OneMember(a);
    assert s.forwarded - {a} == {};
    assert forall g :: g in Groups({a}) ==> Members({a}, g) <= c.forwarded;
  }

  lemma AppendOne(seen: set<Published>, p: Published, was: seq<Published>)
    requires p !in seen && Apart(was) && Elements(was) == Members(seen, GroupOf(p))
    ensures Apart(was + [p]) && Elements(was + [p]) == Members(seen + {p}, GroupOf(p))
  {
    assert Elements(was + [p]) == Elements(was) + {p};
    assert Members(seen + {p}, GroupOf(p)) == Members(seen, GroupOf(p)) + {p};
    forall i | 0 <= i < |was|
      ensures was[i].addr != p.addr
    {
      assert was[i] in Elements(was);
    }
  }

  lemma NothingTried(c: Ports, desired: set<Published>)
    requires c.failed.Keys <= Groups(desired)
    ensures Passed(c, c, desired, Groups(desired))
  {
    assert Groups(desired) - Groups(desired) == {};
  }

  class Forwards {
    const mapper: Mapper
    var forwarded: set<Published>
    var failed: map<Group, Unforwarded>

    ghost function Value(): Ports
      reads this, mapper
    {
      Ports(forwarded, failed, mapper.open, mapper.made)
    }

    ghost predicate Valid()
      reads this, mapper
    {
      mapper.Valid()
    }

    constructor (mapper: Mapper)
      requires mapper.Valid()
      ensures Valid() && this.mapper == mapper && forwarded == {} && failed == map[]
    {
      this.mapper := mapper;
      forwarded := {};
      failed := map[];
    }

    method WithdrawGone(desired: set<Published>)
      requires Valid()
      modifies this`forwarded, mapper
      ensures Valid() && Withdrawn(old(Value()), Value(), desired, {})
    {
      var rest := forwarded - desired;
      while rest != {}
        invariant Valid() && Withdrawn(old(Value()), Value(), desired, rest)
        decreases rest
      {
        var gone :| gone in rest;
        ghost var before := Value();
        var ok := mapper.Unexpose(gone);
        if ok {
          forwarded := forwarded - {gone};
        }
        WithdrawOne(old(Value()), before, desired, rest, gone, ok);
        assert Value() == AfterUnexpose(before, gone, ok);
        rest := rest - {gone};
      }
    }

    /** Opens the bindings in turn until one is refused. */
    method Open(missing: seq<Published>) returns (bound: seq<Published>, refused: bool, culprit: Published)
      requires Valid() && missing != []
      modifies mapper
      ensures Valid() && old(mapper.made) < mapper.made && AllWithdrawn(mapper.made, |old(mapper.made)|)
      ensures mapper.open == old(mapper.open) + Elements(bound)
      ensures forall p :: p in bound ==> p in missing && Made(Expose(p), true) in mapper.made[|old(mapper.made)|..]
      ensures !refused ==> bound == missing
      ensures refused ==> culprit in missing && Made(Expose(culprit), false) in mapper.made[|old(mapper.made)|..]
    {
      bound, refused, culprit := [], false, missing[0];
      for i := 0 to |missing|
        invariant Valid() && !refused && bound == missing[..i]
        invariant old(mapper.made) <= mapper.made && (i > 0 ==> |mapper.made| > |old(mapper.made)|)
        invariant AllWithdrawn(mapper.made, |old(mapper.made)|)
        invariant mapper.open == old(mapper.open) + Elements(bound)
        invariant forall p :: p in bound ==> Made(Expose(p), true) in mapper.made[|old(mapper.made)|..]
      {
        ghost var made, n := mapper.made, |old(mapper.made)|;
        var ok := mapper.Expose(missing[i]);
        AddCall(made, Made(Expose(missing[i]), ok), n);
        assert mapper.made[n..] == made[n..] + [Made(Expose(missing[i]), ok)];
        if !ok {
          refused, culprit := true, missing[i];
          return;
        }
        bound := bound + [missing[i]];
      }
    }

    /** Withdraws what a refused port has open, whatever the mapper answers. */
    method Close(open: seq<Published>)
      requires Valid()
      modifies this`forwarded, mapper
      ensures Valid() && forwarded == old(forwarded) - Elements(open)
      ensures old(mapper.made) <= mapper.made
      ensures old(mapper.open) - Elements(open) <= mapper.open
      ensures AllWithdrawn(mapper.made, |old(mapper.made)|) ==> mapper.open == old(mapper.open) - Elements(open)
    {
      for i := 0 to |open|
        invariant Valid() && forwarded == old(forwarded) - Elements(open[..i])
        invariant old(mapper.made) <= mapper.made
        invariant old(mapper.open) - Elements(open[..i]) <= mapper.open
        invariant AllWithdrawn(mapper.made, |old(mapper.made)|) ==> mapper.open == old(mapper.open) - Elements(open[..i])
      {
        ghost var made, n := mapper.made, |old(mapper.made)|;
        var ok := mapper.Unexpose(open[i]);
        forwarded := forwarded - {open[i]};
        AddCall(made, Made(Unexpose(open[i]), ok), n);
        assert Elements(open[..i + 1]) == Elements(open[..i]) + {open[i]};
      }
      assert open[..|open|] == open;
    }

    /** Opens what is missing of a port, or closes all of it. */
    method TryMissing(g: Group, members: seq<Published>, missing: seq<Published>, held: seq<Published>)
      requires Valid() && missing != [] && Ascending(Addrs(members))
      requires Elements(missing) == Elements(members) - forwarded && Elements(held) == Elements(members) * forwarded
      modifies this, mapper
      ensures Valid() && Tried(old(Value()), Value(), Elements(members), g)
    {
      assert missing[0] in Elements(missing);
      var bound, refused, culprit := Open(missing);
      if !refused {
        forwarded := forwarded + set p | p in bound;
        failed := failed - {g};
        OpenedAll(old(Value()), Value(), Elements(members), g);
      } else {
        ghost var made := mapper.made;
        Close(held + bound);
        AddrsOfMembers(members);
        assert culprit in Elements(missing);
        failed := failed[g := Unforwarded(g.proto, g.port, Addrs(members), culprit)];
        ClosedAll(old(Value()), made, Value(), Elements(members), g, held, bound);
      }
    }

    method TryGroup(g: Group, found: seq<Published>)
      requires Valid() && Apart(found) && forall p :: p in found ==> GroupOf(p) == g
      modifies this, mapper
      ensures Valid() && Tried(old(Value()), Value(), Elements(found), g)
    {
      SortApart(found);
      var members := Sort(ByAddr, found);
      var missing, held := Sift(members, forwarded, false), Sift(members, forwarded, true);
      SiftSifts(members, forwarded, false);
      SiftSifts(members, forwarded, true);
      if missing == [] {
        AllHeld(members, forwarded);
        LeftAlone(Value(), Elements(found), g);
      } else {
        TryMissing(g, members, missing, held);
      }
    }

    /** Collects the desired bindings by port. */
    static method ByPort(desired: set<Published>) returns (ports: map<Group, seq<Published>>)
      ensures ports.Keys == Groups(desired)
      ensures forall g :: g in ports ==> Apart(ports[g]) && Elements(ports[g]) == Members(desired, g)
    {
      ports := map[];
      var rest, seen := desired, {};
      while rest != {}
        invariant seen + rest == desired && seen !! rest
        invariant ports.Keys == Groups(seen)
        invariant forall g :: g in ports ==> Apart(ports[g]) && Elements(ports[g]) == Members(seen, g)
        decreases rest
      {
        var p :| p in rest;
        var g := GroupOf(p);
        ghost var was := if g in ports then ports[g] else [];
        AppendOne(seen, p, was);
        assert Groups(seen + {p}) == Groups(seen) + {g};
        assert forall h :: h != g ==> Members(seen + {p}, h) == Members(seen, h);
        ports := ports[g := (if g in ports then ports[g] else []) + [p]];
        rest, seen := rest - {p}, seen + {p};
      }
    }

    /** Brings the forwards to `desired`, through whatever the mapper answers. */
    method Apply(desired: set<Published>)
      requires Valid()
      modifies this, mapper
      ensures Valid() && Applied(old(Value()), Value(), desired)
    {
      WithdrawGone(desired);
      ghost var b := Value();
      var ports := ByPort(desired);
      failed := map g | g in failed && g in ports :: failed[g];
      ghost var c := Value();
      var todo := ports.Keys;
      NothingTried(c, desired);
      while todo != {}
        invariant Valid() && todo <= Groups(desired) && Passed(c, Value(), desired, todo)
        decreases todo
      {
        var g :| g in todo;
        ghost var before := Value();
        assert forall p :: p in ports[g] ==> p in Elements(ports[g]);
        TryGroup(g, ports[g]);
        OneMorePassed(c, before, Value(), desired, todo, g);
        todo := todo - {g};
      }
      AllStages(old(Value()), b, c, Value(), desired);
    }
  }

  /**
   A withdrawal that fails can leave a stale failure: `a` is forwarded; then `x` of the same port is
   wanted, `a` cannot be withdrawn and `x` is refused; then `a` is wanted again. It is forwarded, and
   its port is still on record as one that could not be.
   */
  method StaleFailure() returns (forwards: Forwards, ghost states: seq<Ports>, wanted: seq<set<Published>>)
    ensures IsHistory(states, wanted) && |wanted| == 3 && states[3] == forwards.Value()
    ensures wanted[2] <= forwards.forwarded && forwards.failed.Keys == Groups(wanted[2]) != {}
  {
    var a, x := Published(V4(0), 80, Tcp), Published(V6(0), 80, Tcp);
    var mapper := new Mapper((_, call) => call != Unexpose(a) && call != Expose(x));
    forwards := new Forwards(mapper);
    wanted := [{a}, {x}, {a}];
    forwards.Apply({a});
    ghost var one := forwards.Value();
    NeverHeard(mapper.answers, one.made, Expose(a), false);
    FirstPass(a, one);
    forwards.Apply({x});
    ghost var two := forwards.Value();
    NeverHeard(mapper.answers, two.made, Unexpose(a), true);
    NeverHeard(mapper.answers, two.made, Expose(x), true);
    SecondPass(a, x, one, two);
    forwards.Apply({a});
    ThirdPass(a, two, forwards.Value());
    OneMember(a);
    states := [NOTHING, one, two, forwards.Value()];
  }
}
