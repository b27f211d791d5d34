/** Whether the Mac already routes a /16, and the search for one that it does not. */
module Routes {
  import opened Basics

  /** A 32-bit word, its highest bit first. */
  type Word = w: seq<bool> | |w| == 32 witness Fill(false, 32)

  datatype Route = Route(network: Word, prefix: nat)

  /** The link's network is always a /16. */
  const SUBNET := 16

  // ----- Words -----

  function Fill(bit: bool, n: nat): (r: seq<bool>)
    ensures |r| == n && forall i :: 0 <= i < n ==> r[i] == bit
  {
    seq(n, _ => bit)
  }

  function And(a: Word, b: Word): (r: Word)
    ensures forall i :: 0 <= i < 32 ==> r[i] == (a[i] && b[i])
  {
    seq(32, i requires 0 <= i < 32 => a[i] && b[i])
  }

  /** `checked_shl`: a shift by the whole width or more is refused. */
  function CheckedShl(a: Word, n: nat): Option<Word> {
    if n < 32 then Some(a[n..] + Fill(false, n)) else None
  }

  /** The number a row of bits stands for. */
  function Value(bits: seq<bool>): nat {
    if bits == [] then 0 else 2 * Value(bits[..|bits| - 1]) + if bits[|bits| - 1] then 1 else 0
  }

  function Mask(prefix: nat): Word
    requires prefix <= 32
  {
    var shifted := CheckedShl(Fill(true, 32), 32 - prefix);
    if shifted.Some? then shifted.value else Fill(false, 32)
  }

  // ----- Networks as intervals of addresses -----

  /** A network's addresses are the multiple of its size that its prefix names, and those up to the next. */
  ghost function First(network: Word, prefix: nat): nat
    requires prefix <= 32
  {
    Value(network[..prefix]) * Pow2(32 - prefix)
  }

  ghost predicate Holds(network: Word, prefix: nat, ip: Word)
    requires prefix <= 32
  {
    First(network, prefix) <= Value(ip) < First(network, prefix) + Pow2(32 - prefix)
  }

  /** Some address is in both networks. */
  ghost predicate Meet(r: Route, subnet: Word)
    requires r.prefix <= 32
  {
    exists ip: Word :: Holds(r.network, r.prefix, ip) && Holds(subnet, SUBNET, ip)
  }

  // ----- Bits and numbers -----

  function Pow2(n: nat): (r: nat)
    ensures r > 0
  {
    if n == 0 then 1 else 2 * Pow2(n - 1)
  }

  lemma {:induction false} ValueFits(bits: seq<bool>)
    ensures Value(bits) < Pow2(|bits|)
  {
    if bits != [] {
      ValueFits(bits[..|bits| - 1]);
    }
  }

  lemma Doubled(x: nat, p: nat)
    ensures x * (2 * p) == 2 * (x * p)
  {
  }

  lemma {:induction false} ValueJoins(a: seq<bool>, b: seq<bool>)
    ensures Value(a + b) == Value(a) * Pow2(|b|) + Value(b)
  {
    if b == [] {
      assert a + b == a;
    } else {
      var c := b[..|b| - 1];
      assert (a + b)[..|a + b| - 1] == a + c;
      ValueJoins(a, c);
      Doubled(Value(a), Pow2(|c|));
    }
  }

  lemma {:induction false} ValueIsInjective(a: seq<bool>, b: seq<bool>)
    requires |a| == |b| && Value(a) == Value(b)
    ensures a == b
  {
    if a != [] {
      var n := |a| - 1;
      ValueIsInjective(a[..n], b[..n]);
      assert a == a[..n] + [a[n]] && b == b[..n] + [b[n]];
    }
  }

  lemma {:induction false} NextMultiple(a: nat, b: nat, w: nat)
    requires a < b
    ensures a * w + w <= b * w
  {
    OneMore(b - 1, w);
    if a < b - 1 {
      NextMultiple(a, b - 1, w);
    }
  }

  lemma OneMore(x: nat, w: nat)
    ensures (x + 1) * w == x * w + w
  {
  }

  lemma SameQuotient(a: nat, b: nat, w: nat, rest: nat)
    requires w > 0 && rest < w && b * w <= a * w + rest <= b * w + (w - 1)
    ensures a == b
  {
    if a > b {
      NextMultiple(b, a, w);
    } else if a < b {
      NextMultiple(a, b, w);
    }
  }

  // ----- Masks -----

  lemma MaskBits(prefix: nat)
    requires prefix <= 32
    ensures forall i :: 0 <= i < 32 ==> Mask(prefix)[i] == (i < prefix)
  {
  }

  lemma MaskedAgree(a: Word, b: Word, prefix: nat)
    requires prefix <= 32
    ensures And(a, Mask(prefix)) == And(b, Mask(prefix)) <==> a[..prefix] == b[..prefix]
  {
    var m := Mask(prefix);
    MaskBits(prefix);
    if And(a, m) == And(b, m) {
      forall i | 0 <= i < prefix
        ensures a[i] == b[i]
      {
        assert And(a, m)[i] == And(b, m)[i];
      }
    }
    if a[..prefix] == b[..prefix] {
      forall i | 0 <= i < 32
        ensures And(a, m)[i] == And(b, m)[i]
      {
        assert i < prefix ==> a[..prefix][i] == b[..prefix][i];
      }
    }
  }

  /** An address is in a network exactly when it begins as the network does. */
  lemma HoldsIsPrefix(network: Word, prefix: nat, ip: Word)
    requires prefix <= 32
    ensures Holds(network, prefix, ip) <==> ip[..prefix] == network[..prefix]
  {
    var n := 32 - prefix;
    assert ip == ip[..prefix] + ip[prefix..];
    ValueJoins(ip[..prefix], ip[prefix..]);
    ValueFits(ip[prefix..]);
    if Holds(network, prefix, ip) {
      SameQuotient(Value(ip[..prefix]), Value(network[..prefix]), Pow2(n), Value(ip[prefix..]));
      ValueIsInjective(ip[..prefix], network[..prefix]);
    }
  }

  // ----- clash -----

  function Shorter(prefix: nat): nat {
    if prefix < SUBNET then prefix else SUBNET
  }

  /** The test `clash` makes of a route. */
  predicate Clashes(r: Route, subnet: Word)
    requires r.prefix <= 32
  {
    And(r.network, Mask(Shorter(r.prefix))) == And(subnet, Mask(Shorter(r.prefix)))
  }

  lemma PrefixOfPrefix(a: Word, b: Word, m: nat, n: nat)
    requires m <= n <= 32 && a[..n] == b[..n]
    ensures a[..m] == b[..m]
  {
    assert a[..m] == a[..n][..m] && b[..m] == b[..n][..m];
  }

  /** Masking both by the shorter prefix finds exactly the routes that share an address with the subnet, from prefix 0 to 32. */
  lemma ClashesIffMeet(r: Route, subnet: Word)
    requires r.prefix <= 32
    ensures Clashes(r, subnet) <==> Meet(r, subnet)
  {
    var n := Shorter(r.prefix);
    MaskedAgree(r.network, subnet, n);
    if Clashes(r, subnet) {
      var ip := if r.prefix < SUBNET then subnet else r.network;
      HoldsIsPrefix(r.network, r.prefix, ip);
      HoldsIsPrefix(subnet, SUBNET, ip);
    }
    if Meet(r, subnet) {
      var ip: Word :| Holds(r.network, r.prefix, ip) && Holds(subnet, SUBNET, ip);
      HoldsIsPrefix(r.network, r.prefix, ip);
      HoldsIsPrefix(subnet, SUBNET, ip);
      PrefixOfPrefix(ip, r.network, n, r.prefix);
      PrefixOfPrefix(ip, subnet, n, SUBNET);
    }
  }

  ghost predicate ValidRoutes(routes: seq<Route>) {
    forall i :: 0 <= i < |routes| ==> routes[i].prefix <= 32
  }

  /** The subnet shares no address with any route. */
  ghost predicate Unrouted(routes: seq<Route>, subnet: Word)
    requires ValidRoutes(routes)
  {
    forall i :: 0 <= i < |routes| ==> !Meet(routes[i], subnet)
  }

  /** Where the first route that overlaps the subnet stands, or how many routes there are. */
  ghost predicate FirstMeeting(routes: seq<Route>, subnet: Word, n: nat)
    requires ValidRoutes(routes)
  {
    && n <= |routes| && (n < |routes| ==> Meet(routes[n], subnet))
    && forall i :: 0 <= i < n ==> !Meet(routes[i], subnet)
  }

  method Overlaps(r: Route, subnet: Word) returns (yes: bool)
    requires r.prefix <= 32
    ensures yes <==> Meet(r, subnet)
  {
    ClashesIffMeet(r, subnet);
    yes := Clashes(r, subnet);
  }

  /** The first route that overlaps the subnet; all of them are passed over if none does. */
  method Clash(routes: seq<Route>, subnet: Word) returns (n: nat)
    requires ValidRoutes(routes)
    ensures FirstMeeting(routes, subnet, n)
  {
    for i := 0 to |routes|
      invariant forall j :: 0 <= j < i ==> !Meet(routes[j], subnet)
    {
      var yes := Overlaps(routes[i], subnet);
      if yes {
        return i;
      }
    }
    return |routes|;
  }

  // ----- The candidates -----

  /** The lowest `k` bits of a number, highest first. */
  function Bits(n: nat, k: nat): (r: seq<bool>)
    ensures |r| == k
  {
    if k == 0 then [] else Bits(n / 2, k - 1) + [n % 2 == 1]
  }

  lemma {:induction false} BitsHaveTheValue(n: nat, k: nat)
    requires n < Pow2(k)
    ensures Value(Bits(n, k)) == n
  {
    if k > 0 {
      BitsHaveTheValue(n / 2, k - 1);
    }
  }

  /** The address 10.b.0.0. */
  function Candidate(b: nat): Word {
    Bits(10, 8) + Bits(b, 8) + Fill(false, 16)
  }

  lemma Powers()
    ensures Pow2(8) == 256 && Pow2(16) == 65536
  {
    assert Pow2(4) == 16;
    assert Pow2(8) == 256;
    assert Pow2(12) == 4096;
  }

  lemma TwoOctets(a: nat, b: nat)
    requires a < 256 && b < 256
    ensures Value(Bits(a, 8) + Bits(b, 8)) == 256 * a + b
  {
    Powers();
    BitsHaveTheValue(a, 8);
    BitsHaveTheValue(b, 8);
    ValueJoins(Bits(a, 8), Bits(b, 8));
  }

  /** A candidate's network is the addresses 10.b.0.0 to 10.b.255.255. */
  lemma CandidateHolds(b: nat, ip: Word)
    requires b < 256
    ensures Holds(Candidate(b), SUBNET, ip) <==> (256 * 10 + b) * 65536 <= Value(ip) <= (256 * 10 + b) * 65536 + 65535
  {
    Powers();
    TwoOctets(10, b);
    assert Candidate(b)[..16] == Bits(10, 8) + Bits(b, 8);
  }

  /** No route overlaps 10.b/16. */
  ghost predicate Free(routes: seq<Route>, b: nat)
    requires ValidRoutes(routes)
  {
    Unrouted(routes, Candidate(b))
  }

  method IsFree(routes: seq<Route>, b: nat) returns (yes: bool)
    requires ValidRoutes(routes)
    ensures yes <==> Free(routes, b)
  {
    var subnet := Candidate(b);
    var n := Clash(routes, subnet);
    yes := n == |routes|;
  }

  /** The least free candidate of a range, or the range's end. */
  ghost predicate LeastFree(routes: seq<Route>, from: nat, to: nat, b: nat)
    requires ValidRoutes(routes)
  {
    from <= b <= to && (b < to ==> Free(routes, b)) && forall c: nat {:trigger Free(routes, c)} :: from <= c < b ==> !Free(routes, c)
  }

  /** 10.211/16 to 10.250/16, in order: the first that no route overlaps; 251 is the error that there is none. */
  method FindSubnet(routes: seq<Route>) returns (b: nat)
    requires ValidRoutes(routes)
    ensures LeastFree(routes, 211, 251, b)
  {
    b := 211;
    while b < 251
      invariant 211 <= b <= 251
      invariant forall c: nat {:trigger Free(routes, c)} :: 211 <= c < b ==> !Free(routes, c)
    {
      var yes := IsFree(routes, b);
      if yes {
        return;
      }
      b := b + 1;
    }
  }

  // ----- Routes as netstat prints them -----

  function Address(full: seq<nat>): Word
    requires |full| == 4
  {
    Bits(full[0], 8) + Bits(full[1], 8) + Bits(full[2], 8) + Bits(full[3], 8)
  }

  function Padded(octets: seq<nat>): (r: seq<nat>)
    requires |octets| <= 4
    ensures |r| == 4
  {
    octets + seq(4 - |octets|, _ => 0)
  }

  /** Multicast, broadcast or loopback. */
  predicate Special(full: seq<nat>)
    requires |full| == 4
  {
    224 <= full[0] <= 239 || full == [255, 255, 255, 255] || full[0] == 127
  }

  /**
   A route by its printed octets and prefix, each of which fits a byte: trailing zero octets may be
   left off, and the prefix when it is their length. A prefix over 32 is read as 32.
   */
  method ReadRoute(octets: seq<nat>, prefix: Option<nat>) returns (r: Option<Route>)
    ensures r.Some? <==> 1 <= |octets| <= 4 && !Special(Padded(octets))
    ensures r.Some? ==> r.value.prefix <= 32 && r.value.network == Address(Padded(octets))
    ensures r.Some? && prefix.None? ==> r.value.prefix == 8 * |octets|
    ensures r.Some? && prefix.Some? ==> r.value.prefix == if prefix.value < 32 then prefix.value else 32
  {
    if |octets| == 0 || |octets| > 4 {
      return None;
    }
    var length := if prefix.Some? then prefix.value else 8 * |octets|;
    var full := new nat[4](_ => 0);
    for i := 0 to |octets|
      invariant forall j :: 0 <= j < i ==> full[j] == octets[j]
      invariant forall j :: i <= j < 4 ==> full[j] == 0
    {
      full[i] := octets[i];
    }
    assert full[..] == Padded(octets);
    if Special(full[..]) {
      return None;
    }
    return Some(Route(Address(full[..]), if length < 32 then length else 32));
  }

  lemma TwoHalves(high: seq<bool>, low: seq<bool>)
    requires |low| == 16
    ensures Value(high + low) == Value(high) * 65536 + Value(low)
  {
    ValueJoins(high, low);
    Powers();
  }

  lemma AddressHalves(full: seq<nat>)
    requires |full| == 4
    ensures Address(full) == (Bits(full[0], 8) + Bits(full[1], 8)) + (Bits(full[2], 8) + Bits(full[3], 8))
  {
  }

  /** The number an address stands for. */
  lemma AddressValue(full: seq<nat>)
    requires |full| == 4 && forall i :: 0 <= i < 4 ==> full[i] < 256
    ensures Value(Address(full)) == (256 * full[0] + full[1]) * 65536 + (256 * full[2] + full[3])
  {
    AddressHalves(full);
    TwoHalves(Bits(full[0], 8) + Bits(full[1], 8), Bits(full[2], 8) + Bits(full[3], 8));
    TwoOctets(full[0], full[1]);
    TwoOctets(full[2], full[3]);
  }

  /** The bits of the octets in a row. */
  function Row(octets: seq<nat>): (r: seq<bool>)
    ensures |r| == 8 * |octets|
  {
    if octets == [] then [] else Bits(octets[0], 8) + Row(octets[1..])
  }

  lemma AddressIsRow(full: seq<nat>)
    requires |full| == 4
    ensures Address(full) == Row(full)
  {
    assert Row(full[3..]) == Bits(full[3], 8) + Row([]);
    assert full[3..][1..] == [] && full[2..][1..] == full[3..] && full[1..][1..] == full[2..];
    assert Row(full[2..]) == Bits(full[2], 8) + Row(full[3..]);
    assert Row(full[1..]) == Bits(full[1], 8) + Row(full[2..]);
  }

  lemma {:induction false} RowJoins(a: seq<nat>, b: seq<nat>)
    ensures Row(a + b) == Row(a) + Row(b)
  {
    if a == [] {
      assert a + b == b;
    } else {
      assert (a + b)[1..] == a[1..] + b;
      RowJoins(a[1..], b);
    }
  }

  /** A network printed without its prefix holds exactly the addresses that begin with the octets printed. */
  lemma PrintedShort(octets: seq<nat>, ip: Word)
    requires 1 <= |octets| <= 4
    ensures Holds(Address(Padded(octets)), 8 * |octets|, ip) <==> Row(octets) <= ip
  {
    var zeros := seq(4 - |octets|, _ => 0);
    AddressIsRow(Padded(octets));
    RowJoins(octets, zeros);
    HoldsIsPrefix(Address(Padded(octets)), 8 * |octets|, ip);
    assert Address(Padded(octets))[..8 * |octets|] == Row(octets);
    assert Row(octets) <= ip <==> ip[..8 * |octets|] == Row(octets);
  }

  // ----- The routes passed over -----

  lemma FirstBits(n: nat, bits: seq<bool>)
    requires n < 256 && bits == Bits(n, 8)
    ensures bits[0] <==> n >= 128
    ensures bits[1] <==> 64 <= n < 128 || 192 <= n
  {
    Powers();
    BitsHaveTheValue(n, 8);
    assert bits == bits[..2] + bits[2..] && bits[..2] == [bits[0], bits[1]];
    ValueJoins(bits[..2], bits[2..]);
    ValueFits(bits[2..]);
    assert Pow2(6) == 64;
    assert [bits[0], bits[1]][..1] == [bits[0]] && [bits[0]][..0] == [];
    assert Value(bits[..2]) == 2 * Value([bits[0]]) + if bits[1] then 1 else 0;
  }

  /** The addresses passed over, as numbers: 224.0.0.0 to 239.255.255.255, 127.0.0.0 to 127.255.255.255, and 255.255.255.255. */
  lemma SpecialIs(full: seq<nat>)
    requires |full| == 4 && forall i :: 0 <= i < 4 ==> full[i] < 256
    ensures var n := Value(Address(full));
            Special(full) <==> 0xE000_0000 <= n <= 0xEFFF_FFFF || 0x7F00_0000 <= n <= 0x7FFF_FFFF || n == 0xFFFF_FFFF
  {
    AddressValue(full);
  }

  lemma MeetIffAgree(r: Route, subnet: Word)
    requires r.prefix <= 32
    ensures Meet(r, subnet) <==> r.network[..Shorter(r.prefix)] == subnet[..Shorter(r.prefix)]
  {
    ClashesIffMeet(r, subnet);
    MaskedAgree(r.network, subnet, Shorter(r.prefix));
  }

  /** Words that differ in their first two bits agree on no more than the first. */
  lemma AgreeOnAtMostOne(x: Word, y: Word, n: nat)
    requires n <= 32 && (x[0] != y[0] || x[1] != y[1])
    ensures x[..n] == y[..n] <==> n == 0 || (n == 1 && x[0] == y[0])
  {
    if n >= 1 {
      assert x[..n][0] == x[0] && y[..n][0] == y[0];
    }
    if n >= 2 {
      assert x[..n][1] == x[1] && y[..n][1] == y[1];
    }
  }

  lemma AddressStarts(full: seq<nat>)
    requires |full| == 4 && full[0] < 256
    ensures Address(full)[0] <==> full[0] >= 128
    ensures Address(full)[1] <==> 64 <= full[0] < 128 || 192 <= full[0]
  {
    FirstBits(full[0], Bits(full[0], 8));
  }

  lemma CandidateStarts(b: nat)
    ensures !Candidate(b)[0] && !Candidate(b)[1]
  {
    FirstBits(10, Bits(10, 8));
  }

  /** A route passed over overlaps a candidate only if it is a default route, or half of all addresses about 127: nothing printed without its prefix does. */
  lemma PassedOverIff(full: seq<nat>, prefix: nat, b: nat)
    requires |full| == 4 && (forall i :: 0 <= i < 4 ==> full[i] < 256) && Special(full) && prefix <= 32
    ensures Meet(Route(Address(full), prefix), Candidate(b)) <==> prefix == 0 || (prefix == 1 && full[0] == 127)
  {
    MeetIffAgree(Route(Address(full), prefix), Candidate(b));
    AddressStarts(full);
    CandidateStarts(b);
    AgreeOnAtMostOne(Address(full), Candidate(b), Shorter(prefix));
  }
}
