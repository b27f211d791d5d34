/** Text as the bytes of its UTF-8 encoding: which bytes are text, and of which scalar values. */
module Utf8 {
  import opened Basics

  type Byte = b: nat | b < 256

  /** The bits a byte carries past its mark. */
  function Bits(b: Byte, mark: nat): nat
    requires mark <= b
  {
    b - mark
  }

  predicate Follows(b: Byte) {
    0x80 <= b <= 0xBF
  }

  /** The scalar value the bytes begin with and how many bytes it takes; no overlong form, surrogate or value past the last. */
  function Scalar(s: seq<Byte>): (r: Option<(nat, nat)>)
    requires s != []
    ensures r.Some? ==> 1 <= r.value.1 <= |s|
  {
    if s[0] < 0x80 then Some((s[0], 1))
    else if 0xC2 <= s[0] <= 0xDF && |s| >= 2 && Follows(s[1]) then Some((64 * Bits(s[0], 0xC0) + Bits(s[1], 0x80), 2))
    else if 0xE0 <= s[0] <= 0xEF && |s| >= 3 && Follows(s[1]) && Follows(s[2])
            && (s[0] == 0xE0 ==> s[1] >= 0xA0) && (s[0] == 0xED ==> s[1] <= 0x9F) then
      Some((4096 * Bits(s[0], 0xE0) + 64 * Bits(s[1], 0x80) + Bits(s[2], 0x80), 3))
    else if 0xF0 <= s[0] <= 0xF4 && |s| >= 4 && Follows(s[1]) && Follows(s[2]) && Follows(s[3])
            && (s[0] == 0xF0 ==> s[1] >= 0x90) && (s[0] == 0xF4 ==> s[1] <= 0x8F) then
      Some((262144 * Bits(s[0], 0xF0) + 4096 * Bits(s[1], 0x80) + 64 * Bits(s[2], 0x80) + Bits(s[3], 0x80), 4))
    else None
  }

  /** The scalar values of a text, if the bytes are one. */
  function Decode(s: seq<Byte>): Option<seq<nat>>
    decreases |s|
  {
    if s == [] then Some([])
    else
      match Scalar(s)
      case None => None
      case Some((c, n)) =>
        Before(c, Decode(s[n..]))
  }

  function Before(c: nat, rest: Option<seq<nat>>): Option<seq<nat>> {
    if rest.Some? then Some([c] + rest.value) else None
  }

  predicate IsAscii(s: seq<Byte>) {
    forall i :: 0 <= i < |s| ==> s[i] < 0x80
  }

  /** White space, by the Unicode property of that name. */
  predicate IsSpace(c: nat) {
    || 9 <= c <= 13 || c == 0x20 || c == 0x85 || c == 0xA0 || c == 0x1680 || 0x2000 <= c <= 0x200A
    || c == 0x2028 || c == 0x2029 || c == 0x202F || c == 0x205F || c == 0x3000
  }

  lemma {:induction false} AsciiFirst(a: seq<Byte>, s: seq<Byte>)
    requires IsAscii(a)
    ensures Decode(a + s) == if Decode(s).Some? then Some(a + Decode(s).value) else None
  {
    if a == [] {
      assert a + s == s;
      assert Decode(s).Some? ==> a + Decode(s).value == Decode(s).value;
    } else {
      assert (a + s)[1..] == a[1..] + s;
      AsciiFirst(a[1..], s);
      assert Decode(s).Some? ==> [a[0]] + (a[1..] + Decode(s).value) == a + Decode(s).value;
    }
  }

  lemma DecodeAscii(a: seq<Byte>)
    requires IsAscii(a)
    ensures Decode(a) == Some(a)
  {
    AsciiFirst(a, []);
    assert a + [] == a;
  }

  lemma ScalarOfMore(a: seq<Byte>, b: seq<Byte>)
    requires a != [] && Scalar(a).Some?
    ensures Scalar(a + b) == Scalar(a)
  {
  }

  lemma JoinHead(a: seq<Byte>, b: seq<Byte>) returns (c: nat, n: nat)
    requires a != [] && Decode(a).Some?
    ensures 1 <= n <= |a| && Decode(a) == Before(c, Decode(a[n..])) && Decode(a + b) == Before(c, Decode(a[n..] + b))
  {
    ScalarOfMore(a, b);
    c, n := Scalar(a).value.0, Scalar(a).value.1;
    assert (a + b)[n..] == a[n..] + b;
  }

  lemma BeforeBoth(c: nat, a: seq<nat>, b: seq<nat>)
    ensures Before(c, Some(a + b)) == Some(Before(c, Some(a)).value + b)
  {
    assert [c] + (a + b) == ([c] + a) + b;
  }

  lemma {:induction false} DecodeJoins(a: seq<Byte>, b: seq<Byte>)
    requires Decode(a).Some? && Decode(b).Some?
    ensures Decode(a + b) == Some(Decode(a).value + Decode(b).value)
    decreases |a|
  {
    if a == [] {
      assert a + b == b && [] + Decode(b).value == Decode(b).value;
    } else {
      var c, n := JoinHead(a, b);
      DecodeJoins(a[n..], b);
      BeforeBoth(c, Decode(a[n..]).value, Decode(b).value);
    }
  }

  // ----- Against the encoding, after section 3 of RFC 3629 -----

  predicate IsScalar(c: nat) {
    c <= 0x10FFFF && !(0xD800 <= c <= 0xDFFF)
  }

  function EncodeScalar(c: nat): (r: seq<Byte>)
    requires IsScalar(c)
    ensures r != []
  {
    if c < 0x80 then [c]
    else
      var high, low := c / 64, 0x80 + c % 64;
      if c < 0x800 then [0xC0 + high, low]
      else
        var higher, mid := high / 64, 0x80 + high % 64;
        if c < 0x10000 then [0xE0 + higher, mid, low]
        else [0xF0 + higher / 64, 0x80 + higher % 64, mid, low]
  }

  ghost predicate AllScalars(text: seq<nat>) {
    forall i :: 0 <= i < |text| ==> IsScalar(text[i])
  }

  function Encode(text: seq<nat>): seq<Byte>
    requires AllScalars(text)
  {
    if text == [] then [] else EncodeScalar(text[0]) + Encode(text[1..])
  }

  /** Six bits off the end of a number. */
  lemma SixBits(high: nat, low: nat, c: nat)
    requires low < 64
    ensures c == 64 * high + low <==> c / 64 == high && c % 64 == low
  {
  }

  lemma TwoBytes(a: Byte, b: Byte, c: nat)
    requires 0xC2 <= a <= 0xDF && Follows(b)
    ensures c == 64 * Bits(a, 0xC0) + Bits(b, 0x80) <==> 0x80 <= c < 0x800 && EncodeScalar(c) == [a, b]
  {
    SixBits(Bits(a, 0xC0), Bits(b, 0x80), c);
  }

  lemma ThreeBytes(a: Byte, b: Byte, d: Byte, c: nat)
    requires 0xE0 <= a <= 0xEF && Follows(b) && Follows(d) && (a == 0xE0 ==> b >= 0xA0) && (a == 0xED ==> b <= 0x9F)
    ensures c == 4096 * Bits(a, 0xE0) + 64 * Bits(b, 0x80) + Bits(d, 0x80) <==>
            0x800 <= c < 0x10000 && IsScalar(c) && EncodeScalar(c) == [a, b, d]
  {
    var high := 64 * Bits(a, 0xE0) + Bits(b, 0x80);
    SixBits(high, Bits(d, 0x80), c);
    SixBits(Bits(a, 0xE0), Bits(b, 0x80), c / 64);
  }

  lemma FourBytes(a: Byte, b: Byte, d: Byte, e: Byte, c: nat)
    requires 0xF0 <= a <= 0xF4 && Follows(b) && Follows(d) && Follows(e) && (a == 0xF0 ==> b >= 0x90) && (a == 0xF4 ==> b <= 0x8F)
    ensures c == 262144 * Bits(a, 0xF0) + 4096 * Bits(b, 0x80) + 64 * Bits(d, 0x80) + Bits(e, 0x80) <==>
            0x10000 <= c && IsScalar(c) && EncodeScalar(c) == [a, b, d, e]
  {
    var higher := 64 * Bits(a, 0xF0) + Bits(b, 0x80);
    SixBits(64 * higher + Bits(d, 0x80), Bits(e, 0x80), c);
    SixBits(higher, Bits(d, 0x80), c / 64);
    SixBits(Bits(a, 0xF0), Bits(b, 0x80), c / 64 / 64);
  }

  lemma ScalarIsEncoded(s: seq<Byte>)
    requires s != [] && Scalar(s).Some?
    ensures var (c, n) := Scalar(s).value; IsScalar(c) && EncodeScalar(c) == s[..n]
  {
    var (c, n) := Scalar(s).value;
    match n
    case 1 => assert s[..1] == [s[0]];
    case 2 =>
      TwoBytes(s[0], s[1], c);
      assert s[..2] == [s[0], s[1]];
    case 3 =>
      ThreeBytes(s[0], s[1], s[2], c);
      assert s[..3] == [s[0], s[1], s[2]];
    case _ =>
      FourBytes(s[0], s[1], s[2], s[3], c);
      assert s[..4] == [s[0], s[1], s[2], s[3]];
  }

  lemma EncodedIsScalar(c: nat)
    requires IsScalar(c)
    ensures Scalar(EncodeScalar(c)) == Some((c, |EncodeScalar(c)|))
  {
    var s := EncodeScalar(c);
    if c < 0x80 {
    } else if c < 0x800 {
      TwoBytes(s[0], s[1], c);
    } else if c < 0x10000 {
      ThreeBytes(s[0], s[1], s[2], c);
    } else {
      FourBytes(s[0], s[1], s[2], s[3], c);
    }
  }

  lemma DecodeHead(s: seq<Byte>, c: nat, n: nat, text: seq<nat>)
    requires s != [] && Scalar(s) == Some((c, n)) && Decode(s) == Some(text)
    ensures text != [] && text[0] == c && Decode(s[n..]) == Some(text[1..])
  {
  }

  lemma ScalarsJoin(text: seq<nat>)
    requires text != [] && IsScalar(text[0]) && AllScalars(text[1..])
    ensures AllScalars(text)
  {
    assert text == [text[0]] + text[1..];
  }

  /** The bytes decode to a text exactly when they are its encoding, so to one text at most. */
  lemma {:induction false} DecodesIffEncoded(s: seq<Byte>, text: seq<nat>)
    ensures Decode(s) == Some(text) <==> AllScalars(text) && Encode(text) == s
    decreases |s|
  {
    if AllScalars(text) {
      EncodedDecodes(text);
    }
    if Decode(s) == Some(text) && s != [] {
      ScalarIsEncoded(s);
      var (c, n) := Scalar(s).value;
      DecodeHead(s, c, n, text);
      DecodesIffEncoded(s[n..], text[1..]);
      ScalarsJoin(text);
      assert s == s[..n] + s[n..];
    }
  }

  lemma {:induction false} EncodedDecodes(text: seq<nat>)
    requires AllScalars(text)
    ensures Decode(Encode(text)) == Some(text)
  {
    if text != [] {
      var c, rest := text[0], Encode(text[1..]);
      EncodedDecodes(text[1..]);
      EncodedIsScalar(c);
      ScalarOfMore(EncodeScalar(c), rest);
      assert (EncodeScalar(c) + rest)[|EncodeScalar(c)|..] == rest;
      assert text == [c] + text[1..];
    }
  }
}
