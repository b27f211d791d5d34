/** Text against the bytes it is stored as: its length in them, and that sorting it by characters sorts it by bytes. */
module Text {
  import opened Basics
  import opened Sorting
  import opened Utf8

  /** The scalar values of a string. */
  function Scalars(s: string): (r: seq<nat>)
    ensures |r| == |s| && forall i :: 0 <= i < |s| ==> r[i] == s[i] as nat && IsScalar(r[i])
  {
    seq(|s|, i requires 0 <= i < |s| => s[i] as nat)
  }

  function Bytes(s: string): seq<Byte> {
    Encode(Scalars(s))
  }

  lemma BytesOf(s: string)
    requires s != []
    ensures Bytes(s) == EncodeScalar(s[0] as nat) + Bytes(s[1..])
  {
    assert Scalars(s)[1..] == Scalars(s[1..]);
  }

  // ----- Length -----

  function CharLen(c: char): nat {
    if c as int < 0x80 then 1 else if c as int < 0x800 then 2 else if c as int < 0x10000 then 3 else 4
  }

  /** The length of a text in bytes. */
  function Len(s: string): nat {
    if s == [] then 0 else Len(s[..|s| - 1]) + CharLen(s[|s| - 1])
  }

  lemma {:induction false} BytesJoin(a: string, b: string)
    ensures Bytes(a + b) == Bytes(a) + Bytes(b)
  {
    if a == [] {
      assert a + b == b;
    } else {
      assert (a + b)[1..] == a[1..] + b;
      BytesOf(a);
      BytesOf(a + b);
      BytesJoin(a[1..], b);
    }
  }

  lemma {:induction false} LenIsOfBytes(s: string)
    ensures Len(s) == |Bytes(s)|
  {
    if s != [] {
      var n := |s| - 1;
      LenIsOfBytes(s[..n]);
      assert s == s[..n] + [s[n]];
      BytesJoin(s[..n], [s[n]]);
      BytesOf([s[n]]);
    }
  }

  // ----- Order -----

  predicate BytesLess(a: seq<Byte>, b: seq<Byte>) {
    b != [] && (a == [] || a[0] < b[0] || (a[0] == b[0] && BytesLess(a[1..], b[1..])))
  }

  /** Where two rows of bytes first differ, the first has the lesser byte. */
  ghost predicate LessAt(a: seq<Byte>, b: seq<Byte>, i: nat) {
    i < |a| && i < |b| && a[..i] == b[..i] && a[i] < b[i]
  }

  lemma {:induction false} LessAtIsLess(a: seq<Byte>, b: seq<Byte>, i: nat, s: seq<Byte>, t: seq<Byte>)
    requires LessAt(a, b, i)
    ensures BytesLess(a + s, b + t) && !BytesLess(b + t, a + s)
  {
    assert (a + s)[1..] == a[1..] + s && (b + t)[1..] == b[1..] + t;
    if i > 0 {
      assert a[0] == a[..i][0] && b[0] == b[..i][0];
      assert a[1..][..i - 1] == a[..i][1..] && b[1..][..i - 1] == b[..i][1..];
      LessAtIsLess(a[1..], b[1..], i - 1, s, t);
    }
  }

  lemma {:induction false} SameFront(a: seq<Byte>, s: seq<Byte>, t: seq<Byte>)
    ensures BytesLess(a + s, a + t) <==> BytesLess(s, t)
  {
    if a == [] {
      assert a + s == s && a + t == t;
    } else {
      assert (a + s)[1..] == a[1..] + s && (a + t)[1..] == a[1..] + t;
      SameFront(a[1..], s, t);
    }
  }

  lemma SixBitsOrder(c: nat, d: nat)
    ensures c < d <==> c / 64 < d / 64 || (c / 64 == d / 64 && c % 64 < d % 64)
  {
  }

  lemma EncodedOrder(c: nat, d: nat) returns (i: nat)
    requires IsScalar(c) && IsScalar(d) && c < d
    ensures LessAt(EncodeScalar(c), EncodeScalar(d), i)
  {
    var a, b := EncodeScalar(c), EncodeScalar(d);
    i := if a[0] != b[0] then 0 else if a[1] != b[1] then 1 else if a[2] != b[2] then 2 else 3;
    SixBitsOrder(c, d);
    SixBitsOrder(c / 64, d / 64);
    SixBitsOrder(c / 64 / 64, d / 64 / 64);
    FirstByte(c);
    FirstByte(d);
  }

  lemma FirstByte(c: nat)
    requires IsScalar(c)
    ensures var a := EncodeScalar(c);
            |a| == (if a[0] < 0x80 then 1 else if a[0] < 0xE0 then 2 else if a[0] < 0xF0 then 3 else 4)
  {
  }

  /** Text in order by its characters is in order by its bytes. */
  lemma {:induction false} OrderOfBytes(a: string, b: string)
    ensures TextLess(a, b) <==> BytesLess(Bytes(a), Bytes(b))
  {
    if a != [] {
      BytesOf(a);
    }
    if b != [] {
      BytesOf(b);
    }
    if a != [] && b != [] {
      var x, y := EncodeScalar(a[0] as nat), EncodeScalar(b[0] as nat);
      if a[0] == b[0] {
        OrderOfBytes(a[1..], b[1..]);
        SameFront(x, Bytes(a[1..]), Bytes(b[1..]));
      } else if a[0] < b[0] {
        var i := EncodedOrder(a[0] as nat, b[0] as nat);
        LessAtIsLess(x, y, i, Bytes(a[1..]), Bytes(b[1..]));
      } else {
        var i := EncodedOrder(b[0] as nat, a[0] as nat);
        LessAtIsLess(y, x, i, Bytes(b[1..]), Bytes(a[1..]));
      }
    }
  }
}
