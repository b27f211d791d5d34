/**
 Chunked bodies: reading them back to the bytes that were sent, whatever the chunk boundaries, and
 finding the newline-delimited events in them.
 */
module Chunks {
  import opened Basics
  import opened Utf8

  const LF: Byte := '\n' as nat
  const CR: Byte := '\r' as nat
  const SEMICOLON: Byte := ';' as nat

  /** What reading one chunk comes to: its data, the end of the body, or an error. */
  datatype Chunk = Data(bytes: seq<Byte>) | End | Malformed | Truncated

  // ----- A size line -----

  /** Up to and including the first newline, or everything if there is none. */
  function Line(s: seq<Byte>): (r: seq<Byte>)
    ensures r <= s && (s != [] ==> r != [])
  {
    if s == [] then [] else if s[0] == LF then [LF] else [s[0]] + Line(s[1..])
  }

  function TrimStart(s: seq<nat>): seq<nat> {
    if s != [] && IsSpace(s[0]) then TrimStart(s[1..]) else s
  }

  function TrimEnd(s: seq<nat>): seq<nat> {
    if s != [] && IsSpace(s[|s| - 1]) then TrimEnd(s[..|s| - 1]) else s
  }

  function Trim(s: seq<nat>): seq<nat> {
    TrimEnd(TrimStart(s))
  }

  function UpToSemicolon(s: seq<nat>): seq<nat> {
    if s == [] || s[0] == SEMICOLON then [] else [s[0]] + UpToSemicolon(s[1..])
  }

  function SizeText(line: seq<nat>): seq<nat> {
    Trim(UpToSemicolon(Trim(line)))
  }

  function HexDigit(c: nat): Option<nat> {
    if 48 <= c <= 57 then Some(c - 48)
    else if 65 <= c <= 70 then Some(c - 55)
    else if 97 <= c <= 102 then Some(c - 87)
    else None
  }

  predicate IsHex(s: seq<nat>) {
    forall i :: 0 <= i < |s| ==> HexDigit(s[i]).Some?
  }

  function HexValue(s: seq<nat>): nat
    requires IsHex(s)
  {
    if s == [] then 0 else 16 * HexValue(s[..|s| - 1]) + HexDigit(s[|s| - 1]).value
  }

  /** `usize::from_str_radix(_, 16)`: an optional plus, then digits whose value fits 64 bits. */
  function ParseHex(s: seq<nat>): Option<nat> {
    var digits := if s != [] && s[0] == 43 then s[1..] else s;
    if digits == [] || !IsHex(digits) then None
    else if HexValue(digits) >= 0x1_0000_0000_0000_0000 then None
    else Some(HexValue(digits))
  }

  // ----- A body -----

  /** One chunk off the front of the input, and what is left. */
  function TakeChunk(s: seq<Byte>): (r: (Chunk, seq<Byte>))
    ensures r.0.Data? ==> |r.1| < |s|
  {
    var line := Line(s);
    var rest := s[|line|..];
    if line == [] then (End, rest)
    else if Decode(line).None? then (Malformed, rest)
    else
      var text := SizeText(Decode(line).value);
      if text == [] then (End, rest)
      else
        match ParseHex(text)
        case None => (Malformed, rest)
        case Some(n) =>
          if n == 0 then (End, rest)
          else if |rest| < n + 2 then (Truncated, [])
          else (Data(rest[..n]), rest[n + 2..])
  }

  /** The bytes of every chunk up to the end or the first error, and which it was. */
  function Body(s: seq<Byte>): (r: (seq<Byte>, Chunk))
    ensures !r.1.Data?
    decreases |s|
  {
    var (chunk, rest) := TakeChunk(s);
    if chunk.Data? then
      var (bytes, why) := Body(rest);
      (chunk.bytes + bytes, why)
    else ([], chunk)
  }

  /** `all` has been read of the body that starts at `start`, and the rest is the body at `s`. */
  ghost predicate Collected(start: seq<Byte>, all: seq<Byte>, s: seq<Byte>) {
    Body(start).0 == all + Body(s).0 && Body(start).1 == Body(s).1
  }

  lemma Associate(a: seq<Byte>, b: seq<Byte>, c: seq<Byte>)
    ensures (a + b) + c == a + (b + c)
  {
  }

  lemma BodyOf(s: seq<Byte>, chunk: Chunk, rest: seq<Byte>)
    requires TakeChunk(s) == (chunk, rest)
    ensures Body(s) == if chunk.Data? then (chunk.bytes + Body(rest).0, Body(rest).1) else ([], chunk)
    ensures chunk.Data? ==> |rest| < |s|
  {
  }

  lemma CollectOne(start: seq<Byte>, all: seq<Byte>, s: seq<Byte>, chunk: Chunk, rest: seq<Byte>)
    requires Collected(start, all, s) && TakeChunk(s) == (chunk, rest)
    ensures chunk.Data? ==> Collected(start, all + chunk.bytes, rest) && |rest| < |s|
    ensures !chunk.Data? ==> Body(start) == (all, chunk)
  {
    BodyOf(s, chunk, rest);
    if chunk.Data? {
      Associate(all, chunk.bytes, Body(rest).0);
    } else {
      assert all + [] == all;
    }
  }

  // ----- Encoding, after section 7.1 of RFC 9112 -----

  /** A chunk as it may be sent: its size in hexadecimal, any extension, and its data. */
  datatype Piece = Piece(size: seq<Byte>, extension: Extension, data: seq<Byte>)

  /** Nothing, or a semicolon after blanks and before whatever the extension says. */
  datatype Extension = NoExtension | Extension(blanks: seq<Byte>, text: seq<Byte>)

  ghost predicate ValidExtension(e: Extension) {
    e.Extension? ==>
      && (forall i :: 0 <= i < |e.blanks| ==> e.blanks[i] == 32 || e.blanks[i] == 9)
      && Decode(e.text).Some? && LF !in e.text
  }

  const LOWER := "0123456789abcdef"
  const UPPER := "0123456789ABCDEF"

  /** The digit `d` in either case. */
  ghost predicate Writes(c: nat, d: nat)
    requires d < 16
  {
    c == LOWER[d] as nat || c == UPPER[d] as nat
  }

  /** `n` written in hexadecimal, with any zeros before it. */
  ghost predicate Spells(size: seq<nat>, n: nat) {
    if size == [] then n == 0 else Writes(size[|size| - 1], n % 16) && Spells(size[..|size| - 1], n / 16)
  }

  ghost predicate ValidSize(size: seq<Byte>, n: nat, e: Extension) {
    size != [] && Spells(size, n) && n < 0x1_0000_0000_0000_0000 && ValidExtension(e)
  }

  ghost predicate ValidPiece(p: Piece) {
    ValidSize(p.size, |p.data|, p.extension) && p.data != []
  }

  /** A size as it is written plainly. */
  function Hex(n: nat): seq<Byte> {
    (if n < 16 then [] else Hex(n / 16)) + [Digit(n % 16)]
  }

  function Digit(d: nat): Byte
    requires d < 16
  {
    assert LOWER[d] <= 'f';
    LOWER[d] as nat
  }

  lemma {:induction false} HexSpells(n: nat)
    ensures Hex(n) != [] && Spells(Hex(n), n)
  {
    if n >= 16 {
      HexSpells(n / 16);
      assert Hex(n)[..|Hex(n)| - 1] == Hex(n / 16);
    } else {
      assert Hex(n)[..0] == [];
    }
  }

  lemma DigitIsRead(c: nat, d: nat)
    requires d < 16
    ensures HexDigit(c) == Some(d) <==> Writes(c, d)
  {
  }

  /** What is written is what is read. */
  lemma {:induction false} SpelledIsRead(size: seq<nat>, n: nat)
    ensures Spells(size, n) <==> IsHex(size) && HexValue(size) == n
  {
    if size != [] {
      var i := |size| - 1;
      var front, c := size[..i], size[i];
      SpelledIsRead(front, n / 16);
      DigitIsRead(c, n % 16);
      assert IsHex(size) <==> IsHex(front) && HexDigit(c).Some?;
      if IsHex(size) {
        Sixteens(HexValue(front), HexDigit(c).value, n);
      }
    }
  }

  lemma Sixteens(q: nat, d: nat, n: nat)
    requires d < 16
    ensures n == 16 * q + d <==> n / 16 == q && n % 16 == d
  {
  }

  /** The number in hexadecimal, of 64 bits at most, that a size stands for; it may be written after a plus. */
  ghost predicate StandsFor(size: seq<nat>, n: nat) {
    n < 0x1_0000_0000_0000_0000 && exists digits :: digits != [] && Spells(digits, n) && (size == digits || size == ['+' as nat] + digits)
  }

  lemma ParsesIffStandsFor(s: seq<nat>, n: nat)
    ensures ParseHex(s) == Some(n) <==> StandsFor(s, n)
  {
    var digits := if s != [] && s[0] == 43 then s[1..] else s;
    SpelledIsRead(digits, n);
    assert s == digits || s == ['+' as nat] + digits;
    if d :| d != [] && Spells(d, n) && (s == d || s == ['+' as nat] + d) {
      SpelledIsRead(d, n);
      assert HexDigit(d[0]).Some?;
      assert d == digits;
    }
  }

  ghost predicate ReadableSize(size: seq<Byte>, e: Extension) {
    size != [] && IsHex(size) && HexValue(size) < 0x1_0000_0000_0000_0000 && ValidExtension(e)
  }

  lemma ValidIsReadable(size: seq<Byte>, n: nat, e: Extension)
    requires ValidSize(size, n, e)
    ensures ReadableSize(size, e) && HexValue(size) == n
  {
    SpelledIsRead(size, n);
  }

  ghost predicate Zeros(s: seq<nat>) {
    forall i :: 0 <= i < |s| ==> s[i] == '0' as nat
  }

  lemma {:induction false} ZeroIsZeros(s: seq<nat>)
    requires IsHex(s)
    ensures HexValue(s) == 0 <==> Zeros(s)
  {
    if s != [] {
      var i := |s| - 1;
      ZeroIsZeros(s[..i]);
      assert HexDigit(s[i]).Some?;
      assert Zeros(s) <==> Zeros(s[..i]) && s[i] == '0' as nat;
    }
  }

  function ExtensionText(e: Extension): seq<Byte> {
    if e.NoExtension? then [] else e.blanks + [SEMICOLON] + e.text
  }

  function SizeLine(size: seq<Byte>, e: Extension): seq<Byte> {
    size + ExtensionText(e) + [CR, LF]
  }

  function EncodePiece(p: Piece): seq<Byte> {
    SizeLine(p.size, p.extension) + p.data + [CR, LF]
  }

  function Encode(pieces: seq<Piece>): seq<Byte> {
    if pieces == [] then [] else EncodePiece(pieces[0]) + Encode(pieces[1..])
  }

  function Payload(pieces: seq<Piece>): seq<Byte> {
    if pieces == [] then [] else pieces[0].data + Payload(pieces[1..])
  }

  // ----- A size line is read for what it says -----

  lemma {:induction false} LineStops(s: seq<Byte>, rest: seq<Byte>)
    requires LF !in s
    ensures Line(s + [LF] + rest) == s + [LF]
  {
    if s != [] {
      LineStops(s[1..], rest);
      assert (s + [LF] + rest)[1..] == s[1..] + [LF] + rest;
      assert s == [s[0]] + s[1..];
    } else {
      assert ([] + [LF] + rest)[0] == LF;
    }
  }

  lemma {:induction false} WholeLine(s: seq<Byte>)
    requires LF !in s
    ensures Line(s) == s
  {
    if s != [] {
      WholeLine(s[1..]);
      assert s == [s[0]] + s[1..];
    }
  }

  ghost predicate AllSpace(s: seq<nat>) {
    forall i :: 0 <= i < |s| ==> IsSpace(s[i])
  }

  lemma {:induction false} TrimEndSpaces(s: seq<nat>, spaces: seq<nat>)
    requires AllSpace(spaces)
    ensures TrimEnd(s + spaces) == TrimEnd(s)
  {
    if spaces == [] {
      assert s + spaces == s;
    } else {
      var n := |spaces| - 1;
      assert (s + spaces)[..|s| + n] == s + spaces[..n];
      TrimEndSpaces(s, spaces[..n]);
    }
  }

  lemma {:induction false} TrimEndKeeps(s: seq<nat>, mark: nat, rest: seq<nat>) returns (left: seq<nat>)
    requires !IsSpace(mark)
    ensures TrimEnd(s + [mark] + rest) == s + [mark] + left
  {
    var all := s + [mark] + rest;
    if rest != [] && IsSpace(rest[|rest| - 1]) {
      assert all[..|all| - 1] == s + [mark] + rest[..|rest| - 1];
      left := TrimEndKeeps(s, mark, rest[..|rest| - 1]);
    } else {
      left := rest;
    }
  }

  lemma {:induction false} SemicolonStops(s: seq<nat>, rest: seq<nat>)
    requires SEMICOLON !in s
    ensures UpToSemicolon(s + [SEMICOLON] + rest) == s
    ensures UpToSemicolon(s) == s
  {
    if s != [] {
      SemicolonStops(s[1..], rest);
      assert (s + [SEMICOLON] + rest)[1..] == s[1..] + [SEMICOLON] + rest;
      assert s == [s[0]] + s[1..];
    } else {
      assert ([] + [SEMICOLON] + rest)[0] == SEMICOLON;
    }
  }

  lemma {:induction false} TrimStartSpaces(spaces: seq<nat>, s: seq<nat>)
    requires AllSpace(spaces)
    ensures TrimStart(spaces + s) == TrimStart(s)
  {
    if spaces == [] {
      assert spaces + s == s;
    } else {
      assert (spaces + s)[1..] == spaces[1..] + s;
      TrimStartSpaces(spaces[1..], s);
    }
  }

  /** No white space and no semicolon in it. */
  ghost predicate Visible(s: seq<nat>) {
    forall i :: 0 <= i < |s| ==> !IsSpace(s[i]) && s[i] != SEMICOLON
  }

  lemma HexIsVisible(size: seq<nat>)
    requires IsHex(size)
    ensures Visible(size)
  {
    forall i | 0 <= i < |size|
      ensures !IsSpace(size[i]) && size[i] != SEMICOLON
    {
      assert HexDigit(size[i]).Some?;
    }
  }

  lemma VisibleIsNoSpace(size: seq<nat>, spaces: seq<nat>)
    requires size != [] && Visible(size) && AllSpace(spaces)
    ensures Trim(size + spaces) == size
  {
    assert !IsSpace(size[|size| - 1]);
    assert (size + spaces)[0] == size[0];
    TrimEndSpaces(size, spaces);
  }

  /** A size, then blanks, then nothing or a semicolon and anything: what is read is the size. */
  ghost predicate Tells(text: seq<nat>, size: seq<nat>, blanks: seq<nat>, tail: seq<nat>) {
    && text == size + blanks + tail && size != [] && Visible(size) && AllSpace(blanks)
    && (tail == [] || tail[0] == SEMICOLON)
  }

  lemma VisibleIsNoSemicolon(size: seq<nat>, blanks: seq<nat>)
    requires Visible(size) && AllSpace(blanks)
    ensures SEMICOLON !in size + blanks
  {
    forall i | 0 <= i < |size + blanks|
      ensures (size + blanks)[i] != SEMICOLON
    {
      assert i >= |size| ==> IsSpace(blanks[i - |size|]);
    }
  }

  lemma ToldIsRead(text: seq<nat>, size: seq<nat>, blanks: seq<nat>, tail: seq<nat>)
    requires Tells(text, size, blanks, tail)
    ensures SizeText(text) == size
  {
    assert !IsSpace(size[0]);
    if tail == [] {
      assert text == size + blanks;
      VisibleIsNoSpace(size, blanks);
      VisibleIsNoSemicolon(size, []);
      assert size + [] == size;
      SemicolonStops(size, []);
      VisibleIsNoSpace(size, []);
    } else {
      var front := size + blanks;
      assert text == front + [SEMICOLON] + tail[1..];
      assert text[0] == size[0];
      var left := TrimEndKeeps(front, SEMICOLON, tail[1..]);
      VisibleIsNoSemicolon(size, blanks);
      SemicolonStops(front, left);
      VisibleIsNoSpace(size, blanks);
    }
  }

  lemma HexIsParsed(size: seq<nat>)
    requires size != [] && IsHex(size) && HexValue(size) < 0x1_0000_0000_0000_0000
    ensures ParseHex(size) == Some(HexValue(size))
  {
    assert HexDigit(size[0]).Some?;
  }

  /** A size that can be told from what is around it, whether or not it is a number. */
  ghost predicate Legible(size: seq<Byte>, e: Extension) {
    size != [] && Visible(size) && IsAscii(size) && ValidExtension(e)
  }

  lemma HexIsLegible(size: seq<Byte>, e: Extension)
    requires ReadableSize(size, e)
    ensures Legible(size, e)
  {
    HexIsVisible(size);
    forall i | 0 <= i < |size|
      ensures size[i] < 0x80
    {
      assert HexDigit(size[i]).Some?;
    }
  }

  lemma {:induction false} HexPrefix(size: seq<nat>, n: nat)
    requires IsHex(size) && n <= |size|
    ensures HexValue(size[..n]) <= HexValue(size)
  {
    if n < |size| {
      assert size[..|size| - 1][..n] == size[..n];
      HexPrefix(size[..|size| - 1], n);
    } else {
      assert size[..n] == size;
    }
  }

  // ----- A size line, whole or cut -----

  /** What follows the size on its line. */
  function AfterSize(e: Extension): seq<Byte> {
    ExtensionText(e) + [CR, LF]
  }

  lemma LineHasOneEnd(size: seq<Byte>, e: Extension)
    requires Legible(size, e)
    ensures var line := SizeLine(size, e); |line| >= 1 && line[|line| - 1] == LF && LF !in line[..|line| - 1]
  {
    var line := SizeLine(size, e);
    forall i | 0 <= i < |line| - 1
      ensures line[i] != LF
    {
      assert i < |size| ==> line[i] == size[i] && !IsSpace(size[i]);
      assert |size| <= i < |line| - 2 ==> line[i] == ExtensionText(e)[i - |size|];
    }
  }

  ghost predicate AllBlank(cut: seq<Byte>) {
    forall i :: 0 <= i < |cut| ==> cut[i] in {9, 32, CR, LF}
  }

  lemma BlanksDecode(cut: seq<Byte>)
    requires AllBlank(cut)
    ensures Decode(cut) == Some(cut) && AllSpace(cut)
  {
    DecodeAscii(cut);
  }

  lemma CutIsBlank(e: Extension, k: nat)
    requires ValidExtension(e) && k <= |AfterSize(e)| && (e.NoExtension? || k <= |e.blanks|)
    ensures AllBlank(AfterSize(e)[..k])
  {
  }

  lemma TextDecodes(e: Extension, k: nat)
    requires e.Extension? && ValidExtension(e) && k <= |e.text| + 2
    ensures var rest := (e.text + [CR, LF])[..k];
            && Decode(e.blanks + [SEMICOLON] + rest) == (if Decode(rest).Some? then Some(e.blanks + [SEMICOLON] + Decode(rest).value) else None)
            && (k == |e.text| + 2 ==> Decode(rest).Some?)
  {
    var front, rest := e.blanks + [SEMICOLON], (e.text + [CR, LF])[..k];
    AsciiFirst(front, rest);
    if k == |e.text| + 2 {
      assert rest == e.text + [CR, LF];
      BlanksDecode([CR, LF]);
      DecodeJoins(e.text, [CR, LF]);
    }
  }

  lemma AfterBlanks(e: Extension, k: nat, j: nat)
    requires e.Extension? && k == |e.blanks| + 1 + j <= |AfterSize(e)|
    ensures AfterSize(e)[..k] == e.blanks + [SEMICOLON] + (e.text + [CR, LF])[..j]
  {
  }

  /** What a text decodes to, if to anything: blanks, then nothing or a semicolon and anything. */
  ghost predicate Reads(bytes: seq<Byte>, blanks: seq<nat>, tail: seq<nat>) {
    Decode(bytes).Some? ==> Decode(bytes).value == blanks + tail && AllSpace(blanks) && (tail == [] || tail[0] == SEMICOLON)
  }

  lemma BlanksRead(bytes: seq<Byte>)
    requires AllBlank(bytes)
    ensures Reads(bytes, bytes, []) && Decode(bytes).Some?
  {
    BlanksDecode(bytes);
    assert bytes + [] == bytes;
  }

  lemma TextReads(e: Extension, k: nat) returns (tail: seq<nat>)
    requires ValidExtension(e) && e.Extension? && |e.blanks| < k <= |AfterSize(e)|
    ensures Reads(AfterSize(e)[..k], e.blanks, tail)
    ensures k == |AfterSize(e)| ==> Decode(AfterSize(e)[..k]).Some?
  {
    var j := k - |e.blanks| - 1;
    var rest := (e.text + [CR, LF])[..j];
    TextDecodes(e, j);
    AfterBlanks(e, k, j);
    tail := [SEMICOLON] + if Decode(rest).Some? then Decode(rest).value else [];
    assert Decode(rest).Some? ==> e.blanks + [SEMICOLON] + Decode(rest).value == e.blanks + tail;
  }

  lemma AfterSizeDecodes(e: Extension, k: nat) returns (blanks: seq<nat>, tail: seq<nat>)
    requires ValidExtension(e) && k <= |AfterSize(e)|
    ensures Reads(AfterSize(e)[..k], blanks, tail)
    ensures k == |AfterSize(e)| ==> Decode(AfterSize(e)[..k]).Some?
  {
    if e.NoExtension? || k <= |e.blanks| {
      blanks, tail := AfterSize(e)[..k], [];
      CutIsBlank(e, k);
      BlanksRead(blanks);
    } else {
      blanks := e.blanks;
      tail := TextReads(e, k);
    }
  }

  /** The size a line tells when only its first `n` bytes are there. */
  function Told(size: seq<nat>, n: nat): seq<nat> {
    if n <= |size| then size[..n] else size
  }

  lemma CutLineTells(size: seq<Byte>, e: Extension, n: nat)
    requires Legible(size, e) && 0 < n <= |SizeLine(size, e)|
    ensures var text := Decode(SizeLine(size, e)[..n]); text.Some? ==> SizeText(text.value) == Told(size, n)
    ensures n <= |size| || n == |SizeLine(size, e)| ==> Decode(SizeLine(size, e)[..n]).Some?
  {
    var line := SizeLine(size, e);
    if n <= |size| {
      assert line[..n] == size[..n];
      DecodeAscii(size[..n]);
      assert size[..n] == size[..n] + [] + [];
      ToldIsRead(size[..n], size[..n], [], []);
    } else {
      var k := n - |size|;
      assert line[..n] == size + AfterSize(e)[..k];
      AsciiFirst(size, AfterSize(e)[..k]);
      var blanks, tail := AfterSizeDecodes(e, k);
      if Decode(AfterSize(e)[..k]).Some? {
        assert size + (blanks + tail) == size + blanks + tail;
        ToldIsRead(size + blanks + tail, size, blanks, tail);
      }
    }
  }

  /** A line that announces a size, before whatever comes after it. */
  ghost predicate Announces(line: seq<Byte>, after: seq<Byte>, n: nat) {
    && Line(line + after) == line && line != [] && Decode(line).Some?
    && SizeText(Decode(line).value) != [] && ParseHex(SizeText(Decode(line).value)) == Some(n)
  }

  lemma ToldIsParsed(size: seq<Byte>, e: Extension, n: nat)
    requires ReadableSize(size, e) && 0 < n
    ensures IsHex(Told(size, n)) && Told(size, n) != [] && ParseHex(Told(size, n)) == Some(HexValue(Told(size, n)))
  {
    HexPrefix(size, if n <= |size| then n else |size|);
    assert Told(size, |size|) == size;
    HexIsParsed(Told(size, n));
  }

  lemma SizeLineAnnounces(size: seq<Byte>, e: Extension, after: seq<Byte>)
    requires ReadableSize(size, e)
    ensures Announces(SizeLine(size, e), after, HexValue(size))
  {
    var line := SizeLine(size, e);
    HexIsLegible(size, e);
    LineHasOneEnd(size, e);
    assert line == line[..|line| - 1] + [LF];
    LineStops(line[..|line| - 1], after);
    assert line[..|line|] == line;
    CutLineTells(size, e, |line|);
    ToldIsParsed(size, e, |line|);
  }

  /** What comes of a size: the end, or so many bytes and the line break after them, if all of that is there. */
  function Asked(n: nat, after: seq<Byte>): (Chunk, seq<Byte>) {
    if n == 0 then (End, after) else if |after| < n + 2 then (Truncated, []) else (Data(after[..n]), after[n + 2..])
  }

  lemma AnnouncedIsTaken(line: seq<Byte>, after: seq<Byte>, n: nat)
    requires Announces(line, after, n)
    ensures TakeChunk(line + after) == Asked(n, after)
  {
    assert (line + after)[|line|..] == after;
  }

  /** What is made of a size line that ends early: nothing at all or zeros are an end, half a character is no text, the rest is cut short. */
  ghost function CutLine(size: seq<Byte>, e: Extension, n: nat): Chunk
    requires n <= |SizeLine(size, e)|
  {
    if Decode(SizeLine(size, e)[..n]).None? then Malformed
    else if Zeros(Told(size, n)) then End
    else Truncated
  }

  lemma CutLineIsTaken(size: seq<Byte>, e: Extension, n: nat)
    requires ReadableSize(size, e) && n < |SizeLine(size, e)|
    ensures Body(SizeLine(size, e)[..n]) == ([], CutLine(size, e, n))
  {
    var cut := SizeLine(size, e)[..n];
    if n > 0 {
      HexIsLegible(size, e);
      LineHasOneEnd(size, e);
      WholeLine(cut);
      CutLineTells(size, e, n);
      ToldIsParsed(size, e, n);
      if Decode(cut).Some? {
        assert cut + [] == cut;
        AnnouncedIsTaken(cut, [], HexValue(Told(size, n)));
        ZeroIsZeros(Told(size, n));
      }
    }
  }

  /** What follows the size line of a chunk. */
  function AfterLine(p: Piece, rest: seq<Byte>): seq<Byte> {
    p.data + [CR, LF] + rest
  }

  lemma PieceIsLineAndAfter(p: Piece, rest: seq<Byte>)
    ensures EncodePiece(p) + rest == SizeLine(p.size, p.extension) + AfterLine(p, rest)
  {
  }

  lemma AfterLineIs(p: Piece, rest: seq<Byte>)
    ensures |AfterLine(p, rest)| >= |p.data| + 2
    ensures AfterLine(p, rest)[..|p.data|] == p.data && AfterLine(p, rest)[|p.data| + 2..] == rest
  {
  }

  lemma PieceIsTaken(p: Piece, rest: seq<Byte>)
    requires ValidPiece(p)
    ensures TakeChunk(EncodePiece(p) + rest) == (Data(p.data), rest)
  {
    ValidIsReadable(p.size, |p.data|, p.extension);
    PieceIsLineAndAfter(p, rest);
    AfterLineIs(p, rest);
    SizeLineAnnounces(p.size, p.extension, AfterLine(p, rest));
    AnnouncedIsTaken(SizeLine(p.size, p.extension), AfterLine(p, rest), |p.data|);
  }

  lemma BodyOfPiece(p: Piece, rest: seq<Byte>)
    requires ValidPiece(p)
    ensures Body(EncodePiece(p) + rest) == (p.data + Body(rest).0, Body(rest).1)
  {
    PieceIsTaken(p, rest);
    BodyOf(EncodePiece(p) + rest, Data(p.data), rest);
  }

  /** Whole chunks first: their data, and then whatever the rest is. */
  lemma {:induction false} BodyOfPieces(pieces: seq<Piece>, rest: seq<Byte>)
    requires forall i :: 0 <= i < |pieces| ==> ValidPiece(pieces[i])
    ensures Body(Encode(pieces) + rest) == (Payload(pieces) + Body(rest).0, Body(rest).1)
  {
    if pieces == [] {
      assert Encode(pieces) + rest == rest && Payload(pieces) + Body(rest).0 == Body(rest).0;
    } else {
      Associate(EncodePiece(pieces[0]), Encode(pieces[1..]), rest);
      BodyOfPiece(pieces[0], Encode(pieces[1..]) + rest);
      BodyOfPieces(pieces[1..], rest);
      Associate(pieces[0].data, Payload(pieces[1..]), Body(rest).0);
    }
  }

  /** The last chunk ends the body, whatever trailer follows it. */
  lemma LastIsTaken(size: seq<Byte>, e: Extension, rest: seq<Byte>)
    requires ValidSize(size, 0, e)
    ensures Body(SizeLine(size, e) + rest) == ([], End)
  {
    ValidIsReadable(size, 0, e);
    SizeLineAnnounces(size, e, rest);
    AnnouncedIsTaken(SizeLine(size, e), rest, 0);
  }

  ghost predicate ValidPieces(pieces: seq<Piece>) {
    forall i :: 0 <= i < |pieces| ==> ValidPiece(pieces[i])
  }

  /** Every body, split into nonempty chunks in any way and however the sizes are written, reads back as it was. */
  lemma RoundTrip(pieces: seq<Piece>, last: seq<Byte>, e: Extension, rest: seq<Byte>)
    requires ValidPieces(pieces) && ValidSize(last, 0, e)
    ensures Body(Encode(pieces) + (SizeLine(last, e) + rest)) == (Payload(pieces), End)
  {
    LastIsTaken(last, e, rest);
    BodyOfPieces(pieces, SizeLine(last, e) + rest);
    assert Payload(pieces) + [] == Payload(pieces);
  }

  lemma CutPieceIsTaken(p: Piece, n: nat)
    requires ValidPiece(p) && n < |EncodePiece(p)|
    ensures Body(EncodePiece(p)[..n]) ==
            ([], if n < |SizeLine(p.size, p.extension)| then CutLine(p.size, p.extension, n) else Truncated)
    ensures ReadableSize(p.size, p.extension) && HexValue(p.size) > 0
  {
    var line, cut := SizeLine(p.size, p.extension), EncodePiece(p)[..n];
    ValidIsReadable(p.size, |p.data|, p.extension);
    if n < |line| {
      assert cut == line[..n];
      CutLineIsTaken(p.size, p.extension, n);
    } else {
      var after := EncodePiece(p)[|line|..n];
      assert cut == line + after;
      SizeLineAnnounces(p.size, p.extension, after);
      AnnouncedIsTaken(line, after, |p.data|);
    }
  }

  /**
   A body cut anywhere in a chunk: the chunks before it are read, and the cut one is taken for the
   end exactly when what is there of its size is nothing or zeros; otherwise it is an error.
   */
  lemma Cut(pieces: seq<Piece>, p: Piece, n: nat)
    requires ValidPieces(pieces) && ValidPiece(p) && n < |EncodePiece(p)|
    ensures var (bytes, why) := Body(Encode(pieces) + EncodePiece(p)[..n]);
            && bytes == Payload(pieces)
            && (why == End <==> n <= |p.size| && Zeros(p.size[..n]))
            && (why == Malformed <==> n < |SizeLine(p.size, p.extension)| && Decode(SizeLine(p.size, p.extension)[..n]).None?)
  {
    CutPieceIsTaken(p, n);
    BodyOfPieces(pieces, EncodePiece(p)[..n]);
    assert Payload(pieces) + [] == Payload(pieces);
    ZeroIsZeros(p.size);
    HexIsLegible(p.size, p.extension);
    if 0 < n <= |SizeLine(p.size, p.extension)| {
      CutLineTells(p.size, p.extension, n);
    }
  }

  /** A body cut anywhere in its last line is still read whole, unless the cut leaves half a character. */
  lemma CutInLast(pieces: seq<Piece>, last: seq<Byte>, e: Extension, n: nat)
    requires ValidPieces(pieces) && ValidSize(last, 0, e) && n < |SizeLine(last, e)|
    ensures Body(Encode(pieces) + SizeLine(last, e)[..n]) ==
            (Payload(pieces), if Decode(SizeLine(last, e)[..n]).None? then Malformed else End)
  {
    ValidIsReadable(last, 0, e);
    CutLineIsTaken(last, e, n);
    ZeroIsZeros(last);
    BodyOfPieces(pieces, SizeLine(last, e)[..n]);
    assert Payload(pieces) + [] == Payload(pieces);
  }

  /** The body in parts, each sent as a chunk under its plain size. */
  function Plain(parts: seq<seq<Byte>>): seq<Piece> {
    seq(|parts|, i requires 0 <= i < |parts| => Piece(Hex(|parts[i]|), NoExtension, parts[i]))
  }

  function Joined(parts: seq<seq<Byte>>): seq<Byte> {
    if parts == [] then [] else parts[0] + Joined(parts[1..])
  }

  lemma {:induction false} PlainPayload(parts: seq<seq<Byte>>)
    ensures Payload(Plain(parts)) == Joined(parts)
  {
    if parts != [] {
      assert Plain(parts)[1..] == Plain(parts[1..]);
      PlainPayload(parts[1..]);
    }
  }

  /** A body split into nonempty parts in any way, each under its size in plain hexadecimal, then the last chunk and a trailer: the parts joined. */
  lemma PlainRoundTrip(parts: seq<seq<Byte>>, trailer: seq<Byte>)
    requires forall i :: 0 <= i < |parts| ==> 0 < |parts[i]| < 0x1_0000_0000_0000_0000
    ensures Body(Encode(Plain(parts)) + (['0' as nat, CR, LF] + trailer)) == (Joined(parts), End)
  {
    forall i | 0 <= i < |parts|
      ensures ValidPiece(Plain(parts)[i])
    {
      HexSpells(|parts[i]|);
    }
    HexSpells(0);
    assert Hex(0) == ['0' as nat];
    assert SizeLine(Hex(0), NoExtension) == ['0' as nat, CR, LF];
    RoundTrip(Plain(parts), Hex(0), NoExtension, trailer);
    PlainPayload(parts);
  }

  // ----- Any size line -----

  ghost predicate Blank(s: seq<Byte>) {
    forall i :: 0 <= i < |s| ==> s[i] == 9 || s[i] == 32
  }

  lemma BlankFirst(lead: seq<Byte>, line: seq<Byte>)
    requires Blank(lead) && Decode(line).Some?
    ensures Decode(lead + line).Some? && SizeText(Decode(lead + line).value) == SizeText(Decode(line).value)
  {
    AsciiFirst(lead, line);
    assert AllSpace(lead);
    TrimStartSpaces(lead, Decode(line).value);
  }

  lemma LeadAndLine(lead: seq<Byte>, line: seq<Byte>, rest: seq<Byte>)
    requires Blank(lead) && line != [] && line[|line| - 1] == LF && LF !in line[..|line| - 1]
    ensures Line(lead + line + rest) == lead + line && (lead + line + rest)[|lead + line|..] == rest
  {
    var front := lead + line[..|line| - 1];
    assert LF !in front;
    assert lead + line == front + [LF];
    LineStops(front, rest);
  }

  lemma LineSays(lead: seq<Byte>, size: seq<Byte>, e: Extension, rest: seq<Byte>)
    requires Blank(lead) && Legible(size, e)
    ensures TakeChunk(lead + SizeLine(size, e) + rest) ==
            if ParseHex(size).None? then (Malformed, rest) else Asked(ParseHex(size).value, rest)
  {
    var line := SizeLine(size, e);
    LineHasOneEnd(size, e);
    LeadAndLine(lead, line, rest);
    assert line[..|line|] == line;
    CutLineTells(size, e, |line|);
    BlankFirst(lead, line);
    ReadLineIsTaken(lead + line, rest, size);
  }

  /** Whatever a size line says, after any blanks: if its size is a number, so many bytes are asked for. */
  lemma SizeDecides(lead: seq<Byte>, size: seq<Byte>, e: Extension, rest: seq<Byte>, n: nat)
    requires Blank(lead) && Legible(size, e) && StandsFor(size, n)
    ensures TakeChunk(lead + SizeLine(size, e) + rest) == Asked(n, rest)
  {
    LineSays(lead, size, e, rest);
    ParsesIffStandsFor(size, n);
  }

  /** It is an error exactly when its size is no number. */
  lemma MalformedIffNoNumber(lead: seq<Byte>, size: seq<Byte>, e: Extension, rest: seq<Byte>)
    requires Blank(lead) && Legible(size, e)
    ensures TakeChunk(lead + SizeLine(size, e) + rest).0.Malformed? <==> forall n :: !StandsFor(size, n)
  {
    LineSays(lead, size, e, rest);
    forall n: nat
      ensures StandsFor(size, n) <==> ParseHex(size) == Some(n)
    {
      ParsesIffStandsFor(size, n);
    }
  }

  lemma ReadLineIsTaken(line: seq<Byte>, rest: seq<Byte>, size: seq<nat>)
    requires line != [] && Line(line + rest) == line && Decode(line).Some? && SizeText(Decode(line).value) == size != []
    ensures TakeChunk(line + rest) == if ParseHex(size).None? then (Malformed, rest) else Asked(ParseHex(size).value, rest)
  {
    if ParseHex(size).None? {
      NoNumberIsTaken(line, rest, size);
    } else {
      AnnouncedIsTaken(line, rest, ParseHex(size).value);
    }
  }

  lemma NoNumberIsTaken(line: seq<Byte>, rest: seq<Byte>, size: seq<nat>)
    requires line != [] && Line(line + rest) == line && Decode(line).Some? && SizeText(Decode(line).value) == size != []
    requires ParseHex(size) == None
    ensures TakeChunk(line + rest) == (Malformed, rest)
  {
    assert (line + rest)[|line|..] == rest;
  }

  /** And a line without a size ends the body. */
  lemma NoSizeEnds(lead: seq<Byte>, e: Extension, rest: seq<Byte>)
    requires Blank(lead) && ValidExtension(e)
    ensures TakeChunk(lead + AfterSize(e) + rest) == (End, rest)
  {
    var line := AfterSize(e);
    forall i | 0 <= i < |line| - 1
      ensures line[i] != LF
    {
      assert i < |line| - 2 ==> line[i] == ExtensionText(e)[i];
    }
    LeadAndLine(lead, line, rest);
    assert line[..|line|] == line;
    var blanks, tail := AfterSizeDecodes(e, |line|);
    BlankFirst(lead, line);
    NothingTold(blanks, tail);
  }

  lemma NothingTold(blanks: seq<nat>, tail: seq<nat>)
    requires AllSpace(blanks) && (tail == [] || tail[0] == SEMICOLON)
    ensures SizeText(blanks + tail) == []
  {
    TrimStartSpaces(blanks, tail);
    if tail != [] {
      var left := TrimEndKeeps([], SEMICOLON, tail[1..]);
      assert [] + [SEMICOLON] + tail[1..] == tail;
      SemicolonStops([], left);
    }
  }

  // ----- Events by newline -----

  /** The nonempty lines that a newline ends, in order. */
  function Lines(s: seq<Byte>): seq<seq<Byte>>
    decreases |s|
  {
    if LF !in s then []
    else
      Event(Line(s)) + Lines(s[|Line(s)|..])
  }

  /** What a line ended by a newline is handed on as: nothing, if it is empty. */
  function Event(line: seq<Byte>): seq<seq<Byte>>
    requires line != []
  {
    if |line| == 1 then [] else [line[..|line| - 1]]
  }

  /** What follows the last newline. */
  function Tail(s: seq<Byte>): seq<Byte>
    decreases |s|
  {
    if LF !in s then s else Tail(s[|Line(s)|..])
  }

  lemma {:induction false} LineOfMore(a: seq<Byte>, b: seq<Byte>)
    requires LF in a
    ensures Line(a + b) == Line(a) && a[|Line(a)|..] + b == (a + b)[|Line(a)|..]
  {
    if a[0] != LF {
      assert (a + b)[1..] == a[1..] + b;
      LineOfMore(a[1..], b);
    }
  }

  /** A byte stream's lines are those of its front, and those of what the front left over and the rest. */
  lemma {:induction false} LinesOfMore(a: seq<Byte>, b: seq<Byte>)
    ensures Lines(a + b) == Lines(a) + Lines(Tail(a) + b)
    ensures Tail(a + b) == Tail(Tail(a) + b)
    decreases |a|
  {
    if LF in a {
      var l := Line(a);
      var rest := a[|l|..];
      LineOfMore(a, b);
      LinesOfMore(rest, b);
      LinesAssociate(Event(l), Lines(rest), Lines(Tail(rest) + b));
      assert Lines(a + b) == Event(l) + Lines(rest + b);
    } else {
      assert [] + Lines(a + b) == Lines(a + b);
    }
  }

  lemma LinesAssociate(a: seq<seq<Byte>>, b: seq<seq<Byte>>, c: seq<seq<Byte>>)
    ensures a + (b + c) == (a + b) + c
  {
  }

  /** Lines joined by newlines are found again, without the empty ones and what is left unended. */
  function Join(lines: seq<seq<Byte>>): seq<Byte> {
    if lines == [] then [] else lines[0] + [LF] + Join(lines[1..])
  }

  function NonEmpty(lines: seq<seq<Byte>>): seq<seq<Byte>> {
    if lines == [] then [] else (if lines[0] == [] then [] else [lines[0]]) + NonEmpty(lines[1..])
  }

  lemma {:induction false} LinesOfJoined(lines: seq<seq<Byte>>, tail: seq<Byte>)
    requires (forall i :: 0 <= i < |lines| ==> LF !in lines[i]) && LF !in tail
    ensures Lines(Join(lines) + tail) == NonEmpty(lines) && Tail(Join(lines) + tail) == tail
  {
    if lines == [] {
      assert Join(lines) + tail == tail;
    } else {
      var s, more := Join(lines) + tail, Join(lines[1..]) + tail;
      assert s == lines[0] + [LF] + more;
      LineStops(lines[0], more);
      assert s[|lines[0]|] == LF;
      assert s[|lines[0]| + 1..] == more;
      LinesOfJoined(lines[1..], tail);
    }
  }

  /** The events handled do not depend on where the chunks were cut. */
  lemma FramingIndependence(a: seq<Piece>, b: seq<Piece>, last: seq<Byte>, e: Extension)
    requires ValidPieces(a) && ValidPieces(b) && ValidSize(last, 0, e) && Payload(a) == Payload(b)
    ensures Lines(Body(Encode(a) + SizeLine(last, e)).0) == Lines(Body(Encode(b) + SizeLine(last, e)).0) == Lines(Payload(a))
  {
    assert SizeLine(last, e) + [] == SizeLine(last, e);
    RoundTrip(a, last, e, []);
    RoundTrip(b, last, e, []);
  }

  class Reader {
    var input: seq<Byte>

    constructor (input: seq<Byte>)
      ensures this.input == input
    {
      this.input := input;
    }

    /** `read_line`. */
    method ReadLine() returns (line: seq<Byte>)
      modifies this
      ensures line == Line(old(input)) && input == old(input)[|line|..]
    {
      line := Line(input);
      input := input[|line|..];
    }

    /** `read_exact`; an input that ends first is used up. */
    method ReadExact(n: nat) returns (bytes: Option<seq<Byte>>)
      modifies this
      ensures bytes.Some? <==> n <= |old(input)|
      ensures bytes.Some? ==> bytes.value == old(input)[..n] && input == old(input)[n..]
      ensures bytes.None? ==> input == []
    {
      if n <= |input| {
        bytes := Some(input[..n]);
        input := input[n..];
      } else {
        bytes := None;
        input := [];
      }
    }

    method ReadChunk() returns (chunk: Chunk)
      modifies this
      ensures (chunk, input) == TakeChunk(old(input))
    {
      var line := ReadLine();
      if line == [] {
        return End;
      }
      var decoded := Decode(line);
      if decoded.None? {
        return Malformed;
      }
      var text := SizeText(decoded.value);
      if text == [] {
        return End;
      }
      var size := ParseHex(text);
      if size.None? {
        return Malformed;
      }
      if size.value == 0 {
        return End;
      }
      var data := ReadExact(size.value);
      if data.None? {
        return Truncated;
      }
      var trailer := ReadExact(2);
      if trailer.None? {
        return Truncated;
      }
      return Data(data.value);
    }

    /** The loop that collects a body: all of it, or the error it ran into. */
    method ReadBody() returns (bytes: Option<seq<Byte>>)
      modifies this
      ensures bytes.Some? <==> Body(old(input)).1.End?
      ensures bytes.Some? ==> bytes.value == Body(old(input)).0
    {
      var all := [];
      while true
        invariant Collected(old(input), all, input)
        decreases |input|
      {
        ghost var before := input;
        var chunk := ReadChunk();
        CollectOne(old(input), all, before, chunk, input);
        if chunk.End? {
          return Some(all);
        }
        if !chunk.Data? {
          return None;
        }
        all := all + chunk.bytes;
      }
    }

    /** Takes the lines that have ended off the front of what is pending. */
    method TakeLines(pending: seq<Byte>) returns (left: seq<Byte>, lines: seq<seq<Byte>>)
      ensures left == Tail(pending) && lines == Lines(pending)
    {
      left, lines := pending, [];
      while LF in left
        invariant Lines(pending) == lines + Lines(left) && Tail(pending) == Tail(left)
        decreases |left|
      {
        var line := Line(left);
        LinesAssociate(lines, Event(line), Lines(left[|line|..]));
        left := left[|line|..];
        lines := lines + Event(line);
      }
    }

    /** The lines handed on, in order: those of every byte that arrived, whether or not the stream ends well. */
    method StreamBody() returns (ok: bool, handled: seq<seq<Byte>>)
      modifies this
      ensures ok <==> Body(old(input)).1.End?
      ensures handled == Lines(Body(old(input)).0)
    {
      handled := [];
      var pending: seq<Byte> := [];
      ghost var all: seq<Byte> := [];
      while true
        invariant Collected(old(input), all, input)
        invariant handled == Lines(all) && pending == Tail(all)
        decreases |input|
      {
        ghost var before := input;
        var chunk := ReadChunk();
        CollectOne(old(input), all, before, chunk, input);
        if !chunk.Data? {
          return chunk.End?, handled;
        }
        LinesOfMore(all, chunk.bytes);
        var left, lines := TakeLines(pending + chunk.bytes);
        handled, pending := handled + lines, left;
        all := all + chunk.bytes;
      }
    }
  }
}
