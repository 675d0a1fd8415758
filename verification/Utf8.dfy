/** UTF-16 strings and UTF-8 bytes, with the replacement the platform makes where a string or
    a byte sequence is not well formed. */
module Utf8 {
  import opened Prelude
  import opened Text

  /** A Unicode scalar value. */
  type scalar = c: int | (0 <= c < 0xD800) || (0xE000 <= c < 0x11_0000)

  const REPLACEMENT: scalar := 0xFFFD

  // ---- UTF-16 -------------------------------------------------------------------------------------

  predicate High(u: int) { 0xD800 <= u < 0xDC00 }
  predicate Low(u: int) { 0xDC00 <= u < 0xE000 }

  predicate PairAt(t: seq<unit>) {
    |t| >= 2 && High(t[0]) && Low(t[1])
  }

  function Paired(high: unit, low: unit): scalar
    requires High(high) && Low(low)
  {
    0x10000 + (high as int - 0xD800) * 0x400 + (low as int - 0xDC00)
  }

  /** The code points of a string; an unpaired surrogate reads as U+FFFD. */
  function Scalars(t: seq<unit>): seq<scalar> {
    if t == [] then []
    else if PairAt(t) then [Paired(t[0], t[1])] + Scalars(t[2..])
    else if High(t[0]) || Low(t[0]) then [REPLACEMENT] + Scalars(t[1..])
    else [t[0] as scalar] + Scalars(t[1..])
  }

  function Unit16(c: scalar): (t: seq<unit>)
    ensures |t| in {1, 2}
  {
    if c < 0x10000 then [c] else [0xD800 + (c - 0x10000) / 0x400, 0xDC00 + (c - 0x10000) % 0x400]
  }

  function Units(cs: seq<scalar>): seq<unit> {
    if cs == [] then [] else Unit16(cs[0]) + Units(cs[1..])
  }

  predicate WellFormed(t: seq<unit>) {
    t == [] ||
    if PairAt(t) then WellFormed(t[2..])
    else !High(t[0]) && !Low(t[0]) && WellFormed(t[1..])
  }

  /** `t` with each unpaired surrogate replaced. */
  function Repaired(t: seq<unit>): seq<unit> {
    Units(Scalars(t))
  }

  lemma {:induction false} RepairedExactly(t: seq<unit>)
    ensures Repaired(t) == t <==> WellFormed(t)
    ensures Repaired(t) == [] <==> t == []
    ensures |Repaired(t)| == |t|
  {
    if t != [] {
      if PairAt(t) {
        RepairedExactly(t[2..]);
        assert Unit16(Scalars(t)[0]) == t[..2];
        assert t == t[..2] + t[2..];
      } else {
        RepairedExactly(t[1..]);
        assert t == t[..1] + t[1..];
        if High(t[0]) || Low(t[0]) {
          assert Unit16(Scalars(t)[0])[0] != t[0];
        }
      }
    }
  }

  lemma {:induction false} AsciiIsWellFormed(t: seq<unit>)
    requires Ascii(t)
    ensures WellFormed(t)
  {
    if t != [] {
      AsciiIsWellFormed(t[1..]);
    }
  }

  // ---- UTF-8 --------------------------------------------------------------------------------------

  function Encode1(c: scalar): (b: seq<byte>)
    ensures 1 <= |b| <= 4
  {
    if c < 0x80 then [c]
    else if c < 0x800 then [0xC0 + c / 0x40, 0x80 + c % 0x40]
    else if c < 0x10000 then [0xE0 + c / 0x40 / 0x40, 0x80 + c / 0x40 % 0x40, 0x80 + c % 0x40]
    else [0xF0 + c / 0x40 / 0x40 / 0x40, 0x80 + c / 0x40 / 0x40 % 0x40, 0x80 + c / 0x40 % 0x40, 0x80 + c % 0x40]
  }

  function Encode(cs: seq<scalar>): seq<byte> {
    if cs == [] then [] else Encode1(cs[0]) + Encode(cs[1..])
  }

  /** One decoding step: a code point, or the length of the longest part of one that is there. */
  datatype Piece = Valid(c: scalar, size: nat) | Invalid(size: nat)

  predicate Tail(b: seq<byte>, i: nat) {
    i < |b| && 0x80 <= b[i] < 0xC0
  }

  function Six(b: seq<byte>, i: nat): (v: int)
    requires Tail(b, i)
    ensures 0 <= v < 0x40
  {
    b[i] as int - 0x80
  }

  function Decode1(b: seq<byte>): (p: Piece)
    requires b != []
    ensures 1 <= p.size <= |b|
  {
    var first: int := b[0];
    if first < 0x80 then Valid(first, 1)
    else if 0xC2 <= first < 0xE0 then
      if !Tail(b, 1) then Invalid(1) else Valid((first - 0xC0) * 0x40 + Six(b, 1), 2)
    else if 0xE0 <= first < 0xF0 then
      if !Tail(b, 1) || (first == 0xE0 && b[1] < 0xA0) || (first == 0xED && b[1] >= 0xA0) then Invalid(1)
      else if !Tail(b, 2) then Invalid(2)
      else Valid(((first - 0xE0) * 0x40 + Six(b, 1)) * 0x40 + Six(b, 2), 3)
    else if 0xF0 <= first < 0xF5 then
      if !Tail(b, 1) || (first == 0xF0 && b[1] < 0x90) || (first == 0xF4 && b[1] >= 0x90) then Invalid(1)
      else if !Tail(b, 2) then Invalid(2)
      else if !Tail(b, 3) then Invalid(3)
      else Valid((((first - 0xF0) * 0x40 + Six(b, 1)) * 0x40 + Six(b, 2)) * 0x40 + Six(b, 3), 4)
    else Invalid(1)
  }

  /** The platform's decoder: one U+FFFD for each part it cannot use. */
  function Decode(b: seq<byte>): seq<scalar>
    decreases |b|
  {
    if b == [] then []
    else
      var p := Decode1(b);
      [if p.Valid? then p.c else REPLACEMENT] + Decode(b[p.size..])
  }

  lemma Decode1Encode1(c: scalar, rest: seq<byte>)
    ensures Decode1(Encode1(c) + rest) == Valid(c, |Encode1(c)|)
  {
    var b := Encode1(c) + rest;
    if 0x80 <= c < 0x800 {
      assert Tail(b, 1) && Six(b, 1) == c % 0x40;
    } else if 0x800 <= c < 0x10000 {
      assert Tail(b, 1) && Six(b, 1) == c / 0x40 % 0x40;
      assert Tail(b, 2) && Six(b, 2) == c % 0x40;
    } else if 0x10000 <= c {
      assert Tail(b, 1) && Six(b, 1) == c / 0x40 / 0x40 % 0x40;
      assert Tail(b, 2) && Six(b, 2) == c / 0x40 % 0x40;
      assert Tail(b, 3) && Six(b, 3) == c % 0x40;
    }
  }

  lemma {:induction false} DecodeEncode(cs: seq<scalar>)
    ensures Decode(Encode(cs)) == cs
  {
    if cs != [] {
      var rest := Encode(cs[1..]);
      Decode1Encode1(cs[0], rest);
      assert Encode(cs)[|Encode1(cs[0])|..] == rest;
      DecodeEncode(cs[1..]);
    }
  }

  // ---- strings to bytes and back --------------------------------------------------------------------

  /** `Buffer.from(t, "utf8")` */
  function ToBytes(t: seq<unit>): seq<byte> {
    Encode(Scalars(t))
  }

  /** `buffer.toString("utf8")` */
  function FromBytes(b: seq<byte>): seq<unit> {
    Units(Decode(b))
  }

  lemma BytesRoundTrip(t: seq<unit>)
    ensures FromBytes(ToBytes(t)) == Repaired(t)
  {
    DecodeEncode(Scalars(t));
  }

  /** A string takes as many bytes as units only when it is ASCII, and then they are the same. */
  lemma {:induction false} BytesOfAscii(t: seq<unit>)
    ensures |ToBytes(t)| >= |t|
    ensures |ToBytes(t)| == |t| <==> Ascii(t)
    ensures Ascii(t) ==> ToBytes(t) == t
  {
    if t != [] {
      if PairAt(t) {
        BytesOfAscii(t[2..]);
        assert t[0] >= 0x80;
      } else {
        BytesOfAscii(t[1..]);
        assert t == [t[0]] + t[1..];
        assert Ascii(t) <==> t[0] < 0x80 && Ascii(t[1..]);
      }
    }
  }
}
