/** `encodeURIComponent` and `decodeURIComponent`: the percent-encoding of section 2.1 of
    RFC 3986 over UTF-8. `None` stands for the `URIError` both of them throw. */
module Percent {
  import opened Prelude
  import opened Text
  import opened Utf8

  const PERCENT: unit := 0x25

  /** Letters, digits and - _ . ! ~ * ' ( ) */
  predicate Unreserved(c: int) {
    0x41 <= c <= 0x5A || 0x61 <= c <= 0x7A || 0x30 <= c <= 0x39
    || c in {0x2D, 0x5F, 0x2E, 0x21, 0x7E, 0x2A, 0x27, 0x28, 0x29}
  }

  function HexDigit(v: int): unit
    requires 0 <= v < 16
  {
    if v < 10 then 0x30 + v else 0x41 + (v - 10)
  }

  function HexValue(u: unit): (v: Option<int>)
    ensures v.Some? ==> 0 <= v.value < 16
  {
    if 0x30 <= u <= 0x39 then Some(u - 0x30)
    else if 0x41 <= u <= 0x46 then Some(u - 0x41 + 10)
    else if 0x61 <= u <= 0x66 then Some(u - 0x61 + 10)
    else None
  }

  function Escape1(b: byte): seq<unit> {
    [PERCENT, HexDigit(b / 16), HexDigit(b % 16)]
  }

  function Escape(b: seq<byte>): seq<unit> {
    if b == [] then [] else Escape1(b[0]) + Escape(b[1..])
  }

  function EncodeScalars(cs: seq<scalar>): seq<unit> {
    if cs == [] then []
    else (if Unreserved(cs[0]) then [cs[0]] else Escape(Encode1(cs[0]))) + EncodeScalars(cs[1..])
  }

  function EncodeComponent(t: seq<unit>): Option<seq<unit>> {
    if WellFormed(t) then Some(EncodeScalars(Scalars(t))) else None
  }

  /** The bytes of the escapes `t` starts with, at most `n` of them. */
  function Escaped(t: seq<unit>, n: nat): (b: seq<byte>)
    ensures |b| <= n && 3 * |b| <= |t|
  {
    if n == 0 || |t| < 3 || t[0] != PERCENT || HexValue(t[1]).None? || HexValue(t[2]).None? then []
    else [HexValue(t[1]).value * 16 + HexValue(t[2]).value] + Escaped(t[3..], n - 1)
  }

  function DecodeComponent(t: seq<unit>): Option<seq<unit>>
    decreases |t|
  {
    if t == [] then Some([])
    else if t[0] != PERCENT then
      var rest := DecodeComponent(t[1..]);
      if rest.None? then None else Some([t[0]] + rest.value)
    else
      var b := Escaped(t, 4);
      if b == [] then None
      else
        match Decode1(b)
        case Invalid(_) => None
        case Valid(c, size) =>
          var rest := DecodeComponent(t[3 * size..]);
          if rest.None? then None else Some(Unit16(c) + rest.value)
  }

  lemma HexRoundTrip(b: byte)
    ensures HexValue(HexDigit(b / 16)) == Some(b / 16) && HexValue(HexDigit(b % 16)) == Some(b % 16)
  {
  }

  lemma EscapedFirst(b: byte, rest: seq<unit>, n: nat)
    requires n > 0
    ensures Escaped(Escape1(b) + rest, n) == [b] + Escaped(rest, n - 1)
  {
    HexRoundTrip(b);
    var t := Escape1(b) + rest;
    assert t[0] == PERCENT && t[1] == HexDigit(b / 16) && t[2] == HexDigit(b % 16) && t[3..] == rest;
  }

  /** Reading at most `n` escapes finds all of `b`, and possibly more behind it. */
  lemma {:induction false} EscapedEscape(b: seq<byte>, rest: seq<unit>, n: nat)
    requires |b| <= n
    ensures Escaped(Escape(b) + rest, n) == b + Escaped(rest, n - |b|)
  {
    if b == [] {
      assert Escape(b) + rest == rest;
    } else {
      EscapeNests(b, rest);
      EscapedEscape(b[1..], rest, n - 1);
      EscapedFirst(b[0], Escape(b[1..]) + rest, n);
      FirstThenRest(b, Escaped(rest, n - |b|));
    }
  }

  lemma EscapeNests(b: seq<byte>, rest: seq<unit>)
    requires b != []
    ensures Escape(b) + rest == Escape1(b[0]) + (Escape(b[1..]) + rest)
  {
  }

  lemma FirstThenRest(b: seq<byte>, more: seq<byte>)
    requires b != []
    ensures [b[0]] + (b[1..] + more) == b + more
  {
  }

  lemma {:induction false} EscapeLength(b: seq<byte>)
    ensures |Escape(b)| == 3 * |b|
  {
    if b != [] {
      EscapeLength(b[1..]);
    }
  }

  lemma {:induction false} DecodeEncodeScalars(cs: seq<scalar>)
    ensures DecodeComponent(EncodeScalars(cs)) == Some(Units(cs))
  {
    if cs != [] {
      var rest := EncodeScalars(cs[1..]);
      DecodeEncodeScalars(cs[1..]);
      if Unreserved(cs[0]) {
        assert ([cs[0]] + rest)[1..] == rest;
      } else {
        DecodeEscaped(cs[0], rest);
      }
    }
  }

  lemma DecodeEscaped(c: scalar, rest: seq<unit>)
    ensures DecodeComponent(Escape(Encode1(c)) + rest)
            == match DecodeComponent(rest) case None => None case Some(more) => Some(Unit16(c) + more)
  {
    var b := Encode1(c);
    var t := Escape(b) + rest;
    EscapeLength(b);
    EscapedEscape(b, rest, 4);
    Decode1Encode1(c, Escaped(rest, 4 - |b|));
    assert t[0] == PERCENT;
    assert t[3 * |b|..] == rest;
  }

  /** Encoding fails exactly for strings with an unpaired surrogate; decoding undoes it. */
  lemma ComponentRoundTrip(t: seq<unit>)
    ensures EncodeComponent(t).Some? <==> WellFormed(t)
    ensures WellFormed(t) ==> DecodeComponent(EncodeComponent(t).value) == Some(t)
  {
    if WellFormed(t) {
      RepairedExactly(t);
      DecodeEncodeScalars(Scalars(t));
    }
  }

  /** An encoded string is safe in a cookie: no separator, no white space, no "=". */
  predicate CookieSafe(t: seq<unit>) {
    forall i :: 0 <= i < |t| ==> t[i] != 0x3B && t[i] != EQUALS && !White(t[i]) && t[i] < 0x80
  }

  lemma {:induction false} EscapeIsSafe(b: seq<byte>)
    ensures CookieSafe(Escape(b))
  {
    if b != [] {
      EscapeIsSafe(b[1..]);
    }
  }

  lemma {:induction false} EncodedIsSafe(cs: seq<scalar>)
    ensures CookieSafe(EncodeScalars(cs))
    ensures cs != [] ==> EncodeScalars(cs) != []
  {
    if cs != [] {
      EncodedIsSafe(cs[1..]);
      EscapeIsSafe(Encode1(cs[0]));
      EscapeLength(Encode1(cs[0]));
    }
  }
}
