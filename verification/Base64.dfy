/** The URL-safe base64 of section 5 of RFC 4648, without padding. */
module Base64 {
  import opened Prelude
  import opened Text
  import opened Utf8

  type sextet = v: int | 0 <= v < 0x40

  function Letter(v: sextet): unit {
    if v < 26 then 0x41 + v
    else if v < 52 then 0x61 + (v - 26)
    else if v < 62 then 0x30 + (v - 52)
    else if v == 62 then 0x2D
    else 0x5F
  }

  /** The decoder takes the standard alphabet as well, and skips everything else. */
  function Value(u: unit): Option<sextet> {
    if 0x41 <= u <= 0x5A then Some(u - 0x41)
    else if 0x61 <= u <= 0x7A then Some(u - 0x61 + 26)
    else if 0x30 <= u <= 0x39 then Some(u - 0x30 + 52)
    else if u == 0x2D || u == 0x2B then Some(62)
    else if u == 0x5F || u == 0x2F then Some(63)
    else None
  }

  /** The alphabet: what may stand in a cookie value without any escaping. */
  predicate Plain(t: seq<unit>) {
    forall i :: 0 <= i < |t| ==> Value(t[i]).Some? && t[i] != 0x2B && t[i] != 0x2F
  }

  function Sextets(b: seq<byte>): seq<sextet> {
    if b == [] then []
    else if |b| == 1 then [b[0] / 4, b[0] % 4 * 16]
    else if |b| == 2 then [b[0] / 4, b[0] % 4 * 16 + b[1] / 16, b[1] % 16 * 4]
    else [b[0] / 4, b[0] % 4 * 16 + b[1] / 16, b[1] % 16 * 4 + b[2] / 64, b[2] % 64] + Sextets(b[3..])
  }

  /** Full groups give three bytes; a rest of three or two gives two or one. */
  function Bytes(s: seq<sextet>): seq<byte> {
    if |s| < 2 then []
    else if |s| == 2 then [First(s[0], s[1])]
    else if |s| == 3 then [First(s[0], s[1]), Second(s[1], s[2])]
    else [First(s[0], s[1]), Second(s[1], s[2]), Third(s[2], s[3])] + Bytes(s[4..])
  }

  function First(v: int, w: int): byte
    requires 0 <= v < 0x40 && 0 <= w < 0x40
  {
    v * 4 + w / 16
  }

  function Second(v: int, w: int): byte
    requires 0 <= v < 0x40 && 0 <= w < 0x40
  {
    v % 16 * 16 + w / 4
  }

  function Third(v: int, w: int): byte
    requires 0 <= v < 0x40 && 0 <= w < 0x40
  {
    v % 4 * 64 + w
  }

  lemma {:induction false} BytesSextets(b: seq<byte>)
    ensures Bytes(Sextets(b)) == b
  {
    if |b| >= 3 {
      var group := Sextets(b)[..4];
      assert Sextets(b)[4..] == Sextets(b[3..]);
      BytesSextets(b[3..]);
      assert b == b[..3] + b[3..];
    }
  }

  function Letters(s: seq<sextet>): seq<unit> {
    if s == [] then [] else [Letter(s[0])] + Letters(s[1..])
  }

  function Values(t: seq<unit>): seq<sextet> {
    if t == [] then []
    else (if Value(t[0]).Some? then [Value(t[0]).value] else []) + Values(t[1..])
  }

  lemma {:induction false} ValuesLetters(s: seq<sextet>)
    ensures Values(Letters(s)) == s && Plain(Letters(s))
  {
    if s != [] {
      ValuesLetters(s[1..]);
      assert Letters(s)[1..] == Letters(s[1..]);
    }
  }

  /** `digest("base64url")` */
  function Print(b: seq<byte>): seq<unit> {
    Letters(Sextets(b))
  }

  /** `b64url` and `unb64url` on strings. */
  function Wrap(t: seq<unit>): seq<unit> {
    Print(ToBytes(t))
  }

  function Unwrap(t: seq<unit>): seq<unit> {
    FromBytes(Bytes(Values(t)))
  }

  lemma PrintIsPlain(b: seq<byte>)
    ensures Plain(Print(b))
  {
    ValuesLetters(Sextets(b));
  }

  /** Wrapping and unwrapping gives the string back, with unpaired surrogates replaced. */
  lemma WrapRoundTrip(t: seq<unit>)
    ensures Unwrap(Wrap(t)) == Repaired(t)
  {
    ValuesLetters(Sextets(ToBytes(t)));
    BytesSextets(ToBytes(t));
    BytesRoundTrip(t);
  }
}
