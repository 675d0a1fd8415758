/** The record inside a slot token, as `JSON.stringify` prints it and `JSON.parse` reads it. */
module Json {
  import opened Prelude
  import opened Text
  import opened Utf8
  import Percent
  import Cookies

  const QUOTE: unit := 0x22
  const BACKSLASH: unit := 0x5C

  // ---- strings ------------------------------------------------------------------------------------

  /** The short escapes, by their letter. */
  function ShortEscape(u: unit): Option<unit> {
    match u
    case 0x22 => Some(0x22)
    case 0x5C => Some(0x5C)
    case 0x08 => Some(0x62)
    case 0x0C => Some(0x66)
    case 0x0A => Some(0x6E)
    case 0x0D => Some(0x72)
    case 0x09 => Some(0x74)
    case _ => None
  }

  function Unescape(letter: unit): Option<unit> {
    match letter
    case 0x22 => Some(0x22)
    case 0x5C => Some(0x5C)
    case 0x2F => Some(0x2F)
    case 0x62 => Some(0x08)
    case 0x66 => Some(0x0C)
    case 0x6E => Some(0x0A)
    case 0x72 => Some(0x0D)
    case 0x74 => Some(0x09)
    case _ => None
  }

  function LowerHex(v: int): unit
    requires 0 <= v < 16
  {
    if v < 10 then 0x30 + v else 0x61 + (v - 10)
  }

  function LongEscape(u: unit): seq<unit> {
    [BACKSLASH, 0x75, LowerHex(u / 0x1000), LowerHex(u / 0x100 % 16), LowerHex(u / 16 % 16), LowerHex(u % 16)]
  }

  /** One unit, escaped when it is a quote, a control character or an unpaired surrogate. */
  function Escape1(u: unit): seq<unit> {
    if ShortEscape(u).Some? then [BACKSLASH, ShortEscape(u).value]
    else if u < 0x20 || High(u) || Low(u) then LongEscape(u)
    else [u]
  }

  function QuoteBody(t: seq<unit>): seq<unit> {
    if t == [] then []
    else if PairAt(t) then [t[0], t[1]] + QuoteBody(t[2..])
    else Escape1(t[0]) + QuoteBody(t[1..])
  }

  function Hex4(t: seq<unit>): Option<unit>
    requires |t| >= 4
  {
    var a, b, c, d := Percent.HexValue(t[0]), Percent.HexValue(t[1]), Percent.HexValue(t[2]), Percent.HexValue(t[3]);
    if a.None? || b.None? || c.None? || d.None? then None
    else Some(((a.value * 16 + b.value) * 16 + c.value) * 16 + d.value)
  }

  /** One unit of a string body and its length; `None` at its end or on a syntax error. */
  function Read1(t: seq<unit>): (r: Option<(unit, nat)>)
    ensures r.Some? ==> 1 <= r.value.1 <= |t|
  {
    if t == [] || t[0] == QUOTE || t[0] < 0x20 then None
    else if t[0] != BACKSLASH then Some((t[0], 1))
    else if |t| < 2 then None
    else if t[1] == 0x75 then
      if |t| < 6 || Hex4(t[2..]).None? then None else Some((Hex4(t[2..]).value, 6))
    else if Unescape(t[1]).None? then None
    else Some((Unescape(t[1]).value, 2))
  }

  /** The string up to its closing quote, and the text behind that. */
  function Unquoted(t: seq<unit>): Option<(seq<unit>, seq<unit>)>
    decreases |t|
  {
    if t != [] && t[0] == QUOTE then Some(([], t[1..]))
    else if Read1(t).None? then None
    else
      var rest := Unquoted(t[Read1(t).value.1..]);
      if rest.None? then None else Some(([Read1(t).value.0] + rest.value.0, rest.value.1))
  }

  lemma HexRoundTrip(v: int)
    requires 0 <= v < 16
    ensures Percent.HexValue(LowerHex(v)) == Some(v)
  {
  }

  lemma ReadEscaped(u: unit, rest: seq<unit>)
    ensures Read1(Escape1(u) + rest) == Some((u, |Escape1(u)|))
    ensures (Escape1(u) + rest)[0] != QUOTE
  {
    var t := Escape1(u) + rest;
    if ShortEscape(u).None? && (u < 0x20 || High(u) || Low(u)) {
      HexRoundTrip(u / 0x1000);
      HexRoundTrip(u / 0x100 % 16);
      HexRoundTrip(u / 16 % 16);
      HexRoundTrip(u % 16);
      HexDigits(u);
      assert t[2..][0] == LowerHex(u / 0x1000) && t[2..][1] == LowerHex(u / 0x100 % 16)
        && t[2..][2] == LowerHex(u / 16 % 16) && t[2..][3] == LowerHex(u % 16);
    }
  }

  lemma HexDigits(u: unit)
    ensures ((u / 0x1000 * 16 + u / 0x100 % 16) * 16 + u / 16 % 16) * 16 + u % 16 == u
  {
    assert u / 0x100 == u / 16 / 16 && u / 0x1000 == u / 16 / 16 / 16;
  }

  /** `text` is the body of the string `t`, its closing quote, and then `rest`. */
  predicate Reads(text: seq<unit>, t: seq<unit>, rest: seq<unit>) {
    Unquoted(text) == Some((t, rest))
  }

  /** A printed unit reads as itself, and reading goes on behind it. */
  lemma ReadsEscaped(u: unit, more: seq<unit>, t: seq<unit>, rest: seq<unit>)
    requires Reads(more, t, rest)
    ensures Reads(Escape1(u) + more, [u] + t, rest)
  {
    ReadEscaped(u, more);
    assert (Escape1(u) + more)[|Escape1(u)|..] == more;
  }

  /** A surrogate pair is printed as it is. */
  lemma ReadsPair(u: unit, v: unit, more: seq<unit>, t: seq<unit>, rest: seq<unit>)
    requires High(u) && Low(v) && Reads(more, t, rest)
    ensures Reads([u] + ([v] + more), [u] + ([v] + t), rest)
  {
    ReadsHalf(v, more, t, rest);
    ReadsHalf(u, [v] + more, [v] + t, rest);
  }

  lemma ReadsHalf(u: unit, more: seq<unit>, t: seq<unit>, rest: seq<unit>)
    requires (High(u) || Low(u)) && Reads(more, t, rest)
    ensures Reads([u] + more, [u] + t, rest)
  {
    assert ([u] + more)[1..] == more;
  }

  lemma QuotePairs(t: seq<unit>, more: seq<unit>)
    requires PairAt(t)
    ensures QuoteBody(t) + more == [t[0]] + ([t[1]] + (QuoteBody(t[2..]) + more))
  {
  }

  lemma QuoteOne(t: seq<unit>, more: seq<unit>)
    requires t != [] && !PairAt(t)
    ensures QuoteBody(t) + more == Escape1(t[0]) + (QuoteBody(t[1..]) + more)
  {
  }

  lemma PairFirst(t: seq<unit>, last: seq<unit>)
    requires PairAt(t)
    ensures t + last == [t[0]] + ([t[1]] + (t[2..] + last))
  {
  }

  lemma OneFirst(t: seq<unit>, last: seq<unit>)
    requires t != []
    ensures t + last == [t[0]] + (t[1..] + last)
  {
  }

  lemma QuoteReadsPair(t: seq<unit>, more: seq<unit>, last: seq<unit>, rest: seq<unit>)
    requires PairAt(t) && Reads(QuoteBody(t[2..]) + more, t[2..] + last, rest)
    ensures Reads(QuoteBody(t) + more, t + last, rest)
  {
    QuotePairs(t, more);
    PairFirst(t, last);
    ReadsPair(t[0], t[1], QuoteBody(t[2..]) + more, t[2..] + last, rest);
  }

  lemma QuoteReadsOne(t: seq<unit>, more: seq<unit>, last: seq<unit>, rest: seq<unit>)
    requires t != [] && !PairAt(t) && Reads(QuoteBody(t[1..]) + more, t[1..] + last, rest)
    ensures Reads(QuoteBody(t) + more, t + last, rest)
  {
    QuoteOne(t, more);
    OneFirst(t, last);
    ReadsEscaped(t[0], QuoteBody(t[1..]) + more, t[1..] + last, rest);
  }

  lemma {:induction false} QuoteReads(t: seq<unit>, more: seq<unit>, last: seq<unit>, rest: seq<unit>)
    requires Reads(more, last, rest)
    ensures Reads(QuoteBody(t) + more, t + last, rest)
  {
    if t == [] {
      assert QuoteBody(t) + more == more && t + last == last;
    } else if PairAt(t) {
      QuoteReads(t[2..], more, last, rest);
      QuoteReadsPair(t, more, last, rest);
    } else {
      QuoteReads(t[1..], more, last, rest);
      QuoteReadsOne(t, more, last, rest);
    }
  }

  /** A quoted string reads back as itself, up to its closing quote. */
  lemma QuoteRoundTrip(t: seq<unit>, rest: seq<unit>)
    ensures Unquoted(QuoteBody(t) + ([QUOTE] + rest)) == Some((t, rest))
  {
    assert ([QUOTE] + rest)[1..] == rest;
    QuoteReads(t, [QUOTE] + rest, [], rest);
    assert t + [] == t;
  }

  // ---- the printed form is well formed, whatever the strings are ----------------------------------

  lemma {:induction false} WellFormedConcat(a: seq<unit>, b: seq<unit>)
    requires WellFormed(a) && WellFormed(b)
    ensures WellFormed(a + b)
  {
    if a == [] {
      assert a + b == b;
    } else if PairAt(a) {
      assert (a + b)[2..] == a[2..] + b;
      WellFormedConcat(a[2..], b);
    } else {
      assert (a + b)[1..] == a[1..] + b;
      WellFormedConcat(a[1..], b);
    }
  }

  lemma EscapeIsWellFormed(u: unit)
    ensures WellFormed(Escape1(u))
  {
    if ShortEscape(u).Some? || u < 0x20 || High(u) || Low(u) {
      AsciiIsWellFormed(Escape1(u));
    } else {
      assert [u][1..] == [];
    }
  }

  lemma {:induction false} QuoteIsWellFormed(t: seq<unit>)
    ensures WellFormed(QuoteBody(t))
  {
    if t != [] {
      if PairAt(t) {
        QuoteIsWellFormed(t[2..]);
        assert ([t[0], t[1]] + QuoteBody(t[2..]))[2..] == QuoteBody(t[2..]);
      } else {
        QuoteIsWellFormed(t[1..]);
        EscapeIsWellFormed(t[0]);
        WellFormedConcat(Escape1(t[0]), QuoteBody(t[1..]));
      }
    }
  }

  // ---- the record -----------------------------------------------------------------------------------

  /** The fixed texts around the three fields: {"s":  ,"r":"  ,"o":"  } */
  const OPEN: seq<unit> := [0x7B, 0x22, 0x73, 0x22, 0x3A]
  const RIG: seq<unit> := [0x2C, 0x22, 0x72, 0x22, 0x3A, 0x22]
  const OPERATOR: seq<unit> := [0x2C, 0x22, 0x6F, 0x22, 0x3A, 0x22]
  const CLOSE: seq<unit> := [0x7D]

  function Print(b: Cookies.Body): seq<unit> {
    OPEN + (Decimal(b.s) + (RIG + (QuoteBody(b.r) + ([QUOTE] + (OPERATOR + (QuoteBody(b.o) + ([QUOTE] + CLOSE)))))))
  }

  /** The digits a text starts with. */
  function DigitRun(t: seq<unit>): (n: nat)
    ensures n <= |t| && forall i :: 0 <= i < n ==> IsDigit(t[i])
  {
    if t != [] && IsDigit(t[0]) then 1 + DigitRun(t[1..]) else 0
  }

  function Behind(prefix: seq<unit>, t: seq<unit>): Option<seq<unit>> {
    if prefix <= t then Some(t[|prefix|..]) else None
  }

  /** Reads what `Print` writes; any other spelling is left to the platform. */
  function Scan(t: seq<unit>): Option<Cookies.Body> {
    match Behind(OPEN, t)
    case None => None
    case Some(t1) =>
      var n := DigitRun(t1);
      if n == 0 || Decimal(Digits(t1[..n])) != t1[..n] then None
      else
        match Behind(RIG, t1[n..])
        case None => None
        case Some(t2) =>
          match Unquoted(t2)
          case None => None
          case Some((rig, t3)) =>
            match Behind(OPERATOR, t3)
            case None => None
            case Some(t4) =>
              match Unquoted(t4)
              case None => None
              case Some((operator, t5)) =>
                if t5 == CLOSE then Some(Cookies.Body(Digits(t1[..n]), rig, operator)) else None
  }

  function Parse(p: Cookies.Platform, t: seq<unit>): Option<Cookies.Body> {
    if Scan(t).Some? then Scan(t) else p.json(t)
  }

  lemma {:induction false} DigitRunStops(d: seq<unit>, rest: seq<unit>)
    requires (forall i :: 0 <= i < |d| ==> IsDigit(d[i])) && rest != [] && !IsDigit(rest[0])
    ensures DigitRun(d + rest) == |d|
  {
    if d == [] {
      assert d + rest == rest;
    } else {
      assert (d + rest)[1..] == d[1..] + rest;
      DigitRunStops(d[1..], rest);
    }
  }

  lemma BehindConcat(prefix: seq<unit>, rest: seq<unit>)
    ensures Behind(prefix, prefix + rest) == Some(rest)
  {
    assert (prefix + rest)[|prefix|..] == rest;
  }

  /** Reading the printed record gives it back, whatever the strings hold. */
  lemma RecordRoundTrip(b: Cookies.Body)
    ensures Scan(Print(b)) == Some(b)
  {
    var t5 := CLOSE;
    var t4 := QuoteBody(b.o) + ([QUOTE] + t5);
    var t3 := OPERATOR + t4;
    var t2 := QuoteBody(b.r) + ([QUOTE] + t3);
    var t1 := Decimal(b.s) + (RIG + t2);
    BehindConcat(OPEN, t1);
    DigitRunStops(Decimal(b.s), RIG + t2);
    assert t1[..|Decimal(b.s)|] == Decimal(b.s) && t1[|Decimal(b.s)|..] == RIG + t2;
    DecimalRoundTrip(b.s);
    BehindConcat(RIG, t2);
    QuoteRoundTrip(b.r, t3);
    BehindConcat(OPERATOR, t4);
    QuoteRoundTrip(b.o, t5);
  }

  lemma PrintIsWellFormed(b: Cookies.Body)
    ensures WellFormed(Print(b))
  {
    AsciiIsWellFormed(OPERATOR);
    LastFieldIsWellFormed(b.o);
    var t4 := QuoteBody(b.o) + ([QUOTE] + CLOSE);
    var t3 := QuoteBody(b.r) + ([QUOTE] + (OPERATOR + t4));
    FieldIsWellFormed(OPERATOR, t4, b.r);
    FirstFieldIsWellFormed(b.s, t3);
  }

  lemma LastFieldIsWellFormed(t: seq<unit>)
    ensures WellFormed(QuoteBody(t) + ([QUOTE] + CLOSE))
  {
    QuoteIsWellFormed(t);
    AsciiIsWellFormed([QUOTE] + CLOSE);
    WellFormedConcat(QuoteBody(t), [QUOTE] + CLOSE);
  }

  lemma FirstFieldIsWellFormed(n: nat, rest: seq<unit>)
    requires WellFormed(rest)
    ensures WellFormed(OPEN + (Decimal(n) + (RIG + rest)))
  {
    AsciiIsWellFormed(OPEN);
    AsciiIsWellFormed(Decimal(n));
    AsciiIsWellFormed(RIG);
    WellFormedConcat(RIG, rest);
    WellFormedConcat(Decimal(n), RIG + rest);
    WellFormedConcat(OPEN, Decimal(n) + (RIG + rest));
  }

  lemma FieldIsWellFormed(between: seq<unit>, rest: seq<unit>, t: seq<unit>)
    requires WellFormed(between) && WellFormed(rest)
    ensures WellFormed(QuoteBody(t) + ([QUOTE] + (between + rest)))
  {
    QuoteIsWellFormed(t);
    AsciiIsWellFormed([QUOTE]);
    WellFormedConcat(between, rest);
    WellFormedConcat([QUOTE], between + rest);
    WellFormedConcat(QuoteBody(t), [QUOTE] + (between + rest));
  }
}
