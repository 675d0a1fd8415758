/**
 What the session cookie (apps/web/src/market/session.ts) and the slot cookie
 (slot-session.ts) share: a dot-separated payload signed with a keyed digest, carried
 percent-encoded in a Cookie header.
 */
module Cookies {
  import opened Prelude
  import opened Text
  import opened Utf8
  import Base64
  import Percent

  /** Milliseconds; a parsed expiry may be any finite number. */
  type Time = int

  /** What the platform supplies: the keyed digest, lower-casing, and `Number` and `JSON.parse`
      on texts other than those the program itself prints. */
  datatype Platform = Platform(hmac: seq<byte> -> seq<byte>, lower: seq<unit> -> seq<unit>,
                               number: seq<unit> -> Option<real>, json: seq<unit> -> Option<Body>)

  /** The record inside a slot token. */
  datatype Body = Body(s: nat, r: seq<unit>, o: seq<unit>)

  /** `Throws` is an exception that reaches the caller. */
  datatype Read<T> = Found(value: T) | Absent | Throws

  const DOT: unit := 0x2E
  const SEMICOLON: unit := 0x3B

  // ---- signatures ---------------------------------------------------------------------------------

  function Sign(p: Platform, payload: seq<unit>): seq<unit> {
    Base64.Print(p.hmac(ToBytes(payload)))
  }

  function Signed(p: Platform, payload: seq<unit>): seq<unit> {
    payload + [DOT] + Sign(p, payload)
  }

  datatype Verdict = Same | Different | Raises

  /** Lengths first, then `timingSafeEqual`, which raises when the byte lengths differ. */
  function Compare(expected: seq<unit>, got: seq<unit>): Verdict {
    if |expected| != |got| then Different
    else if |ToBytes(expected)| != |ToBytes(got)| then Raises
    else if ToBytes(expected) == ToBytes(got) then Same
    else Different
  }

  /** Comparing bytes is comparing strings here; it raises for a non-ASCII signature of the
      right length. */
  lemma CompareMeaning(expected: seq<unit>, got: seq<unit>)
    requires Ascii(expected)
    ensures Compare(expected, got) == Same <==> got == expected
    ensures Compare(expected, got) == Raises <==> |got| == |expected| && !Ascii(got)
  {
    BytesOfAscii(expected);
    BytesOfAscii(got);
  }

  lemma SignatureIsPlain(p: Platform, payload: seq<unit>)
    ensures Ascii(Sign(p, payload)) && Free(Sign(p, payload), DOT)
  {
    Base64.PrintIsPlain(p.hmac(ToBytes(payload)));
  }

  const TWO_TO_97 := 0x2_0000_0000_0000_0000_0000_0000
  const TWO_TO_485 := TWO_TO_97 * TWO_TO_97 * TWO_TO_97 * TWO_TO_97 * TWO_TO_97

  /** From (2^54 - 1) * 2^970 on, a number rounds to infinity. */
  const INFINITE := 0x3F_FFFF_FFFF_FFFF * (TWO_TO_485 * TWO_TO_485)

  /** `Number(t)`, if it is finite. */
  function Number(p: Platform, t: seq<unit>): Option<real> {
    if !AllDigits(t) then p.number(t)
    else if Digits(t) >= INFINITE then None
    else Some(Digits(t) as real)
  }

  /** A printed expiry that is over, or no finite number. */
  predicate Over(expiry: nat, now: Time) {
    expiry < now || expiry >= INFINITE
  }

  lemma NumberOfDecimal(p: Platform, n: nat)
    ensures Number(p, Decimal(n)) == if n >= INFINITE then None else Some(n as real)
  {
    DecimalRoundTrip(n);
  }

  /** The payload of a value: everything before the last dot. */
  function Payload(parts: seq<seq<unit>>): seq<unit>
    requires |parts| > 0
  {
    Join(parts[..|parts| - 1], DOT)
  }

  /** Splitting a signed value gives the payload's parts and then the signature. */
  lemma SplitSigned(p: Platform, payload: seq<unit>)
    ensures Split(Signed(p, payload), DOT) == Split(payload, DOT) + [Sign(p, payload)]
    ensures Payload(Split(Signed(p, payload), DOT)) == payload
  {
    SignatureIsPlain(p, payload);
    SplitLast(payload, DOT, Sign(p, payload));
    JoinSplit(payload, DOT);
    assert (Split(payload, DOT) + [Sign(p, payload)])[..|Split(payload, DOT)|] == Split(payload, DOT);
  }

  /** A value of at least two parts whose last part is the signature of the rest is that signed rest. */
  lemma SignedSplit(p: Platform, value: seq<unit>)
    requires var parts := Split(value, DOT); |parts| > 1 && parts[|parts| - 1] == Sign(p, Payload(parts))
    ensures value == Signed(p, Payload(Split(value, DOT)))
    ensures Split(Payload(Split(value, DOT)), DOT) == Split(value, DOT)[..|Split(value, DOT)| - 1]
  {
    var parts := Split(value, DOT);
    JoinSplit(value, DOT);
    JoinLast(parts, DOT);
    SplitJoin(parts[..|parts| - 1], DOT);
  }

  // ---- the Cookie header ----------------------------------------------------------------------------

  /** The scan over the header's parts: the first one with this key decides. */
  function FindCookie(parts: seq<seq<unit>>, name: seq<unit>): Option<seq<unit>> {
    if parts == [] then None
    else if KeyOf(Trim(parts[0])) == name then Some(ValueOf(Trim(parts[0])))
    else FindCookie(parts[1..], name)
  }

  /** The cookie's decoded value; an undecodable one throws. */
  function ReadValue(header: Option<seq<unit>>, name: seq<unit>): Read<seq<unit>> {
    if header.None? || header.value == [] then Absent
    else
      var raw := FindCookie(Split(header.value, SEMICOLON), name);
      if raw.None? then Absent
      else
        match Percent.DecodeComponent(raw.value)
        case None => Throws
        case Some(value) => Found(value)
  }

  /** A name as these cookies have them. */
  predicate CookieName(name: seq<unit>) {
    name != [] && Percent.CookieSafe(name)
  }

  function Pair(name: seq<unit>, raw: seq<unit>): seq<unit> {
    name + [EQUALS] + raw
  }

  /** Part `j` of the header is the pair, in white space, and no earlier part has its key. */
  ghost predicate Carries(header: seq<unit>, name: seq<unit>, raw: seq<unit>, j: nat) {
    var parts := Split(header, SEMICOLON);
    && j < |parts|
    && (forall i :: 0 <= i < j ==> KeyOf(Trim(parts[i])) != name)
    && exists before, after ::
         && (forall i :: 0 <= i < |before| ==> White(before[i])) && (forall i :: 0 <= i < |after| ==> White(after[i]))
         && parts[j] == before + Pair(name, raw) + after
  }

  lemma {:induction false} FindFirst(parts: seq<seq<unit>>, name: seq<unit>, j: nat)
    requires j < |parts| && KeyOf(Trim(parts[j])) == name
    requires forall i :: 0 <= i < j ==> KeyOf(Trim(parts[i])) != name
    ensures FindCookie(parts, name) == Some(ValueOf(Trim(parts[j])))
  {
    if j > 0 {
      FindFirst(parts[1..], name, j - 1);
    }
  }

  lemma PairIsFound(before: seq<unit>, name: seq<unit>, raw: seq<unit>, after: seq<unit>)
    requires CookieName(name) && raw != [] && Percent.CookieSafe(raw)
    requires forall i :: 0 <= i < |before| ==> White(before[i])
    requires forall i :: 0 <= i < |after| ==> White(after[i])
    ensures var t := Trim(before + Pair(name, raw) + after); KeyOf(t) == name && ValueOf(t) == raw
  {
    TrimPadded(before, Pair(name, raw), after);
    KeyAndValue(name, raw);
  }

  /** A carried cookie is read back, whatever else the header holds. */
  lemma CarriedIsRead(header: seq<unit>, name: seq<unit>, value: seq<unit>, j: nat)
    requires CookieName(name) && value != [] && WellFormed(value)
    requires Carries(header, name, Percent.EncodeComponent(value).value, j)
    ensures ReadValue(Some(header), name) == Found(value)
  {
    var raw := Percent.EncodeComponent(value).value;
    Percent.ComponentRoundTrip(value);
    EncodedNonempty(value);
    var parts := Split(header, SEMICOLON);
    var before, after :| && (forall i :: 0 <= i < |before| ==> White(before[i]))
      && (forall i :: 0 <= i < |after| ==> White(after[i])) && parts[j] == before + Pair(name, raw) + after;
    PairIsFound(before, name, raw, after);
    FindFirst(parts, name, j);
  }

  lemma EncodedNonempty(value: seq<unit>)
    requires value != [] && WellFormed(value)
    ensures var raw := Percent.EncodeComponent(value).value; raw != [] && Percent.CookieSafe(raw)
  {
    Percent.EncodedIsSafe(Scalars(value));
  }

  // ---- Set-Cookie -----------------------------------------------------------------------------------

  function Attributes(maxAge: nat, secure: bool): seq<unit> {
    U("; Path=/; Max-Age=") + Decimal(maxAge) + U("; HttpOnly; SameSite=Lax")
    + if secure then U("; Secure") else []
  }

  /** `None` when the value cannot be percent-encoded. */
  function SetCookie(name: seq<unit>, value: seq<unit>, maxAge: nat, secure: bool): Option<seq<unit>> {
    match Percent.EncodeComponent(value)
    case None => None
    case Some(raw) => Some(Pair(name, raw) + Attributes(maxAge, secure))
  }

  /** What a browser stores is the text before the first semicolon (section 5.2 of RFC 6265):
      exactly the pair it will send back. */
  lemma StoredPair(name: seq<unit>, value: seq<unit>, maxAge: nat, secure: bool)
    requires CookieName(name) && WellFormed(value)
    ensures SetCookie(name, value, maxAge, secure).Some?
    ensures Split(SetCookie(name, value, maxAge, secure).value, SEMICOLON)[0]
            == Pair(name, Percent.EncodeComponent(value).value)
  {
    var raw := Percent.EncodeComponent(value).value;
    Percent.EncodedIsSafe(Scalars(value));
    AttributesStart(maxAge, secure);
    BeforeSemicolon(Pair(name, raw), Attributes(maxAge, secure));
  }

  /** The parts a browser reads the attributes from. */
  function AttributeParts(maxAge: nat, secure: bool): seq<seq<unit>> {
    [U(" Path=/"), U(" Max-Age=") + Decimal(maxAge), U(" HttpOnly"), U(" SameSite=Lax")]
    + if secure then [U(" Secure")] else []
  }

  lemma LiteralsSplit()
    ensures U("; Path=/; Max-Age=") == [SEMICOLON] + U(" Path=/") + [SEMICOLON] + U(" Max-Age=")
    ensures U("; HttpOnly; SameSite=Lax") == [SEMICOLON] + U(" HttpOnly") + [SEMICOLON] + U(" SameSite=Lax")
    ensures U("; Secure") == [SEMICOLON] + U(" Secure")
  {
    assert "; Path=/; Max-Age=" == ";" + " Path=/" + ";" + " Max-Age=";
    assert "; HttpOnly; SameSite=Lax" == ";" + " HttpOnly" + ";" + " SameSite=Lax";
    assert "; Secure" == ";" + " Secure";
  }

  lemma LiteralFree(s: string)
    requires forall i :: 0 <= i < |s| ==> s[i] as int < 0x80 && s[i] != ';'
    ensures Free(U(s), SEMICOLON)
  {
  }

  lemma AttributesJoin(maxAge: nat, secure: bool)
    ensures Attributes(maxAge, secure) == [SEMICOLON] + Join(AttributeParts(maxAge, secure), SEMICOLON)
  {
    LiteralsSplit();
    Assemble(U(" Path=/"), U(" Max-Age="), Decimal(maxAge), U(" HttpOnly"), U(" SameSite=Lax"), U(" Secure"), secure);
  }

  lemma Assemble(path: seq<unit>, age: seq<unit>, n: seq<unit>, only: seq<unit>, site: seq<unit>, last: seq<unit>, more: bool)
    ensures ([SEMICOLON] + path + [SEMICOLON] + age) + n + ([SEMICOLON] + only + [SEMICOLON] + site)
            + (if more then [SEMICOLON] + last else [])
            == [SEMICOLON] + Join([path, age + n, only, site] + if more then [last] else [], SEMICOLON)
  {
    var parts := [path, age + n, only, site];
    JoinFour(path, age + n, only, site, SEMICOLON);
    if more {
      assert (parts + [last])[..4] == parts;
      JoinLast(parts + [last], SEMICOLON);
    } else {
      assert parts + [] == parts;
    }
  }

  lemma AttributesFree(maxAge: nat, secure: bool)
    ensures forall i :: 0 <= i < |AttributeParts(maxAge, secure)| ==> Free(AttributeParts(maxAge, secure)[i], SEMICOLON)
  {
    LiteralFree(" Path=/");
    LiteralFree(" Max-Age=");
    LiteralFree(" HttpOnly");
    LiteralFree(" SameSite=Lax");
    LiteralFree(" Secure");
  }

  lemma JoinFour(a: seq<unit>, b: seq<unit>, c: seq<unit>, d: seq<unit>, separator: unit)
    ensures Join([a, b, c, d], separator) == a + [separator] + b + [separator] + c + [separator] + d
  {
    assert [a, b, c, d][1..] == [b, c, d] && [b, c, d][1..] == [c, d] && [c, d][1..] == [d];
    assert Join([c, d], separator) == c + [separator] + d;
    assert Join([b, c, d], separator) == b + [separator] + (c + [separator] + d);
  }

  /** Every part of the text: the pair, the whole site as path, the age in seconds, hidden from scripts,
      not sent across sites except on navigation, and over https alone where asked for. */
  lemma SetCookieParts(name: seq<unit>, value: seq<unit>, maxAge: nat, secure: bool)
    requires CookieName(name) && WellFormed(value)
    ensures SetCookie(name, value, maxAge, secure).Some?
    ensures Split(SetCookie(name, value, maxAge, secure).value, SEMICOLON)
            == [Pair(name, Percent.EncodeComponent(value).value)] + AttributeParts(maxAge, secure)
  {
    var pair := Pair(name, Percent.EncodeComponent(value).value);
    Percent.EncodedIsSafe(Scalars(value));
    AttributesJoin(maxAge, secure);
    AttributesFree(maxAge, secure);
    var rest := Join(AttributeParts(maxAge, secure), SEMICOLON);
    assert pair + Attributes(maxAge, secure) == pair + [SEMICOLON] + rest;
    SplitFirst(pair, SEMICOLON, rest);
    SplitJoin(AttributeParts(maxAge, secure), SEMICOLON);
  }

  lemma AttributesStart(maxAge: nat, secure: bool)
    ensures var a := Attributes(maxAge, secure); a != [] && a[0] == SEMICOLON
  {
    var first := U("; Path=/; Max-Age=");
    assert first[0] == SEMICOLON;
  }

  lemma BeforeSemicolon(pair: seq<unit>, rest: seq<unit>)
    requires Free(pair, SEMICOLON) && rest != [] && rest[0] == SEMICOLON
    ensures Split(pair + rest, SEMICOLON)[0] == pair
  {
    SplitFirst(pair, SEMICOLON, rest[1..]);
    assert pair + rest == pair + [SEMICOLON] + rest[1..];
  }

  /** A header of just the stored pair carries it. */
  lemma PairIsCarried(name: seq<unit>, value: seq<unit>)
    requires CookieName(name) && WellFormed(value)
    ensures var raw := Percent.EncodeComponent(value).value; Carries(Pair(name, raw), name, raw, 0)
  {
    var raw := Percent.EncodeComponent(value).value;
    Percent.EncodedIsSafe(Scalars(value));
    SplitNone(Pair(name, raw), SEMICOLON);
    assert [] + Pair(name, raw) + [] == Pair(name, raw);
  }
}
