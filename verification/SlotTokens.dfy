/** Slot tokens (apps/web/src/market/slot-session.ts): proof that a browser unlocked a slot,
    good until the slot's own end. */
module SlotTokens {
  import opened Prelude
  import opened Text
  import opened Utf8
  import opened Cookies
  import Base64
  import Percent
  import Json

  datatype Token = Token(slotId: nat, rig: seq<unit>, operator: seq<unit>, expiresAt: real)

  predicate NameUnit(u: unit) {
    0x41 <= u <= 0x5A || 0x61 <= u <= 0x7A || 0x30 <= u <= 0x39 || u == 0x5F || u == 0x2D
  }

  /** One cookie name per rig, other characters replaced. */
  function CookieKey(rig: seq<unit>): seq<unit> {
    U("pm_slot_") + seq(|rig|, i requires 0 <= i < |rig| => if NameUnit(rig[i]) then rig[i] else 0x5F)
  }

  /** `endAt` is in seconds, the printed expiry in milliseconds. */
  function Mint(p: Platform, slotId: nat, rig: seq<unit>, operator: seq<unit>, endAt: nat): seq<unit> {
    Signed(p, Join([Base64.Wrap(Json.Print(Body(slotId, rig, operator))), Decimal(endAt * 1000)], DOT))
  }

  function Parse(p: Platform, value: seq<unit>, now: Time): Read<Token> {
    var parts := Split(value, DOT);
    if |parts| != 3 then Absent
    else
      match Compare(Sign(p, Payload(parts)), parts[2])
      case Different => Absent
      case Raises => Throws
      case Same =>
        var expiresAt := Number(p, parts[1]);
        if expiresAt.None? || expiresAt.value < now as real then Absent
        else
          match Json.Parse(p, Base64.Unwrap(parts[0]))
          case None => Absent
          case Some(body) => Found(Token(body.s, body.r, body.o, expiresAt.value))
  }

  function ReadToken(p: Platform, header: Option<seq<unit>>, rig: seq<unit>, now: Time): Read<Token> {
    match ReadValue(header, CookieKey(rig))
    case Absent => Absent
    case Throws => Throws
    case Found(value) => Parse(p, value, now)
  }

  function SlotSetCookie(value: seq<unit>, rig: seq<unit>, secure: bool, maxAgeMs: int): Option<seq<unit>> {
    SetCookie(CookieKey(rig), value, if maxAgeMs < 0 then 0 else maxAgeMs / 1000, secure)
  }

  /** Nothing is accepted after its expiry, and nothing without the signature of its payload. */
  lemma NeverOutlivesExpiry(p: Platform, value: seq<unit>, now: Time)
    requires Parse(p, value, now).Found?
    ensures now as real <= Parse(p, value, now).value.expiresAt
    ensures exists payload :: value == Signed(p, payload) && |Split(payload, DOT)| == 2
                              && Number(p, Split(payload, DOT)[1]) == Some(Parse(p, value, now).value.expiresAt)
  {
    var parts := Split(value, DOT);
    SignatureIsPlain(p, Payload(parts));
    CompareMeaning(Sign(p, Payload(parts)), parts[2]);
    SignedSplit(p, value);
  }

  lemma MintSplits(slotId: nat, rig: seq<unit>, operator: seq<unit>, endAt: nat)
    ensures var parts := [Base64.Wrap(Json.Print(Body(slotId, rig, operator))), Decimal(endAt * 1000)];
            Split(Join(parts, DOT), DOT) == parts && Ascii(Join(parts, DOT))
  {
    var parts := [Base64.Wrap(Json.Print(Body(slotId, rig, operator))), Decimal(endAt * 1000)];
    Base64.PrintIsPlain(ToBytes(Json.Print(Body(slotId, rig, operator))));
    assert forall i :: 0 <= i < |parts| ==> Free(parts[i], DOT) && Ascii(parts[i]);
    SplitJoin(parts, DOT);
    assert parts[1..] == [parts[1]];
  }

  lemma ParseMinted(p: Platform, slotId: nat, rig: seq<unit>, operator: seq<unit>, endAt: nat, now: Time)
    ensures Parse(p, Mint(p, slotId, rig, operator, endAt), now)
            == if Over(endAt * 1000, now) then Absent
               else Found(Token(slotId, rig, operator, (endAt * 1000) as real))
  {
    var body := Body(slotId, rig, operator);
    var parts := [Base64.Wrap(Json.Print(body)), Decimal(endAt * 1000)];
    var payload := Join(parts, DOT);
    MintSplits(slotId, rig, operator, endAt);
    SplitSigned(p, payload);
    SignatureIsPlain(p, payload);
    CompareMeaning(Sign(p, payload), Sign(p, payload));
    NumberOfDecimal(p, endAt * 1000);
    Base64.WrapRoundTrip(Json.Print(body));
    Json.PrintIsWellFormed(body);
    RepairedExactly(Json.Print(body));
    Json.RecordRoundTrip(body);
  }

  lemma KeyIsName(rig: seq<unit>)
    ensures CookieName(CookieKey(rig))
  {
    var s := "pm_slot_";
    assert forall i :: 0 <= i < |s| ==> s[i] in {'p', 'm', '_', 's', 'l', 'o', 't'};
    assert forall i :: 0 <= i < |s| ==> CookieKey(rig)[i] == s[i] as int;
    assert forall i :: |s| <= i < |CookieKey(rig)| ==> NameUnit(CookieKey(rig)[i]);
  }

  lemma MintIsSendable(p: Platform, slotId: nat, rig: seq<unit>, operator: seq<unit>, endAt: nat)
    ensures var value := Mint(p, slotId, rig, operator, endAt); value != [] && WellFormed(value)
  {
    var payload := Join([Base64.Wrap(Json.Print(Body(slotId, rig, operator))), Decimal(endAt * 1000)], DOT);
    MintSplits(slotId, rig, operator, endAt);
    SignatureIsPlain(p, payload);
    AsciiIsWellFormed(Signed(p, payload));
  }

  /** The round trip, for every rig and operator name without exception: a header whose first
      cookie of that name is the minted token reads back the same slot, rig and operator up to
      the slot's end, and nothing after it. */
  lemma TokenRoundTrip(p: Platform, slotId: nat, rig: seq<unit>, operator: seq<unit>, endAt: nat,
                       header: seq<unit>, j: nat, now: Time)
    requires var raw := Percent.EncodeComponent(Mint(p, slotId, rig, operator, endAt));
             raw.Some? && Carries(header, CookieKey(rig), raw.value, j)
    ensures ReadToken(p, Some(header), rig, now)
            == if Over(endAt * 1000, now) then Absent
               else Found(Token(slotId, rig, operator, (endAt * 1000) as real))
  {
    KeyIsName(rig);
    MintIsSendable(p, slotId, rig, operator, endAt);
    CarriedIsRead(header, CookieKey(rig), Mint(p, slotId, rig, operator, endAt), j);
    ParseMinted(p, slotId, rig, operator, endAt, now);
  }

  /** The cookie set is the cookie the round trip is about. */
  lemma SetCookieCarries(p: Platform, slotId: nat, rig: seq<unit>, operator: seq<unit>, endAt: nat,
                         secure: bool, maxAgeMs: int)
    ensures var value := Mint(p, slotId, rig, operator, endAt);
            var cookie := SlotSetCookie(value, rig, secure, maxAgeMs);
            && cookie.Some?
            && Carries(Split(cookie.value, SEMICOLON)[0], CookieKey(rig), Percent.EncodeComponent(value).value, 0)
  {
    var value := Mint(p, slotId, rig, operator, endAt);
    KeyIsName(rig);
    MintIsSendable(p, slotId, rig, operator, endAt);
    StoredPair(CookieKey(rig), value, if maxAgeMs < 0 then 0 else maxAgeMs / 1000, secure);
    PairIsCarried(CookieKey(rig), value);
  }

  /** The browser keeps the cookie for the whole seconds left, and not at all when none are. */
  lemma SetCookieLasts(p: Platform, slotId: nat, rig: seq<unit>, operator: seq<unit>, endAt: nat,
                       secure: bool, maxAgeMs: int, seconds: nat)
    requires if maxAgeMs < 0 then seconds == 0 else seconds * 1000 <= maxAgeMs < seconds * 1000 + 1000
    ensures var cookie := SlotSetCookie(Mint(p, slotId, rig, operator, endAt), rig, secure, maxAgeMs);
            && cookie.Some?
            && Split(cookie.value, SEMICOLON)[1..] == AttributeParts(seconds, secure)
  {
    KeyIsName(rig);
    MintIsSendable(p, slotId, rig, operator, endAt);
    SetCookieParts(CookieKey(rig), Mint(p, slotId, rig, operator, endAt), seconds, secure);
  }

  /** Two rigs share a cookie exactly when their names differ, unit by unit, only where neither unit may
      stand in a cookie name or where that unit meets an underscore. */
  lemma KeysAgreeExactlyWhen(rig: seq<unit>, other: seq<unit>)
    ensures CookieKey(rig) == CookieKey(other)
            <==> |rig| == |other| && forall i :: 0 <= i < |rig| ==>
                   || rig[i] == other[i]
                   || ((!NameUnit(rig[i]) || rig[i] == 0x5F) && (!NameUnit(other[i]) || other[i] == 0x5F))
  {
    var k := |U("pm_slot_")|;
    assert forall i :: 0 <= i < |rig| ==> CookieKey(rig)[k + i] == if NameUnit(rig[i]) then rig[i] else 0x5F;
    assert forall i :: 0 <= i < |other| ==> CookieKey(other)[k + i] == if NameUnit(other[i]) then other[i] else 0x5F;
  }
}
