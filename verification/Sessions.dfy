/** Verified-operator sessions (apps/web/src/market/session.ts): nullifier, expiry and, since
    wallets are bound, an address. */
module Sessions {
  import opened Prelude
  import opened Text
  import opened Utf8
  import opened Cookies
  import Base64
  import Percent

  const SESSION_TTL: Time := 24 * 60 * 60 * 1000

  datatype Session = Session(nullifier: seq<unit>, expiresAt: real, address: Option<seq<unit>>)

  function CookieKey(): seq<unit> {
    U("pm_session")
  }

  /** The expiry printed in the value. */
  function MintParts(nullifier: seq<unit>, address: Option<seq<unit>>, mintedAt: nat): seq<seq<unit>> {
    [Base64.Wrap(nullifier), Decimal(mintedAt + SESSION_TTL),
     Base64.Wrap(if address.Some? then address.value else [])]
  }

  function Mint(p: Platform, nullifier: seq<unit>, address: Option<seq<unit>>, mintedAt: nat): seq<unit> {
    Signed(p, Join(MintParts(nullifier, address, mintedAt), DOT))
  }

  /** A value as minted before wallets were bound: no third part. */
  function MintUnbound(p: Platform, nullifier: seq<unit>, mintedAt: nat): seq<unit> {
    Signed(p, Join([Base64.Wrap(nullifier), Decimal(mintedAt + SESSION_TTL)], DOT))
  }

  function Parse(p: Platform, value: seq<unit>, now: Time): Read<Session> {
    var parts := Split(value, DOT);
    if |parts| != 3 && |parts| != 4 then Absent
    else
      var bound := |parts| == 4;
      match Compare(Sign(p, Payload(parts)), parts[|parts| - 1])
      case Different => Absent
      case Raises => Throws
      case Same =>
        var expiresAt := Number(p, parts[1]);
        if expiresAt.None? || expiresAt.value < now as real then Absent
        else
          var address := if bound then Base64.Unwrap(parts[2]) else [];
          Found(Session(Base64.Unwrap(parts[0]), expiresAt.value,
                        if address == [] then None else Some(p.lower(address))))
  }

  function ReadSession(p: Platform, header: Option<seq<unit>>, now: Time): Read<Session> {
    match ReadValue(header, CookieKey())
    case Absent => Absent
    case Throws => Throws
    case Found(value) => Parse(p, value, now)
  }

  function SessionSetCookie(value: seq<unit>, secure: bool): Option<seq<unit>> {
    SetCookie(CookieKey(), value, SESSION_TTL / 1000, secure)
  }

  // ---- what is accepted ---------------------------------------------------------------------------

  /** Two or three parts, the second a finite number not yet past. */
  predicate Current(p: Platform, payload: seq<unit>, now: Time) {
    var parts := Split(payload, DOT);
    && |parts| in {2, 3}
    && Number(p, parts[1]).Some? && Number(p, parts[1]).value >= now as real
  }

  lemma ParseSigned(p: Platform, payload: seq<unit>, now: Time)
    requires |Split(payload, DOT)| in {2, 3}
    ensures var parts := Split(payload, DOT);
            var address := if |parts| == 3 then Base64.Unwrap(parts[2]) else [];
            Parse(p, Signed(p, payload), now)
            == if !Current(p, payload, now) then Absent
               else Found(Session(Base64.Unwrap(parts[0]), Number(p, parts[1]).value,
                                  if address == [] then None else Some(p.lower(address))))
  {
    SplitSigned(p, payload);
    SignatureIsPlain(p, payload);
    CompareMeaning(Sign(p, payload), Sign(p, payload));
  }

  lemma SignatureDecides(p: Platform, value: seq<unit>, now: Time)
    requires var parts := Split(value, DOT); |parts| in {3, 4} && parts[|parts| - 1] != Sign(p, Payload(parts))
    ensures !Parse(p, value, now).Found?
  {
    var parts := Split(value, DOT);
    SignatureIsPlain(p, Payload(parts));
    CompareMeaning(Sign(p, Payload(parts)), parts[|parts| - 1]);
  }

  /** Exactly which values are accepted: a payload of two or three parts with an expiry not yet
      past, followed by a dot and its own signature. */
  lemma AcceptedExactlyWhen(p: Platform, value: seq<unit>, now: Time)
    ensures Parse(p, value, now).Found?
            <==> exists payload :: value == Signed(p, payload) && Current(p, payload, now)
  {
    var parts := Split(value, DOT);
    if |parts| in {3, 4} {
      var payload := Payload(parts);
      if parts[|parts| - 1] == Sign(p, payload) {
        SignedSplit(p, value);
        ParseSigned(p, payload, now);
      } else {
        SignatureDecides(p, value, now);
      }
    }
    forall payload | value == Signed(p, payload) && Current(p, payload, now)
      ensures Parse(p, value, now).Found?
    {
      ParseSigned(p, payload, now);
    }
  }

  // ---- round trips ----------------------------------------------------------------------------------

  lemma PlainIsDotFree(t: seq<unit>)
    requires Base64.Plain(t)
    ensures Free(t, DOT) && Ascii(t)
  {
  }

  lemma MintSplits(nullifier: seq<unit>, address: Option<seq<unit>>, mintedAt: nat)
    ensures var parts := MintParts(nullifier, address, mintedAt);
            Split(Join(parts, DOT), DOT) == parts && Ascii(Join(parts, DOT))
  {
    var parts := MintParts(nullifier, address, mintedAt);
    var third := if address.Some? then address.value else [];
    Base64.PrintIsPlain(ToBytes(nullifier));
    Base64.PrintIsPlain(ToBytes(third));
    PlainIsDotFree(parts[0]);
    PlainIsDotFree(parts[2]);
    assert forall i :: 0 <= i < |parts| ==> Free(parts[i], DOT) && Ascii(parts[i]);
    SplitJoin(parts, DOT);
    AsciiJoin(parts);
  }

  lemma {:induction false} AsciiJoin(parts: seq<seq<unit>>)
    requires forall i :: 0 <= i < |parts| ==> Ascii(parts[i])
    ensures Ascii(Join(parts, DOT))
  {
    if |parts| > 1 {
      AsciiJoin(parts[1..]);
    }
  }

  /** What a reader makes of the address part. */
  function Wallet(p: Platform, address: Option<seq<unit>>): Option<seq<unit>> {
    if address in {None, Some([])} then None else Some(p.lower(Repaired(address.value)))
  }

  lemma ParseMinted(p: Platform, nullifier: seq<unit>, address: Option<seq<unit>>, mintedAt: nat, now: Time)
    ensures Parse(p, Mint(p, nullifier, address, mintedAt), now)
            == if Over(mintedAt + SESSION_TTL, now) then Absent
               else Found(Session(Repaired(nullifier), (mintedAt + SESSION_TTL) as real, Wallet(p, address)))
  {
    var parts := MintParts(nullifier, address, mintedAt);
    MintSplits(nullifier, address, mintedAt);
    NumberOfDecimal(p, mintedAt + SESSION_TTL);
    Base64.WrapRoundTrip(nullifier);
    WalletRead(p, address);
    ParseThree(p, parts, now, mintedAt + SESSION_TTL, Repaired(nullifier), Wallet(p, address));
  }

  /** Three parts whose readings are known. */
  lemma ParseThree(p: Platform, parts: seq<seq<unit>>, now: Time, expiry: nat, nullifier: seq<unit>, wallet: Option<seq<unit>>)
    requires |parts| == 3 && Split(Join(parts, DOT), DOT) == parts
    requires Number(p, parts[1]) == if expiry >= INFINITE then None else Some(expiry as real)
    requires Base64.Unwrap(parts[0]) == nullifier
    requires var read := Base64.Unwrap(parts[2]); wallet == if read == [] then None else Some(p.lower(read))
    ensures Parse(p, Signed(p, Join(parts, DOT)), now)
            == if Over(expiry, now) then Absent else Found(Session(nullifier, expiry as real, wallet))
  {
    ParseSigned(p, Join(parts, DOT), now);
  }

  lemma WalletRead(p: Platform, address: Option<seq<unit>>)
    ensures var read := Base64.Unwrap(Base64.Wrap(if address.Some? then address.value else []));
            Wallet(p, address) == if read == [] then None else Some(p.lower(read))
  {
    var third := if address.Some? then address.value else [];
    Base64.WrapRoundTrip(third);
    RepairedExactly(third);
  }

  lemma MintIsAscii(p: Platform, payload: seq<unit>)
    requires Ascii(payload)
    ensures WellFormed(Signed(p, payload)) && Signed(p, payload) != []
  {
    SignatureIsPlain(p, payload);
    AsciiIsWellFormed(Signed(p, payload));
  }

  lemma KeyIsName()
    ensures CookieName(CookieKey())
  {
    var s := "pm_session";
    assert forall i :: 0 <= i < |s| ==> s[i] in {'p', 'm', '_', 's', 'e', 'i', 'o', 'n'};
  }

  /** The round trip: whatever else the header holds, as long as the minted cookie is the first
      of its name, reading it gives the nullifier, the lower-cased address and the expiry, up to
      and including the moment of expiry, and nothing after it. */
  lemma SessionRoundTrip(p: Platform, nullifier: seq<unit>, address: Option<seq<unit>>, mintedAt: nat,
                         header: seq<unit>, j: nat, now: Time)
    requires var raw := Percent.EncodeComponent(Mint(p, nullifier, address, mintedAt));
             raw.Some? && Carries(header, CookieKey(), raw.value, j)
    ensures ReadSession(p, Some(header), now)
            == if Over(mintedAt + SESSION_TTL, now) then Absent
               else Found(Session(Repaired(nullifier), (mintedAt + SESSION_TTL) as real, Wallet(p, address)))
  {
    MintSplits(nullifier, address, mintedAt);
    MintIsAscii(p, Join(MintParts(nullifier, address, mintedAt), DOT));
    KeyIsName();
    CarriedIsRead(header, CookieKey(), Mint(p, nullifier, address, mintedAt), j);
    ParseMinted(p, nullifier, address, mintedAt, now);
  }

  /** The nullifier read is the one minted exactly for well-formed strings: an unpaired
      surrogate comes back as U+FFFD. Every minted value can be percent-encoded. */
  lemma NullifierSurvivesExactlyWhen(p: Platform, nullifier: seq<unit>, address: Option<seq<unit>>, mintedAt: nat)
    ensures Percent.EncodeComponent(Mint(p, nullifier, address, mintedAt)).Some?
    ensures var r := Parse(p, Mint(p, nullifier, address, mintedAt), mintedAt);
            mintedAt + SESSION_TTL < INFINITE ==>
              r.Found? && (r.value.nullifier == nullifier <==> WellFormed(nullifier))
  {
    MintSplits(nullifier, address, mintedAt);
    MintIsAscii(p, Join(MintParts(nullifier, address, mintedAt), DOT));
    ParseMinted(p, nullifier, address, mintedAt, mintedAt);
    RepairedExactly(nullifier);
  }

  /** Values minted before wallets were bound still read, without an address. */
  lemma UnboundRoundTrip(p: Platform, nullifier: seq<unit>, mintedAt: nat, now: Time)
    ensures Parse(p, MintUnbound(p, nullifier, mintedAt), now)
            == if Over(mintedAt + SESSION_TTL, now) then Absent
               else Found(Session(Repaired(nullifier), (mintedAt + SESSION_TTL) as real, None))
  {
    var parts := [Base64.Wrap(nullifier), Decimal(mintedAt + SESSION_TTL)];
    Base64.PrintIsPlain(ToBytes(nullifier));
    PlainIsDotFree(parts[0]);
    assert forall i :: 0 <= i < |parts| ==> Free(parts[i], DOT);
    SplitJoin(parts, DOT);
    ParseSigned(p, Join(parts, DOT), now);
    NumberOfDecimal(p, mintedAt + SESSION_TTL);
    Base64.WrapRoundTrip(nullifier);
  }

  /** The cookie set is the cookie the round trip is about. */
  lemma SetCookieCarries(p: Platform, nullifier: seq<unit>, address: Option<seq<unit>>, mintedAt: nat, secure: bool)
    ensures var value := Mint(p, nullifier, address, mintedAt);
            && SessionSetCookie(value, secure).Some?
            && Carries(Split(SessionSetCookie(value, secure).value, SEMICOLON)[0], CookieKey(),
                       Percent.EncodeComponent(value).value, 0)
  {
    var value := Mint(p, nullifier, address, mintedAt);
    MintSplits(nullifier, address, mintedAt);
    MintIsAscii(p, Join(MintParts(nullifier, address, mintedAt), DOT));
    KeyIsName();
    StoredPair(CookieKey(), value, SESSION_TTL / 1000, secure);
    PairIsCarried(CookieKey(), value);
  }

  /** The browser drops the cookie when the session in it expires: a day after it was minted. */
  lemma SetCookieLasts(p: Platform, nullifier: seq<unit>, address: Option<seq<unit>>, mintedAt: nat, secure: bool)
    ensures var cookie := SessionSetCookie(Mint(p, nullifier, address, mintedAt), secure);
            && cookie.Some?
            && Split(cookie.value, SEMICOLON)[1..] == AttributeParts(86400, secure)
    ensures SESSION_TTL == 86400 * 1000
  {
    var value := Mint(p, nullifier, address, mintedAt);
    MintSplits(nullifier, address, mintedAt);
    MintIsAscii(p, Join(MintParts(nullifier, address, mintedAt), DOT));
    KeyIsName();
    SetCookieParts(CookieKey(), value, 86400, secure);
  }
}
