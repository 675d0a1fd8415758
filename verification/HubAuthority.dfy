/**
 Who may move a rig, told from the history of requests alone: what the lease and the leader
 bindings hold at any point of any interleaving, and what follows for leader packets.
 */
module HubAuthority {
  import opened Prelude
  import opened Latches
  import opened HubModel
  import Odometer

  // ---- the lease ----------------------------------------------------------------------------------

  /** The client id is that of a registered leader. */
  predicate Names(h: Hub, clientId: string, leader: string) {
    leader in h.leaders && clientId == LEADER_PREFIX + leader
  }

  ghost predicate IsBrowser(h: Hub, clientId: string) {
    forall leader :: leader in h.leaders ==> !Names(h, clientId, leader)
  }

  lemma LeaderNamedMeaning(h: Hub, clientId: string)
    ensures forall leader :: LeaderNamed(h, clientId) == Some(leader) <==> Names(h, clientId, leader)
    ensures LeaderNamed(h, clientId).None? <==> IsBrowser(h, clientId)
  {
    forall leader | Names(h, clientId, leader)
      ensures LeaderNamed(h, clientId) == Some(leader)
    {
      assert clientId[|LEADER_PREFIX|..] == leader;
    }
    if LEADER_PREFIX <= clientId {
      assert clientId == LEADER_PREFIX + clientId[|LEADER_PREFIX|..];
    }
    if IsBrowser(h, clientId) && LeaderNamed(h, clientId).Some? {
      assert Names(h, clientId, LeaderNamed(h, clientId).value);
    }
  }

  /** This event takes or renews the lease of `rig` for `b`: a claim by `b`, or an input packet
      `b` itself sent while holding it. */
  ghost predicate Touches(h: Hub, e: Event, rig: string, b: string) {
    && rig in h.rigs && b != "" && Until(h.rigs[rig], e.now) > e.now
    && match e.step
       case Claim(name, clientId, force) =>
         name == rig && clientId == b && (force || HolderAt(h.rigs[rig], e.now) in {None, Some(b)})
       case SendInput(name, clientId, _) =>
         name == rig && clientId == b && IsBrowser(h, b) && HolderAt(h.rigs[rig], e.now) == Some(b)
       case _ => false
  }

  /** This event ends the lease of `rig` early. */
  predicate Drops(h: Hub, e: Event, rig: string) {
    match e.step
    case Release(name, clientId) =>
      name == rig && clientId != "" && rig in h.rigs && HolderAt(h.rigs[rig], e.now) == Some(clientId)
    case Revoke(name) => name == rig
    case _ => false
  }

  function Toucher(e: Event): string {
    match e.step
    case Claim(_, clientId, _) => clientId
    case SendInput(_, clientId, _) => clientId
    case _ => ""
  }

  /** Who holds `rig` at time `t`, if nothing more happens. */
  function Level(h: Hub, rig: string, t: Time): Option<string> {
    if rig in h.rigs then HolderAt(h.rigs[rig], t) else None
  }

  ghost function LeaseEffect(h: Hub, e: Event, rig: string, t: Time): Effect<string> {
    if Touches(h, e, rig, Toucher(e)) then Put(if Until(h.rigs[rig], e.now) > t then Some(Toucher(e)) else None)
    else if Drops(h, e, rig) then Put(None)
    else Hold
  }

  predicate SameLease(h: Hub, next: Hub, rig: string, t: Time) {
    Level(next, rig, t) == Level(h, rig, t) && SameCeiling(h, next, rig)
  }

  predicate SameCeiling(h: Hub, next: Hub, rig: string) {
    rig in h.rigs ==> rig in next.rigs && next.rigs[rig].hardExpiry == h.rigs[rig].hardExpiry
  }

  lemma AskKeepsLease(h: Hub, l: Leader, driving: Option<string>, now: Time, rig: string, t: Time)
    requires now <= t
    ensures SameLease(h, AskBound(h, l, driving, now), rig, t)
  {
  }

  lemma PruneKeepsLease(h: Hub, name: string, now: Time, rig: string, t: Time)
    requires now <= t && name in h.leaders
    ensures SameLease(h, Prune(h, name, now), rig, t)
  {
    AskKeepsLease(h, h.leaders[name], None, now, rig, t);
  }

  lemma BeatKeepsLease(h: Hub, leader: string, driving: Option<string>, now: Time, rig: string, t: Time)
    requires now <= t
    ensures SameLease(h, LandBeat(h, leader, driving, now).hub, rig, t)
  {
    if leader in h.leaders {
      var asked := AskBound(h, h.leaders[leader], driving, now);
      AskKeepsLease(h, h.leaders[leader], driving, now, rig, t);
      PruneKeepsLease(asked, leader, now, rig, t);
    }
  }

  lemma OrderKeepsLease(h: Hub, leader: string, order: Order, now: Time, rig: string, t: Time)
    requires now <= t
    ensures SameLease(h, LandOrder(h, leader, order, now).hub, rig, t)
  {
    if leader in h.leaders {
      match order {
        case Drive(name, clientId) =>
          assert SameLease(h, LandDrive(h, leader, name, clientId, now).hub, rig, t);
        case Stop =>
          assert SameLease(h, LandStop(h, leader, now).hub, rig, t);
        case Unknown =>
      }
    }
  }

  lemma LinkKeepsLease(h: Hub, name: string, now: Time, rig: string, t: Time)
    requires now <= t
    ensures SameLease(h, LandLink(h, name, now).hub, rig, t)
  {
  }

  lemma PacketKeepsLease(d: Design, h: Hub, ticket: nat, name: string, packet: Odometer.Input, dropped: bool, now: Time,
                         rig: string, t: Time)
    requires now <= t
    ensures SameLease(h, LandInput(h, ticket, name, packet, dropped, now).hub, rig, t)
    ensures SameLease(h, LandMessage(d, h, ticket, name, packet, dropped, now).hub, rig, t)
  {
  }

  lemma LandKeepsLease(d: Design, h: Hub, ticket: nat, dropped: bool, now: Time, rig: string, t: Time)
    requires now <= t
    ensures SameLease(h, OnLand(d, h, ticket, dropped, now).hub, rig, t)
  {
    if ticket in h.flights {
      var landed := h.(flights := h.flights - {ticket});
      match h.flights[ticket] {
        case BeatFlight(leader, driving) => BeatKeepsLease(landed, leader, driving, now, rig, t);
        case OrderFlight(leader, order) => OrderKeepsLease(landed, leader, order, now, rig, t);
        case LinkFlight(name) => LinkKeepsLease(landed, name, now, rig, t);
        case InputFlight(name, packet) => PacketKeepsLease(d, landed, ticket, name, packet, dropped, now, rig, t);
        case SocketFlight(name, packet) => PacketKeepsLease(d, landed, ticket, name, packet, dropped, now, rig, t);
      }
    }
  }

  lemma VerbKeepsLease(h: Hub, name: string, clientId: string, b: Body, v: Verb, now: Time, rig: string, t: Time)
    requires now <= t && name in h.rigs
    ensures SameLease(h, OnVerb(h, name, clientId, b, v, now).hub, rig, t)
  {
  }

  lemma CommandKeepsLease(h: Hub, name: string, clientId: string, b: Body, now: Time, rig: string, t: Time)
    requires now <= t
    ensures SameLease(h, OnCommand(h, name, clientId, b, now).hub, rig, t)
  {
    if name in h.rigs && VerbOf(b.verb).Some? {
      VerbKeepsLease(h, name, clientId, b, VerbOf(b.verb).value, now, rig, t);
    }
  }

  lemma MessageKeepsLease(h: Hub, leader: string, name: string, joints: Odometer.Vector, now: Time, rig: string, t: Time)
    requires now <= t
    ensures SameLease(h, OnMessage(h, leader, name, joints, now).hub, rig, t)
  {
  }

  lemma InputLease(h: Hub, name: string, clientId: string, packet: Odometer.Input, now: Time, rig: string, t: Time)
    requires now <= t
    ensures Level(OnInput(h, name, clientId, packet, now).hub, rig, t)
            == if Touches(h, Event(SendInput(name, clientId, packet), now), rig, clientId)
               then (if Until(h.rigs[rig], now) > t then Some(clientId) else None)
               else Level(h, rig, t)
    ensures SameCeiling(h, OnInput(h, name, clientId, packet, now).hub, rig)
  {
    LeaderNamedMeaning(h, clientId);
  }

  ghost predicate LeaseAfter(h: Hub, e: Event, next: Hub, rig: string, t: Time) {
    Level(next, rig, t) == var f := LeaseEffect(h, e, rig, t); if f.Hold? then Level(h, rig, t) else f.value
  }

  lemma ClaimLeases(h: Hub, name: string, clientId: string, force: bool, now: Time, rig: string, t: Time)
    requires now <= t
    ensures LeaseAfter(h, Event(Claim(name, clientId, force), now), OnClaim(h, name, clientId, force, now).hub, rig, t)
    ensures SameCeiling(h, OnClaim(h, name, clientId, force, now).hub, rig)
  {
  }

  lemma ReleaseDrops(h: Hub, name: string, clientId: string, now: Time, rig: string, t: Time)
    requires now <= t
    ensures LeaseAfter(h, Event(Release(name, clientId), now), OnRelease(h, name, clientId, now).hub, rig, t)
    ensures SameCeiling(h, OnRelease(h, name, clientId, now).hub, rig)
  {
  }

  predicate CeilingAfter(h: Hub, e: Event, next: Hub, rig: string) {
    rig in h.rigs ==>
      && rig in next.rigs
      && next.rigs[rig].hardExpiry == if e.step.SetCeiling? && e.step.rig == rig then e.step.ceiling
                                      else h.rigs[rig].hardExpiry
  }

  lemma ArrivalsKeepLease(d: Design, h: Hub, e: Event, rig: string, t: Time)
    requires e.now <= t
    requires e.step.Link? || e.step.Heartbeat? || e.step.LeaderOrder? || e.step.Open? || e.step.Close?
    ensures SameLease(h, Next(d, h, e).hub, rig, t)
  {
  }

  lemma RevokeDrops(h: Hub, name: string, now: Time, rig: string, t: Time)
    ensures LeaseAfter(h, Event(Revoke(name), now), Revoked(h, name), rig, t)
    ensures SameCeiling(h, Revoked(h, name), rig)
  {
  }

  lemma OthersLease(d: Design, h: Hub, e: Event, rig: string, t: Time)
    requires e.now <= t && Registers(e.step)
    ensures LeaseAfter(h, e, Next(d, h, e).hub, rig, t) && CeilingAfter(h, e, Next(d, h, e).hub, rig)
  {
    match e.step {
      case Claim(name, clientId, force) => ClaimLeases(h, name, clientId, force, e.now, rig, t);
      case Release(name, clientId) => ReleaseDrops(h, name, clientId, e.now, rig, t);
      case Revoke(name) => RevokeDrops(h, name, e.now, rig, t);
      case SetCeiling(name, ceiling) =>
        assert Level(Ceiled(h, name, ceiling), rig, t) == Level(h, rig, t);
      case _ => ArrivalsKeepLease(d, h, e, rig, t);
    }
  }

  lemma LeaseStep(d: Design, h: Hub, e: Event, rig: string, t: Time)
    requires e.now <= t
    ensures LeaseAfter(h, e, Next(d, h, e).hub, rig, t)
  {
    match e.step {
      case SendInput(name, clientId, packet) => InputLease(h, name, clientId, packet, e.now, rig, t);
      case SendCommand(name, clientId, body) => CommandKeepsLease(h, name, clientId, body, e.now, rig, t);
      case Message(leader, name, joints) => MessageKeepsLease(h, leader, name, joints, e.now, rig, t);
      case Land(ticket, dropped) => LandKeepsLease(d, h, ticket, dropped, e.now, rig, t);
      case _ => OthersLease(d, h, e, rig, t);
    }
  }

  /** At `w` the lease was taken or renewed by `b` for a period reaching beyond `t`, and no
      later event before `k` took or ended it. */
  ghost predicate LastTouch(hubs: seq<Hub>, run: seq<Event>, rig: string, t: Time, w: nat, k: nat, b: string)
    requires k <= |run| < |hubs|
  {
    && w < k && Touches(hubs[w], run[w], rig, b) && t < Until(hubs[w].rigs[rig], run[w].now)
    && forall m :: w < m < k ==> !Touches(hubs[m], run[m], rig, Toucher(run[m])) && !Drops(hubs[m], run[m], rig)
  }

  function Levels(hubs: seq<Hub>, rig: string, t: Time): seq<Option<string>> {
    seq(|hubs|, i requires 0 <= i < |hubs| => Level(hubs[i], rig, t))
  }

  ghost function LeaseEffects(hubs: seq<Hub>, run: seq<Event>, rig: string, t: Time, k: nat): seq<Effect<string>>
    requires k <= |run| < |hubs|
  {
    seq(k, i requires 0 <= i < k => LeaseEffect(hubs[i], run[i], rig, t))
  }

  lemma LeaseStepAt(d: Design, hubs: seq<Hub>, run: seq<Event>, rig: string, t: Time, i: nat)
    requires Execution(d, hubs, run) && i < |run| && run[i].now <= t
    ensures var f := LeaseEffect(hubs[i], run[i], rig, t);
            Level(hubs[i + 1], rig, t) == if f.Hold? then Level(hubs[i], rig, t) else f.value
  {
    var h, e, next := hubs[i], run[i], hubs[i + 1];
    assert next == Next(d, hubs[i], run[i]).hub;
    LeaseStep(d, h, e, rig, t);
  }

  lemma LeaseFollows(d: Design, hubs: seq<Hub>, run: seq<Event>, rig: string, t: Time, k: nat)
    requires Execution(d, hubs, run) && k <= |run|
    requires forall i :: 0 <= i < k ==> run[i].now <= t
    ensures Follows(Levels(hubs[..k + 1], rig, t), LeaseEffects(hubs, run, rig, t, k))
  {
    var levels, effects := Levels(hubs[..k + 1], rig, t), LeaseEffects(hubs, run, rig, t, k);
    forall i | 0 <= i < k
      ensures levels[i + 1] == if effects[i].Hold? then levels[i] else effects[i].value
    {
      LeaseStepAt(d, hubs, run, rig, t, i);
    }
  }

  lemma TouchIsPut(hubs: seq<Hub>, run: seq<Event>, rig: string, t: Time, w: nat, k: nat, b: string)
    requires k <= |run| < |hubs|
    ensures LastTouch(hubs, run, rig, t, w, k, b) <==> LastPut(LeaseEffects(hubs, run, rig, t, k), w, k, b)
  {
    var effects := LeaseEffects(hubs, run, rig, t, k);
    assert forall m :: 0 <= m < k ==> effects[m] == LeaseEffect(hubs[m], run[m], rig, t);
  }

  /** The lease means exactly this: at time `t` the rig is held by `b` if and only if the last
      event that took or ended the lease was `b`'s own claim or packet, and its period, at most
      20 s and never past the ceiling of that moment, is not over. */
  lemma LeaseMeaning(d: Design, hubs: seq<Hub>, run: seq<Event>, rig: string, t: Time, k: nat, b: string)
    requires Execution(d, hubs, run) && k <= |run|
    requires forall i :: 0 <= i < k ==> run[i].now <= t
    ensures Level(hubs[k], rig, t) == Some(b) <==> exists w: nat :: LastTouch(hubs, run, rig, t, w, k, b)
  {
    LeaseFollows(d, hubs, run, rig, t, k);
    LatchMeaning(Levels(hubs[..k + 1], rig, t), LeaseEffects(hubs, run, rig, t, k), k, b);
    if w: nat :| LastPut(LeaseEffects(hubs, run, rig, t, k), w, k, b) {
      TouchIsPut(hubs, run, rig, t, w, k, b);
    }
    if w: nat :| LastTouch(hubs, run, rig, t, w, k, b) {
      TouchIsPut(hubs, run, rig, t, w, k, b);
    }
  }

  // ---- bindings -----------------------------------------------------------------------------------

  /** This event carries out a drive order: `b` lends `rig` to the leader. */
  predicate Binds(h: Hub, e: Event, leader: string, b: string, rig: string) {
    && e.step.Land? && e.step.ticket in h.flights && leader in h.leaders
    && h.flights[e.step.ticket] == OrderFlight(leader, Drive(rig, b))
    && DriveStatus(h, h.leaders[leader], rig, b, e.now) == 200
  }

  /** This event ends the leader's binding: a stop order, or a heartbeat that finds it stale. */
  predicate Unbinds(h: Hub, e: Event, leader: string) {
    && e.step.Land? && e.step.ticket in h.flights && leader in h.leaders
    && match h.flights[e.step.ticket]
       case OrderFlight(name, order) => name == leader && order == Stop
       case BeatFlight(name, driving) => name == leader && !Bound(h, h.leaders[leader], None, e.now)
       case _ => false
  }

  /** The drive order landing here, if it is for this leader. */
  function Lent(h: Hub, e: Event, leader: string): (string, string) {
    if e.step.Land? && e.step.ticket in h.flights then
      match h.flights[e.step.ticket]
      case OrderFlight(_, Drive(rig, b)) => (b, rig)
      case _ => ("", "")
    else ("", "")
  }

  function Binding(h: Hub, leader: string): Option<(string, string)> {
    if leader in h.leaders && h.leaders[leader].boundTo.Some? && h.leaders[leader].rig.Some?
    then Some((h.leaders[leader].boundTo.value, h.leaders[leader].rig.value)) else None
  }

  function BindEffect(h: Hub, e: Event, leader: string): Effect<(string, string)> {
    var lent := Lent(h, e, leader);
    if Binds(h, e, leader, lent.0, lent.1) then Put(Some(lent))
    else if Unbinds(h, e, leader) then Put(None)
    else Hold
  }

  predicate BindsTo(h: Hub, next: Hub, leader: string, f: Effect<(string, string)>) {
    Binding(next, leader) == if f.Hold? then Binding(h, leader) else f.value
  }

  lemma AskKeepsLeaders(h: Hub, l: Leader, driving: Option<string>, now: Time)
    ensures AskBound(h, l, driving, now).leaders == h.leaders
    ensures Bound(AskBound(h, l, driving, now), l, None, now) == Bound(h, l, None, now)
    ensures Bound(h, l, driving, now) ==> Bound(h, l, None, now)
  {
  }

  lemma PruneBinding(h: Hub, name: string, now: Time)
    requires name in h.leaders
    ensures var l := h.leaders[name];
            Prune(h, name, now).leaders ==
              if l.boundTo.None? || Bound(h, l, None, now) then h.leaders
              else h.leaders[name := l.(boundTo := None, rig := None)]
  {
    AskKeepsLeaders(h, h.leaders[name], None, now);
  }

  lemma BeatBinding(h: Hub, name: string, driving: Option<string>, now: Time, leader: string)
    ensures BindsTo(h, LandBeat(h, name, driving, now).hub, leader,
                    if name == leader && leader in h.leaders && !Bound(h, h.leaders[leader], None, now)
                    then Put(None) else Hold)
  {
    if name in h.leaders {
      var l := h.leaders[name];
      AskKeepsLeaders(h, l, driving, now);
      PruneBinding(AskBound(h, l, driving, now), name, now);
    }
  }

  lemma DriveBinding(h: Hub, name: string, rig: string, b: string, now: Time, leader: string)
    requires name in h.leaders
    ensures BindsTo(h, LandDrive(h, name, rig, b, now).hub, leader,
                    if name == leader && DriveStatus(h, h.leaders[leader], rig, b, now) == 200
                    then Put(Some((b, rig))) else Hold)
  {
  }

  lemma StopBinding(h: Hub, name: string, now: Time, leader: string)
    requires name in h.leaders
    ensures BindsTo(h, LandStop(h, name, now).hub, leader, if name == leader then Put(None) else Hold)
  {
  }

  lemma PacketsKeepLeaders(d: Design, h: Hub, ticket: nat, name: string, packet: Odometer.Input, dropped: bool, now: Time)
    ensures LandLink(h, name, now).hub.leaders == h.leaders
    ensures LandInput(h, ticket, name, packet, dropped, now).hub.leaders == h.leaders
    ensures LandMessage(d, h, ticket, name, packet, dropped, now).hub.leaders == h.leaders
  {
  }

  /** What a landing does to the leader's binding. */
  function LandEffect(h: Hub, f: Flight, now: Time, leader: string): Effect<(string, string)> {
    if leader !in h.leaders then Hold
    else
      match f
      case BeatFlight(name, _) => if name == leader && !Bound(h, h.leaders[leader], None, now) then Put(None) else Hold
      case OrderFlight(name, Drive(rig, b)) =>
        if name == leader && DriveStatus(h, h.leaders[leader], rig, b, now) == 200 then Put(Some((b, rig))) else Hold
      case OrderFlight(name, Stop) => if name == leader then Put(None) else Hold
      case _ => Hold
  }

  lemma LandEffectIsBindEffect(h: Hub, ticket: nat, dropped: bool, now: Time, leader: string)
    requires ticket in h.flights
    ensures LandEffect(h, h.flights[ticket], now, leader) == BindEffect(h, Event(Land(ticket, dropped), now), leader)
  {
  }

  lemma OrderBinding(h: Hub, name: string, order: Order, now: Time, leader: string)
    ensures BindsTo(h, LandOrder(h, name, order, now).hub, leader, LandEffect(h, OrderFlight(name, order), now, leader))
  {
    if name in h.leaders {
      match order {
        case Drive(rig, b) => DriveBinding(h, name, rig, b, now, leader);
        case Stop => StopBinding(h, name, now, leader);
        case Unknown =>
      }
    }
  }

  lemma LandingBinding(d: Design, h: Hub, f: Flight, ticket: nat, dropped: bool, now: Time, leader: string)
    ensures BindsTo(h, Landing(d, h, f, ticket, dropped, now).hub, leader, LandEffect(h, f, now, leader))
  {
    match f {
      case BeatFlight(name, driving) => BeatBinding(h, name, driving, now, leader);
      case OrderFlight(name, order) => OrderBinding(h, name, order, now, leader);
      case LinkFlight(name) => PacketsKeepLeaders(d, h, ticket, name, Odometer.Input(None, None), dropped, now);
      case InputFlight(name, packet) => PacketsKeepLeaders(d, h, ticket, name, packet, dropped, now);
      case SocketFlight(name, packet) => PacketsKeepLeaders(d, h, ticket, name, packet, dropped, now);
    }
  }

  lemma LandBinding(d: Design, h: Hub, ticket: nat, dropped: bool, now: Time, leader: string)
    ensures BindsTo(h, OnLand(d, h, ticket, dropped, now).hub, leader,
                    BindEffect(h, Event(Land(ticket, dropped), now), leader))
  {
    if ticket in h.flights {
      var landed, f := h.(flights := h.flights - {ticket}), h.flights[ticket];
      LandingBinding(d, landed, f, ticket, dropped, now, leader);
      LandEffectIsBindEffect(h, ticket, dropped, now, leader);
      assert LandEffect(landed, f, now, leader) == LandEffect(h, f, now, leader);
    }
  }

  lemma VerbKeepsLeaders(h: Hub, name: string, clientId: string, b: Body, v: Verb, now: Time)
    requires name in h.rigs
    ensures OnVerb(h, name, clientId, b, v, now).hub.leaders == h.leaders
  {
  }

  lemma CommandKeepsBindings(h: Hub, name: string, clientId: string, b: Body, now: Time, leader: string)
    ensures BindsTo(h, OnCommand(h, name, clientId, b, now).hub, leader, Hold)
  {
    if name in h.rigs && VerbOf(b.verb).Some? {
      VerbKeepsLeaders(h, name, clientId, b, VerbOf(b.verb).value, now);
    }
  }

  lemma InputKeepsBindings(h: Hub, name: string, clientId: string, packet: Odometer.Input, now: Time, leader: string)
    ensures BindsTo(h, OnInput(h, name, clientId, packet, now).hub, leader, Hold)
  {
  }

  lemma OthersKeepBindings(d: Design, h: Hub, e: Event, leader: string)
    requires Registers(e.step)
    ensures BindsTo(h, Next(d, h, e).hub, leader, Hold)
  {
  }

  lemma MessageKeepsLeaders(h: Hub, name: string, rig: string, joints: Odometer.Vector, now: Time)
    ensures OnMessage(h, name, rig, joints, now).hub.leaders == h.leaders
  {
  }

  lemma BindStep(d: Design, h: Hub, e: Event, leader: string)
    ensures BindsTo(h, Next(d, h, e).hub, leader, BindEffect(h, e, leader))
  {
    match e.step {
      case Land(ticket, dropped) => LandBinding(d, h, ticket, dropped, e.now, leader);
      case SendInput(name, clientId, packet) =>
        InputKeepsBindings(h, name, clientId, packet, e.now, leader);
      case SendCommand(name, clientId, body) =>
        CommandKeepsBindings(h, name, clientId, body, e.now, leader);
      case Message(name, rig, joints) => MessageKeepsLeaders(h, name, rig, joints, e.now);
      case _ => OthersKeepBindings(d, h, e, leader);
    }
  }

  function Bindings(hubs: seq<Hub>, leader: string): seq<Option<(string, string)>> {
    seq(|hubs|, i requires 0 <= i < |hubs| => Binding(hubs[i], leader))
  }

  function BindEffects(hubs: seq<Hub>, run: seq<Event>, leader: string, k: nat): seq<Effect<(string, string)>>
    requires k <= |run| < |hubs|
  {
    seq(k, i requires 0 <= i < k => BindEffect(hubs[i], run[i], leader))
  }

  lemma BindStepAt(d: Design, hubs: seq<Hub>, run: seq<Event>, leader: string, i: nat)
    requires Execution(d, hubs, run) && i < |run|
    ensures BindsTo(hubs[i], hubs[i + 1], leader, BindEffect(hubs[i], run[i], leader))
  {
    var h, e, next := hubs[i], run[i], hubs[i + 1];
    assert next == Next(d, hubs[i], run[i]).hub;
    BindStep(d, h, e, leader);
  }

  lemma BindingFollows(d: Design, hubs: seq<Hub>, run: seq<Event>, leader: string, k: nat)
    requires Execution(d, hubs, run) && k <= |run|
    ensures Follows(Bindings(hubs[..k + 1], leader), BindEffects(hubs, run, leader, k))
  {
    var levels, effects := Bindings(hubs[..k + 1], leader), BindEffects(hubs, run, leader, k);
    forall i | 0 <= i < k
      ensures levels[i + 1] == if effects[i].Hold? then levels[i] else effects[i].value
    {
      BindStepAt(d, hubs, run, leader, i);
    }
  }

  /** At `w` a drive order lent `rig`, then held by `b`, to the leader, and since then no other
      drive order, stop order or stale heartbeat came before `k`. */
  ghost predicate LastDrive(hubs: seq<Hub>, run: seq<Event>, leader: string, w: nat, k: nat, b: string, rig: string)
    requires k <= |run| < |hubs|
  {
    && w < k && Binds(hubs[w], run[w], leader, b, rig)
    && forall m :: w < m < k ==>
         && !Unbinds(hubs[m], run[m], leader)
         && !Binds(hubs[m], run[m], leader, Lent(hubs[m], run[m], leader).0, Lent(hubs[m], run[m], leader).1)
  }

  lemma DriveIsPut(hubs: seq<Hub>, run: seq<Event>, leader: string, w: nat, k: nat, b: string, rig: string)
    requires k <= |run| < |hubs|
    ensures LastDrive(hubs, run, leader, w, k, b, rig) <==> LastPut(BindEffects(hubs, run, leader, k), w, k, (b, rig))
  {
    var effects := BindEffects(hubs, run, leader, k);
    assert forall m :: 0 <= m < k ==> effects[m] == BindEffect(hubs[m], run[m], leader);
  }

  /** A leader is bound to `b` and `rig` if and only if the last event that touched its binding
      was a drive order by `b`, accepted while `b` held `rig`. */
  lemma BindingMeaning(d: Design, hubs: seq<Hub>, run: seq<Event>, leader: string, k: nat, b: string, rig: string)
    requires Execution(d, hubs, run) && k <= |run|
    ensures Binding(hubs[k], leader) == Some((b, rig))
            <==> exists w: nat :: LastDrive(hubs, run, leader, w, k, b, rig)
  {
    BindingFollows(d, hubs, run, leader, k);
    LatchMeaning(Bindings(hubs[..k + 1], leader), BindEffects(hubs, run, leader, k), k, (b, rig));
    if w: nat :| LastPut(BindEffects(hubs, run, leader, k), w, k, (b, rig)) {
      DriveIsPut(hubs, run, leader, w, k, b, rig);
    }
    if w: nat :| LastDrive(hubs, run, leader, w, k, b, rig) {
      DriveIsPut(hubs, run, leader, w, k, b, rig);
    }
  }

  // ---- leader packets -------------------------------------------------------------------------------

  /** A packet that a leader offers for `rig`, over either transport. */
  predicate LeaderOffers(h: Hub, e: Event, leader: string, rig: string) {
    match e.step
    case SendInput(name, clientId, _) => name == rig && Names(h, clientId, leader)
    case Message(from, name, _) => from == leader && name == rig
    case _ => false
  }

  lemma OfferMeaning(d: Design, h: Hub, e: Event, leader: string, rig: string)
    requires LeaderOffers(h, e, leader, rig)
    ensures Next(d, h, e).reply.Await?
            <==> exists b :: Binding(h, leader) == Some((b, rig)) && Level(h, rig, e.now) == Some(b)
  {
    if e.step.SendInput? {
      LeaderNamedMeaning(h, e.step.clientId);
    }
    if leader in h.leaders && rig in h.rigs && h.leaders[leader].boundTo.Some? {
      var b := h.leaders[leader].boundTo.value;
      assert MayDrive(h.leaders[leader], rig, h.rigs[rig], e.now)
        ==> Binding(h, leader) == Some((b, rig)) && Level(h, rig, e.now) == Some(b);
    }
  }

  /** Exactly when a leader's packet passes: some browser lent it this rig by the last order that
      touched its binding, and that browser's own last claim or packet still holds the rig. */
  lemma LeaderPassesExactlyWhen(d: Design, hubs: seq<Hub>, run: seq<Event>, i: nat, leader: string, rig: string)
    requires Execution(d, hubs, run) && i < |run| && LeaderOffers(hubs[i], run[i], leader, rig)
    ensures Next(d, hubs[i], run[i]).reply.Await? <==>
            exists b, u: nat, w: nat ::
              LastDrive(hubs, run, leader, u, i, b, rig) && LastTouch(hubs, run, rig, run[i].now, w, i, b)
  {
    var t := run[i].now;
    OfferMeaning(d, hubs[i], run[i], leader, rig);
    if b :| Binding(hubs[i], leader) == Some((b, rig)) && Level(hubs[i], rig, t) == Some(b) {
      BindingMeaning(d, hubs, run, leader, i, b, rig);
      LeaseMeaning(d, hubs, run, rig, t, i, b);
      var u: nat :| LastDrive(hubs, run, leader, u, i, b, rig);
      var w: nat :| LastTouch(hubs, run, rig, t, w, i, b);
    }
    if b, u: nat, w: nat :| LastDrive(hubs, run, leader, u, i, b, rig) && LastTouch(hubs, run, rig, t, w, i, b) {
      BindingMeaning(d, hubs, run, leader, i, b, rig);
      LeaseMeaning(d, hubs, run, rig, t, i, b);
    }
  }

  lemma BrowserMeaning(d: Design, h: Hub, rig: string, clientId: string, packet: Odometer.Input, now: Time)
    requires clientId != "" && IsBrowser(h, clientId)
    ensures var reply := Next(d, h, Event(SendInput(rig, clientId, packet), now)).reply;
            && (reply.Await? <==> Level(h, rig, now) == Some(clientId))
            && (!reply.Await? ==> reply == Refused(if rig in h.rigs then 403 else 404))
  {
    LeaderNamedMeaning(h, clientId);
  }

  /** Exactly when a browser's own packet passes: its own last claim or packet still holds the rig.
      Every other client is refused. */
  lemma BrowserPassesExactlyWhen(d: Design, hubs: seq<Hub>, run: seq<Event>, i: nat, rig: string, clientId: string, packet: Odometer.Input)
    requires Execution(d, hubs, run) && i < |run| && run[i].step == SendInput(rig, clientId, packet)
    requires clientId != "" && IsBrowser(hubs[i], clientId)
    ensures var reply := Next(d, hubs[i], run[i]).reply;
            && (reply.Await? <==> exists w: nat :: LastTouch(hubs, run, rig, run[i].now, w, i, clientId))
            && (!reply.Await? ==> reply == Refused(if rig in hubs[i].rigs then 403 else 404))
  {
    BrowserMeaning(d, hubs[i], rig, clientId, packet, run[i].now);
    LeaseMeaning(d, hubs, run, rig, run[i].now, i, clientId);
  }

  /** The dead-browser switch: a leader packet passes only if the browser the leader is bound to
      itself claimed, or sent a packet, less than 20 s before. */
  lemma DeadBrowserStopsLeader(d: Design, hubs: seq<Hub>, run: seq<Event>, i: nat, leader: string, rig: string)
    requires Execution(d, hubs, run) && i < |run| && LeaderOffers(hubs[i], run[i], leader, rig)
    requires Next(d, hubs[i], run[i]).reply.Await?
    ensures leader in hubs[i].leaders && hubs[i].leaders[leader].boundTo.Some?
    ensures exists w: nat ::
              && w < i && run[i].now - run[w].now < LEASE
              && Touches(hubs[w], run[w], rig, hubs[i].leaders[leader].boundTo.value)
  {
    OfferMeaning(d, hubs[i], run[i], leader, rig);
    var b := hubs[i].leaders[leader].boundTo.value;
    LeaseMeaning(d, hubs, run, rig, run[i].now, i, b);
    var w: nat :| LastTouch(hubs, run, rig, run[i].now, w, i, b);
  }

  /** No leader packet, accepted or not and over either transport, and nothing that lands, ever
      changes who will hold a rig at any later time. */
  lemma LeadersNeverExtendLeases(d: Design, h: Hub, e: Event, rig: string, t: Time)
    requires e.now <= t
    requires e.step.Land? || exists leader, name :: LeaderOffers(h, e, leader, name)
    ensures Level(Next(d, h, e).hub, rig, t) == Level(h, rig, t)
  {
    LeaseStep(d, h, e, rig, t);
  }

  /** What a claim answers is true: `ok` if and only if the claimer holds the rig after it, and the
      holder named is the one there is. It is `ok` exactly if the seat was free, the claimer's own or
      taken by force, and the ceiling has not passed. */
  lemma ClaimAnswersTruly(d: Design, h: Hub, rig: string, clientId: string, force: bool, now: Time)
    requires rig in h.rigs && clientId != ""
    ensures var out := Next(d, h, Event(Claim(rig, clientId, force), now)); var ceiling := h.rigs[rig].hardExpiry;
            && out.reply.Claimed? && out.reply.holder == Level(out.hub, rig, now)
            && (out.reply.ok ==> out.reply.holder == Some(clientId))
            && (out.reply.ok <==> (force || Level(h, rig, now) in {None, Some(clientId)})
                                  && (ceiling.Some? ==> ceiling.value > now))
  {
  }

  // ---- the ceiling ----------------------------------------------------------------------------------

  ghost predicate CeilingKept(run: seq<Event>, rig: string, ceiling: Time, s: nat, k: nat)
    requires k <= |run|
  {
    forall m :: s < m < k && run[m].step.SetCeiling? && run[m].step.rig == rig ==>
      run[m].step.ceiling.Some? && run[m].step.ceiling.value <= ceiling
  }

  predicate Capped(h: Hub, rig: string, ceiling: Time) {
    rig in h.rigs && h.rigs[rig].hardExpiry.Some? && h.rigs[rig].hardExpiry.value <= ceiling
  }

  /** Only the market layer writes the ceiling. */
  lemma CeilingIsOnlySet(d: Design, h: Hub, e: Event, rig: string)
    requires rig in h.rigs
    ensures CeilingAfter(h, e, Next(d, h, e).hub, rig)
  {
    match e.step {
      case SendInput(name, clientId, packet) => InputLease(h, name, clientId, packet, e.now, rig, e.now);
      case SendCommand(name, clientId, body) => CommandKeepsLease(h, name, clientId, body, e.now, rig, e.now);
      case Message(leader, name, joints) => MessageKeepsLease(h, leader, name, joints, e.now, rig, e.now);
      case Land(ticket, dropped) => LandKeepsLease(d, h, ticket, dropped, e.now, rig, e.now);
      case _ => OthersLease(d, h, e, rig, e.now);
    }
  }

  lemma {:induction false} CeilingHolds(d: Design, hubs: seq<Hub>, run: seq<Event>, rig: string, ceiling: Time, s: nat, k: nat)
    requires Execution(d, hubs, run) && s < k <= |run| && rig in hubs[s].rigs
    requires run[s].step == SetCeiling(rig, Some(ceiling)) && CeilingKept(run, rig, ceiling, s, k)
    ensures Capped(hubs[k], rig, ceiling)
    decreases k
  {
    var i := k - 1;
    assert hubs[i + 1] == Next(d, hubs[i], run[i]).hub;
    if s < i {
      CeilingHolds(d, hubs, run, rig, ceiling, s, i);
    }
    CeilingIsOnlySet(d, hubs[i], run[i], rig);
  }

  /** The lease ceiling: once it is set to `ceiling` and then neither raised nor cleared, nobody
      holds the rig from `ceiling` on, nor later than 20 s after it was set, whatever claims,
      forced claims and packets arrive. */
  lemma NobodyHoldsPastTheCeiling(d: Design, hubs: seq<Hub>, run: seq<Event>, rig: string, ceiling: Time, s: nat, k: nat, t: Time)
    requires Execution(d, hubs, run) && s < k <= |run| && rig in hubs[s].rigs
    requires run[s].step == SetCeiling(rig, Some(ceiling)) && CeilingKept(run, rig, ceiling, s, k)
    requires t >= run[k - 1].now && t >= ceiling && t >= run[s].now + LEASE
    ensures Level(hubs[k], rig, t) == None
  {
    if Level(hubs[k], rig, t).Some? {
      var b := Level(hubs[k], rig, t).value;
      LeaseMeaning(d, hubs, run, rig, t, k, b);
      var w: nat :| LastTouch(hubs, run, rig, t, w, k, b);
      if w > s {
        CeilingHolds(d, hubs, run, rig, ceiling, s, w);
      }
    }
  }

  /** The 20 s cannot be dropped: a ceiling set in the past does not cut a running lease short. */
  lemma CeilingBoundIsSharp(d: Design)
    ensures exists hubs: seq<Hub>, run: seq<Event> ::
              && Execution(d, hubs, run) && |run| == 3
              && run[2] == Event(SetCeiling("r", Some(0)), 0)
              && Level(hubs[3], "r", LEASE - 1) == Some("a")
  {
    var e1, e2, e3 := Event(Link("r"), 0), Event(Claim("r", "a", false), 0), Event(SetCeiling("r", Some(0)), 0);
    var h1 := Next(d, EMPTY, e1).hub;
    var h2 := Next(d, h1, e2).hub;
    var h3 := Next(d, h2, e3).hub;
    HeldAfterCeiling(d);
    ExtendExecution(d, [EMPTY], [], e1, h1);
    ExtendExecution(d, [EMPTY] + [h1], [] + [e1], e2, h2);
    ExtendExecution(d, [EMPTY] + [h1] + [h2], [] + [e1] + [e2], e3, h3);
  }

  lemma HeldAfterCeiling(d: Design)
    ensures var h1 := Next(d, EMPTY, Event(Link("r"), 0)).hub;
            var h2 := Next(d, h1, Event(Claim("r", "a", false), 0)).hub;
            Level(Next(d, h2, Event(SetCeiling("r", Some(0)), 0)).hub, "r", LEASE - 1) == Some("a")
  {
  }

  // ---- stale bindings -------------------------------------------------------------------------------

  /** The answer to a heartbeat leaves the leader with no binding or with a valid one, and says
      `bound` exactly when it is valid for the rig the agent is driving. */
  lemma HeartbeatSettlesBinding(d: Design, h: Hub, e: Event, leader: string, driving: Option<string>)
    requires e.step.Land? && e.step.ticket in h.flights && leader in h.leaders
    requires h.flights[e.step.ticket] == BeatFlight(leader, driving)
    ensures var out := Next(d, h, e); var b := Binding(h, leader);
            && Binding(out.hub, leader)
               == (if b.Some? && Level(h, b.value.1, e.now) == Some(b.value.0) then b else None)
            && out.reply.Beat?
            && (out.reply.bound <==> Binding(out.hub, leader).Some? && driving in {None, Some(b.value.1)})
  {
    var l := h.leaders[leader];
    LandBinding(d, h, e.step.ticket, e.step.dropped, e.now, leader);
    BoundMeaning(h, leader, driving, e.now);
  }

  lemma BoundMeaning(h: Hub, leader: string, driving: Option<string>, now: Time)
    requires leader in h.leaders
    ensures var l, b := h.leaders[leader], Binding(h, leader);
            && (Bound(h, l, None, now) <==> b.Some? && Level(h, b.value.1, now) == Some(b.value.0))
            && (Bound(h, l, driving, now) <==> Bound(h, l, None, now) && driving in {None, Some(b.value.1)})
  {
  }

  /** A cleared binding is not revived by anything the old browser does: if the leader has no
      binding at `k`, a packet of it passes at `i` only if a drive order was accepted in
      between from a browser that held the rig at that moment. */
  lemma ClearedStaysCleared(d: Design, hubs: seq<Hub>, run: seq<Event>, k: nat, i: nat, leader: string, rig: string)
    requires Execution(d, hubs, run) && k <= i < |run| && Binding(hubs[k], leader) == None
    requires LeaderOffers(hubs[i], run[i], leader, rig) && Next(d, hubs[i], run[i]).reply.Await?
    ensures exists b, u: nat ::
              && k <= u < i && Binds(hubs[u], run[u], leader, b, rig)
              && Level(hubs[u], rig, run[u].now) == Some(b)
  {
    LeaderPassesExactlyWhen(d, hubs, run, i, leader, rig);
    var b, u: nat, w: nat :| LastDrive(hubs, run, leader, u, i, b, rig) && LastTouch(hubs, run, rig, run[i].now, w, i, b);
    if u < k {
      assert LastDrive(hubs, run, leader, u, k, b, rig);
      BindingMeaning(d, hubs, run, leader, k, b, rig);
    }
  }
}
