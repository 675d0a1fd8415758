/** What the hub answers, and that a refusal is one: it changes nothing. */
module HubAnswers {
  import opened Prelude
  import opened HubModel
  import opened HubAuthority
  import opened HubQueue
  import opened HubOrders
  import Odometer

  // ---- commands ---------------------------------------------------------------------------------

  /** The sender may use the verb: one of the table whose gates are open to it, or an inherited name it sends as
      the holder. */
  predicate Entitled(h: Hub, rig: string, clientId: string, b: Body, now: Time) {
    if b.verb in Table() then Meets(h, rig, clientId, b, Table()[b.verb], now)
    else Inherited(b.verb) && MeetsInherited(h, rig, clientId, b, now)
  }

  predicate Alive(h: Hub, rig: string, now: Time) {
    rig in h.rigs && now - h.rigs[rig].lastSeen < 5000
  }

  lemma StatusMeaning(h: Hub, rig: string, clientId: string, b: Body, v: Verb, now: Time)
    requires rig in h.rigs
    ensures VerbStatus(h.rigs[rig], clientId, b, v, now) ==
            if !Meets(h, rig, clientId, b, v, now) then 403
            else if b.size > MAX_ARGS_BYTES then 413
            else if !Alive(h, rig, now) then 409
            else if |Pending(h, rig)| >= MAX_PENDING then 429
            else 200
  {
    var allowed := if v.args.Some? then v.args.value - v.hubOnly else {};
    assert b.args.Keys <= allowed
      <==> forall key :: key in b.args ==> v.args.Some? && key in v.args.value && key !in v.hubOnly;
  }

  /** Why a command is refused: the rig is unknown, the sender unnamed, not entitled, the arguments too long, the
      rig offline or its queue full, whichever comes first; otherwise it is done. */
  lemma CommandAnswers(d: Design, h: Hub, rig: string, clientId: string, b: Body, now: Time)
    ensures Next(d, h, Event(SendCommand(rig, clientId, b), now)).reply ==
            if rig !in h.rigs then Refused(404)
            else if clientId == "" then Refused(400)
            else if !Entitled(h, rig, clientId, b, now) then Refused(403)
            else if b.size > MAX_ARGS_BYTES then Refused(413)
            else if !Alive(h, rig, now) then Refused(409)
            else if |Pending(h, rig)| >= MAX_PENDING then Refused(429)
            else Done
  {
    if rig in h.rigs && clientId != "" {
      VerbKnown(b.verb);
      var known := VerbOf(b.verb);
      if known.Some? {
        StatusMeaning(h, rig, clientId, b, known.value, now);
        if b.verb !in Table() {
          InheritedMeets(h, rig, clientId, b, now);
        }
      }
    }
  }

  lemma InheritedMeets(h: Hub, rig: string, clientId: string, b: Body, now: Time)
    ensures Meets(h, rig, clientId, b, Verb(Holder, None, {}), now) <==> MeetsInherited(h, rig, clientId, b, now)
  {
    if Meets(h, rig, clientId, b, Verb(Holder, None, {}), now) {
      assert b.args.Keys == {};
    }
  }

  // ---- drive orders -------------------------------------------------------------------------------

  /** What an order that lands is answered. A stop is always done; a drive is refused when the rig is unknown or
      offline, the sender unnamed or not the holder, the leader reported driving another rig, or the rig's queue
      full, whichever comes first. */
  lemma OrderAnswers(d: Design, h: Hub, ticket: nat, dropped: bool, leader: string, order: Order, now: Time)
    requires ticket in h.flights && h.flights[ticket] == OrderFlight(leader, order) && leader in h.leaders
    ensures Next(d, h, Event(Land(ticket, dropped), now)).reply ==
            match order
            case Stop => Done
            case Unknown => Refused(400)
            case Drive(rig, b) =>
              if rig !in h.rigs then Refused(404)
              else if !Alive(h, rig, now) then Refused(409)
              else if b == "" then Refused(400)
              else if Level(h, rig, now) != Some(b) then Refused(403)
              else if h.leaders[leader].driving !in {None, Some(rig)} then Refused(409)
              else if |Pending(h, rig)| >= MAX_PENDING then Refused(429)
              else Done
  {
  }

  // ---- the rest -----------------------------------------------------------------------------------

  /** What a request that arrives may be answered, as far as it names somebody, a known rig or a known leader. */
  predicate AnswersArrival(h: Hub, e: Event, reply: Reply) {
    match e.step
    case Link(rig) => if rig == "" then reply == Refused(400) else reply.Await?
    case Heartbeat(leader, _) => if leader == "" then reply == Refused(400) else reply.Await?
    case LeaderOrder(leader, _) =>
      if leader !in h.leaders then reply == Refused(404)
      else if e.now - h.leaders[leader].lastSeen >= 5000 then reply == Refused(409)
      else reply.Await?
    case Claim(rig, clientId, _) =>
      if rig !in h.rigs then reply == Refused(404) else if clientId == "" then reply == Refused(400) else reply.Claimed?
    case Release(rig, clientId) =>
      if rig !in h.rigs then reply == Refused(404) else if clientId == "" then reply == Refused(400) else reply == Done
    case SendInput(rig, clientId, _) =>
      if rig !in h.rigs then reply == Refused(404) else if clientId == "" then reply == Refused(400)
      else reply.Await? || reply == Refused(403)
    case Message(leader, rig, _) => reply == Ignored || (reply.Await? && rig in h.rigs && leader in h.leaders)
    case _ => true
  }

  /** A request that names nobody, or a rig or leader the hub does not know, is refused as such; so is an order for
      a leader that has gone quiet. */
  lemma UnknownIsRefused(d: Design, h: Hub, e: Event)
    requires !e.step.SendCommand? && !e.step.Land?
    ensures AnswersArrival(h, e, Next(d, h, e).reply)
  {
  }

  /** A link reply names the holder there is: the one whose claim or packet still holds the rig. */
  lemma LinkNamesTheHolder(d: Design, hubs: seq<Hub>, run: seq<Event>, k: nat, ticket: nat, dropped: bool, rig: string, b: string)
    requires Execution(d, hubs, run) && k < |run| && run[k].step == Land(ticket, dropped)
    requires ticket in hubs[k].flights && hubs[k].flights[ticket] == LinkFlight(rig)
    requires Next(d, hubs[k], run[k]).reply.Linked?
    ensures Next(d, hubs[k], run[k]).reply.holder == Some(b) <==> exists w: nat :: LastTouch(hubs, run, rig, run[k].now, w, k, b)
  {
    LeaseMeaning(d, hubs, run, rig, run[k].now, k, b);
  }

  // ---- a refusal changes nothing --------------------------------------------------------------------

  /** The same hub, but for expired leases forgotten and the flight that landed. */
  ghost predicate Unmoved(h: Hub, r: Hub, now: Time) {
    && r.leaders == h.leaders && r.sockets == h.sockets && r.tickets == h.tickets && r.rigs.Keys == h.rigs.Keys
    && (forall t :: t in r.flights ==> t in h.flights && r.flights[t] == h.flights[t])
    && forall name :: name in h.rigs ==> r.rigs[name] == h.rigs[name] || r.rigs[name] == Settled(h.rigs[name], now)
  }

  lemma RefusedLanding(d: Design, h: Hub, ticket: nat, dropped: bool, now: Time)
    requires OnLand(d, h, ticket, dropped, now).reply.Refused?
    ensures Unmoved(h, OnLand(d, h, ticket, dropped, now).hub, now)
  {
    var f := h.flights[ticket];
    assert f.OrderFlight? && f.leader in h.leaders;
    match f.order {
      case Drive(rig, clientId) =>
      case Stop =>
      case Unknown =>
    }
  }

  lemma RefusedVerb(h: Hub, rig: string, clientId: string, b: Body, v: Verb, now: Time)
    requires rig in h.rigs && OnVerb(h, rig, clientId, b, v, now).reply.Refused?
    ensures Unmoved(h, OnVerb(h, rig, clientId, b, v, now).hub, now)
  {
  }

  lemma RefusedOther(d: Design, h: Hub, e: Event)
    requires !e.step.SendCommand? && !e.step.Land? && Next(d, h, e).reply.Refused?
    ensures Unmoved(h, Next(d, h, e).hub, e.now)
  {
  }

  /** Whatever is refused, no binding, queue, mailbox, odometer, order or lease in force is other than before. */
  lemma RefusalChangesNothing(d: Design, h: Hub, e: Event, rig: string, t: Time)
    requires Next(d, h, e).reply.Refused? && e.now <= t
    ensures var r := Next(d, h, e).hub;
            && Unmoved(h, r, e.now) && Level(r, rig, t) == Level(h, rig, t) && Pending(r, rig) == Pending(h, rig)
  {
    match e.step {
      case Land(ticket, dropped) => RefusedLanding(d, h, ticket, dropped, e.now);
      case SendCommand(name, clientId, b) =>
        if name in h.rigs && clientId != "" && VerbOf(b.verb).Some? {
          RefusedVerb(h, name, clientId, b, VerbOf(b.verb).value, e.now);
        }
      case _ => RefusedOther(d, h, e);
    }
  }
}
