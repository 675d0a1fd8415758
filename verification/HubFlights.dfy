/** Requests and the work they leave behind an `await`: what is suspended is what was asked, until
    it lands. */
module HubFlights {
  import opened Prelude
  import opened HubModel
  import opened HubAuthority
  import Mail = HubMail
  import Presence = HubPresence
  import Odometer

  /** What a request asks for. */
  function Asks(s: Step): Option<Flight> {
    match s
    case Link(rig) => Some(LinkFlight(rig))
    case Heartbeat(leader, driving) => Some(BeatFlight(leader, driving))
    case LeaderOrder(leader, order) => Some(OrderFlight(leader, order))
    case SendInput(rig, _, packet) => Some(InputFlight(rig, packet))
    case Message(_, rig, joints) => Some(SocketFlight(rig, Odometer.Input(None, Some(joints))))
    case _ => None
  }

  predicate Opens(h: Hub, e: Event, out: Outcome) {
    && Asks(e.step).Some? && out.reply == Await(h.tickets)
    && out.hub.flights == h.flights[h.tickets := Asks(e.step).value] && out.hub.tickets == h.tickets + 1
  }

  lemma InputOpens(h: Hub, rig: string, clientId: string, packet: Odometer.Input, now: Time)
    ensures var out := OnInput(h, rig, clientId, packet, now);
            if out.reply.Await? then Opens(h, Event(SendInput(rig, clientId, packet), now), out)
            else out.hub.flights == h.flights && out.hub.tickets == h.tickets
  {
  }

  lemma MessageOpens(h: Hub, leader: string, rig: string, joints: Odometer.Vector, now: Time)
    ensures var out := OnMessage(h, leader, rig, joints, now);
            if out.reply.Await? then Opens(h, Event(Message(leader, rig, joints), now), out)
            else out.hub.flights == h.flights && out.hub.tickets == h.tickets
  {
  }

  lemma ArrivalOpens(d: Design, h: Hub, e: Event)
    requires e.step.Link? || e.step.Heartbeat? || e.step.LeaderOrder?
    ensures var out := Next(d, h, e);
            if out.reply.Await? then Opens(h, e, out) else out.hub.flights == h.flights && out.hub.tickets == h.tickets
  {
  }

  /** A reply that is still to come has suspended exactly what was asked; any other request or
      step suspends nothing. */
  lemma AwaitOpens(d: Design, h: Hub, e: Event)
    requires !e.step.Land?
    ensures var out := Next(d, h, e);
            if out.reply.Await? then Opens(h, e, out) else out.hub.flights == h.flights && out.hub.tickets == h.tickets
  {
    match e.step {
      case SendInput(rig, clientId, packet) => InputOpens(h, rig, clientId, packet, e.now);
      case Message(leader, rig, joints) => MessageOpens(h, leader, rig, joints, e.now);
      case SendCommand(rig, clientId, b) =>
        if rig in h.rigs && VerbOf(b.verb).Some? {
          Mail.VerbPosts(h, rig, clientId, b, VerbOf(b.verb).value, e.now);
        }
      case Link(_) => ArrivalOpens(d, h, e);
      case Heartbeat(_, _) => ArrivalOpens(d, h, e);
      case LeaderOrder(_, _) => ArrivalOpens(d, h, e);
      case _ => Mail.LeasePosts(d, h, e);
    }
  }

  /** Only its own landing takes a flight down. */
  lemma FlightStays(d: Design, h: Hub, e: Event, ticket: nat)
    requires Mail.Ticketed(h) && ticket in h.flights && !(e.step.Land? && e.step.ticket == ticket)
    ensures var next := Next(d, h, e).hub; ticket in next.flights && next.flights[ticket] == h.flights[ticket]
  {
    if e.step.Land? {
      if e.step.ticket in h.flights {
        Mail.LandPosts(d, h, e.step.ticket, e.step.dropped, e.now);
      }
    } else {
      AwaitOpens(d, h, e);
    }
  }

  /** The request at `i` was told to wait under `ticket`, and nothing has landed it before `s`. */
  ghost predicate Suspended(d: Design, hubs: seq<Hub>, run: seq<Event>, i: nat, s: nat, ticket: nat)
    requires i < s <= |run| < |hubs|
  {
    && Next(d, hubs[i], run[i]).reply == Await(ticket)
    && forall m :: i < m < s ==> !(run[m].step.Land? && run[m].step.ticket == ticket)
  }

  /** What lands is what was asked: a suspended request is carried unchanged until its landing,
      whatever happens meanwhile. */
  lemma {:induction false} LandsAsAsked(d: Design, hubs: seq<Hub>, run: seq<Event>, i: nat, s: nat, ticket: nat)
    requires Execution(d, hubs, run) && i < s <= |run| && Suspended(d, hubs, run, i, s, ticket)
    ensures ticket in hubs[s].flights && Some(hubs[s].flights[ticket]) == Asks(run[i].step)
    decreases s
  {
    var p: nat := s - 1;
    assert hubs[p + 1] == Next(d, hubs[p], run[p]).hub;
    if p == i {
      NoAwaitOnLanding(d, hubs[i], run[i]);
      AwaitOpens(d, hubs[i], run[i]);
    } else {
      LandsAsAsked(d, hubs, run, i, p, ticket);
      Mail.AlwaysTicketed(d, hubs, run, p);
      FlightStays(d, hubs[p], run[p], ticket);
    }
  }

  lemma NoAwaitOnLanding(d: Design, h: Hub, e: Event)
    requires Next(d, h, e).reply.Await?
    ensures !e.step.Land?
  {
  }

  /** An order for a leader is taken exactly while the leader's own heartbeats are younger than 5 s. */
  lemma OrderTakenExactlyWhen(d: Design, hubs: seq<Hub>, run: seq<Event>, i: nat, leader: string, order: Order)
    requires Execution(d, hubs, run) && i < |run| && run[i].step == LeaderOrder(leader, order)
    ensures Next(d, hubs[i], run[i]).reply.Await?
            <==> exists w: nat :: Presence.LastBeat(run, leader, w, i) && run[i].now - run[w].now < RIG_TTL
  {
    if leader in hubs[i].leaders {
      var w := Presence.KnownLeaderBeat(d, hubs, run, leader, i);
      Presence.LastBeatDecides(d, hubs, run, leader, w, i);
      forall v: nat | Presence.LastBeat(run, leader, v, i)
        ensures v == w
      {
      }
    }
    forall v: nat | Presence.LastBeat(run, leader, v, i)
      ensures leader in hubs[i].leaders
    {
      Presence.LastBeatDecides(d, hubs, run, leader, v, i);
    }
  }
}
