/**
 Input packets between the authority check and the rig: the mailbox, which the rig's link
 empties, and the rig's socket. A packet is followed by the ticket of its arrival.
 */
module HubMail {
  import opened Prelude
  import opened HubModel
  import HubQueue
  import Authority = HubAuthority
  import Odometer

  /** The packet a flight carries, for its rig. */
  predicate Carries(f: Flight, rig: string, packet: Odometer.Input) {
    f == InputFlight(rig, packet) || f == SocketFlight(rig, packet)
  }

  /** The packet this reply hands to a rig. */
  function Delivered(reply: Reply): Option<Post> {
    match reply
    case Linked(input, _, _) => input
    case Sent(post) => Some(post)
    case _ => None
  }

  predicate Delivers(d: Design, h: Hub, e: Event, ticket: nat) {
    var post := Delivered(Next(d, h, e).reply);
    post.Some? && post.value.ticket == ticket
  }

  /** Tickets name arrivals: those in flight and those in a mailbox are distinct. */
  ghost predicate Ticketed(h: Hub) {
    && "" !in h.rigs
    && (forall id :: id in h.flights ==> id < h.tickets)
    && (forall r :: r in h.rigs && h.rigs[r].input.Some? ==>
          h.rigs[r].input.value.ticket < h.tickets && h.rigs[r].input.value.ticket !in h.flights)
    && (forall r, q :: r in h.rigs && q in h.rigs && r != q && h.rigs[r].input.Some? && h.rigs[q].input.Some? ==>
          h.rigs[r].input.value.ticket != h.rigs[q].input.value.ticket)
  }

  /** The packet of this ticket has left its handler. */
  predicate Landed(h: Hub, ticket: nat) {
    ticket < h.tickets && ticket !in h.flights
  }

  /** ... and is in no mailbox either: it cannot be delivered any more. */
  ghost predicate Gone(h: Hub, ticket: nat) {
    && Landed(h, ticket)
    && forall r :: r in h.rigs && h.rigs[r].input.Some? ==> h.rigs[r].input.value.ticket != ticket
  }

  // ---- what one step does to mailboxes --------------------------------------------------------------

  /** Nothing was posted: mailboxes are as before, or emptied. */
  ghost predicate NoPost(h: Hub, next: Hub) {
    forall r :: r in next.rigs ==> KeepsMail(h, next, r)
  }

  predicate KeepsMail(h: Hub, next: Hub, r: string)
    requires r in next.rigs
  {
    && (r in h.rigs || r != "")
    && (next.rigs[r].input.Some? ==> r in h.rigs && next.rigs[r].input == h.rigs[r].input)
  }

  predicate SameFlights(h: Hub, next: Hub) {
    next.tickets == h.tickets && next.flights == h.flights
  }

  /** At most one flight was added, under the next ticket. */
  ghost predicate FlightsGrow(h: Hub, next: Hub) {
    || SameFlights(h, next)
    || (next.tickets == h.tickets + 1
        && forall id :: id in next.flights && id != h.tickets ==> id in h.flights && next.flights[id] == h.flights[id])
  }

  lemma VerbPosts(h: Hub, rig: string, clientId: string, b: Body, v: Verb, now: Time)
    requires rig in h.rigs
    ensures var next := OnVerb(h, rig, clientId, b, v, now).hub; NoPost(h, next) && SameFlights(h, next)
  {
  }

  lemma AskPosts(h: Hub, l: Leader, driving: Option<string>, now: Time)
    ensures var next := AskBound(h, l, driving, now); NoPost(h, next) && SameFlights(h, next)
  {
  }

  lemma BeatPosts(h: Hub, leader: string, driving: Option<string>, now: Time)
    ensures var next := LandBeat(h, leader, driving, now).hub; NoPost(h, next) && SameFlights(h, next)
  {
    if leader in h.leaders {
      var l := h.leaders[leader];
      AskPosts(h, l, driving, now);
      AskPosts(AskBound(h, l, driving, now), l, None, now);
    }
  }

  lemma OrderPosts(h: Hub, leader: string, order: Order, now: Time)
    ensures var next := LandOrder(h, leader, order, now).hub; NoPost(h, next) && SameFlights(h, next)
  {
    if leader in h.leaders {
      match order {
        case Drive(rig, clientId) =>
          var next := LandDrive(h, leader, rig, clientId, now).hub;
          assert NoPost(h, next) && SameFlights(h, next);
        case Stop =>
          var next := LandStop(h, leader, now).hub;
          assert NoPost(h, next) && SameFlights(h, next);
        case Unknown =>
      }
    }
  }

  lemma InputPosts(h: Hub, rig: string, clientId: string, packet: Odometer.Input, now: Time)
    ensures var next := OnInput(h, rig, clientId, packet, now).hub; NoPost(h, next) && FlightsGrow(h, next)
  {
  }

  lemma MessagePosts(h: Hub, leader: string, rig: string, joints: Odometer.Vector, now: Time)
    ensures var next := OnMessage(h, leader, rig, joints, now).hub; NoPost(h, next) && FlightsGrow(h, next)
  {
  }

  lemma ArrivalPosts(d: Design, h: Hub, e: Event)
    requires e.step.Link? || e.step.Heartbeat? || e.step.LeaderOrder?
    ensures var next := Next(d, h, e).hub; NoPost(h, next) && FlightsGrow(h, next)
  {
    match e.step {
      case Link(rig) => assert NoPost(h, OnLink(h, rig, e.now).hub);
      case _ =>
    }
  }

  lemma LeasePosts(d: Design, h: Hub, e: Event)
    requires e.step.Claim? || e.step.Release? || e.step.Open? || e.step.Close? || e.step.SetCeiling? || e.step.Revoke?
    ensures var next := Next(d, h, e).hub; NoPost(h, next) && SameFlights(h, next)
  {
  }

  /** Only a landing posts. */
  lemma OnlyLandingPosts(d: Design, h: Hub, e: Event)
    requires !e.step.Land?
    ensures var next := Next(d, h, e).hub; NoPost(h, next) && FlightsGrow(h, next)
  {
    match e.step {
      case SendCommand(rig, clientId, b) =>
        if rig in h.rigs && VerbOf(b.verb).Some? {
          VerbPosts(h, rig, clientId, b, VerbOf(b.verb).value, e.now);
        }
      case SendInput(rig, clientId, packet) => InputPosts(h, rig, clientId, packet, e.now);
      case Message(leader, rig, joints) => MessagePosts(h, leader, rig, joints, e.now);
      case Link(_) => ArrivalPosts(d, h, e);
      case Heartbeat(_, _) => ArrivalPosts(d, h, e);
      case LeaderOrder(_, _) => ArrivalPosts(d, h, e);
      case _ => LeasePosts(d, h, e);
    }
  }

  /** `rig` got a new packet in its mailbox, and nobody else did. */
  ghost predicate Posts(h: Hub, next: Hub, rig: string, post: Post) {
    && rig in h.rigs && rig in next.rigs && next.rigs[rig].input == Some(post)
    && forall r :: r in next.rigs && r != rig ==> KeepsMail(h, next, r)
  }

  /** A landing takes its flight down and posts at most its own packet, to its own rig, stamped
      with the time of landing. */
  ghost predicate PostsOwn(h: Hub, next: Hub, ticket: nat, dropped: bool, now: Time)
    requires ticket in h.flights
  {
    && next.flights == h.flights - {ticket} && next.tickets == h.tickets
    && match h.flights[ticket]
       case InputFlight(rig, packet) =>
         NoPost(h, next) || (!dropped && Posts(h, next, rig, Post(Mail(packet), now, ticket)))
       case SocketFlight(rig, packet) =>
         NoPost(h, next) || (!dropped && Posts(h, next, rig, Post(Mail(packet), now, ticket)))
       case _ => NoPost(h, next)
  }

  lemma PacketPosts(d: Design, h: Hub, ticket: nat, rig: string, packet: Odometer.Input, dropped: bool, now: Time)
    ensures var next := LandInput(h, ticket, rig, packet, dropped, now).hub;
            SameFlights(h, next)
            && (NoPost(h, next) || (!dropped && Posts(h, next, rig, Post(Mail(packet), now, ticket))))
    ensures var next := LandMessage(d, h, ticket, rig, packet, dropped, now).hub;
            SameFlights(h, next)
            && (NoPost(h, next) || (!dropped && Posts(h, next, rig, Post(Mail(packet), now, ticket))))
  {
  }

  lemma LinkPosts(h: Hub, rig: string, now: Time)
    ensures var next := LandLink(h, rig, now).hub; SameFlights(h, next) && NoPost(h, next)
  {
  }

  lemma LandPosts(d: Design, h: Hub, ticket: nat, dropped: bool, now: Time)
    requires ticket in h.flights
    ensures PostsOwn(h, OnLand(d, h, ticket, dropped, now).hub, ticket, dropped, now)
  {
    var landed := h.(flights := h.flights - {ticket});
    match h.flights[ticket] {
      case BeatFlight(leader, driving) => BeatPosts(landed, leader, driving, now);
      case OrderFlight(leader, order) => OrderPosts(landed, leader, order, now);
      case LinkFlight(rig) => LinkPosts(landed, rig, now);
      case InputFlight(rig, packet) => PacketPosts(d, landed, ticket, rig, packet, dropped, now);
      case SocketFlight(rig, packet) => PacketPosts(d, landed, ticket, rig, packet, dropped, now);
    }
  }

  lemma StepTickets(d: Design, h: Hub, e: Event)
    requires Ticketed(h)
    ensures Ticketed(Next(d, h, e).hub)
  {
    if e.step.Land? {
      if e.step.ticket in h.flights {
        LandPosts(d, h, e.step.ticket, e.step.dropped, e.now);
      }
    } else {
      OnlyLandingPosts(d, h, e);
    }
  }

  /** What has landed stays landed; what is gone stays gone. */
  lemma GoneForGood(d: Design, h: Hub, e: Event, ticket: nat)
    requires Ticketed(h)
    ensures Landed(h, ticket) ==> Landed(Next(d, h, e).hub, ticket)
    ensures Gone(h, ticket) ==> Gone(Next(d, h, e).hub, ticket)
  {
    if e.step.Land? {
      if e.step.ticket in h.flights {
        LandPosts(d, h, e.step.ticket, e.step.dropped, e.now);
      }
    } else {
      OnlyLandingPosts(d, h, e);
    }
  }

  // ---- what a delivery leaves behind ----------------------------------------------------------------

  /** Replies that deliver come from two landings only. */
  lemma DeliveryKinds(d: Design, h: Hub, e: Event, ticket: nat)
    requires Delivers(d, h, e, ticket)
    ensures e.step.Land? && e.step.ticket in h.flights
    ensures h.flights[e.step.ticket].LinkFlight? || h.flights[e.step.ticket].SocketFlight?
    ensures h.flights[e.step.ticket].SocketFlight? <==> Next(d, h, e).reply.Sent?
    ensures Next(d, h, e).reply.Sent? ==> ticket == e.step.ticket
  {
  }

  lemma LinkEmpties(h: Hub, rig: string, now: Time, ticket: nat)
    requires Ticketed(h) && rig in h.rigs
    requires h.rigs[rig].input.Some? && h.rigs[rig].input.value.ticket == ticket
    ensures Landed(h, ticket) && !Gone(h, ticket) && Gone(LandLink(h, rig, now).hub, ticket)
  {
  }

  /** A packet that a link reply carried is gone; one that a socket carried has landed, and is
      gone too if the handler keeps it out of the mailbox. */
  lemma DeliveryEnds(d: Design, h: Hub, e: Event, ticket: nat)
    requires Ticketed(h) && Delivers(d, h, e, ticket)
    ensures !Gone(h, ticket)
    ensures var out := Next(d, h, e);
            if out.reply.Linked? then Landed(h, ticket) && Gone(out.hub, ticket)
            else !Landed(h, ticket) && Landed(out.hub, ticket) && (d == Described ==> Gone(out.hub, ticket))
  {
    DeliveryKinds(d, h, e, ticket);
    var landed := h.(flights := h.flights - {e.step.ticket});
    match h.flights[e.step.ticket] {
      case LinkFlight(rig) =>
        assert Ticketed(landed);
        LinkEmpties(landed, rig, e.now, ticket);
      case SocketFlight(rig, packet) =>
        assert d == Described ==> LandMessage(d, landed, ticket, rig, packet, e.step.dropped, e.now).hub == landed;
      case _ =>
    }
  }

  // ---- over whole runs ------------------------------------------------------------------------------

  lemma {:induction false} AlwaysTicketed(d: Design, hubs: seq<Hub>, run: seq<Event>, k: nat)
    requires Execution(d, hubs, run) && k <= |run|
    ensures Ticketed(hubs[k])
  {
    if k > 0 {
      var i := k - 1;
      AlwaysTicketed(d, hubs, run, i);
      StepTicketsTo(d, hubs[i], run[i], hubs[i + 1]);
    }
  }

  lemma StepTicketsTo(d: Design, h: Hub, e: Event, next: Hub)
    requires Ticketed(h) && next == Next(d, h, e).hub
    ensures Ticketed(next)
    ensures forall ticket :: (Landed(h, ticket) ==> Landed(next, ticket)) && (Gone(h, ticket) ==> Gone(next, ticket))
  {
    StepTickets(d, h, e);
    forall ticket: nat
      ensures (Landed(h, ticket) ==> Landed(next, ticket)) && (Gone(h, ticket) ==> Gone(next, ticket))
    {
      GoneForGood(d, h, e, ticket);
    }
  }

  lemma {:induction false} StaysGone(d: Design, hubs: seq<Hub>, run: seq<Event>, j: nat, k: nat, ticket: nat)
    requires Execution(d, hubs, run) && j <= k <= |run|
    ensures Landed(hubs[j], ticket) ==> Landed(hubs[k], ticket)
    ensures Gone(hubs[j], ticket) ==> Gone(hubs[k], ticket)
    decreases k
  {
    if j < k {
      var i := k - 1;
      StaysGone(d, hubs, run, j, i, ticket);
      AlwaysTicketed(d, hubs, run, i);
      StepTicketsTo(d, hubs[i], run[i], hubs[i + 1]);
    }
  }

  lemma DeliveryEndsAt(d: Design, hubs: seq<Hub>, run: seq<Event>, k: nat, ticket: nat)
    requires Execution(d, hubs, run) && k < |run| && Delivers(d, hubs[k], run[k], ticket)
    ensures !Gone(hubs[k], ticket)
    ensures var reply := Next(d, hubs[k], run[k]).reply;
            if reply.Linked? then Landed(hubs[k], ticket) && Gone(hubs[k + 1], ticket)
            else reply.Sent? && !Landed(hubs[k], ticket) && Landed(hubs[k + 1], ticket)
                 && (d == Described ==> Gone(hubs[k + 1], ticket))
  {
    AlwaysTicketed(d, hubs, run, k);
    DeliveryEnds(d, hubs[k], run[k], ticket);
    assert hubs[k + 1] == Next(d, hubs[k], run[k]).hub;
  }

  /** No packet reaches a rig twice over the same transport. It reaches the rig twice at all
      only with the handler as written, over the socket first and in a link reply afterwards. */
  lemma DeliveredTwice(d: Design, hubs: seq<Hub>, run: seq<Event>, j: nat, k: nat, ticket: nat)
    requires Execution(d, hubs, run) && j < k < |run|
    requires Delivers(d, hubs[j], run[j], ticket) && Delivers(d, hubs[k], run[k], ticket)
    ensures d == Written && Next(d, hubs[j], run[j]).reply.Sent? && Next(d, hubs[k], run[k]).reply.Linked?
  {
    DeliveryEndsAt(d, hubs, run, j, ticket);
    LaterDelivery(d, hubs, run, j + 1, k, ticket);
  }

  /** What a delivery at `k` says about the state at an earlier point `j`. */
  lemma LaterDelivery(d: Design, hubs: seq<Hub>, run: seq<Event>, j: nat, k: nat, ticket: nat)
    requires Execution(d, hubs, run) && j <= k < |run| && Delivers(d, hubs[k], run[k], ticket)
    ensures !Gone(hubs[j], ticket)
    ensures Landed(hubs[j], ticket) ==> Next(d, hubs[k], run[k]).reply.Linked?
  {
    DeliveryEndsAt(d, hubs, run, k, ticket);
    StaysGone(d, hubs, run, j, k, ticket);
  }

  /** With the handler its own header describes, every packet reaches the rig at most once. */
  lemma DescribedHandlerDeliversOnce(hubs: seq<Hub>, run: seq<Event>, j: nat, k: nat, ticket: nat)
    requires Execution(Described, hubs, run) && j < |run| && k < |run|
    requires Delivers(Described, hubs[j], run[j], ticket) && Delivers(Described, hubs[k], run[k], ticket)
    ensures j == k
  {
    if j < k {
      DeliveredTwice(Described, hubs, run, j, k, ticket);
    } else if k < j {
      DeliveredTwice(Described, hubs, run, k, j, ticket);
    }
  }

  ghost predicate ArrivesTwice(hubs: seq<Hub>, run: seq<Event>, ticket: nat)
    requires |hubs| == |run| + 1
  {
    exists j: nat, k: nat ::
      j < k < |run| && Delivers(Written, hubs[j], run[j], ticket) && Delivers(Written, hubs[k], run[k], ticket)
  }

  /** Some continuation of the run delivers the packet twice. */
  ghost predicate CanArriveTwice(hubs: seq<Hub>, run: seq<Event>, ticket: nat) {
    exists longer: seq<Hub>, further: seq<Event> ::
      Execution(Written, longer, further) && hubs <= longer && run <= further && ArrivesTwice(longer, further, ticket)
  }

  /** With the handler as written, a packet can reach the rig twice if and only if, when it
      lands, the rig is online with a socket open. */
  lemma TwiceExactlyWhen(hubs: seq<Hub>, run: seq<Event>, n: nat, ticket: nat, rig: string, packet: Odometer.Input)
    requires Execution(Written, hubs, run) && |run| == n + 1 && run[n].step == Land(ticket, false)
    requires ticket in hubs[n].flights && hubs[n].flights[ticket] == SocketFlight(rig, packet)
    ensures CanArriveTwice(hubs, run, ticket) <==> SocketUp(hubs[n], rig, run[n].now)
  {
    if CanArriveTwice(hubs, run, ticket) {
      TwiceNeedsSocket(hubs, run, n, ticket, rig, packet);
    }
    if SocketUp(hubs[n], rig, run[n].now) {
      SocketAllowsTwice(hubs, run, n, ticket, rig, packet);
    }
  }

  lemma TwiceNeedsSocket(hubs: seq<Hub>, run: seq<Event>, n: nat, ticket: nat, rig: string, packet: Odometer.Input)
    requires |hubs| == |run| + 1 && |run| == n + 1 && run[n].step == Land(ticket, false)
    requires ticket in hubs[n].flights && hubs[n].flights[ticket] == SocketFlight(rig, packet)
    requires CanArriveTwice(hubs, run, ticket)
    ensures SocketUp(hubs[n], rig, run[n].now)
  {
    var longer, further :| Execution(Written, longer, further) && hubs <= longer && run <= further
      && ArrivesTwice(longer, further, ticket);
    assert longer[n] == hubs[n] && further[n] == run[n];
    SentOnceAlready(longer, further, n, ticket, rig, packet);
  }

  lemma SentOnceAlready(hubs: seq<Hub>, run: seq<Event>, n: nat, ticket: nat, rig: string, packet: Odometer.Input)
    requires Execution(Written, hubs, run) && n < |run| && run[n].step == Land(ticket, false)
    requires ticket in hubs[n].flights && hubs[n].flights[ticket] == SocketFlight(rig, packet)
    requires ArrivesTwice(hubs, run, ticket)
    ensures SocketUp(hubs[n], rig, run[n].now)
  {
    var j: nat, k: nat :| j < k < |run| && Delivers(Written, hubs[j], run[j], ticket) && Delivers(Written, hubs[k], run[k], ticket);
    DeliveredTwice(Written, hubs, run, j, k, ticket);
    SentOnlyAtLanding(Written, hubs, run, n, j, ticket);
    SentMeansUp(Written, hubs[n], run[n], rig, packet);
  }

  lemma SentOnlyAtLanding(d: Design, hubs: seq<Hub>, run: seq<Event>, n: nat, j: nat, ticket: nat)
    requires Execution(d, hubs, run) && n < |run| && j < |run|
    requires run[n].step == Land(ticket, false) && ticket in hubs[n].flights
    requires Delivers(d, hubs[j], run[j], ticket) && Next(d, hubs[j], run[j]).reply.Sent?
    ensures j == n
  {
    DeliveryEndsAt(d, hubs, run, j, ticket);
    if j < n {
      StaysGone(d, hubs, run, j + 1, n, ticket);
    } else if n < j {
      AlwaysTicketed(d, hubs, run, n);
      LandingLands(d, hubs[n], run[n]);
      assert hubs[n + 1] == Next(d, hubs[n], run[n]).hub;
      StaysGone(d, hubs, run, n + 1, j, ticket);
    }
  }

  lemma LandingLands(d: Design, h: Hub, e: Event)
    requires e.step.Land? && e.step.ticket in h.flights
    ensures e.step.ticket < h.tickets ==> Landed(Next(d, h, e).hub, e.step.ticket)
  {
    LandPosts(d, h, e.step.ticket, e.step.dropped, e.now);
  }

  lemma SentMeansUp(d: Design, h: Hub, e: Event, rig: string, packet: Odometer.Input)
    requires e.step.Land? && e.step.ticket in h.flights && h.flights[e.step.ticket] == SocketFlight(rig, packet)
    ensures Next(d, h, e).reply.Sent? <==> SocketUp(h, rig, e.now) && !e.step.dropped
  {
  }

  /** After a socket delivery the rig's next link reply hands the packet over again. */
  lemma LinkFollows(h: Hub, ticket: nat, rig: string, packet: Odometer.Input, now: Time)
    requires Ticketed(h) && ticket in h.flights && h.flights[ticket] == SocketFlight(rig, packet)
    requires SocketUp(h, rig, now)
    ensures var h1 := Next(Written, h, Event(Land(ticket, false), now)).hub;
            var h2 := Next(Written, h1, Event(Link(rig), now)).hub;
            && Delivers(Written, h, Event(Land(ticket, false), now), ticket)
            && Delivers(Written, h2, Event(Land(h1.tickets, false), now), ticket)
  {
    var h1 := Next(Written, h, Event(Land(ticket, false), now)).hub;
    var post := Post(Mail(packet), now, ticket);
    assert rig in h1.rigs && h1.rigs[rig].input == Some(post);
    var h2 := Next(Written, h1, Event(Link(rig), now)).hub;
    assert h2.flights[h1.tickets] == LinkFlight(rig) && h2.rigs[rig].input == Some(post);
    LinkHandsOver(Written, h2, h1.tickets, rig, post, now);
  }

  lemma LinkHandsOver(d: Design, h: Hub, id: nat, rig: string, post: Post, now: Time)
    requires id in h.flights && h.flights[id] == LinkFlight(rig) && rig in h.rigs
    requires h.rigs[rig].input == Some(post) && now - post.at < INPUT_TTL
    ensures Delivered(Next(d, h, Event(Land(id, false), now)).reply) == Some(post)
  {
  }

  lemma ExtendByTwo(d: Design, hubs: seq<Hub>, run: seq<Event>, e: Event, f: Event, h: Hub, g: Hub)
    requires Execution(d, hubs, run) && run != [] && run[|run| - 1].now <= e.now <= f.now
    requires h == Next(d, hubs[|run|], e).hub && g == Next(d, h, f).hub
    ensures Execution(d, hubs + [h] + [g], run + [e] + [f])
  {
    ExtendExecution(d, hubs, run, e, h);
    ExtendExecution(d, hubs + [h], run + [e], f, g);
  }

  lemma SocketAllowsTwice(hubs: seq<Hub>, run: seq<Event>, n: nat, ticket: nat, rig: string, packet: Odometer.Input)
    requires Execution(Written, hubs, run) && |run| == n + 1 && run[n].step == Land(ticket, false)
    requires ticket in hubs[n].flights && hubs[n].flights[ticket] == SocketFlight(rig, packet)
    requires SocketUp(hubs[n], rig, run[n].now)
    ensures CanArriveTwice(hubs, run, ticket)
  {
    AlwaysTicketed(Written, hubs, run, n);
    LinkFollows(hubs[n], ticket, rig, packet, run[n].now);
    var h1, h2, h3, f := LinkEvents(hubs, run, n, ticket, rig);
    AppendTwice(hubs, run, n, ticket, Event(Link(rig), run[n].now), f, h2, h3);
  }

  lemma AppendTwice(hubs: seq<Hub>, run: seq<Event>, n: nat, ticket: nat, e: Event, f: Event, h: Hub, g: Hub)
    requires Execution(Written, hubs, run) && |run| == n + 1 && run[n].now <= e.now <= f.now
    requires h == Next(Written, hubs[n + 1], e).hub && g == Next(Written, h, f).hub
    requires Delivers(Written, hubs[n], run[n], ticket) && Delivers(Written, h, f, ticket)
    ensures CanArriveTwice(hubs, run, ticket)
  {
    ExtendByTwo(Written, hubs, run, e, f, h, g);
    var longer, further := hubs + [h] + [g], run + [e] + [f];
    assert longer[n] == hubs[n] && further[n] == run[n] && longer[n + 2] == h && further[n + 2] == f;
    assert ArrivesTwice(longer, further, ticket);
    assert hubs <= longer && run <= further;
  }

  lemma LinkEvents(hubs: seq<Hub>, run: seq<Event>, n: nat, ticket: nat, rig: string)
    returns (h1: Hub, h2: Hub, h3: Hub, f: Event)
    requires Execution(Written, hubs, run) && |run| == n + 1 && run[n].step == Land(ticket, false)
    ensures h1 == hubs[n + 1] == Next(Written, hubs[n], Event(Land(ticket, false), run[n].now)).hub
    ensures h2 == Next(Written, h1, Event(Link(rig), run[n].now)).hub
    ensures f == Event(Land(h1.tickets, false), run[n].now) && h3 == Next(Written, h2, f).hub
  {
    h1 := hubs[n + 1];
    assert h1 == Next(Written, hubs[n], run[n]).hub;
    h2 := Next(Written, h1, Event(Link(rig), run[n].now)).hub;
    f := Event(Land(h1.tickets, false), run[n].now);
    h3 := Next(Written, h2, f).hub;
  }

  // ---- such a run ---------------------------------------------------------------------------------

  const DRIVE := Event(LeaderOrder("l", Drive("r", "a")), 0)
  const DRIVEN := Event(Land(2, false), 0)
  const OPEN := Event(Open("r", 0), 0)
  const MESSAGE := Event(Message("l", "r", []), 0)
  const ARRIVAL := Event(Land(3, false), 0)

  /** A rig held by `a`, lent to the leader `l`. */
  predicate Lent(h: Hub) {
    && "r" in h.rigs && "l" in h.leaders && h.tickets == 3
    && h.rigs["r"].lastSeen == 0 && HolderAt(h.rigs["r"], 0) == Some("a")
    && h.leaders["l"].rig == Some("r") && h.leaders["l"].boundTo == Some("a")
  }

  lemma DriveLends(d: Design)
    ensures Lent(Next(d, Next(d, HubQueue.Crowded(0), DRIVE).hub, DRIVEN).hub)
  {
    var h := Next(d, HubQueue.Crowded(0), DRIVE).hub;
    assert h.flights[2] == OrderFlight("l", Drive("r", "a"));
    assert h.rigs == HubQueue.Crowded(0).rigs && h.leaders == HubQueue.Crowded(0).leaders;
    assert DriveStatus(h, h.leaders["l"], "r", "a", 0) == 200;
  }

  lemma MessageFlies(d: Design, h: Hub)
    requires Lent(h)
    ensures var next := Next(d, Next(d, h, OPEN).hub, MESSAGE).hub;
            && 3 in next.flights && next.flights[3] == SocketFlight("r", Odometer.Input(None, Some([])))
            && SocketUp(next, "r", 0)
  {
  }

  lemma SocketRun() returns (hubs: seq<Hub>, run: seq<Event>)
    ensures Execution(Written, hubs, run) && run != [] && run[|run| - 1] == ARRIVAL
    ensures var h := hubs[|run| - 1];
            && 3 in h.flights && h.flights[3] == SocketFlight("r", Odometer.Input(None, Some([])))
            && SocketUp(h, "r", 0)
  {
    hubs, run := HubQueue.CrowdBegins(Written);
    DriveLends(Written);
    var h2;
    hubs, run, h2 := AddTwo(hubs, run, DRIVE, DRIVEN);
    hubs, run := SocketArrival(hubs, run);
  }

  lemma SocketArrival(hubs: seq<Hub>, run: seq<Event>) returns (longer: seq<Hub>, further: seq<Event>)
    requires Execution(Written, hubs, run) && run != [] && run[|run| - 1].now <= 0 && Lent(hubs[|run|])
    ensures Execution(Written, longer, further) && further != [] && further[|further| - 1] == ARRIVAL
    ensures var h := longer[|further| - 1];
            && 3 in h.flights && h.flights[3] == SocketFlight("r", Odometer.Input(None, Some([])))
            && SocketUp(h, "r", 0)
  {
    MessageFlies(Written, hubs[|run|]);
    var h4;
    longer, further, h4 := AddTwo(hubs, run, OPEN, MESSAGE);
    var h5 := Next(Written, h4, ARRIVAL).hub;
    ExtendExecution(Written, longer, further, ARRIVAL, h5);
    longer, further := longer + [h5], further + [ARRIVAL];
  }

  lemma AddTwo(hubs: seq<Hub>, run: seq<Event>, e: Event, f: Event)
    returns (longer: seq<Hub>, further: seq<Event>, last: Hub)
    requires Execution(Written, hubs, run) && run != [] && run[|run| - 1].now <= e.now <= f.now
    ensures Execution(Written, longer, further) && further == run + [e] + [f] && last == longer[|further|]
    ensures last == Next(Written, Next(Written, hubs[|run|], e).hub, f).hub
  {
    var h := Next(Written, hubs[|run|], e).hub;
    last := Next(Written, h, f).hub;
    ExtendByTwo(Written, hubs, run, e, f, h, last);
    longer, further := hubs + [h] + [last], run + [e] + [f];
  }

  /** From the empty hub, with the handler as written, a packet does reach a rig twice. */
  lemma SomePacketArrivesTwice()
    ensures exists hubs: seq<Hub>, run: seq<Event>, ticket: nat ::
              Execution(Written, hubs, run) && ArrivesTwice(hubs, run, ticket)
  {
    var hubs, run := SocketRun();
    SocketAllowsTwice(hubs, run, |run| - 1, 3, "r", Odometer.Input(None, Some([])));
    var longer, further :| Execution(Written, longer, further) && hubs <= longer && run <= further
      && ArrivesTwice(longer, further, 3);
  }

  // ---- where a delivered packet comes from ------------------------------------------------------------

  /** The packet offered here for `rig` passes the authority check: it is a leader's, lent this
      rig by the browser that holds it, or the holder's own. */
  ghost predicate Authorized(h: Hub, e: Event, rig: string, packet: Odometer.Input) {
    match e.step
    case SendInput(name, clientId, p) =>
      && name == rig && p == packet && clientId != ""
      && (Authority.IsBrowser(h, clientId) ==> Authority.Level(h, rig, e.now) == Some(clientId))
      && (forall leader :: Authority.Names(h, clientId, leader) ==> LentByHolder(h, leader, rig, e.now))
    case Message(leader, name, joints) =>
      name == rig && packet == Odometer.Input(None, Some(joints)) && LentByHolder(h, leader, rig, e.now)
    case _ => false
  }

  /** The browser that holds the rig has lent it to this leader. */
  ghost predicate LentByHolder(h: Hub, leader: string, rig: string, now: Time) {
    exists b :: Authority.Binding(h, leader) == Some((b, rig)) && Authority.Level(h, rig, now) == Some(b)
  }

  lemma AwaitIsAuthorized(d: Design, h: Hub, e: Event, rig: string, packet: Odometer.Input)
    requires Next(d, h, e).reply.Await?
    requires e.step.SendInput? ==> e.step.rig == rig && e.step.packet == packet
    requires e.step.Message? ==> e.step.rig == rig && packet == Odometer.Input(None, Some(e.step.joints))
    requires e.step.SendInput? || e.step.Message?
    ensures Authorized(h, e, rig, packet)
  {
    match e.step {
      case Message(leader, _, _) => Authority.OfferMeaning(d, h, e, leader, rig);
      case SendInput(_, clientId, _) =>
        assert clientId != "";
        if Authority.IsBrowser(h, clientId) {
          Authority.BrowserMeaning(d, h, rig, clientId, packet, e.now);
        }
        forall leader | Authority.Names(h, clientId, leader)
          ensures LentByHolder(h, leader, rig, e.now)
        {
          Authority.OfferMeaning(d, h, e, leader, rig);
        }
    }
  }

  /** A flight that carries a packet was opened by an authorized arrival, under its own ticket. */
  lemma ArrivalCarries(d: Design, h: Hub, e: Event, id: nat, rig: string, packet: Odometer.Input)
    requires !e.step.Land? && Ticketed(h)
    requires var next := Next(d, h, e).hub; id in next.flights && id !in h.flights && Carries(next.flights[id], rig, packet)
    ensures Authorized(h, e, rig, packet) && Next(d, h, e).reply == Await(id)
  {
    match e.step {
      case SendCommand(name, clientId, b) =>
        if name in h.rigs && VerbOf(b.verb).Some? {
          VerbPosts(h, name, clientId, b, VerbOf(b.verb).value, e.now);
        }
      case SendInput(name, clientId, p) =>
        InputCarries(h, name, clientId, p, e.now, id, rig, packet);
        AwaitIsAuthorized(d, h, e, rig, packet);
      case Message(leader, name, joints) =>
        MessageCarries(h, leader, name, joints, e.now, id, rig, packet);
        AwaitIsAuthorized(d, h, e, rig, packet);
      case _ =>
    }
  }

  lemma InputCarries(h: Hub, name: string, clientId: string, p: Odometer.Input, now: Time, id: nat, rig: string, packet: Odometer.Input)
    requires Ticketed(h)
    requires var next := OnInput(h, name, clientId, p, now).hub; id in next.flights && id !in h.flights && Carries(next.flights[id], rig, packet)
    ensures name == rig && p == packet && OnInput(h, name, clientId, p, now).reply == Await(id)
  {
  }

  lemma MessageCarries(h: Hub, leader: string, name: string, joints: Odometer.Vector, now: Time, id: nat, rig: string, packet: Odometer.Input)
    requires Ticketed(h)
    requires var next := OnMessage(h, leader, name, joints, now).hub; id in next.flights && id !in h.flights && Carries(next.flights[id], rig, packet)
    ensures name == rig && packet == Odometer.Input(None, Some(joints)) && OnMessage(h, leader, name, joints, now).reply == Await(id)
  {
  }

  lemma FlightStep(d: Design, h: Hub, e: Event, id: nat, rig: string, packet: Odometer.Input)
    requires Ticketed(h)
    requires var next := Next(d, h, e).hub; id in next.flights && Carries(next.flights[id], rig, packet)
    ensures (id in h.flights && Carries(h.flights[id], rig, packet))
            || (Authorized(h, e, rig, packet) && Next(d, h, e).reply == Await(id))
  {
    if e.step.Land? {
      if e.step.ticket in h.flights {
        LandPosts(d, h, e.step.ticket, e.step.dropped, e.now);
      }
    } else if id in h.flights {
      OnlyLandingPosts(d, h, e);
    } else {
      ArrivalCarries(d, h, e, id, rig, packet);
    }
  }

  /** The packet of `ticket` was offered and authorized at step `i`. */
  ghost predicate Arrived(d: Design, hubs: seq<Hub>, run: seq<Event>, i: nat, ticket: nat, rig: string, packet: Odometer.Input)
    requires i < |run| < |hubs|
  {
    Authorized(hubs[i], run[i], rig, packet) && Next(d, hubs[i], run[i]).reply == Await(ticket)
  }

  lemma {:induction false} FlightOrigin(d: Design, hubs: seq<Hub>, run: seq<Event>, k: nat, id: nat, rig: string, packet: Odometer.Input)
    returns (i: nat)
    requires Execution(d, hubs, run) && k <= |run|
    requires id in hubs[k].flights && Carries(hubs[k].flights[id], rig, packet)
    ensures i < k && Arrived(d, hubs, run, i, id, rig, packet)
    decreases k
  {
    assert k > 0;
    var p := k - 1;
    assert hubs[p + 1] == Next(d, hubs[p], run[p]).hub;
    AlwaysTicketed(d, hubs, run, p);
    FlightStep(d, hubs[p], run[p], id, rig, packet);
    if Arrived(d, hubs, run, p, id, rig, packet) {
      i := p;
    } else {
      i := FlightOrigin(d, hubs, run, p, id, rig, packet);
    }
  }

  lemma MailStep(d: Design, h: Hub, e: Event, rig: string)
    requires var next := Next(d, h, e).hub; rig in next.rigs && next.rigs[rig].input.Some?
    ensures var post := Next(d, h, e).hub.rigs[rig].input.value;
            || (rig in h.rigs && h.rigs[rig].input == Some(post))
            || (&& e.step == Land(post.ticket, false) && post.at == e.now && post.ticket in h.flights
                && exists packet :: Carries(h.flights[post.ticket], rig, packet) && post.packet == Mail(packet))
  {
    if e.step.Land? {
      if e.step.ticket in h.flights {
        LandPosts(d, h, e.step.ticket, e.step.dropped, e.now);
        match h.flights[e.step.ticket] {
          case InputFlight(name, packet) => assert Carries(h.flights[e.step.ticket], name, packet);
          case SocketFlight(name, packet) => assert Carries(h.flights[e.step.ticket], name, packet);
          case _ =>
        }
      }
    } else {
      OnlyLandingPosts(d, h, e);
    }
  }

  /** What is kept of a packet: its joints if it has any, and otherwise its axes. */
  predicate KeptOf(packet: Odometer.Input, kept: Odometer.Input) {
    && (packet.joints.Some? ==> kept == Odometer.Input(None, packet.joints))
    && (packet.joints.None? ==> kept.joints.None? && kept.axes.Some?
                                && (packet.axes.Some? ==> kept.axes == packet.axes)
                                && (packet.axes.None? ==> kept.axes.value == []))
  }

  /** A packet in a mailbox was authorized on arrival and posted, undropped, when its stamp says. */
  lemma {:induction false} MailOrigin(d: Design, hubs: seq<Hub>, run: seq<Event>, k: nat, rig: string)
    returns (i: nat, j: nat, packet: Odometer.Input)
    requires Execution(d, hubs, run) && k <= |run| && rig in hubs[k].rigs && hubs[k].rigs[rig].input.Some?
    ensures var post := hubs[k].rigs[rig].input.value;
            && i < j < k && Arrived(d, hubs, run, i, post.ticket, rig, packet) && KeptOf(packet, post.packet)
            && run[j] == Event(Land(post.ticket, false), post.at)
    decreases k
  {
    assert k > 0;
    var p := k - 1;
    assert hubs[p + 1] == Next(d, hubs[p], run[p]).hub;
    var post := hubs[k].rigs[rig].input.value;
    MailStep(d, hubs[p], run[p], rig);
    if rig in hubs[p].rigs && hubs[p].rigs[rig].input == Some(post) {
      i, j, packet := MailOrigin(d, hubs, run, p, rig);
    } else {
      j := p;
      packet :| Carries(hubs[p].flights[post.ticket], rig, packet) && post.packet == Mail(packet);
      i := FlightOrigin(d, hubs, run, p, post.ticket, rig, packet);
    }
  }

  /** Every packet a link reply carries was authorized for this rig when it arrived, landed
      undropped less than 500 ms before the reply, and nothing else changed on the way. */
  lemma LinkRepliesAreAuthorizedAndFresh(d: Design, hubs: seq<Hub>, run: seq<Event>, k: nat, rig: string)
    requires Execution(d, hubs, run) && k < |run| && run[k].step.Land?
    requires run[k].step.ticket in hubs[k].flights && hubs[k].flights[run[k].step.ticket] == LinkFlight(rig)
    requires Delivered(Next(d, hubs[k], run[k]).reply).Some?
    ensures var post := Delivered(Next(d, hubs[k], run[k]).reply).value;
            exists i: nat, j: nat, packet ::
              && i < j < k && Arrived(d, hubs, run, i, post.ticket, rig, packet) && KeptOf(packet, post.packet)
              && run[j].step == Land(post.ticket, false) && run[k].now - run[j].now < INPUT_TTL
  {
    var i, j, packet := MailOrigin(d, hubs, run, k, rig);
  }

  /** The same for what goes out over a socket: authorized for this rig when it arrived, and sent with
      its own joints, stamped with the moment of sending. */
  lemma SocketSendsAreAuthorized(d: Design, hubs: seq<Hub>, run: seq<Event>, k: nat)
    requires Execution(d, hubs, run) && k < |run| && Next(d, hubs[k], run[k]).reply.Sent?
    ensures var post := Next(d, hubs[k], run[k]).reply.post;
            && post.at == run[k].now
            && exists i: nat, rig, packet ::
                 && i < k && Arrived(d, hubs, run, i, post.ticket, rig, packet) && KeptOf(packet, post.packet)
                 && SocketUp(hubs[k], rig, run[k].now)
  {
    var post := Next(d, hubs[k], run[k]).reply.post;
    assert Delivers(d, hubs[k], run[k], post.ticket);
    DeliveryKinds(d, hubs[k], run[k], post.ticket);
    var f := hubs[k].flights[run[k].step.ticket];
    assert Carries(f, f.rig, f.packet);
    SentIsKept(d, hubs[k], run[k]);
    var i := FlightOrigin(d, hubs, run, k, run[k].step.ticket, f.rig, f.packet);
  }

  lemma SentIsKept(d: Design, h: Hub, e: Event)
    requires Next(d, h, e).reply.Sent? && e.step.Land? && e.step.ticket in h.flights && h.flights[e.step.ticket].SocketFlight?
    ensures var post, f := Next(d, h, e).reply.post, h.flights[e.step.ticket];
            post.at == e.now && KeptOf(f.packet, post.packet) && SocketUp(h, f.rig, e.now)
  {
  }
}
