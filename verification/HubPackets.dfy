/** What landed packets leave behind, over whole runs of the hub: the odometer has noted exactly
    the packets that landed undropped, except those that went out over a live socket; and the
    mailbox holds exactly the latest packet since the rig's last link reply. */
module HubPackets {
  import opened Prelude
  import opened Latches
  import opened HubModel
  import opened HubQueue
  import opened Odometer

  function OdoOf(h: Hub, rig: string): Odo {
    if rig in h.rigs then h.rigs[rig].odo else FRESH
  }

  /** The packet this event notes, if any. */
  function Counted(h: Hub, e: Event, rig: string): Option<Input> {
    if e.step.Land? && !e.step.dropped && e.step.ticket in h.flights && rig in h.rigs then
      match h.flights[e.step.ticket]
      case InputFlight(name, packet) => if name == rig then Some(packet) else None
      case SocketFlight(name, packet) => if name == rig && !SocketUp(h, rig, e.now) then Some(packet) else None
      case _ => None
    else None
  }

  function MailOf(h: Hub, rig: string): Option<Post> {
    if rig in h.rigs then h.rigs[rig].input else None
  }

  /** What this event does to the mailbox: a landing puts its packet there, the latest one wins,
      and a link reply empties it. */
  function MailEffect(d: Design, h: Hub, e: Event, rig: string): Effect<Post> {
    if e.step.Land? && e.step.ticket in h.flights && rig in h.rigs then
      match h.flights[e.step.ticket]
      case LinkFlight(name) => if name == rig then Put(None) else Hold
      case InputFlight(name, packet) =>
        if name == rig && !e.step.dropped then Put(Some(Post(Mail(packet), e.now, e.step.ticket))) else Hold
      case SocketFlight(name, packet) =>
        if name == rig && !e.step.dropped && (d == Written || !SocketUp(h, rig, e.now))
        then Put(Some(Post(Mail(packet), e.now, e.step.ticket))) else Hold
      case _ => Hold
    else Hold
  }

  predicate Untouched(h: Hub, next: Hub, rig: string) {
    OdoOf(next, rig) == OdoOf(h, rig) && MailOf(next, rig) == MailOf(h, rig)
  }

  lemma VerbKeepsPackets(h: Hub, name: string, clientId: string, b: Body, v: Verb, now: Time, rig: string)
    requires name in h.rigs
    ensures Untouched(h, OnVerb(h, name, clientId, b, v, now).hub, rig)
  {
  }

  lemma InputKeepsPackets(h: Hub, name: string, clientId: string, packet: Input, now: Time, rig: string)
    ensures Untouched(h, OnInput(h, name, clientId, packet, now).hub, rig)
  {
  }

  lemma MessageKeepsPackets(h: Hub, leader: string, name: string, joints: Vector, now: Time, rig: string)
    ensures Untouched(h, OnMessage(h, leader, name, joints, now).hub, rig)
  {
  }

  lemma LeasesKeepPackets(h: Hub, name: string, clientId: string, force: bool, now: Time, rig: string)
    ensures Untouched(h, OnClaim(h, name, clientId, force, now).hub, rig)
    ensures Untouched(h, OnRelease(h, name, clientId, now).hub, rig)
  {
  }

  lemma LinkKeepsPackets(h: Hub, name: string, now: Time, rig: string)
    ensures Untouched(h, OnLink(h, name, now).hub, rig)
  {
  }

  lemma MarketKeepsPackets(h: Hub, name: string, ceiling: Option<Time>, rig: string)
    ensures Untouched(h, Ceiled(h, name, ceiling), rig) && Untouched(h, Revoked(h, name), rig)
  {
  }

  lemma OthersKeepPackets(d: Design, h: Hub, e: Event, rig: string)
    requires Registers(e.step)
    ensures Untouched(h, Next(d, h, e).hub, rig)
  {
    match e.step {
      case Claim(name, clientId, force) => LeasesKeepPackets(h, name, clientId, force, e.now, rig);
      case Release(name, clientId) => LeasesKeepPackets(h, name, clientId, false, e.now, rig);
      case Link(name) => LinkKeepsPackets(h, name, e.now, rig);
      case SetCeiling(name, ceiling) => MarketKeepsPackets(h, name, ceiling, rig);
      case Revoke(name) => MarketKeepsPackets(h, name, None, rig);
      case _ =>
    }
  }

  lemma CommandKeepsPackets(h: Hub, name: string, clientId: string, b: Body, now: Time, rig: string)
    ensures Untouched(h, OnCommand(h, name, clientId, b, now).hub, rig)
  {
    if name in h.rigs && VerbOf(b.verb).Some? {
      VerbKeepsPackets(h, name, clientId, b, VerbOf(b.verb).value, now, rig);
    }
  }

  lemma RequestsKeepPackets(d: Design, h: Hub, e: Event, rig: string)
    requires !e.step.Land?
    ensures Untouched(h, Next(d, h, e).hub, rig)
  {
    match e.step {
      case SendCommand(name, clientId, b) =>
        CommandKeepsPackets(h, name, clientId, b, e.now, rig);
      case SendInput(name, clientId, packet) =>
        InputKeepsPackets(h, name, clientId, packet, e.now, rig);
      case Message(leader, name, joints) =>
        MessageKeepsPackets(h, leader, name, joints, e.now, rig);
      case _ => OthersKeepPackets(d, h, e, rig);
    }
  }

  lemma AskKeepsPackets(h: Hub, l: Leader, driving: Option<string>, now: Time, rig: string)
    ensures Untouched(h, AskBound(h, l, driving, now), rig)
  {
  }

  lemma BeatKeepsPackets(h: Hub, leader: string, driving: Option<string>, now: Time, rig: string)
    ensures Untouched(h, LandBeat(h, leader, driving, now).hub, rig)
  {
    if leader in h.leaders {
      var l := h.leaders[leader];
      AskKeepsPackets(h, l, driving, now, rig);
      AskKeepsPackets(AskBound(h, l, driving, now), l, None, now, rig);
    }
  }

  lemma OrderKeepsPackets(h: Hub, leader: string, order: Order, now: Time, rig: string)
    ensures Untouched(h, LandOrder(h, leader, order, now).hub, rig)
  {
    if leader in h.leaders {
      match order {
        case Drive(name, clientId) => assert Untouched(h, LandDrive(h, leader, name, clientId, now).hub, rig);
        case Stop => assert Untouched(h, LandStop(h, leader, now).hub, rig);
        case Unknown =>
      }
    }
  }

  predicate MailTo(h: Hub, next: Hub, rig: string, f: Effect<Post>) {
    MailOf(next, rig) == if f.Hold? then MailOf(h, rig) else f.value
  }

  lemma LandNotes(d: Design, h: Hub, ticket: nat, dropped: bool, now: Time, rig: string)
    ensures var counted := Counted(h, Event(Land(ticket, dropped), now), rig);
            OdoOf(OnLand(d, h, ticket, dropped, now).hub, rig)
            == if counted.Some? then Note(OdoOf(h, rig), counted.value) else OdoOf(h, rig)
    ensures MailTo(h, OnLand(d, h, ticket, dropped, now).hub, rig, MailEffect(d, h, Event(Land(ticket, dropped), now), rig))
  {
    if ticket in h.flights {
      var landed := h.(flights := h.flights - {ticket});
      match h.flights[ticket] {
        case BeatFlight(leader, driving) => BeatKeepsPackets(landed, leader, driving, now, rig);
        case OrderFlight(leader, order) => OrderKeepsPackets(landed, leader, order, now, rig);
        case _ =>
      }
    }
  }

  lemma PacketStep(d: Design, h: Hub, e: Event, rig: string)
    ensures var counted := Counted(h, e, rig);
            OdoOf(Next(d, h, e).hub, rig)
            == if counted.Some? then Note(OdoOf(h, rig), counted.value) else OdoOf(h, rig)
    ensures MailTo(h, Next(d, h, e).hub, rig, MailEffect(d, h, e, rig))
  {
    if e.step.Land? {
      LandNotes(d, h, e.step.ticket, e.step.dropped, e.now, rig);
    } else {
      RequestsKeepPackets(d, h, e, rig);
    }
  }

  /** The packets noted before step `k`. */
  function Stream(hubs: seq<Hub>, run: seq<Event>, rig: string, k: nat): seq<Input>
    requires k <= |run| < |hubs|
  {
    if k == 0 then []
    else
      var counted := Counted(hubs[k - 1], run[k - 1], rig);
      Stream(hubs, run, rig, k - 1) + if counted.Some? then [counted.value] else []
  }

  lemma PacketStepAt(d: Design, hubs: seq<Hub>, run: seq<Event>, rig: string, i: nat)
    requires Execution(d, hubs, run) && i < |run|
    ensures var counted := Counted(hubs[i], run[i], rig);
            OdoOf(hubs[i + 1], rig)
            == if counted.Some? then Note(OdoOf(hubs[i], rig), counted.value) else OdoOf(hubs[i], rig)
    ensures MailTo(hubs[i], hubs[i + 1], rig, MailEffect(d, hubs[i], run[i], rig))
  {
    assert hubs[i + 1] == Next(d, hubs[i], run[i]).hub;
    PacketStep(d, hubs[i], run[i], rig);
  }

  /** Everything proved about an odometer's stream holds of the rig's counters, with this stream:
      the packets that landed undropped, over HTTP or without a live socket, in landing order. */
  lemma {:induction false} OdometerNotesTheStream(d: Design, hubs: seq<Hub>, run: seq<Event>, rig: string, k: nat)
    requires Execution(d, hubs, run) && k <= |run|
    ensures OdoOf(hubs[k], rig) == NoteAll(Stream(hubs, run, rig, k))
    decreases k
  {
    if k > 0 {
      var i := k - 1;
      OdometerNotesTheStream(d, hubs, run, rig, i);
      PacketStepAt(d, hubs, run, rig, i);
      var counted := Counted(hubs[i], run[i], rig);
      if counted.Some? {
        NoteOneMore(Stream(hubs, run, rig, i), counted.value);
      } else {
        assert Stream(hubs, run, rig, k) == Stream(hubs, run, rig, i);
      }
    }
  }

  // ---- the mailbox --------------------------------------------------------------------------------

  function MailEffects(d: Design, hubs: seq<Hub>, run: seq<Event>, rig: string, k: nat): seq<Effect<Post>>
    requires k <= |run| < |hubs|
  {
    seq(k, i requires 0 <= i < k => MailEffect(d, hubs[i], run[i], rig))
  }

  /** The packet posted at `w` is the latest before `k`, and no link reply came in between. */
  ghost predicate LastPost(d: Design, hubs: seq<Hub>, run: seq<Event>, rig: string, w: nat, k: nat, post: Post)
    requires k <= |run| < |hubs|
  {
    && w < k && MailEffect(d, hubs[w], run[w], rig) == Put(Some(post))
    && forall m :: w < m < k ==> MailEffect(d, hubs[m], run[m], rig).Hold?
  }

  lemma PostIsPut(d: Design, hubs: seq<Hub>, run: seq<Event>, rig: string, w: nat, k: nat, post: Post)
    requires k <= |run| < |hubs|
    ensures LastPost(d, hubs, run, rig, w, k, post) <==> LastPut(MailEffects(d, hubs, run, rig, k), w, k, post)
  {
    var effects := MailEffects(d, hubs, run, rig, k);
    assert forall m :: 0 <= m < k ==> effects[m] == MailEffect(d, hubs[m], run[m], rig);
  }

  lemma MailFollows(d: Design, hubs: seq<Hub>, run: seq<Event>, rig: string, k: nat)
    requires Execution(d, hubs, run) && k <= |run|
    ensures Follows(seq(k + 1, i requires 0 <= i <= k => MailOf(hubs[i], rig)), MailEffects(d, hubs, run, rig, k))
  {
    var levels := seq(k + 1, i requires 0 <= i <= k => MailOf(hubs[i], rig));
    var effects := MailEffects(d, hubs, run, rig, k);
    forall i | 0 <= i < k
      ensures levels[i + 1] == if effects[i].Hold? then levels[i] else effects[i].value
    {
      PacketStepAt(d, hubs, run, rig, i);
    }
  }

  lemma MailMeaning(d: Design, hubs: seq<Hub>, run: seq<Event>, rig: string, k: nat, post: Post)
    requires Execution(d, hubs, run) && k <= |run|
    ensures MailOf(hubs[k], rig) == Some(post) <==> exists w: nat :: LastPost(d, hubs, run, rig, w, k, post)
  {
    MailFollows(d, hubs, run, rig, k);
    LatchMeaning(seq(k + 1, i requires 0 <= i <= k => MailOf(hubs[i], rig)), MailEffects(d, hubs, run, rig, k), k, post);
    if w: nat :| LastPut(MailEffects(d, hubs, run, rig, k), w, k, post) {
      PostIsPut(d, hubs, run, rig, w, k, post);
    }
    if w: nat :| LastPost(d, hubs, run, rig, w, k, post) {
      PostIsPut(d, hubs, run, rig, w, k, post);
    }
  }

  lemma ReplyTakesMail(d: Design, h: Hub, e: Event, rig: string)
    requires Drains(h, e, rig)
    ensures var reply := Next(d, h, e).reply; var mail := MailOf(h, rig);
            reply.Linked? && reply.input == if mail.Some? && e.now - mail.value.at < INPUT_TTL then mail else None
  {
  }

  /** What a link reply carries: the latest packet to land undropped on this rig since the
      previous link reply, if that was less than 500 ms ago, and nothing otherwise. */
  lemma LinkReplyCarriesExactly(d: Design, hubs: seq<Hub>, run: seq<Event>, rig: string, k: nat, post: Post)
    requires Execution(d, hubs, run) && k < |run| && Drains(hubs[k], run[k], rig)
    ensures var reply := Next(d, hubs[k], run[k]).reply;
            reply.Linked? && (reply.input == Some(post) <==>
              exists w: nat :: LastPost(d, hubs, run, rig, w, k, post) && run[k].now - run[w].now < INPUT_TTL)
  {
    ReplyTakesMail(d, hubs[k], run[k], rig);
    MailMeaning(d, hubs, run, rig, k, post);
    forall w: nat | LastPost(d, hubs, run, rig, w, k, post)
      ensures post.at == run[w].now
    {
    }
  }
}
