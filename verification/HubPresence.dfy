/** Who is there: when a rig or a leader counts as online, what a leader is believed to be
    driving, and which socket is a rig's. */
module HubPresence {
  import opened Prelude
  import opened Latches
  import opened HubModel
  import opened HubAuthority
  import opened HubQueue
  import Odometer

  // ---- rigs ---------------------------------------------------------------------------------------

  function RigSeen(h: Hub, rig: string): Option<Time> {
    if rig in h.rigs then Some(h.rigs[rig].lastSeen) else None
  }

  /** What a heartbeat said, and when. */
  function LeaderSeen(h: Hub, leader: string): Option<(Option<string>, Time)> {
    if leader in h.leaders then Some((h.leaders[leader].driving, h.leaders[leader].lastSeen)) else None
  }

  function RigEffect(e: Event, rig: string): Effect<Time> {
    if e.step == Link(rig) && rig != "" then Put(Some(e.now)) else Hold
  }

  function LeaderEffect(e: Event, leader: string): Effect<(Option<string>, Time)> {
    if e.step.Heartbeat? && e.step.leader == leader && leader != "" then Put(Some((e.step.driving, e.now))) else Hold
  }

  predicate SamePresence(h: Hub, next: Hub, rig: string, leader: string) {
    RigSeen(next, rig) == RigSeen(h, rig) && LeaderSeen(next, leader) == LeaderSeen(h, leader)
  }

  lemma VerbKeepsPresence(h: Hub, name: string, clientId: string, b: Body, v: Verb, now: Time, rig: string, leader: string)
    requires name in h.rigs
    ensures SamePresence(h, OnVerb(h, name, clientId, b, v, now).hub, rig, leader)
  {
  }

  lemma InputKeepsPresence(h: Hub, name: string, clientId: string, packet: Odometer.Input, now: Time, rig: string, leader: string)
    ensures SamePresence(h, OnInput(h, name, clientId, packet, now).hub, rig, leader)
  {
  }

  lemma AskKeepsPresence(h: Hub, l: Leader, driving: Option<string>, now: Time, rig: string, leader: string)
    ensures SamePresence(h, AskBound(h, l, driving, now), rig, leader)
  {
  }

  lemma PruneKeepsPresence(h: Hub, name: string, now: Time, rig: string, leader: string)
    requires name in h.leaders
    ensures SamePresence(h, Prune(h, name, now), rig, leader) && name in Prune(h, name, now).leaders
  {
    AskKeepsPresence(h, h.leaders[name], None, now, rig, leader);
  }

  lemma BeatKeepsPresence(h: Hub, name: string, driving: Option<string>, now: Time, rig: string, leader: string)
    ensures SamePresence(h, LandBeat(h, name, driving, now).hub, rig, leader)
  {
    if name in h.leaders {
      var asked := AskBound(h, h.leaders[name], driving, now);
      AskKeepsPresence(h, h.leaders[name], driving, now, rig, leader);
      PruneKeepsPresence(asked, name, now, rig, leader);
    }
  }

  lemma OrderKeepsPresence(h: Hub, name: string, order: Order, now: Time, rig: string, leader: string)
    ensures SamePresence(h, LandOrder(h, name, order, now).hub, rig, leader)
  {
    if name in h.leaders {
      match order {
        case Drive(r, clientId) => assert SamePresence(h, LandDrive(h, name, r, clientId, now).hub, rig, leader);
        case Stop => assert SamePresence(h, LandStop(h, name, now).hub, rig, leader);
        case Unknown =>
      }
    }
  }

  lemma LandKeepsPresence(d: Design, h: Hub, ticket: nat, dropped: bool, now: Time, rig: string, leader: string)
    ensures SamePresence(h, OnLand(d, h, ticket, dropped, now).hub, rig, leader)
  {
    if ticket in h.flights {
      var landed := h.(flights := h.flights - {ticket});
      match h.flights[ticket] {
        case BeatFlight(name, driving) => BeatKeepsPresence(landed, name, driving, now, rig, leader);
        case OrderFlight(name, order) => OrderKeepsPresence(landed, name, order, now, rig, leader);
        case LinkFlight(name) => assert SamePresence(landed, LandLink(landed, name, now).hub, rig, leader);
        case InputFlight(name, packet) =>
          assert SamePresence(landed, LandInput(landed, ticket, name, packet, dropped, now).hub, rig, leader);
        case SocketFlight(name, packet) =>
          assert SamePresence(landed, LandMessage(d, landed, ticket, name, packet, dropped, now).hub, rig, leader);
      }
    }
  }

  lemma MessageKeepsPresence(h: Hub, name: string, r: string, joints: Odometer.Vector, now: Time, rig: string, leader: string)
    ensures SamePresence(h, OnMessage(h, name, r, joints, now).hub, rig, leader)
  {
  }

  lemma OthersKeepPresence(d: Design, h: Hub, e: Event, rig: string, leader: string)
    requires e.step.LeaderOrder? || e.step.Claim? || e.step.Release? || e.step.Open? || e.step.Close?
             || e.step.SetCeiling? || e.step.Revoke?
    ensures SamePresence(h, Next(d, h, e).hub, rig, leader)
  {
  }

  lemma ArrivalSeen(d: Design, h: Hub, e: Event, rig: string, leader: string)
    requires e.step.Link? || e.step.Heartbeat?
    ensures var next := Next(d, h, e).hub; var f := RigEffect(e, rig); var g := LeaderEffect(e, leader);
            && RigSeen(next, rig) == (if f.Hold? then RigSeen(h, rig) else f.value)
            && LeaderSeen(next, leader) == (if g.Hold? then LeaderSeen(h, leader) else g.value)
  {
  }

  lemma PresenceStep(d: Design, h: Hub, e: Event, rig: string, leader: string)
    ensures var next := Next(d, h, e).hub; var f := RigEffect(e, rig); var g := LeaderEffect(e, leader);
            && RigSeen(next, rig) == (if f.Hold? then RigSeen(h, rig) else f.value)
            && LeaderSeen(next, leader) == (if g.Hold? then LeaderSeen(h, leader) else g.value)
  {
    match e.step {
      case Land(ticket, dropped) => LandKeepsPresence(d, h, ticket, dropped, e.now, rig, leader);
      case SendInput(name, clientId, packet) => InputKeepsPresence(h, name, clientId, packet, e.now, rig, leader);
      case SendCommand(name, clientId, b) =>
        if name in h.rigs && VerbOf(b.verb).Some? {
          VerbKeepsPresence(h, name, clientId, b, VerbOf(b.verb).value, e.now, rig, leader);
        }
      case Message(name, r, joints) => MessageKeepsPresence(h, name, r, joints, e.now, rig, leader);
      case Link(name) => ArrivalSeen(d, h, e, rig, leader);
      case Heartbeat(name, driving) => ArrivalSeen(d, h, e, rig, leader);
      case _ => OthersKeepPresence(d, h, e, rig, leader);
    }
  }

  lemma PresenceStepAt(d: Design, hubs: seq<Hub>, run: seq<Event>, i: nat, rig: string, leader: string)
    requires Execution(d, hubs, run) && i < |run|
    ensures var f := RigEffect(run[i], rig); var g := LeaderEffect(run[i], leader);
            && RigSeen(hubs[i + 1], rig) == (if f.Hold? then RigSeen(hubs[i], rig) else f.value)
            && LeaderSeen(hubs[i + 1], leader) == (if g.Hold? then LeaderSeen(hubs[i], leader) else g.value)
  {
    assert hubs[i + 1] == Next(d, hubs[i], run[i]).hub;
    PresenceStep(d, hubs[i], run[i], rig, leader);
  }

  /** Some link request of the rig before `k` is younger than 5 s at time `t`. */
  ghost predicate LinkedSince(run: seq<Event>, rig: string, k: nat, t: Time)
    requires k <= |run|
  {
    rig != "" && exists w: nat :: w < k && run[w].step == Link(rig) && t - run[w].now < RIG_TTL
  }

  /** A rig is online exactly while a link request of its own is younger than 5 s; nothing else
      keeps it online, and nothing takes it offline. */
  lemma {:induction false} OnlineMeaning(d: Design, hubs: seq<Hub>, run: seq<Event>, rig: string, k: nat, t: Time)
    requires Execution(d, hubs, run) && k <= |run|
    ensures rig in hubs[k].rigs && Online(hubs[k].rigs[rig].lastSeen, t) <==> LinkedSince(run, rig, k, t)
    ensures rig in hubs[k].rigs && k > 0 ==> hubs[k].rigs[rig].lastSeen <= run[k - 1].now
    decreases k
  {
    if k > 0 {
      var i: nat := k - 1;
      OnlineMeaning(d, hubs, run, rig, i, t);
      PresenceStepAt(d, hubs, run, i, rig, "");
      assert i > 0 ==> run[i - 1].now <= run[i].now;
      if LinkedSince(run, rig, k, t) && run[i].step != Link(rig) {
        var w: nat :| w < k && run[w].step == Link(rig) && t - run[w].now < RIG_TTL;
        assert w < i;
      }
    }
  }

  /** The last heartbeat of the leader before `k` came at `w`. */
  ghost predicate LastBeat(run: seq<Event>, leader: string, w: nat, k: nat)
    requires k <= |run|
  {
    && leader != "" && w < k && run[w].step.Heartbeat? && run[w].step.leader == leader
    && forall m :: w < m < k ==> !(run[m].step.Heartbeat? && run[m].step.leader == leader)
  }

  /** What the hub believes of a leader is what its last heartbeat said. */
  lemma {:induction false} LastBeatDecides(d: Design, hubs: seq<Hub>, run: seq<Event>, leader: string, w: nat, k: nat)
    requires Execution(d, hubs, run) && k <= |run| && LastBeat(run, leader, w, k)
    ensures LeaderSeen(hubs[k], leader) == Some((run[w].step.driving, run[w].now))
    decreases k
  {
    var i: nat := k - 1;
    PresenceStepAt(d, hubs, run, i, "", leader);
    if w < i {
      LastBeatDecides(d, hubs, run, leader, w, i);
    }
  }

  lemma {:induction false} KnownLeaderBeat(d: Design, hubs: seq<Hub>, run: seq<Event>, leader: string, k: nat) returns (w: nat)
    requires Execution(d, hubs, run) && k <= |run| && leader in hubs[k].leaders
    ensures LastBeat(run, leader, w, k)
    decreases k
  {
    assert k > 0;
    var i: nat := k - 1;
    PresenceStepAt(d, hubs, run, i, "", leader);
    if run[i].step.Heartbeat? && run[i].step.leader == leader && leader != "" {
      w := i;
    } else {
      assert LeaderSeen(hubs[i], leader).Some?;
      w := KnownLeaderBeat(d, hubs, run, leader, i);
    }
  }

  /** Exactly when a drive order is accepted, in terms of what was said to the hub: the sender is
      named, the rig linked less than 5 s ago, the sender holds it, its queue has room, and the
      leader's last heartbeat reported it idle or already driving this rig. */
  lemma DriveAcceptedExactlyWhen(d: Design, hubs: seq<Hub>, run: seq<Event>, k: nat, leader: string, rig: string, b: string)
    requires Execution(d, hubs, run) && k < |run| && leader in hubs[k].leaders
    ensures DriveStatus(hubs[k], hubs[k].leaders[leader], rig, b, run[k].now) == 200 <==>
              && b != "" && LinkedSince(run, rig, k, run[k].now)
              && (exists w: nat :: LastTouch(hubs, run, rig, run[k].now, w, k, b))
              && |Pending(hubs[k], rig)| < MAX_PENDING
              && (exists w: nat :: LastBeat(run, leader, w, k) && run[w].step.driving in {None, Some(rig)})
  {
    OnlineMeaning(d, hubs, run, rig, k, run[k].now);
    LeaseMeaning(d, hubs, run, rig, run[k].now, k, b);
    var w := KnownLeaderBeat(d, hubs, run, leader, k);
    forall v: nat | LastBeat(run, leader, v, k)
      ensures v == w
    {
    }
    LastBeatDecides(d, hubs, run, leader, w, k);
  }

  // ---- sockets ------------------------------------------------------------------------------------

  function SocketOf(h: Hub, rig: string): Option<nat> {
    if rig in h.sockets then Some(h.sockets[rig]) else None
  }

  lemma SocketsKept(d: Design, h: Hub, e: Event)
    requires !e.step.Open? && !e.step.Close? && !e.step.SendCommand? && !e.step.Land?
    ensures Next(d, h, e).hub.sockets == h.sockets
  {
  }

  lemma VerbKeepsSockets(h: Hub, name: string, clientId: string, b: Body, v: Verb, now: Time)
    requires name in h.rigs
    ensures OnVerb(h, name, clientId, b, v, now).hub.sockets == h.sockets
  {
  }

  lemma LandKeepsSockets(d: Design, h: Hub, ticket: nat, dropped: bool, now: Time)
    ensures OnLand(d, h, ticket, dropped, now).hub.sockets == h.sockets
  {
  }

  lemma SocketStep(d: Design, h: Hub, e: Event, rig: string)
    ensures SocketOf(Next(d, h, e).hub, rig)
            == match e.step
               case Open(name, s) => if name == rig then Some(s) else SocketOf(h, rig)
               case Close(name, s) => if name == rig && SocketOf(h, rig) == Some(s) then None else SocketOf(h, rig)
               case _ => SocketOf(h, rig)
  {
    match e.step {
      case Open(_, _) =>
      case Close(_, _) =>
      case SendCommand(name, clientId, b) =>
        if name in h.rigs && VerbOf(b.verb).Some? {
          VerbKeepsSockets(h, name, clientId, b, VerbOf(b.verb).value, e.now);
        }
      case Land(ticket, dropped) => LandKeepsSockets(d, h, ticket, dropped, e.now);
      case _ => SocketsKept(d, h, e);
    }
  }

  lemma SocketStepAt(d: Design, hubs: seq<Hub>, run: seq<Event>, rig: string, i: nat)
    requires Execution(d, hubs, run) && i < |run|
    ensures SocketOf(hubs[i + 1], rig)
            == match run[i].step
               case Open(name, s) => if name == rig then Some(s) else SocketOf(hubs[i], rig)
               case Close(name, s) =>
                 if name == rig && SocketOf(hubs[i], rig) == Some(s) then None else SocketOf(hubs[i], rig)
               case _ => SocketOf(hubs[i], rig)
  {
    assert hubs[i + 1] == Next(d, hubs[i], run[i]).hub;
    SocketStep(d, hubs[i], run[i], rig);
  }

  /** `s` was the last socket the rig opened, and it has not been closed since. */
  ghost predicate LastOpened(run: seq<Event>, rig: string, w: nat, k: nat, s: nat)
    requires k <= |run|
  {
    && w < k && run[w].step == Open(rig, s)
    && forall m :: w < m < k ==>
         run[m].step != Close(rig, s) && !(run[m].step.Open? && run[m].step.rig == rig)
  }

  /** A reconnect survives the late close of the socket it replaced: the rig's socket is the last
      one opened, until that very one closes. */
  lemma {:induction false} SocketMeaning(d: Design, hubs: seq<Hub>, run: seq<Event>, rig: string, k: nat, s: nat)
    requires Execution(d, hubs, run) && k <= |run|
    ensures SocketOf(hubs[k], rig) == Some(s) <==> exists w: nat :: LastOpened(run, rig, w, k, s)
    decreases k
  {
    if k > 0 {
      var i: nat := k - 1;
      SocketMeaning(d, hubs, run, rig, i, s);
      SocketStepAt(d, hubs, run, rig, i);
      if w: nat :| LastOpened(run, rig, w, i, s) && SocketOf(hubs[k], rig) == Some(s) && run[i].step != Open(rig, s) {
        assert LastOpened(run, rig, w, k, s);
      }
      if w: nat :| LastOpened(run, rig, w, k, s) && w < i {
        assert LastOpened(run, rig, w, i, s);
      }
      assert run[i].step == Open(rig, s) ==> LastOpened(run, rig, i, k, s);
    }
  }
}
