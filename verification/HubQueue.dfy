/** The command queue of a rig: what is queued comes out in order, at most once, or not at all
    when it is stale. */
module HubQueue {
  import opened Prelude
  import opened HubModel
  import Odometer

  function Pending(h: Hub, rig: string): seq<Command> {
    if rig in h.rigs then h.rigs[rig].pending else []
  }

  /** This event is the rig's link reply, which empties its queue. */
  predicate Drains(h: Hub, e: Event, rig: string) {
    && e.step.Land? && e.step.ticket in h.flights && rig in h.rigs
    && h.flights[e.step.ticket] == LinkFlight(rig)
  }

  /** A drive order's two commands: stop whatever runs, then start the remote source. */
  predicate DrivePair(stop: Command, start: Command) {
    && stop.part == DriveStop && stop.verb == "teleop_stop"
    && start == stop.(part := DriveStart, verb := "teleop_start_remote")
  }

  /** What one event may append to a queue of length `n`. */
  predicate Appendable(added: seq<Command>, n: nat, now: Time) {
    || added == []
    || (&& n < MAX_PENDING && (forall i :: 0 <= i < |added| ==> added[i].queuedAt == now)
        && ((|added| == 1 && added[0].part == Plain) || (|added| == 2 && DrivePair(added[0], added[1]))))
  }

  predicate Grows(h: Hub, next: Hub, rig: string, now: Time) {
    && Pending(h, rig) <= Pending(next, rig)
    && Appendable(Pending(next, rig)[|Pending(h, rig)|..], |Pending(h, rig)|, now)
  }

  predicate SameQueue(h: Hub, next: Hub, rig: string) {
    Pending(next, rig) == Pending(h, rig)
  }

  // ---- one step -------------------------------------------------------------------------------------

  lemma VerbGrows(h: Hub, name: string, clientId: string, b: Body, v: Verb, now: Time, rig: string)
    requires name in h.rigs
    ensures Grows(h, OnVerb(h, name, clientId, b, v, now).hub, rig, now)
  {
  }

  lemma CommandGrows(h: Hub, name: string, clientId: string, b: Body, now: Time, rig: string)
    ensures Grows(h, OnCommand(h, name, clientId, b, now).hub, rig, now)
  {
    if name in h.rigs && VerbOf(b.verb).Some? {
      VerbGrows(h, name, clientId, b, VerbOf(b.verb).value, now, rig);
    }
  }

  lemma DriveGrows(h: Hub, leader: string, name: string, clientId: string, now: Time, rig: string)
    requires leader in h.leaders
    ensures Grows(h, LandDrive(h, leader, name, clientId, now).hub, rig, now)
  {
    var next := LandDrive(h, leader, name, clientId, now).hub;
    if rig == name && DriveStatus(h, h.leaders[leader], name, clientId, now) == 200 {
      DriveAppends(h, leader, name, clientId, now);
    } else {
      assert SameQueue(h, next, rig);
    }
  }

  lemma DriveAppends(h: Hub, leader: string, name: string, clientId: string, now: Time)
    requires leader in h.leaders && DriveStatus(h, h.leaders[leader], name, clientId, now) == 200
    ensures var stop := Command("teleop_stop", map[], Some(clientId), now, DriveStop);
            var start := Command("teleop_start_remote", map[], Some(clientId), now, DriveStart);
            Pending(LandDrive(h, leader, name, clientId, now).hub, name) == Pending(h, name) + [stop, start]
  {
  }

  lemma StopGrows(h: Hub, leader: string, now: Time, rig: string)
    requires leader in h.leaders
    ensures Grows(h, LandStop(h, leader, now).hub, rig, now)
  {
  }

  lemma AskKeepsQueues(h: Hub, l: Leader, driving: Option<string>, now: Time, rig: string)
    ensures SameQueue(h, AskBound(h, l, driving, now), rig)
  {
  }

  lemma BeatKeepsQueues(h: Hub, leader: string, driving: Option<string>, now: Time, rig: string)
    ensures SameQueue(h, LandBeat(h, leader, driving, now).hub, rig)
  {
    if leader in h.leaders {
      var l := h.leaders[leader];
      AskKeepsQueues(h, l, driving, now, rig);
      AskKeepsQueues(AskBound(h, l, driving, now), l, None, now, rig);
    }
  }

  lemma PacketKeepsQueues(d: Design, h: Hub, ticket: nat, name: string, packet: Odometer.Input, dropped: bool, now: Time, rig: string)
    ensures SameQueue(h, LandInput(h, ticket, name, packet, dropped, now).hub, rig)
    ensures SameQueue(h, LandMessage(d, h, ticket, name, packet, dropped, now).hub, rig)
  {
  }

  lemma LinkQueue(h: Hub, name: string, now: Time, rig: string)
    ensures Pending(LandLink(h, name, now).hub, rig) == if name == rig then [] else Pending(h, rig)
    ensures rig in h.rigs && name == rig ==>
              var reply := LandLink(h, name, now).reply;
              reply.Linked? && reply.commands == Live(Pending(h, rig), now)
  {
  }

  /** What the queue of `rig` is after event `e`, and what the rig was handed. */
  predicate QueueAfter(h: Hub, e: Event, out: Outcome, rig: string) {
    if Drains(h, e, rig)
    then Pending(out.hub, rig) == [] && out.reply.Linked? && out.reply.commands == Live(Pending(h, rig), e.now)
    else Grows(h, out.hub, rig, e.now)
  }

  lemma OrderGrows(h: Hub, leader: string, order: Order, now: Time, rig: string)
    ensures Grows(h, LandOrder(h, leader, order, now).hub, rig, now)
  {
    if leader in h.leaders {
      match order {
        case Drive(name, clientId) => DriveGrows(h, leader, name, clientId, now, rig);
        case Stop => StopGrows(h, leader, now, rig);
        case Unknown =>
      }
    }
  }

  /** A landing other than the rig's link reply. */
  lemma LandingGrows(d: Design, h: Hub, f: Flight, ticket: nat, dropped: bool, now: Time, rig: string)
    requires f != LinkFlight(rig)
    ensures Grows(h, Landing(d, h, f, ticket, dropped, now).hub, rig, now)
  {
    match f {
      case BeatFlight(leader, driving) => BeatKeepsQueues(h, leader, driving, now, rig);
      case OrderFlight(leader, order) => OrderGrows(h, leader, order, now, rig);
      case LinkFlight(name) => LinkQueue(h, name, now, rig);
      case InputFlight(name, packet) => PacketKeepsQueues(d, h, ticket, name, packet, dropped, now, rig);
      case SocketFlight(name, packet) => PacketKeepsQueues(d, h, ticket, name, packet, dropped, now, rig);
    }
  }

  lemma LandQueue(d: Design, h: Hub, ticket: nat, dropped: bool, now: Time, rig: string)
    ensures QueueAfter(h, Event(Land(ticket, dropped), now), OnLand(d, h, ticket, dropped, now), rig)
  {
    if ticket in h.flights {
      var landed := h.(flights := h.flights - {ticket});
      if h.flights[ticket] == LinkFlight(rig) {
        LinkQueue(landed, rig, now, rig);
      } else {
        LandingGrows(d, landed, h.flights[ticket], ticket, dropped, now, rig);
      }
    }
  }

  lemma InputKeepsQueues(h: Hub, name: string, clientId: string, packet: Odometer.Input, now: Time, rig: string)
    ensures SameQueue(h, OnInput(h, name, clientId, packet, now).hub, rig)
  {
  }

  lemma MessageKeepsQueues(h: Hub, leader: string, name: string, joints: Odometer.Vector, now: Time, rig: string)
    ensures SameQueue(h, OnMessage(h, leader, name, joints, now).hub, rig)
  {
  }

  lemma OthersKeepQueues(d: Design, h: Hub, e: Event, rig: string)
    requires Registers(e.step)
    ensures SameQueue(h, Next(d, h, e).hub, rig)
  {
  }

  lemma QueueStep(d: Design, h: Hub, e: Event, rig: string)
    ensures QueueAfter(h, e, Next(d, h, e), rig)
  {
    match e.step {
      case SendInput(name, clientId, packet) => InputKeepsQueues(h, name, clientId, packet, e.now, rig);
      case SendCommand(name, clientId, b) => CommandGrows(h, name, clientId, b, e.now, rig);
      case Message(leader, name, joints) => MessageKeepsQueues(h, leader, name, joints, e.now, rig);
      case Land(ticket, dropped) => LandQueue(d, h, ticket, dropped, e.now, rig);
      case _ => OthersKeepQueues(d, h, e, rig);
    }
  }

  // ---- one reply ------------------------------------------------------------------------------------

  predicate Stamped(q: seq<Command>, now: Time) {
    && (forall i, j :: 0 <= i < j < |q| ==> q[i].queuedAt <= q[j].queuedAt)
    && (forall i :: 0 <= i < |q| ==> q[i].queuedAt <= now)
  }

  /** The commands of drive orders stand in pairs: a stop directly before each start, and a
      start directly behind each stop. */
  predicate Paired(q: seq<Command>) {
    forall i :: 0 <= i < |q| ==> PairedAt(q, i)
  }

  predicate PairedAt(q: seq<Command>, i: int)
    requires 0 <= i < |q|
  {
    match q[i].part
    case Plain => true
    case DriveStop => i + 1 < |q| && DrivePair(q[i], q[i + 1])
    case DriveStart => i > 0 && DrivePair(q[i - 1], q[i])
  }

  /** The stale commands of `q` are those before `cut`, and `Live` keeps the others. */
  predicate LiveFrom(q: seq<Command>, now: Time, cut: nat) {
    && cut <= |q| && Live(q, now) == q[cut..]
    && forall i :: 0 <= i < |q| ==> (i < cut <==> now - q[i].queuedAt >= COMMAND_TTL)
  }

  lemma {:induction false} LiveIsSuffix(q: seq<Command>, now: Time) returns (cut: nat)
    requires Stamped(q, now)
    ensures LiveFrom(q, now, cut)
  {
    if q == [] {
      return 0;
    }
    var front, last := q[..|q| - 1], q[|q| - 1];
    assert q == front + [last];
    cut := LiveIsSuffix(front, now);
    if now - last.queuedAt >= COMMAND_TTL {
      StaleLast(front, last, now, cut);
      cut := |q|;
    } else {
      YoungLast(front, last, now, cut);
    }
  }

  lemma LiveOfLast(front: seq<Command>, last: Command, now: Time)
    ensures Live(front + [last], now) == Live(front, now) + if now - last.queuedAt < COMMAND_TTL then [last] else []
  {
    assert (front + [last])[..|front|] == front;
  }

  lemma StaleLast(front: seq<Command>, last: Command, now: Time, cut: nat)
    requires Stamped(front + [last], now) && LiveFrom(front, now, cut) && now - last.queuedAt >= COMMAND_TTL
    ensures LiveFrom(front + [last], now, |front| + 1)
  {
    var q := front + [last];
    LiveOfLast(front, last, now);
    forall i | 0 <= i < |front|
      ensures now - front[i].queuedAt >= COMMAND_TTL
    {
      assert q[i] == front[i] && q[i].queuedAt <= q[|front|].queuedAt;
    }
    assert cut == |front|;
  }

  lemma YoungLast(front: seq<Command>, last: Command, now: Time, cut: nat)
    requires LiveFrom(front, now, cut) && now - last.queuedAt < COMMAND_TTL
    ensures LiveFrom(front + [last], now, cut)
  {
    LiveOfLast(front, last, now);
    assert (front + [last])[cut..] == front[cut..] + [last];
  }

  lemma SuffixPaired(q: seq<Command>, cut: nat, now: Time)
    requires Paired(q) && cut <= |q|
    requires forall i :: 0 <= i < |q| ==> (i < cut <==> now - q[i].queuedAt >= COMMAND_TTL)
    ensures Paired(q[cut..])
  {
    forall i | 0 <= i < |q[cut..]|
      ensures PairedAt(q[cut..], i)
    {
      assert PairedAt(q, i + cut);
      assert q[i + cut].part == DriveStart ==> q[i + cut - 1].queuedAt == q[i + cut].queuedAt;
    }
  }

  lemma GrowthPaired(q: seq<Command>, added: seq<Command>, now: Time)
    requires Paired(q) && Appendable(added, |q|, now)
    ensures Paired(q + added)
  {
    forall i | 0 <= i < |q + added|
      ensures PairedAt(q + added, i)
    {
      if i < |q| {
        assert PairedAt(q, i);
      }
    }
  }

  /** What `QueueIsOrderly` keeps. */
  predicate Orderly(q: seq<Command>, now: Time) {
    |q| <= MAX_PENDING + 1 && Stamped(q, now) && Paired(q)
  }

  lemma GrowthOrderly(q: seq<Command>, added: seq<Command>, now: Time)
    requires Orderly(q, now) && Appendable(added, |q|, now)
    ensures Orderly(q + added, now)
  {
    GrowthPaired(q, added, now);
  }

  // ---- whole runs ---------------------------------------------------------------------------------

  function AddedAt(hubs: seq<Hub>, rig: string, i: nat): seq<Command>
    requires i + 1 < |hubs|
  {
    var before, after := Pending(hubs[i], rig), Pending(hubs[i + 1], rig);
    if |before| <= |after| then after[|before|..] else []
  }

  /** The commands the rig receives at step `i`. */
  function ShippedAt(d: Design, hubs: seq<Hub>, run: seq<Event>, rig: string, i: nat): seq<Command>
    requires i < |run| < |hubs|
  {
    var reply := Next(d, hubs[i], run[i]).reply;
    if Drains(hubs[i], run[i], rig) && reply.Linked? then reply.commands else []
  }

  lemma QueueStepAt(d: Design, hubs: seq<Hub>, run: seq<Event>, rig: string, i: nat)
    requires Execution(d, hubs, run) && i < |run|
    ensures if Drains(hubs[i], run[i], rig) then Pending(hubs[i + 1], rig) == []
            else Pending(hubs[i + 1], rig) == Pending(hubs[i], rig) + AddedAt(hubs, rig, i)
                 && Appendable(AddedAt(hubs, rig, i), |Pending(hubs[i], rig)|, run[i].now)
  {
    assert hubs[i + 1] == Next(d, hubs[i], run[i]).hub;
    QueueStep(d, hubs[i], run[i], rig);
  }

  lemma ShipStepAt(d: Design, hubs: seq<Hub>, run: seq<Event>, rig: string, i: nat)
    requires Execution(d, hubs, run) && i < |run|
    ensures ShippedAt(d, hubs, run, rig, i)
            == if Drains(hubs[i], run[i], rig) then Live(Pending(hubs[i], rig), run[i].now) else []
  {
    QueueStep(d, hubs[i], run[i], rig);
  }

  /** A queue is never longer than one above the limit, its stamps never go back, and the two
      commands of a drive order stay together. */
  lemma {:induction false} QueueIsOrderly(d: Design, hubs: seq<Hub>, run: seq<Event>, rig: string, k: nat, now: Time)
    requires Execution(d, hubs, run) && k <= |run| && (k > 0 ==> run[k - 1].now <= now)
    ensures Orderly(Pending(hubs[k], rig), now)
    decreases k
  {
    if k > 0 {
      var i := k - 1;
      assert i > 0 ==> run[i - 1].now <= run[i].now;
      QueueIsOrderly(d, hubs, run, rig, i, run[i].now);
      QueueStepAt(d, hubs, run, rig, i);
      if !Drains(hubs[i], run[i], rig) {
        GrowthOrderly(Pending(hubs[i], rig), AddedAt(hubs, rig, i), run[i].now);
      }
    }
  }

  /** All that was ever queued before step `k`, and all that was ever shipped. */
  function Queued(hubs: seq<Hub>, run: seq<Event>, rig: string, k: nat): seq<Command>
    requires k <= |run| < |hubs|
  {
    if k == 0 then []
    else Queued(hubs, run, rig, k - 1) + if Drains(hubs[k - 1], run[k - 1], rig) then [] else AddedAt(hubs, rig, k - 1)
  }

  function Shipped(d: Design, hubs: seq<Hub>, run: seq<Event>, rig: string, k: nat): seq<Command>
    requires k <= |run| < |hubs|
  {
    if k == 0 then [] else Shipped(d, hubs, run, rig, k - 1) + ShippedAt(d, hubs, run, rig, k - 1)
  }

  lemma Regroup(a: seq<Command>, b: seq<Command>, c: seq<Command>)
    ensures (a + b) + c == a + (b + c)
  {
  }

  lemma PushIsQueued(d: Design, hubs: seq<Hub>, run: seq<Event>, rig: string, i: nat, taken: seq<Command>)
    requires Execution(d, hubs, run) && i < |run| && !Drains(hubs[i], run[i], rig)
    requires Queued(hubs, run, rig, i) == taken + Pending(hubs[i], rig)
    ensures Queued(hubs, run, rig, i + 1) == taken + Pending(hubs[i + 1], rig)
  {
    QueueStepAt(d, hubs, run, rig, i);
    Regroup(taken, Pending(hubs[i], rig), AddedAt(hubs, rig, i));
    assert Queued(hubs, run, rig, i + 1) == Queued(hubs, run, rig, i) + AddedAt(hubs, rig, i);
  }

  /** What waits in the queue is what was queued since the last drain, all of it. */
  lemma {:induction false} PendingIsQueuedSince(d: Design, hubs: seq<Hub>, run: seq<Event>, rig: string, j: nat, k: nat)
    requires Execution(d, hubs, run) && j <= k <= |run|
    requires j == 0 || Drains(hubs[j - 1], run[j - 1], rig)
    requires forall i :: j <= i < k ==> !Drains(hubs[i], run[i], rig)
    ensures Queued(hubs, run, rig, k) == Queued(hubs, run, rig, j) + Pending(hubs[k], rig)
    decreases k
  {
    if j < k {
      var i := k - 1;
      PendingIsQueuedSince(d, hubs, run, rig, j, i);
      PushIsQueued(d, hubs, run, rig, i, Queued(hubs, run, rig, j));
    } else {
      EmptyAfterDrain(d, hubs, run, rig, k);
    }
  }

  lemma EmptyAfterDrain(d: Design, hubs: seq<Hub>, run: seq<Event>, rig: string, k: nat)
    requires Execution(d, hubs, run) && k <= |run| && (k == 0 || Drains(hubs[k - 1], run[k - 1], rig))
    ensures Pending(hubs[k], rig) == []
  {
    if k > 0 {
      QueueStepAt(d, hubs, run, rig, k - 1);
    }
  }

  /** What a link reply carries: of the commands queued since the previous reply, exactly those
      younger than 15 s, which are the last ones, in order, drive pairs still together. */
  lemma ReplyIsYoungSuffix(d: Design, hubs: seq<Hub>, run: seq<Event>, rig: string, j: nat, k: nat)
    returns (cut: nat)
    requires Execution(d, hubs, run) && j <= k < |run|
    requires j == 0 || Drains(hubs[j - 1], run[j - 1], rig)
    requires forall i :: j <= i < k ==> !Drains(hubs[i], run[i], rig)
    requires Drains(hubs[k], run[k], rig)
    ensures Next(d, hubs[k], run[k]).reply.Linked?
    ensures var q := Queued(hubs, run, rig, k); var c := Next(d, hubs[k], run[k]).reply.commands;
            && |Queued(hubs, run, rig, j)| <= cut <= |q| && c == q[cut..]
            && (forall i :: |Queued(hubs, run, rig, j)| <= i < |q| ==>
                  (i >= cut <==> run[k].now - q[i].queuedAt < COMMAND_TTL))
            && Paired(c) && |c| <= MAX_PENDING + 1
  {
    var q := Pending(hubs[k], rig);
    assert k > 0 ==> run[k - 1].now <= run[k].now;
    QueueIsOrderly(d, hubs, run, rig, k, run[k].now);
    QueueStep(d, hubs[k], run[k], rig);
    PendingIsQueuedSince(d, hubs, run, rig, j, k);
    cut := YoungSuffix(Queued(hubs, run, rig, j), q, run[k].now);
  }

  lemma YoungSuffix(before: seq<Command>, q: seq<Command>, now: Time) returns (cut: nat)
    requires Orderly(q, now)
    ensures |before| <= cut <= |before + q| && Live(q, now) == (before + q)[cut..]
    ensures forall i :: |before| <= i < |before + q| ==> (i >= cut <==> now - (before + q)[i].queuedAt < COMMAND_TTL)
    ensures Paired(Live(q, now)) && |Live(q, now)| <= MAX_PENDING + 1
  {
    var c := LiveIsSuffix(q, now);
    SuffixPaired(q, c, now);
    cut := |before| + c;
    assert (before + q)[cut..] == q[c..];
  }

  /** `part` is a selection from `whole`, in order, each position at most once. */
  ghost predicate Selected(part: seq<Command>, whole: seq<Command>) {
    exists at: seq<nat> :: SelectedAt(part, whole, at)
  }

  ghost predicate SelectedAt(part: seq<Command>, whole: seq<Command>, at: seq<nat>) {
    && |at| == |part|
    && (forall i :: 0 <= i < |at| ==> at[i] < |whole| && part[i] == whole[at[i]])
    && (forall i, j :: 0 <= i < j < |at| ==> at[i] < at[j])
  }

  lemma SelectMore(part: seq<Command>, whole: seq<Command>, batch: seq<Command>, cut: nat)
    requires Selected(part, whole) && cut <= |batch|
    ensures Selected(part + batch[cut..], whole + batch)
  {
    var at: seq<nat> :| SelectedAt(part, whole, at);
    var more: seq<nat> := seq(|batch| - cut, i requires 0 <= i => |whole| + cut + i);
    assert SelectedAt(part + batch[cut..], whole + batch, at + more);
  }

  ghost predicate Accounted(d: Design, hubs: seq<Hub>, run: seq<Event>, rig: string, k: nat, taken: seq<Command>)
    requires k <= |run| < |hubs|
  {
    && Queued(hubs, run, rig, k) == taken + Pending(hubs[k], rig)
    && Selected(Shipped(d, hubs, run, rig, k), taken)
  }

  lemma DrainAccounts(d: Design, hubs: seq<Hub>, run: seq<Event>, rig: string, i: nat, taken: seq<Command>)
    requires Execution(d, hubs, run) && i < |run| && Drains(hubs[i], run[i], rig)
    requires Accounted(d, hubs, run, rig, i, taken)
    ensures Accounted(d, hubs, run, rig, i + 1, taken + Pending(hubs[i], rig))
  {
    var waiting := Pending(hubs[i], rig);
    QueueStepAt(d, hubs, run, rig, i);
    ShipStepAt(d, hubs, run, rig, i);
    assert i > 0 ==> run[i - 1].now <= run[i].now;
    QueueIsOrderly(d, hubs, run, rig, i, run[i].now);
    var cut := LiveIsSuffix(waiting, run[i].now);
    SelectMore(Shipped(d, hubs, run, rig, i), taken, waiting, cut);
    assert Shipped(d, hubs, run, rig, i + 1) == Shipped(d, hubs, run, rig, i) + waiting[cut..];
    assert Queued(hubs, run, rig, i + 1) == (taken + waiting) + [];
  }

  lemma PushAccounts(d: Design, hubs: seq<Hub>, run: seq<Event>, rig: string, i: nat, taken: seq<Command>)
    requires Execution(d, hubs, run) && i < |run| && !Drains(hubs[i], run[i], rig)
    requires Accounted(d, hubs, run, rig, i, taken)
    ensures Accounted(d, hubs, run, rig, i + 1, taken)
  {
    PushIsQueued(d, hubs, run, rig, i, taken);
    PushShipsNothing(d, hubs, run, rig, i);
  }

  lemma PushShipsNothing(d: Design, hubs: seq<Hub>, run: seq<Event>, rig: string, i: nat)
    requires i < |run| < |hubs| && !Drains(hubs[i], run[i], rig)
    ensures Shipped(d, hubs, run, rig, i + 1) == Shipped(d, hubs, run, rig, i)
  {
    assert ShippedAt(d, hubs, run, rig, i) == [];
    assert Shipped(d, hubs, run, rig, i + 1) == Shipped(d, hubs, run, rig, i) + [];
  }

  /** Over a whole run: everything queued is either still waiting or behind the last drain, and
      what the rig received is a selection of the latter, in the order it was queued and no
      command more than once. */
  lemma {:induction false} ShippedInOrderAtMostOnce(d: Design, hubs: seq<Hub>, run: seq<Event>, rig: string, k: nat)
    returns (taken: seq<Command>)
    requires Execution(d, hubs, run) && k <= |run|
    ensures Queued(hubs, run, rig, k) == taken + Pending(hubs[k], rig)
    ensures Selected(Shipped(d, hubs, run, rig, k), taken)
    decreases k
  {
    if k == 0 {
      taken := [];
      assert SelectedAt([], [], []);
      return;
    }
    var i := k - 1;
    taken := ShippedInOrderAtMostOnce(d, hubs, run, rig, i);
    if Drains(hubs[i], run[i], rig) {
      DrainAccounts(d, hubs, run, rig, i, taken);
      taken := taken + Pending(hubs[i], rig);
    } else {
      PushAccounts(d, hubs, run, rig, i, taken);
    }
  }

  // ---- the bound is attained --------------------------------------------------------------------------

  /** A queue gets past the limit only by a drive order that finds it one short of full. */
  lemma OverflowIsADrive(d: Design, h: Hub, e: Event, rig: string)
    requires |Pending(h, rig)| <= MAX_PENDING < |Pending(Next(d, h, e).hub, rig)|
    ensures |Pending(h, rig)| == MAX_PENDING - 1 
            && var q := Pending(Next(d, h, e).hub, rig); |q| == MAX_PENDING + 1 && DrivePair(q[MAX_PENDING - 1], q[MAX_PENDING])
  {
    QueueStep(d, h, e, rig);
  }

  const STOP := Command("estop", map[], Some("a"), 0, Plain)

  function Stops(n: nat): seq<Command> {
    if n == 0 then [] else Stops(n - 1) + [STOP]
  }

  /** A hub with one rig, held, one idle leader, and `n` stop commands waiting. */
  function Crowded(n: nat): Hub {
    Hub(map["r" := Rig(0, Some(Lease("a", LEASE)), None, Stops(n), None, Odometer.FRESH)],
        map["l" := NewLeader(None, 0)], map[],
        map[0 := LinkFlight("r"), 1 := BeatFlight("l", None)], 2)
  }

  lemma CrowdStarts(d: Design)
    ensures var h1 := Next(d, EMPTY, Event(Link("r"), 0)).hub;
            var h2 := Next(d, h1, Event(Heartbeat("l", None), 0)).hub;
            Next(d, h2, Event(Claim("r", "a", false), 0)).hub == Crowded(0)
  {
    var h1 := Next(d, EMPTY, Event(Link("r"), 0)).hub;
    assert h1 == Hub(map["r" := NewRig(0)], map[], map[], map[0 := LinkFlight("r")], 1);
    var h2 := Next(d, h1, Event(Heartbeat("l", None), 0)).hub;
    assert h2 == Hub(map["r" := NewRig(0)], map["l" := NewLeader(None, 0)], map[],
                     map[0 := LinkFlight("r"), 1 := BeatFlight("l", None)], 2);
  }

  lemma StopsLength(n: nat)
    ensures |Stops(n)| == n
  {
  }

  lemma CrowdGrows(n: nat)
    requires n < MAX_PENDING
    ensures var b := Body("estop", false, map[], 2, map[]);
            OnCommand(Crowded(n), "r", "a", b, 0).hub == Crowded(n + 1)
  {
    StopsLength(n);
    var b := Body("estop", false, map[], 2, map[]);
    var h := Crowded(n);
    assert VerbOf("estop") == Some(Verb(Safety, None, {}));
    var next := OnVerb(h, "r", "a", b, Verb(Safety, None, {}), 0).hub;
    assert next.rigs["r"].pending == Stops(n + 1);
    assert next.rigs == map["r" := Crowded(n + 1).rigs["r"]];
  }

  lemma CrowdBegins(d: Design) returns (hubs: seq<Hub>, run: seq<Event>)
    ensures Execution(d, hubs, run) && hubs[|run|] == Crowded(0)
    ensures forall i :: 0 <= i < |run| ==> run[i].now == 0
  {
    var link, beat, claim := Event(Link("r"), 0), Event(Heartbeat("l", None), 0), Event(Claim("r", "a", false), 0);
    var h1 := Next(d, EMPTY, link).hub;
    var h2 := Next(d, h1, beat).hub;
    CrowdStarts(d);
    ExtendExecution(d, [EMPTY], [], link, h1);
    ExtendExecution(d, [EMPTY] + [h1], [] + [link], beat, h2);
    ExtendExecution(d, [EMPTY] + [h1] + [h2], [] + [link] + [beat], claim, Crowded(0));
    hubs, run := [EMPTY] + [h1] + [h2] + [Crowded(0)], [] + [link] + [beat] + [claim];
  }

  lemma {:induction false} CanCrowd(d: Design, n: nat) returns (hubs: seq<Hub>, run: seq<Event>)
    requires n <= MAX_PENDING
    ensures Execution(d, hubs, run) && hubs[|run|] == Crowded(n)
    ensures forall i :: 0 <= i < |run| ==> run[i].now == 0
  {
    if n == 0 {
      hubs, run := CrowdBegins(d);
    } else {
      hubs, run := CanCrowd(d, n - 1);
      var e := Event(SendCommand("r", "a", Body("estop", false, map[], 2, map[])), 0);
      CrowdGrows(n - 1);
      ExtendExecution(d, hubs, run, e, Crowded(n));
      hubs, run := hubs + [Crowded(n)], run + [e];
    }
  }

  lemma DriveOverflows(d: Design, n: nat)
    requires n == MAX_PENDING - 1
    ensures var h1 := Next(d, Crowded(n), Event(LeaderOrder("l", Drive("r", "a")), 0)).hub;
            |Pending(Next(d, h1, Event(Land(2, false), 0)).hub, "r")| == MAX_PENDING + 1
  {
    StopsLength(n);
    var h1 := Next(d, Crowded(n), Event(LeaderOrder("l", Drive("r", "a")), 0)).hub;
    assert h1.flights[2] == OrderFlight("l", Drive("r", "a")) && h1.rigs == Crowded(n).rigs && h1.leaders == Crowded(n).leaders;
    assert DriveStatus(h1, h1.leaders["l"], "r", "a", 0) == 200;
  }

  /** One above the limit is reached. */
  lemma OverflowIsReached(d: Design)
    ensures exists hubs, run :: Execution(d, hubs, run) && |Pending(hubs[|run|], "r")| == MAX_PENDING + 1
  {
    var hubs, run := CanCrowd(d, MAX_PENDING - 1);
    var order, land := Event(LeaderOrder("l", Drive("r", "a")), 0), Event(Land(2, false), 0);
    var h1 := Next(d, Crowded(MAX_PENDING - 1), order).hub;
    var h2 := Next(d, h1, land).hub;
    DriveOverflows(d, MAX_PENDING - 1);
    ExtendExecution(d, hubs, run, order, h1);
    ExtendExecution(d, hubs + [h1], run + [order], land, h2);
  }
}
