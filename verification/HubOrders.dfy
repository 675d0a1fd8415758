/** Commands: who may queue one for a rig, and how an order reaches a leader. */
module HubOrders {
  import opened Prelude
  import opened Latches
  import opened HubModel
  import opened HubAuthority
  import opened HubQueue
  import opened HubPresence
  import opened HubFlights
  import Odometer

  // ---- rig commands -------------------------------------------------------------------------------

  /** What a verb of the table asks of a command: the tier's credential, and only arguments a
      caller may supply. */
  predicate Meets(h: Hub, rig: string, clientId: string, b: Body, v: Verb, now: Time) {
    && (v.tier == Holder ==> Level(h, rig, now) == Some(clientId))
    && (v.tier == Owner ==> b.ownerKey)
    && (forall key :: key in b.args ==> v.args.Some? && key in v.args.value && key !in v.hubOnly)
  }

  /** What a name outside the table, but inherited by every object, asks: the lease, and no
      arguments. */
  predicate MeetsInherited(h: Hub, rig: string, clientId: string, b: Body, now: Time) {
    Level(h, rig, now) == Some(clientId) && b.args == map[]
  }

  /** A verb that takes arguments is relayed with the sender's, under what the hub adds; any other
      verb with none. */
  predicate RelaysArgs(args: map<string, string>, b: Body, takesArgs: bool) {
    && (takesArgs ==> args.Keys == b.args.Keys + b.extra.Keys
                      && forall key :: key in args ==> args[key] == if key in b.extra then b.extra[key] else b.args[key])
    && (!takesArgs ==> args == map[])
  }

  predicate HasRoom(h: Hub, rig: string, now: Time) {
    rig in h.rigs && Online(h.rigs[rig].lastSeen, now) && |Pending(h, rig)| < MAX_PENDING
  }

  /** Exactly when a command is queued: a known rig that is online with room, a named sender, a
      body within the size limit, and a verb of the table whose gates are open, or an inherited
      name sent by the holder. It is then the next in the queue, stamped with the holder. */
  lemma QueuedExactlyWhen(d: Design, h: Hub, rig: string, clientId: string, b: Body, now: Time)
    ensures var next := Next(d, h, Event(SendCommand(rig, clientId, b), now)).hub;
            && (Pending(next, rig) != Pending(h, rig) <==>
                  && HasRoom(h, rig, now) && clientId != "" && b.size <= MAX_ARGS_BYTES
                  && if b.verb in Table() then Meets(h, rig, clientId, b, Table()[b.verb], now)
                     else Inherited(b.verb) && MeetsInherited(h, rig, clientId, b, now))
            && (Pending(next, rig) != Pending(h, rig) ==>
                  exists c :: && Pending(next, rig) == Pending(h, rig) + [c] && c.verb == b.verb
                              && c.holder == Level(h, rig, now) && c.queuedAt == now
                              && RelaysArgs(c.args, b, b.verb in Table() && Table()[b.verb].args.Some?))
  {
    if rig in h.rigs && clientId != "" {
      var known := VerbOf(b.verb);
      VerbKnown(b.verb);
      if known.Some? {
        VerbQueuedExactlyWhen(h, rig, clientId, b, known.value, now);
      }
      if known == Some(Verb(Holder, None, {})) {
        assert Meets(h, rig, clientId, b, known.value, now) ==> forall key :: key in b.args ==> false;
        assert Meets(h, rig, clientId, b, known.value, now) ==> b.args.Keys == {};
      }
    }
  }

  lemma VerbKnown(name: string)
    ensures VerbOf(name) == if name in Table() then Some(Table()[name])
                            else if Inherited(name) then Some(Verb(Holder, None, {})) else None
  {
  }

  lemma VerbQueuedExactlyWhen(h: Hub, rig: string, clientId: string, b: Body, v: Verb, now: Time)
    requires rig in h.rigs
    ensures var next := OnVerb(h, rig, clientId, b, v, now).hub; var c := Relayed(h.rigs[rig], b, v, now);
            && (Pending(next, rig) != Pending(h, rig) <==>
                  HasRoom(h, rig, now) && b.size <= MAX_ARGS_BYTES && Meets(h, rig, clientId, b, v, now))
            && (Pending(next, rig) != Pending(h, rig) ==> Pending(next, rig) == Pending(h, rig) + [c])
            && c.verb == b.verb && c.holder == Level(h, rig, now) && c.queuedAt == now
            && RelaysArgs(c.args, b, v.args.Some?)
  {
    GatesMeaning(h, rig, clientId, b, v, now);
    var next := OnVerb(h, rig, clientId, b, v, now).hub;
    var c := Relayed(h.rigs[rig], b, v, now);
    if VerbStatus(h.rigs[rig], clientId, b, v, now) == 200 {
      assert Pending(next, rig) == Pending(h, rig) + [c];
      assert |Pending(next, rig)| == |Pending(h, rig)| + 1;
    } else {
      assert Pending(next, rig) == Pending(h, rig);
    }
  }

  lemma GatesMeaning(h: Hub, rig: string, clientId: string, b: Body, v: Verb, now: Time)
    requires rig in h.rigs
    ensures VerbStatus(h.rigs[rig], clientId, b, v, now) == 200
            <==> HasRoom(h, rig, now) && b.size <= MAX_ARGS_BYTES && Meets(h, rig, clientId, b, v, now)
  {
    var allowed := if v.args.Some? then v.args.value - v.hubOnly else {};
    assert b.args.Keys <= allowed
      <==> forall key :: key in b.args ==> v.args.Some? && key in v.args.value && key !in v.hubOnly;
  }

  /** What a queued command shows: its verb is known; unless it is a safety verb its sender held
      the rig or brought an owner key; and no argument reserved to the hub is the sender's. */
  lemma QueuedCommandsAreGated(d: Design, h: Hub, rig: string, clientId: string, b: Body, now: Time)
    requires var next := Next(d, h, Event(SendCommand(rig, clientId, b), now)).hub;
             Pending(next, rig) != Pending(h, rig)
    ensures rig in h.rigs && VerbOf(b.verb).Some? && |Pending(h, rig)| < MAX_PENDING
    ensures var v := VerbOf(b.verb).value;
            && (v.tier == Holder ==> Level(h, rig, now) == Some(clientId))
            && (v.tier == Owner ==> b.ownerKey)
            && (forall key :: key in v.hubOnly ==> key !in b.args)
  {
    VerbQueuedExactlyWhen(h, rig, clientId, b, VerbOf(b.verb).value, now);
  }

  lemma ToStringIsNoVerb()
    ensures "toString" !in Table() && Inherited("toString")
  {
    assert "toString"[2] == 'S';
  }

  /** A name that is in no row of the table is queued all the same, in a run from the empty hub:
      a rig links, a browser claims it, and sends "toString". */
  lemma InheritedNameIsQueued(d: Design)
    ensures exists hubs: seq<Hub>, run: seq<Event> ::
              && Execution(d, hubs, run) && run != []
              && run[|run| - 1].step == SendCommand("r", "a", Body("toString", false, map[], 2, map[]))
              && "toString" !in Table()
              && |Pending(hubs[|run|], "r")| == 1 && Pending(hubs[|run|], "r")[0].verb == "toString"
  {
    var hubs, run := CrowdBegins(d);
    var b := Body("toString", false, map[], 2, map[]);
    var e := Event(SendCommand("r", "a", b), 0);
    var h := Crowded(0);
    var next := Next(d, h, e).hub;
    ToStringIsNoVerb();
    QueuedExactlyWhen(d, h, "r", "a", b, 0);
    assert Level(h, "r", 0) == Some("a") && HasRoom(h, "r", 0) && Pending(h, "r") == [];
    ExtendExecution(d, hubs, run, e, next);
    assert (hubs + [next])[|run + [e]|] == next;
  }

  /** A safety verb of anybody, lease or not, is queued whenever the rig is online with room. */
  lemma AnyoneMayStop(h: Hub, rig: string, clientId: string, verb: string, now: Time)
    requires verb in {"teleop_stop", "estop"} && clientId != ""
    requires rig in h.rigs && Online(h.rigs[rig].lastSeen, now) && |Pending(h, rig)| < MAX_PENDING
    ensures var next := OnCommand(h, rig, clientId, Body(verb, false, map[], 2, map[]), now).hub;
            Pending(next, rig) == Pending(h, rig) + [Command(verb, map[], Level(h, rig, now), now, Plain)]
  {
    assert VerbOf(verb) == Some(Verb(Safety, None, {}));
    SafetyVerbQueues(h, rig, clientId, verb, now);
  }

  lemma SafetyVerbQueues(h: Hub, rig: string, clientId: string, verb: string, now: Time)
    requires rig in h.rigs && Online(h.rigs[rig].lastSeen, now) && |Pending(h, rig)| < MAX_PENDING
    ensures var next := OnVerb(h, rig, clientId, Body(verb, false, map[], 2, map[]), Verb(Safety, None, {}), now).hub;
            Pending(next, rig) == Pending(h, rig) + [Command(verb, map[], Level(h, rig, now), now, Plain)]
  {
  }

  /** A stop order always unbinds the leader, and tells its rig to stop if the queue has room. */
  lemma StopOrderStops(h: Hub, leader: string, now: Time)
    requires leader in h.leaders
    ensures var next := LandStop(h, leader, now).hub; var drove := h.leaders[leader].rig;
            && Binding(next, leader) == None
            && (drove.Some? && drove.value in h.rigs && |Pending(h, drove.value)| < MAX_PENDING ==>
                  Pending(next, drove.value) == Pending(h, drove.value)
                    + [Command("teleop_stop", map[], Level(h, drove.value, now), now, Plain)])
  {
  }

  // ---- rig commands, over whole runs --------------------------------------------------------------

  lemma QueueKept(d: Design, hubs: seq<Hub>, run: seq<Event>, rig: string, i: nat)
    requires Execution(d, hubs, run) && i < |run| && !Drains(hubs[i], run[i], rig)
    ensures Pending(hubs[i], rig) <= Pending(hubs[i + 1], rig)
  {
    QueueStepAt(d, hubs, run, rig, i);
  }

  lemma PrefixOfPrefix(a: seq<Command>, b: seq<Command>, c: seq<Command>)
    requires a <= b && b <= c
    ensures a <= c
  {
  }

  lemma {:induction false} StillQueued(d: Design, hubs: seq<Hub>, run: seq<Event>, rig: string, j: nat, k: nat)
    requires Execution(d, hubs, run) && j <= k <= |run|
    requires forall i :: j <= i < k ==> !Drains(hubs[i], run[i], rig)
    ensures Pending(hubs[j], rig) <= Pending(hubs[k], rig)
    decreases k
  {
    if j < k {
      var p: nat := k - 1;
      StillQueued(d, hubs, run, rig, j, p);
      QueueKept(d, hubs, run, rig, p);
      PrefixOfPrefix(Pending(hubs[j], rig), Pending(hubs[p], rig), Pending(hubs[k], rig));
    }
  }

  lemma DrainCarries(d: Design, hubs: seq<Hub>, run: seq<Event>, rig: string, k: nat, c: Command)
    requires Execution(d, hubs, run) && k < |run| && Drains(hubs[k], run[k], rig)
    requires c in Pending(hubs[k], rig) && run[k].now - c.queuedAt < COMMAND_TTL
    ensures var reply := Next(d, hubs[k], run[k]).reply; reply.Linked? && c in reply.commands
  {
    var q := Pending(hubs[k], rig);
    QueueStep(d, hubs[k], run[k], rig);
    assert k > 0 ==> run[k - 1].now <= run[k].now;
    QueueIsOrderly(d, hubs, run, rig, k, run[k].now);
    var cut := LiveIsSuffix(q, run[k].now);
    var p :| 0 <= p < |q| && q[p] == c;
    assert q[cut..][p - cut] == c;
  }

  /** Anyone's stop arrives: a safety verb sent by anybody, lease or not, to an online rig with room
      is in that rig's next link reply, if this comes within 15 s. */
  lemma AnyonesStopArrives(d: Design, hubs: seq<Hub>, run: seq<Event>, i: nat, k: nat, rig: string, clientId: string, verb: string)
    requires Execution(d, hubs, run) && i < k < |run|
    requires verb in {"teleop_stop", "estop"} && clientId != ""
    requires run[i].step == SendCommand(rig, clientId, Body(verb, false, map[], 2, map[])) && HasRoom(hubs[i], rig, run[i].now)
    requires Drains(hubs[k], run[k], rig) && forall j :: i < j < k ==> !Drains(hubs[j], run[j], rig)
    requires run[k].now - run[i].now < COMMAND_TTL
    ensures var reply := Next(d, hubs[k], run[k]).reply;
            reply.Linked? && exists c :: c in reply.commands && c.verb == verb && c.queuedAt == run[i].now
  {
    var c := Command(verb, map[], Level(hubs[i], rig, run[i].now), run[i].now, Plain);
    StopIsQueued(d, hubs, run, i, rig, clientId, verb);
    StillQueued(d, hubs, run, rig, i + 1, k);
    var before, after := Pending(hubs[i + 1], rig), Pending(hubs[k], rig);
    assert before[|before| - 1] == c && after[|before| - 1] == before[|before| - 1];
    DrainCarries(d, hubs, run, rig, k, c);
  }

  lemma StopIsQueued(d: Design, hubs: seq<Hub>, run: seq<Event>, i: nat, rig: string, clientId: string, verb: string)
    requires Execution(d, hubs, run) && i < |run|
    requires verb in {"teleop_stop", "estop"} && clientId != ""
    requires run[i].step == SendCommand(rig, clientId, Body(verb, false, map[], 2, map[])) && HasRoom(hubs[i], rig, run[i].now)
    ensures Pending(hubs[i + 1], rig)
            == Pending(hubs[i], rig) + [Command(verb, map[], Level(hubs[i], rig, run[i].now), run[i].now, Plain)]
  {
    assert hubs[i + 1] == Next(d, hubs[i], run[i]).hub;
    AnyoneMayStop(hubs[i], rig, clientId, verb, run[i].now);
  }

  /** This event may queue a command for `rig`: a command that passes every gate, or a leader's
      order landing. */
  predicate MayQueue(h: Hub, e: Event, rig: string) {
    match e.step
    case SendCommand(name, clientId, b) =>
      && name == rig && VerbOf(b.verb).Some?
      && var v := VerbOf(b.verb).value;
         && (v.tier == Holder ==> Level(h, rig, e.now) == Some(clientId)) && (v.tier == Owner ==> b.ownerKey)
         && (forall key :: key in v.hubOnly ==> key !in b.args)
    case Land(ticket, _) => ticket in h.flights && h.flights[ticket].OrderFlight?
    case _ => false
  }

  lemma LandingQueues(d: Design, h: Hub, f: Flight, ticket: nat, dropped: bool, now: Time, rig: string)
    requires !f.OrderFlight? && !f.LinkFlight?
    ensures SameQueue(h, Landing(d, h, f, ticket, dropped, now).hub, rig)
  {
    match f {
      case BeatFlight(leader, driving) => BeatKeepsQueues(h, leader, driving, now, rig);
      case InputFlight(name, packet) => PacketKeepsQueues(d, h, ticket, name, packet, dropped, now, rig);
      case SocketFlight(name, packet) => PacketKeepsQueues(d, h, ticket, name, packet, dropped, now, rig);
    }
  }

  lemma VerbQueuesHere(h: Hub, name: string, clientId: string, b: Body, v: Verb, now: Time, rig: string)
    requires name in h.rigs && name != rig
    ensures SameQueue(h, OnVerb(h, name, clientId, b, v, now).hub, rig)
  {
  }

  /** A queue grows only by such an event. */
  lemma OnlyTheseQueue(d: Design, h: Hub, e: Event, rig: string)
    requires |Pending(Next(d, h, e).hub, rig)| > |Pending(h, rig)|
    ensures MayQueue(h, e, rig)
  {
    match e.step {
      case SendCommand(name, clientId, b) =>
        if name == rig {
          QueuedCommandsAreGated(d, h, rig, clientId, b, e.now);
        } else if name in h.rigs && VerbOf(b.verb).Some? {
          VerbQueuesHere(h, name, clientId, b, VerbOf(b.verb).value, e.now, rig);
        }
      case SendInput(name, clientId, packet) => InputKeepsQueues(h, name, clientId, packet, e.now, rig);
      case Message(leader, name, joints) => MessageKeepsQueues(h, leader, name, joints, e.now, rig);
      case Land(ticket, dropped) =>
        if ticket in h.flights && !h.flights[ticket].OrderFlight? {
          var landed := h.(flights := h.flights - {ticket});
          if h.flights[ticket].LinkFlight? {
            LinkQueue(landed, h.flights[ticket].rig, e.now, rig);
          } else {
            LandingQueues(d, landed, h.flights[ticket], ticket, dropped, e.now, rig);
          }
        }
      case _ => OthersKeepQueues(d, h, e, rig);
    }
  }

  lemma {:induction false} WaitingCommandsAreGated(d: Design, hubs: seq<Hub>, run: seq<Event>, rig: string, k: nat, c: Command)
    returns (i: nat)
    requires Execution(d, hubs, run) && k <= |run| && c in Pending(hubs[k], rig)
    ensures i < k && MayQueue(hubs[i], run[i], rig) && c.queuedAt == run[i].now
    decreases k
  {
    assert k > 0;
    var p: nat := k - 1;
    QueueStepAt(d, hubs, run, rig, p);
    if c in Pending(hubs[p], rig) {
      i := WaitingCommandsAreGated(d, hubs, run, rig, p, c);
    } else {
      i := p;
      assert c in AddedAt(hubs, rig, p);
      assert hubs[p + 1] == Next(d, hubs[p], run[p]).hub;
      OnlyTheseQueue(d, hubs[p], run[p], rig);
    }
  }

  /** Every command a rig is ever handed was queued less than 15 s before by a command that passed
      the gates at that moment (the holder, an owner key or a safety verb, and no argument
      reserved to the hub), or by a leader's order. */
  lemma ReceivedCommandsAreGated(d: Design, hubs: seq<Hub>, run: seq<Event>, rig: string, k: nat, c: Command)
    returns (i: nat)
    requires Execution(d, hubs, run) && k < |run| && Drains(hubs[k], run[k], rig)
    requires var reply := Next(d, hubs[k], run[k]).reply; reply.Linked? && c in reply.commands
    ensures i < k && MayQueue(hubs[i], run[i], rig)
    ensures c.queuedAt == run[i].now && run[k].now - run[i].now < COMMAND_TTL
  {
    var q := Pending(hubs[k], rig);
    QueueStep(d, hubs[k], run[k], rig);
    assert k > 0 ==> run[k - 1].now <= run[k].now;
    QueueIsOrderly(d, hubs, run, rig, k, run[k].now);
    var cut := LiveIsSuffix(q, run[k].now);
    var p :| 0 <= p < |q[cut..]| && q[cut..][p] == c;
    assert q[cut + p] == c;
    i := WaitingCommandsAreGated(d, hubs, run, rig, k, c);
  }

  /** A stop order silences a leader: once it was taken and has landed, no packet of the leader passes
      anywhere until a browser that holds the rig lends it again; and if the leader drove a rig
      with room, that rig has been told to stop. */
  lemma StopOrderSilences(d: Design, hubs: seq<Hub>, run: seq<Event>, r: nat, s: nat, i: nat, leader: string, rig: string)
    requires Execution(d, hubs, run) && r < s < i < |run|
    requires run[r].step == LeaderOrder(leader, Stop) && run[s].step.Land? && Suspended(d, hubs, run, r, s, run[s].step.ticket)
    requires LeaderOffers(hubs[i], run[i], leader, rig) && Next(d, hubs[i], run[i]).reply.Await?
    ensures exists b, u: nat ::
              s < u < i && Binds(hubs[u], run[u], leader, b, rig) && Level(hubs[u], rig, run[u].now) == Some(b)
    ensures leader in hubs[s].leaders
    ensures var drove := hubs[s].leaders[leader].rig;
            drove.Some? && drove.value in hubs[s].rigs && |Pending(hubs[s], drove.value)| < MAX_PENDING ==>
              Pending(hubs[s + 1], drove.value) == Pending(hubs[s], drove.value)
                + [Command("teleop_stop", map[], Level(hubs[s], drove.value, run[s].now), run[s].now, Plain)]
  {
    LandsAsAsked(d, hubs, run, r, s, run[s].step.ticket);
    LeaderIsKnown(d, hubs, run, r, s, leader);
    StopLands(d, hubs, run, s, leader);
    ClearedStaysCleared(d, hubs, run, s + 1, i, leader, rig);
  }

  lemma LeaderIsKnown(d: Design, hubs: seq<Hub>, run: seq<Event>, r: nat, s: nat, leader: string)
    requires Execution(d, hubs, run) && r < s <= |run|
    requires run[r].step == LeaderOrder(leader, Stop) && Next(d, hubs[r], run[r]).reply.Await?
    ensures leader in hubs[s].leaders
  {
    OrderTakenExactlyWhen(d, hubs, run, r, leader, Stop);
    var w: nat :| LastBeat(run, leader, w, r);
    LeaderStaysKnown(d, hubs, run, w, s, leader);
  }

  lemma {:induction false} LeaderStaysKnown(d: Design, hubs: seq<Hub>, run: seq<Event>, w: nat, s: nat, leader: string)
    requires Execution(d, hubs, run) && w < s <= |run|
    requires run[w].step.Heartbeat? && run[w].step.leader == leader && leader != ""
    ensures leader in hubs[s].leaders
    decreases s
  {
    var p: nat := s - 1;
    PresenceStepAt(d, hubs, run, p, "", leader);
    if w < p {
      LeaderStaysKnown(d, hubs, run, w, p, leader);
      assert LeaderSeen(hubs[p], leader).Some?;
    }
    assert LeaderSeen(hubs[s], leader).Some?;
  }

  /** A stop order of the leader lands here. */
  predicate Lands(h: Hub, e: Event, leader: string) {
    && e.step.Land? && e.step.ticket in h.flights && leader in h.leaders
    && h.flights[e.step.ticket] == OrderFlight(leader, Stop)
  }

  lemma StopLands(d: Design, hubs: seq<Hub>, run: seq<Event>, s: nat, leader: string)
    requires Execution(d, hubs, run) && s < |run| && Lands(hubs[s], run[s], leader)
    ensures Binding(hubs[s + 1], leader) == None
    ensures var drove := hubs[s].leaders[leader].rig;
            drove.Some? && drove.value in hubs[s].rigs && |Pending(hubs[s], drove.value)| < MAX_PENDING ==>
              Pending(hubs[s + 1], drove.value) == Pending(hubs[s], drove.value)
                + [Command("teleop_stop", map[], Level(hubs[s], drove.value, run[s].now), run[s].now, Plain)]
  {
    assert hubs[s + 1] == Next(d, hubs[s], run[s]).hub;
    var landed := hubs[s].(flights := hubs[s].flights - {run[s].step.ticket});
    StopOrderStops(landed, leader, run[s].now);
  }

  // ---- leader orders ------------------------------------------------------------------------------

  /** The order this event leaves for the leader. */
  function Ordered(h: Hub, e: Event, leader: string): Option<LeaderCommand> {
    if e.step.Land? && e.step.ticket in h.flights && leader in h.leaders then
      match h.flights[e.step.ticket]
      case OrderFlight(name, Drive(rig, b)) =>
        if name == leader && DriveStatus(h, h.leaders[leader], rig, b, e.now) == 200
        then Some(LeaderCommand(true, Some(rig), e.now)) else None
      case OrderFlight(name, Stop) => if name == leader then Some(LeaderCommand(false, None, e.now)) else None
      case _ => None
    else None
  }

  /** This event is the answer to a heartbeat of the leader. */
  predicate Answers(h: Hub, e: Event, leader: string) {
    && e.step.Land? && e.step.ticket in h.flights && leader in h.leaders
    && h.flights[e.step.ticket].BeatFlight? && h.flights[e.step.ticket].leader == leader
  }

  function Waiting(h: Hub, leader: string): Option<LeaderCommand> {
    if leader in h.leaders then h.leaders[leader].pending else None
  }

  function OrderEffect(h: Hub, e: Event, leader: string): Effect<LeaderCommand> {
    if Ordered(h, e, leader).Some? then Put(Ordered(h, e, leader))
    else if Answers(h, e, leader) then Put(None)
    else Hold
  }

  predicate WaitsAs(h: Hub, next: Hub, leader: string, f: Effect<LeaderCommand>) {
    Waiting(next, leader) == if f.Hold? then Waiting(h, leader) else f.value
  }

  lemma BeatAnswers(h: Hub, name: string, driving: Option<string>, now: Time, leader: string)
    requires name in h.leaders
    ensures var out := LandBeat(h, name, driving, now);
            && WaitsAs(h, out.hub, leader, if name == leader then Put(None) else Hold)
            && out.reply.Beat? && out.reply.command == TakenCommand(h.leaders[name], now)
  {
    var l := h.leaders[name];
    AskKeepsLeaders(h, l, driving, now);
    PruneBinding(AskBound(h, l, driving, now), name, now);
  }

  lemma StopWaits(h: Hub, name: string, now: Time, leader: string)
    requires name in h.leaders
    ensures WaitsAs(h, LandStop(h, name, now).hub, leader,
                    if name == leader then Put(Some(LeaderCommand(false, None, now))) else Hold)
  {
  }

  lemma LandWaits(d: Design, h: Hub, ticket: nat, dropped: bool, now: Time, leader: string)
    ensures WaitsAs(h, OnLand(d, h, ticket, dropped, now).hub, leader,
                    OrderEffect(h, Event(Land(ticket, dropped), now), leader))
  {
    if ticket in h.flights {
      var landed := h.(flights := h.flights - {ticket});
      match h.flights[ticket] {
        case BeatFlight(name, driving) =>
          if name in h.leaders {
            BeatAnswers(landed, name, driving, now, leader);
          }
        case OrderFlight(name, Drive(rig, b)) =>
          if name in h.leaders {
            DriveWaits(landed, name, rig, b, now, leader);
          }
        case OrderFlight(name, Stop) =>
          if name in h.leaders {
            StopWaits(landed, name, now, leader);
          }
        case OrderFlight(_, Unknown) =>
        case LinkFlight(name) => PacketsKeepLeaders(d, landed, ticket, name, Odometer.Input(None, None), dropped, now);
        case InputFlight(name, packet) => PacketsKeepLeaders(d, landed, ticket, name, packet, dropped, now);
        case SocketFlight(name, packet) => PacketsKeepLeaders(d, landed, ticket, name, packet, dropped, now);
      }
    }
  }

  lemma DriveWaits(h: Hub, name: string, rig: string, b: string, now: Time, leader: string)
    requires name in h.leaders
    ensures WaitsAs(h, LandDrive(h, name, rig, b, now).hub, leader,
                    if name == leader && DriveStatus(h, h.leaders[leader], rig, b, now) == 200
                    then Put(Some(LeaderCommand(true, Some(rig), now))) else Hold)
  {
  }

  lemma InputWaits(h: Hub, name: string, clientId: string, packet: Odometer.Input, now: Time, leader: string)
    ensures WaitsAs(h, OnInput(h, name, clientId, packet, now).hub, leader, Hold)
  {
  }

  lemma OthersWait(d: Design, h: Hub, e: Event, leader: string)
    requires Registers(e.step)
    ensures WaitsAs(h, Next(d, h, e).hub, leader, Hold)
  {
  }

  lemma CommandWaits(h: Hub, name: string, clientId: string, b: Body, now: Time, leader: string)
    ensures WaitsAs(h, OnCommand(h, name, clientId, b, now).hub, leader, Hold)
  {
    if name in h.rigs && VerbOf(b.verb).Some? {
      VerbKeepsLeaders(h, name, clientId, b, VerbOf(b.verb).value, now);
    }
  }

  lemma OrderStep(d: Design, h: Hub, e: Event, leader: string)
    ensures WaitsAs(h, Next(d, h, e).hub, leader, OrderEffect(h, e, leader))
  {
    match e.step {
      case Land(ticket, dropped) => LandWaits(d, h, ticket, dropped, e.now, leader);
      case SendInput(name, clientId, packet) => InputWaits(h, name, clientId, packet, e.now, leader);
      case SendCommand(name, clientId, b) => CommandWaits(h, name, clientId, b, e.now, leader);
      case Message(name, rig, joints) => MessageKeepsLeaders(h, name, rig, joints, e.now);
      case _ => OthersWait(d, h, e, leader);
    }
  }

  lemma OrderStepAt(d: Design, hubs: seq<Hub>, run: seq<Event>, leader: string, i: nat)
    requires Execution(d, hubs, run) && i < |run|
    ensures WaitsAs(hubs[i], hubs[i + 1], leader, OrderEffect(hubs[i], run[i], leader))
  {
    assert hubs[i + 1] == Next(d, hubs[i], run[i]).hub;
    OrderStep(d, hubs[i], run[i], leader);
  }

  /** At `w` this order was left for the leader, and no later order or heartbeat came before `k`. */
  ghost predicate LastOrder(hubs: seq<Hub>, run: seq<Event>, leader: string, w: nat, k: nat, c: LeaderCommand)
    requires k <= |run| < |hubs|
  {
    && w < k && Ordered(hubs[w], run[w], leader) == Some(c)
    && forall m :: w < m < k ==> Ordered(hubs[m], run[m], leader).None? && !Answers(hubs[m], run[m], leader)
  }

  function OrderEffects(hubs: seq<Hub>, run: seq<Event>, leader: string, k: nat): seq<Effect<LeaderCommand>>
    requires k <= |run| < |hubs|
  {
    seq(k, i requires 0 <= i < k => OrderEffect(hubs[i], run[i], leader))
  }

  lemma WaitingMeaning(d: Design, hubs: seq<Hub>, run: seq<Event>, leader: string, k: nat, c: LeaderCommand)
    requires Execution(d, hubs, run) && k <= |run|
    ensures Waiting(hubs[k], leader) == Some(c) <==> exists w: nat :: LastOrder(hubs, run, leader, w, k, c)
  {
    var levels := seq(k + 1, i requires 0 <= i <= k => Waiting(hubs[i], leader));
    var effects := OrderEffects(hubs, run, leader, k);
    forall i | 0 <= i < k
      ensures levels[i + 1] == if effects[i].Hold? then levels[i] else effects[i].value
    {
      OrderStepAt(d, hubs, run, leader, i);
    }
    LatchMeaning(levels, effects, k, c);
    if w: nat :| LastPut(effects, w, k, c) {
      OrderIsPut(hubs, run, leader, w, k, c);
    }
    if w: nat :| LastOrder(hubs, run, leader, w, k, c) {
      OrderIsPut(hubs, run, leader, w, k, c);
    }
  }

  lemma OrderIsPut(hubs: seq<Hub>, run: seq<Event>, leader: string, w: nat, k: nat, c: LeaderCommand)
    requires k <= |run| < |hubs|
    ensures LastOrder(hubs, run, leader, w, k, c) <==> LastPut(OrderEffects(hubs, run, leader, k), w, k, c)
  {
    var effects := OrderEffects(hubs, run, leader, k);
    assert forall m :: 0 <= m < k ==> effects[m] == OrderEffect(hubs[m], run[m], leader);
  }

  lemma AnswerCarries(d: Design, h: Hub, e: Event, leader: string)
    requires Answers(h, e, leader)
    ensures var reply := Next(d, h, e).reply;
            reply.Beat? && reply.command == TakenCommand(h.leaders[leader], e.now)
  {
    var landed := h.(flights := h.flights - {e.step.ticket});
    BeatAnswers(landed, leader, h.flights[e.step.ticket].driving, e.now, leader);
  }

  /** What a heartbeat answer carries: the latest order, if it came since the previous answer and
      is younger than 15 s; so each order is handed over at most once, and none out of date. */
  lemma HeartbeatCarriesExactly(d: Design, hubs: seq<Hub>, run: seq<Event>, leader: string, k: nat, c: LeaderCommand)
    requires Execution(d, hubs, run) && k < |run| && Answers(hubs[k], run[k], leader)
    ensures var reply := Next(d, hubs[k], run[k]).reply;
            reply.Beat? && (reply.command == Some(c) <==>
              exists w: nat :: LastOrder(hubs, run, leader, w, k, c) && run[k].now - run[w].now < COMMAND_TTL)
  {
    AnswerCarries(d, hubs[k], run[k], leader);
    WaitingMeaning(d, hubs, run, leader, k, c);
    forall w: nat | LastOrder(hubs, run, leader, w, k, c)
      ensures c.queuedAt == run[w].now
    {
    }
  }
}
