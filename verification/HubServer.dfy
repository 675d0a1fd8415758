/**
 The hub's objects and handlers, as the program has them: rigs and leaders are shared objects
 updated in place. Every handler section is proved to be the step `HubModel.Next` takes.
 */
module HubServer {
  import opened Prelude
  import M = HubModel
  import opened Odometer

  type Time = M.Time

  class Rig {
    const name: string
    var lastSeen: Time
    var lease: Option<M.Lease>
    var leaseHardExpiry: Option<Time>
    var pending: seq<M.Command>
    var input: Option<M.Post>
    const inputOdo: InputOdo

    function View(): M.Rig
      reads this, inputOdo
    {
      M.Rig(lastSeen, lease, leaseHardExpiry, pending, input, inputOdo.View())
    }

    constructor (name: string, now: Time)
      ensures this.name == name && View() == M.NewRig(now)
      ensures fresh(inputOdo)
    {
      this.name, lastSeen, lease, leaseHardExpiry, pending, input := name, now, None, None, [], None;
      inputOdo := new InputOdo();
    }

    predicate IsOnline(now: Time)
      reads this
    {
      now - lastSeen < M.RIG_TTL
    }

    method LeaseHolder(now: Time) returns (holder: Option<string>)
      modifies this
      ensures holder == M.HolderAt(old(View()), now)
      ensures View() == M.Settled(old(View()), now)
    {
      if lease.Some? && lease.value.expiresAt > now {
        return Some(lease.value.holder);
      }
      lease := None;
      return None;
    }

    method ClaimLease(holder: string, force: bool, now: Time) returns (ok: bool)
      modifies this
      ensures ok == M.MayClaim(old(View()), holder, force, now)
      ensures View() == M.ClaimLease(old(View()), holder, force, now)
    {
      var current := LeaseHolder(now);
      if !force && current.Some? && current != Some(holder) {
        return false;
      }
      var expiresAt := now + M.LEASE;
      if leaseHardExpiry.Some? && leaseHardExpiry.value < expiresAt {
        expiresAt := leaseHardExpiry.value;
      }
      if expiresAt <= now {
        return false;
      }
      lease := Some(M.Lease(holder, expiresAt));
      return true;
    }

    method RevokeLease()
      modifies this
      ensures View() == old(View()).(lease := None)
    {
      lease := None;
    }

    method ReleaseLease(holder: string, now: Time)
      modifies this
      ensures View() == M.ReleaseLease(old(View()), holder, now)
    {
      var current := LeaseHolder(now);
      if current == Some(holder) {
        lease := None;
      }
    }

    /** `pending.splice` and `filter`. */
    method DrainCommands(now: Time) returns (live: seq<M.Command>)
      modifies this
      ensures live == M.Live(old(pending), now)
      ensures View() == old(View()).(pending := [])
    {
      var all := pending;
      pending := [];
      live := [];
      for i := 0 to |all|
        invariant live == M.Live(all[..i], now)
      {
        assert all[..i + 1][..i] == all[..i];
        if now - all[i].queuedAt < M.COMMAND_TTL {
          live := live + [all[i]];
        }
      }
      assert all[..|all|] == all;
    }

    method Gate(clientId: string, body: M.Body, verb: M.Verb, now: Time) returns (status: nat)
      modifies this
      ensures status == M.VerbStatus(old(View()), clientId, body, verb, now)
      ensures View() == if verb.tier == M.Holder then M.Settled(old(View()), now) else old(View())
    {
      match verb.tier {
        case Owner =>
          if !body.ownerKey {
            return 403;
          }
        case Holder =>
          var holder := LeaseHolder(now);
          if holder != Some(clientId) {
            return 403;
          }
        case Safety =>
      }
      var allowed := if verb.args.Some? then verb.args.value - verb.hubOnly else {};
      return if !(body.args.Keys <= allowed) then 403
        else if body.size > M.MAX_ARGS_BYTES then 413
        else if !IsOnline(now) then 409
        else if |pending| >= M.MAX_PENDING then 429
        else 200;
    }

    method DriveGate(driving: Option<string>, clientId: string, now: Time) returns (status: nat)
      modifies this
      ensures status == M.DriveGate(old(View()), name, driving, clientId, now)
      ensures View() == M.DriveAsked(old(View()), clientId, now)
    {
      if !IsOnline(now) {
        return 409;
      }
      if clientId == "" {
        return 400;
      }
      var holder := LeaseHolder(now);
      return if holder != Some(clientId) then 403
        else if driving.Some? && driving != Some(name) then 409
        else if |pending| >= M.MAX_PENDING then 429
        else 200;
    }

    method Relay(body: M.Body, verb: M.Verb, now: Time)
      modifies this
      ensures View() == M.Settled(old(View()), now).(pending := old(pending) + [M.Relayed(old(View()), body, verb, now)])
    {
      var args := if verb.args.Some? then body.args + body.extra else map[];
      var holder := LeaseHolder(now);
      Push([M.Command(body.verb, args, holder, now, M.Plain)]);
    }

    method Push(commands: seq<M.Command>)
      modifies this
      ensures View() == old(View()).(pending := old(pending) + commands)
    {
      pending := pending + commands;
    }

    /** The mailbox write of both transports. */
    method PutInput(packet: Input, now: Time, ticket: nat)
      modifies this
      ensures View() == old(View()).(input := Some(M.Post(M.Mail(packet), now, ticket)))
    {
      if packet.joints.Some? {
        input := Some(M.Post(Input(None, packet.joints), now, ticket));
      } else {
        var axes: Vector := if packet.axes.Some? then packet.axes.value else [];
        input := Some(M.Post(Input(Some(axes), None), now, ticket));
      }
    }

    method TakeInput(now: Time) returns (taken: Option<M.Post>)
      modifies this
      ensures taken == if old(input).Some? && now - old(input).value.at < M.INPUT_TTL then old(input) else None
      ensures View() == old(View()).(input := None)
    {
      taken := input;
      input := None;
      if taken.Some? && now - taken.value.at >= M.INPUT_TTL {
        taken := None;
      }
    }
  }

  class Leader {
    const name: string
    var driving: Option<string>
    var boundTo: Option<string>
    var rig: Option<string>
    var pending: Option<M.LeaderCommand>
    var lastSeen: Time

    function View(): M.Leader
      reads this
    {
      M.Leader(driving, boundTo, rig, pending, lastSeen)
    }

    constructor (name: string, driving: Option<string>, now: Time)
      ensures this.name == name && View() == M.NewLeader(driving, now)
    {
      this.name, this.driving, boundTo, rig, pending, lastSeen := name, driving, None, None, None, now;
    }

    predicate IsOnline(now: Time)
      reads this
    {
      now - lastSeen < M.RIG_TTL
    }

    method MayDrive(on: Rig, now: Time) returns (may: bool)
      modifies on
      ensures may == M.MayDrive(View(), on.name, old(on.View()), now)
      ensures on.View() == M.Asked(View(), on.name, old(on.View()), now)
    {
      if rig != Some(on.name) || boundTo.None? {
        return false;
      }
      var holder := on.LeaseHolder(now);
      return boundTo == holder;
    }

    method Bind(clientId: string, rig: string, now: Time)
      modifies this
      ensures View() == old(View()).(boundTo := Some(clientId), rig := Some(rig),
                                     pending := Some(M.LeaderCommand(true, Some(rig), now)))
    {
      boundTo, this.rig := Some(clientId), Some(rig);
      pending := Some(M.LeaderCommand(true, Some(rig), now));
    }

    method Unbind(now: Time)
      modifies this
      ensures View() == old(View()).(boundTo := None, rig := None, pending := Some(M.LeaderCommand(false, None, now)))
    {
      boundTo, rig := None, None;
      pending := Some(M.LeaderCommand(false, None, now));
    }

    method TakeCommand(now: Time) returns (command: Option<M.LeaderCommand>)
      modifies this
      ensures command == M.TakenCommand(old(View()), now)
      ensures View() == old(View()).(pending := None)
    {
      command := pending;
      pending := None;
      if command.Some? && now - command.value.queuedAt >= M.COMMAND_TTL {
        return None;
      }
    }
  }

  class Hub {
    var rigs: map<string, Rig>
    var leaders: map<string, Leader>
    var sockets: map<string, nat>
    var flights: map<nat, M.Flight>
    var tickets: nat
    ghost var odometers: set<InputOdo>

    ghost function Repr(): set<object>
      reads this
    {
      {this} + rigs.Values + leaders.Values + odometers
    }

    /** Every entry sits under its own name, so no object is shared. */
    ghost predicate Valid()
      reads this
    {
      && (forall n :: n in rigs ==> rigs[n].name == n && rigs[n].inputOdo in odometers)
      && (forall n :: n in leaders ==> leaders[n].name == n)
      && (forall n, m :: n in rigs && m in rigs && n != m ==> rigs[n].inputOdo != rigs[m].inputOdo)
    }

    ghost function View(): M.Hub
      reads this, Repr()
      requires Valid()
    {
      M.Hub(map n | n in rigs :: rigs[n].View(), map n | n in leaders :: leaders[n].View(),
            sockets, flights, tickets)
    }

    constructor ()
      ensures Valid() && View() == M.EMPTY && fresh(Repr())
    {
      rigs, leaders, sockets, flights, tickets, odometers := map[], map[], map[], map[], 0, {};
    }

    twostate predicate SameRest()
      reads this
    {
      sockets == old(sockets) && flights == old(flights) && tickets == old(tickets)
    }

    /** No rig and no leader changed. */
    twostate lemma EntriesKept()
      requires old(Valid()) && Valid() && rigs == old(rigs) && leaders == old(leaders)
      requires forall n :: n in rigs ==> rigs[n].View() == old(rigs[n].View())
      requires forall n :: n in leaders ==> leaders[n].View() == old(leaders[n].View())
      ensures View() == M.Hub(old(View()).rigs, old(View()).leaders, sockets, flights, tickets)
    {
      assert View().rigs == old(View()).rigs;
      assert View().leaders == old(View()).leaders;
    }

    /** Only the rig `name` changed. */
    twostate lemma RigChanged(name: string)
      requires old(Valid()) && Valid() && name in rigs
      requires rigs == old(rigs) && leaders == old(leaders)
      requires SameRest()
      requires forall n :: n in rigs && n != name ==> rigs[n].View() == old(rigs[n].View())
      requires forall n :: n in leaders ==> leaders[n].View() == old(leaders[n].View())
      ensures View() == M.WithRig(old(View()), name, rigs[name].View())
    {
    }

    /** Only the leader `name` changed. */
    twostate lemma LeaderChanged(name: string)
      requires old(Valid()) && Valid() && name in leaders
      requires rigs == old(rigs) && leaders == old(leaders)
      requires SameRest()
      requires forall n :: n in rigs ==> rigs[n].View() == old(rigs[n].View())
      requires forall n :: n in leaders && n != name ==> leaders[n].View() == old(leaders[n].View())
      ensures View() == M.WithLeader(old(View()), name, leaders[name].View())
    {
    }

    twostate lemma RigAddedView(name: string)
      requires old(Valid()) && Valid() && name !in old(rigs) && name in rigs && rigs == old(rigs)[name := rigs[name]]
      requires leaders == old(leaders) && SameRest()
      requires forall n :: n in old(rigs) ==> rigs[n].View() == old(rigs[n].View())
      requires forall n :: n in leaders ==> leaders[n].View() == old(leaders[n].View())
      ensures View() == M.WithRig(old(View()), name, rigs[name].View())
    {
      var before, after := old(View()).rigs[name := rigs[name].View()], View().rigs;
      assert after.Keys == before.Keys == rigs.Keys;
      forall n | n in rigs
        ensures after[n] == before[n]
      {
        assert n != name ==> n in old(rigs) && after[n] == old(rigs[n].View());
      }
      assert View().leaders == old(View()).leaders;
    }

    twostate lemma LeaderAddedView(name: string)
      requires old(Valid()) && Valid()
      requires name !in old(leaders) && name in leaders && leaders == old(leaders)[name := leaders[name]]
      requires rigs == old(rigs) && SameRest()
      requires forall n :: n in rigs ==> rigs[n].View() == old(rigs[n].View())
      requires forall n :: n in old(leaders) ==> leaders[n].View() == old(leaders[n].View())
      ensures View() == M.WithLeader(old(View()), name, leaders[name].View())
    {
      var before, after := old(View()).leaders[name := leaders[name].View()], View().leaders;
      assert after.Keys == before.Keys == leaders.Keys;
      forall n | n in leaders
        ensures after[n] == before[n]
      {
        assert n != name ==> n in old(leaders) && after[n] == old(leaders[n].View());
      }
      assert View().rigs == old(View()).rigs;
    }

    twostate lemma EntryAdded(name: string)
      requires rigs == old(rigs) || (name in rigs && fresh(rigs[name]) && rigs == old(rigs)[name := rigs[name]])
      requires leaders == old(leaders) || (name in leaders && fresh(leaders[name]) && leaders == old(leaders)[name := leaders[name]])
      requires fresh(odometers - old(odometers))
      ensures fresh(Repr() - old(Repr()))
    {
      forall r | r in rigs.Values
        ensures r in old(rigs).Values || fresh(r)
      {
        var n :| n in rigs && rigs[n] == r;
        assert n in old(rigs) && rigs[n] == old(rigs)[n] ==> r in old(rigs).Values;
      }
      forall l | l in leaders.Values
        ensures l in old(leaders).Values || fresh(l)
      {
        var n :| n in leaders && leaders[n] == l;
        assert n in old(leaders) && leaders[n] == old(leaders)[n] ==> l in old(leaders).Values;
      }
    }

    // ---- handlers, up to their first await ----------------------------------------------------------

    method Suspend(f: M.Flight) returns (reply: M.Reply)
      requires Valid()
      modifies this`flights, this`tickets
      ensures M.Outcome(View(), reply) == M.Suspend(old(View()), f)
    {
      flights := flights[tickets := f];
      reply := M.Await(tickets);
      tickets := tickets + 1;
      EntriesKept();
    }

    method Claim(rig: string, clientId: string, force: bool, now: Time) returns (reply: M.Reply)
      requires Valid()
      modifies Repr()
      ensures Valid() && Repr() == old(Repr())
      ensures M.Outcome(View(), reply) == M.OnClaim(old(View()), rig, clientId, force, now)
    {
      if rig !in rigs {
        return M.Refused(404);
      }
      if clientId == "" {
        return M.Refused(400);
      }
      var ok := rigs[rig].ClaimLease(clientId, force, now);
      var holder := rigs[rig].LeaseHolder(now);
      RigChanged(rig);
      return M.Claimed(ok, holder);
    }

    method Release(rig: string, clientId: string, now: Time) returns (reply: M.Reply)
      requires Valid()
      modifies Repr()
      ensures Valid() && Repr() == old(Repr())
      ensures M.Outcome(View(), reply) == M.OnRelease(old(View()), rig, clientId, now)
    {
      if rig !in rigs {
        return M.Refused(404);
      }
      if clientId == "" {
        return M.Refused(400);
      }
      rigs[rig].ReleaseLease(clientId, now);
      RigChanged(rig);
      return M.Done;
    }

    method AddRig(name: string, now: Time)
      requires Valid() && name !in rigs
      modifies this`rigs, this`odometers
      ensures Valid() && fresh(Repr() - old(Repr()))
      ensures View() == M.WithRig(old(View()), name, M.NewRig(now))
    {
      var rig := new Rig(name, now);
      rigs, odometers := rigs[name := rig], odometers + {rig.inputOdo};
      RigAddedView(name);
      EntryAdded(name);
    }

    method Link(rig: string, now: Time) returns (reply: M.Reply)
      requires Valid()
      modifies Repr()
      ensures Valid() && fresh(Repr() - old(Repr()))
      ensures M.Outcome(View(), reply) == M.OnLink(old(View()), rig, now)
    {
      if rig == "" {
        return M.Refused(400);
      }
      if rig in rigs {
        rigs[rig].lastSeen := now;
        RigChanged(rig);
      } else {
        AddRig(rig, now);
      }
      reply := Suspend(M.LinkFlight(rig));
    }

    method AddLeader(name: string, driving: Option<string>, now: Time)
      requires Valid() && name !in leaders
      modifies this`leaders
      ensures Valid() && fresh(Repr() - old(Repr()))
      ensures View() == M.WithLeader(old(View()), name, M.NewLeader(driving, now))
    {
      var leader := new Leader(name, driving, now);
      leaders := leaders[name := leader];
      LeaderAddedView(name);
      EntryAdded(name);
    }

    method Heartbeat(leader: string, driving: Option<string>, now: Time) returns (reply: M.Reply)
      requires Valid()
      modifies Repr()
      ensures Valid() && fresh(Repr() - old(Repr()))
      ensures M.Outcome(View(), reply) == M.OnHeartbeat(old(View()), leader, driving, now)
    {
      if leader == "" {
        return M.Refused(400);
      }
      if leader in leaders {
        leaders[leader].driving := driving;
        leaders[leader].lastSeen := now;
        LeaderChanged(leader);
      } else {
        AddLeader(leader, driving, now);
      }
      reply := Suspend(M.BeatFlight(leader, driving));
    }

    method LeaderOrder(leader: string, order: M.Order, now: Time) returns (reply: M.Reply)
      requires Valid()
      modifies this`flights, this`tickets
      ensures Valid() && Repr() == old(Repr())
      ensures M.Outcome(View(), reply) == M.OnLeaderOrder(old(View()), leader, order, now)
    {
      if leader !in leaders {
        return M.Refused(404);
      }
      if !leaders[leader].IsOnline(now) {
        return M.Refused(409);
      }
      reply := Suspend(M.OrderFlight(leader, order));
    }

    method AskLeader(leader: string, rig: string, now: Time) returns (may: bool)
      requires Valid() && leader in leaders && rig in rigs
      modifies rigs[rig]
      ensures var h := old(View());
              && may == M.MayDrive(h.leaders[leader], rig, h.rigs[rig], now)
              && View() == M.WithRig(h, rig, M.Asked(h.leaders[leader], rig, h.rigs[rig], now))
    {
      may := leaders[leader].MayDrive(rigs[rig], now);
      RigChanged(rig);
    }

    /** The browser's own packet renews the lease it holds. */
    method Renew(rig: string, clientId: string, now: Time) returns (held: bool)
      requires Valid() && rig in rigs
      modifies rigs[rig]
      ensures var h := old(View()); var r := h.rigs[rig];
              && held == (M.HolderAt(r, now) == Some(clientId))
              && View() == M.WithRig(h, rig, if held then M.ClaimLease(r, clientId, false, now) else M.Settled(r, now))
    {
      var holder := rigs[rig].LeaseHolder(now);
      held := holder == Some(clientId);
      if held {
        var _ := rigs[rig].ClaimLease(clientId, false, now);
      }
      RigChanged(rig);
    }

    method SendInput(rig: string, clientId: string, packet: Input, now: Time) returns (reply: M.Reply)
      requires Valid()
      modifies Repr()
      ensures Valid() && Repr() == old(Repr())
      ensures M.Outcome(View(), reply) == M.OnInput(old(View()), rig, clientId, packet, now)
    {
      if rig !in rigs {
        return M.Refused(404);
      }
      if clientId == "" {
        return M.Refused(400);
      }
      var may := AskInput(rig, clientId, now);
      if !may {
        return M.Refused(403);
      }
      reply := Suspend(M.InputFlight(rig, packet));
    }

    method AskInput(rig: string, clientId: string, now: Time) returns (may: bool)
      requires Valid() && rig in rigs
      modifies rigs[rig]
      ensures may == M.MayInput(old(View()), rig, clientId, now)
      ensures View() == M.WithRig(old(View()), rig, M.InputAsked(old(View()), rig, clientId, now))
    {
      if M.LEADER_PREFIX <= clientId && clientId[|M.LEADER_PREFIX|..] in leaders {
        may := AskLeader(clientId[|M.LEADER_PREFIX|..], rig, now);
      } else {
        may := Renew(rig, clientId, now);
      }
    }

    method SendCommand(rig: string, clientId: string, body: M.Body, now: Time) returns (reply: M.Reply)
      requires Valid()
      modifies Repr()
      ensures Valid() && Repr() == old(Repr())
      ensures M.Outcome(View(), reply) == M.OnCommand(old(View()), rig, clientId, body, now)
    {
      if rig !in rigs {
        return M.Refused(404);
      }
      if clientId == "" {
        return M.Refused(400);
      }
      var verb := M.VerbOf(body.verb);
      if verb.None? {
        return M.Refused(403);
      }
      reply := RelayVerb(rig, clientId, body, verb.value, now);
    }

    method RelayVerb(rig: string, clientId: string, body: M.Body, verb: M.Verb, now: Time) returns (reply: M.Reply)
      requires Valid() && rig in rigs
      modifies Repr()
      ensures Valid() && Repr() == old(Repr())
      ensures M.Outcome(View(), reply) == M.OnVerb(old(View()), rig, clientId, body, verb, now)
    {
      var status := rigs[rig].Gate(clientId, body, verb, now);
      if status != 200 {
        RigChanged(rig);
        return M.Refused(status);
      }
      rigs[rig].Relay(body, verb, now);
      RigChanged(rig);
      return M.Done;
    }

    method Message(leader: string, rig: string, joints: Vector, now: Time) returns (reply: M.Reply)
      requires Valid()
      modifies Repr()
      ensures Valid() && Repr() == old(Repr())
      ensures M.Outcome(View(), reply) == M.OnMessage(old(View()), leader, rig, joints, now)
    {
      if rig !in rigs || leader !in leaders {
        return M.Ignored;
      }
      var may := AskLeader(leader, rig, now);
      if !may {
        return M.Ignored;
      }
      reply := Suspend(M.SocketFlight(rig, Input(None, Some(joints))));
    }

    // ---- handlers, after their await ----------------------------------------------------------------

    method LandLink(rig: string, now: Time) returns (reply: M.Reply)
      requires Valid()
      modifies Repr()
      ensures Valid() && Repr() == old(Repr())
      ensures M.Outcome(View(), reply) == M.LandLink(old(View()), rig, now)
    {
      if rig !in rigs {
        return M.Ignored;
      }
      var commands := rigs[rig].DrainCommands(now);
      var input := rigs[rig].TakeInput(now);
      var holder := rigs[rig].LeaseHolder(now);
      RigChanged(rig);
      return M.Linked(input, commands, holder);
    }

    method LeaderBound(leader: string, driving: Option<string>, now: Time) returns (bound: bool)
      requires Valid() && leader in leaders
      modifies rigs.Values
      ensures bound == M.Bound(old(View()), leaders[leader].View(), driving, now)
      ensures View() == M.AskBound(old(View()), leaders[leader].View(), driving, now)
    {
      var l := leaders[leader];
      var name := if driving.Some? then driving else l.rig;
      if name.None? || l.boundTo.None? || name.value !in rigs {
        return false;
      }
      bound := l.MayDrive(rigs[name.value], now);
      RigChanged(name.value);
    }

    method PruneLeaderBinding(leader: string, now: Time)
      requires Valid() && leader in leaders
      modifies rigs.Values, leaders[leader]
      ensures View() == M.Prune(old(View()), leader, now)
    {
      var l := leaders[leader];
      if l.boundTo.None? {
        return;
      }
      var bound := LeaderBound(leader, None, now);
      if !bound {
        label Stale:
        l.boundTo := None;
        l.rig := None;
        LeaderChanged@Stale(leader);
      }
    }

    method LandBeat(leader: string, driving: Option<string>, now: Time) returns (reply: M.Reply)
      requires Valid()
      modifies Repr()
      ensures Valid() && Repr() == old(Repr())
      ensures M.Outcome(View(), reply) == M.LandBeat(old(View()), leader, driving, now)
    {
      if leader !in leaders {
        return M.Ignored;
      }
      var bound := LeaderBound(leader, driving, now);
      if !bound {
        PruneLeaderBinding(leader, now);
      }
      var command := AnswerCommand(leader, now);
      return M.Beat(command, bound);
    }

    method AnswerCommand(leader: string, now: Time) returns (command: Option<M.LeaderCommand>)
      requires Valid() && leader in leaders
      modifies leaders[leader]
      ensures var l := old(View()).leaders[leader];
              && command == M.TakenCommand(l, now)
              && View() == M.WithLeader(old(View()), leader, l.(pending := None))
    {
      command := leaders[leader].TakeCommand(now);
      LeaderChanged(leader);
    }

    method LandOrder(leader: string, order: M.Order, now: Time) returns (reply: M.Reply)
      requires Valid()
      modifies Repr()
      ensures Valid() && Repr() == old(Repr())
      ensures M.Outcome(View(), reply) == M.LandOrder(old(View()), leader, order, now)
    {
      if leader !in leaders {
        return M.Ignored;
      }
      match order {
        case Drive(rig, clientId) => reply := LandDrive(leader, rig, clientId, now);
        case Stop => reply := LandStop(leader, now);
        case Unknown => reply := M.Refused(400);
      }
    }

    method LandDrive(leader: string, rig: string, clientId: string, now: Time) returns (reply: M.Reply)
      requires Valid() && leader in leaders
      modifies Repr()
      ensures Valid() && Repr() == old(Repr())
      ensures M.Outcome(View(), reply) == M.LandDrive(old(View()), leader, rig, clientId, now)
    {
      if rig !in rigs {
        return M.Refused(404);
      }
      var status := rigs[rig].DriveGate(leaders[leader].driving, clientId, now);
      RigChanged(rig);
      if status != 200 {
        return M.Refused(status);
      }
      Lend(leader, rig, clientId, now);
      return M.Done;
    }

    method Lend(leader: string, rig: string, clientId: string, now: Time)
      requires Valid() && leader in leaders && rig in rigs
      modifies rigs[rig], leaders[leader]
      ensures View() == M.Lend(old(View()), leader, rig, clientId, now)
    {
      leaders[leader].Bind(clientId, rig, now);
      LeaderChanged(leader);
      label Bound:
      rigs[rig].Push([M.Command("teleop_stop", map[], Some(clientId), now, M.DriveStop),
                      M.Command("teleop_start_remote", map[], Some(clientId), now, M.DriveStart)]);
      RigChanged@Bound(rig);
    }

    method LandStop(leader: string, now: Time) returns (reply: M.Reply)
      requires Valid() && leader in leaders
      modifies Repr()
      ensures Valid() && Repr() == old(Repr())
      ensures M.Outcome(View(), reply) == M.LandStop(old(View()), leader, now)
    {
      var rig := leaders[leader].rig;
      UnbindLeader(leader, now);
      StopIfRoom(rig, now);
      return M.Done;
    }

    method StopIfRoom(rig: Option<string>, now: Time)
      requires Valid()
      modifies rigs.Values
      ensures View() == M.StopIfRoom(old(View()), rig, now)
    {
      if rig.Some? && rig.value in rigs && |rigs[rig.value].pending| < M.MAX_PENDING {
        PushStop(rig.value, now);
      }
    }

    method UnbindLeader(leader: string, now: Time)
      requires Valid() && leader in leaders
      modifies leaders[leader]
      ensures View() == M.Unbound(old(View()), leader, now)
    {
      leaders[leader].Unbind(now);
      LeaderChanged(leader);
    }

    method PushStop(rig: string, now: Time)
      requires Valid() && rig in rigs
      modifies rigs[rig]
      ensures View() == M.WithStop(old(View()), rig, now)
    {
      var holder := rigs[rig].LeaseHolder(now);
      rigs[rig].Push([M.Command("teleop_stop", map[], holder, now, M.Plain)]);
      RigChanged(rig);
    }

    method LandInput(ticket: nat, rig: string, packet: Input, dropped: bool, now: Time) returns (reply: M.Reply)
      requires Valid()
      modifies Repr()
      ensures Valid() && Repr() == old(Repr())
      ensures M.Outcome(View(), reply) == M.LandInput(old(View()), ticket, rig, packet, dropped, now)
    {
      if rig in rigs && !dropped {
        rigs[rig].inputOdo.NoteInputOdometer(packet);
        rigs[rig].PutInput(packet, now, ticket);
        RigChanged(rig);
      }
      return M.Done;
    }

    /** Both branches write the mailbox; only the one without a socket counts the packet. */
    method LandMessage(ticket: nat, rig: string, packet: Input, dropped: bool, now: Time) returns (reply: M.Reply)
      requires Valid()
      modifies Repr()
      ensures Valid() && Repr() == old(Repr())
      ensures M.Outcome(View(), reply) == M.LandMessage(M.Written, old(View()), ticket, rig, packet, dropped, now)
    {
      if rig !in rigs || dropped {
        return M.Ignored;
      }
      reply := M.Ignored;
      if rigs[rig].IsOnline(now) && rig in sockets {
        reply := M.Sent(M.Post(M.Mail(packet), now, ticket));
      } else {
        rigs[rig].inputOdo.NoteInputOdometer(packet);
      }
      rigs[rig].PutInput(packet, now, ticket);
      RigChanged(rig);
    }

    method TakeDown(ticket: nat)
      requires Valid()
      modifies this`flights
      ensures Valid() && Repr() == old(Repr()) && View() == old(View()).(flights := old(flights) - {ticket})
    {
      flights := flights - {ticket};
      EntriesKept();
    }

    method Land(ticket: nat, dropped: bool, now: Time) returns (reply: M.Reply)
      requires Valid()
      modifies Repr()
      ensures Valid() && Repr() == old(Repr())
      ensures M.Outcome(View(), reply) == M.OnLand(M.Written, old(View()), ticket, dropped, now)
    {
      if ticket !in flights {
        return M.Ignored;
      }
      var flight := flights[ticket];
      TakeDown(ticket);
      reply := Landing(flight, ticket, dropped, now);
    }

    method Landing(flight: M.Flight, ticket: nat, dropped: bool, now: Time) returns (reply: M.Reply)
      requires Valid()
      modifies Repr()
      ensures Valid() && Repr() == old(Repr())
      ensures M.Outcome(View(), reply) == M.Landing(M.Written, old(View()), flight, ticket, dropped, now)
    {
      match flight {
        case LinkFlight(rig) => reply := LandLink(rig, now);
        case BeatFlight(leader, driving) => reply := LandBeat(leader, driving, now);
        case OrderFlight(leader, order) => reply := LandOrder(leader, order, now);
        case InputFlight(rig, packet) => reply := LandInput(ticket, rig, packet, dropped, now);
        case SocketFlight(rig, packet) => reply := LandMessage(ticket, rig, packet, dropped, now);
      }
    }

    // ---- sockets and the market layer ---------------------------------------------------------------

    method Open(rig: string, socket: nat)
      requires Valid()
      modifies this`sockets
      ensures Valid() && Repr() == old(Repr()) && View() == old(View()).(sockets := old(sockets)[rig := socket])
    {
      sockets := sockets[rig := socket];
      EntriesKept();
    }

    method Close(rig: string, socket: nat)
      requires Valid()
      modifies this`sockets
      ensures Valid() && Repr() == old(Repr())
      ensures View() == if rig in old(sockets) && old(sockets)[rig] == socket
                        then old(View()).(sockets := old(sockets) - {rig}) else old(View())
    {
      if rig in sockets && sockets[rig] == socket {
        sockets := sockets - {rig};
        EntriesKept();
      }
    }

    method SetCeiling(rig: string, ceiling: Option<Time>)
      requires Valid()
      modifies Repr()
      ensures Valid() && Repr() == old(Repr())
      ensures View() == M.Ceiled(old(View()), rig, ceiling)
    {
      if rig in rigs {
        rigs[rig].leaseHardExpiry := ceiling;
        RigChanged(rig);
      }
    }

    method Revoke(rig: string)
      requires Valid()
      modifies Repr()
      ensures Valid() && Repr() == old(Repr())
      ensures View() == M.Revoked(old(View()), rig)
    {
      if rig in rigs {
        rigs[rig].RevokeLease();
        RigChanged(rig);
      }
    }

    method HandleRequest(e: M.Event) returns (reply: M.Reply)
      requires Valid() && (e.step.LeaderOrder? || e.step.Claim? || e.step.Release?)
      modifies Repr()
      ensures Valid() && Repr() == old(Repr())
      ensures M.Outcome(View(), reply) == M.Next(M.Written, old(View()), e)
    {
      match e.step {
        case LeaderOrder(leader, order) => reply := LeaderOrder(leader, order, e.now);
        case Claim(rig, clientId, force) => reply := Claim(rig, clientId, force, e.now);
        case Release(rig, clientId) => reply := Release(rig, clientId, e.now);
      }
    }

    method HandlePacket(e: M.Event) returns (reply: M.Reply)
      requires Valid() && (e.step.SendInput? || e.step.Message?)
      modifies Repr()
      ensures Valid() && Repr() == old(Repr())
      ensures M.Outcome(View(), reply) == M.Next(M.Written, old(View()), e)
    {
      match e.step {
        case SendInput(rig, clientId, packet) => reply := SendInput(rig, clientId, packet, e.now);
        case Message(leader, rig, joints) => reply := Message(leader, rig, joints, e.now);
      }
    }

    method HandleSocket(e: M.Event)
      requires Valid() && (e.step.Open? || e.step.Close?)
      modifies this`sockets
      ensures Valid() && Repr() == old(Repr())
      ensures M.Outcome(View(), M.Ignored) == M.Next(M.Written, old(View()), e)
    {
      match e.step {
        case Open(rig, socket) => Open(rig, socket);
        case Close(rig, socket) => Close(rig, socket);
      }
    }

    method HandleMarket(e: M.Event)
      requires Valid() && (e.step.SetCeiling? || e.step.Revoke?)
      modifies Repr()
      ensures Valid() && Repr() == old(Repr())
      ensures M.Outcome(View(), M.Ignored) == M.Next(M.Written, old(View()), e)
    {
      match e.step {
        case SetCeiling(rig, ceiling) => SetCeiling(rig, ceiling);
        case Revoke(rig) => Revoke(rig);
      }
    }

    /** Any event, as the machine takes it: what holds of every run of `HubModel.Next` holds of
        these objects. */
    method Handle(e: M.Event) returns (reply: M.Reply)
      requires Valid()
      modifies Repr()
      ensures Valid() && fresh(Repr() - old(Repr()))
      ensures M.Outcome(View(), reply) == M.Next(M.Written, old(View()), e)
    {
      match e.step {
        case Link(rig) => reply := Link(rig, e.now);
        case Heartbeat(leader, driving) => reply := Heartbeat(leader, driving, e.now);
        case Land(ticket, dropped) => reply := Land(ticket, dropped, e.now);
        case Open(_, _) => HandleSocket(e); reply := M.Ignored;
        case Close(_, _) => HandleSocket(e); reply := M.Ignored;
        case SetCeiling(_, _) => HandleMarket(e); reply := M.Ignored;
        case Revoke(_) => HandleMarket(e); reply := M.Ignored;
        case SendCommand(rig, clientId, body) => reply := SendCommand(rig, clientId, body, e.now);
        case LeaderOrder(_, _) => reply := HandleRequest(e);
        case Claim(_, _, _) => reply := HandleRequest(e);
        case Release(_, _) => reply := HandleRequest(e);
        case _ => reply := HandlePacket(e);
      }
    }
  }
}
