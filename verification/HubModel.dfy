/**
 The hub (apps/web/src/hub/store.ts, routes.ts, ws.ts) as a machine over its atomic steps.

 Handlers run to their next `await` without interruption, so one step is one such section.
 What a handler still has to do after an `await` is a flight; flights land in any order, each
 with a clock reading of its own. Rigs and leaders are never removed.
 */
module HubModel {
  import opened Prelude
  import opened Odometer

  /** Milliseconds, as `Date.now()` gives them. */
  type Time = int

  const RIG_TTL: Time := 5000
  const LEASE: Time := 20000
  const COMMAND_TTL: Time := 15000
  const INPUT_TTL: Time := 500
  const MAX_PENDING := 32
  const MAX_ARGS_BYTES := 4096
  const LEADER_PREFIX := "leader-"

  // ---- entities -----------------------------------------------------------------------------------

  datatype Lease = Lease(holder: string, expiresAt: Time)

  /** History: which half of a leader's drive order a command is, if any. */
  datatype Part = Plain | DriveStop | DriveStart

  datatype Command = Command(verb: string, args: map<string, string>, holder: Option<string>,
                             queuedAt: Time, part: Part)

  /** A packet in the mailbox or on a socket; `ticket` is history, the arrival it came from. */
  datatype Post = Post(packet: Input, at: Time, ticket: nat)

  datatype Rig = Rig(lastSeen: Time, lease: Option<Lease>, hardExpiry: Option<Time>,
                     pending: seq<Command>, input: Option<Post>, odo: Odo)

  datatype LeaderCommand = LeaderCommand(drive: bool, rig: Option<string>, queuedAt: Time)

  datatype Leader = Leader(driving: Option<string>, boundTo: Option<string>, rig: Option<string>,
                           pending: Option<LeaderCommand>, lastSeen: Time)

  datatype Order = Drive(rig: string, clientId: string) | Stop | Unknown

  /** What a suspended handler remembers. */
  datatype Flight =
    | LinkFlight(rig: string)
    | BeatFlight(leader: string, driving: Option<string>)
    | OrderFlight(leader: string, order: Order)
    | InputFlight(rig: string, packet: Input)
    | SocketFlight(rig: string, packet: Input)

  datatype Hub = Hub(rigs: map<string, Rig>, leaders: map<string, Leader>, sockets: map<string, nat>,
                     flights: map<nat, Flight>, tickets: nat)

  const EMPTY := Hub(map[], map[], map[], map[], 0)

  /** The body of a rig command; `size` is the length of its serialized arguments, `extra` what
      the market layer adds. */
  datatype Body = Body(verb: string, ownerKey: bool, args: map<string, string>, size: nat,
                       extra: map<string, string>)

  datatype Step =
    | Link(rig: string)
    | Heartbeat(leader: string, driving: Option<string>)
    | LeaderOrder(leader: string, order: Order)
    | Claim(rig: string, clientId: string, force: bool)
    | Release(rig: string, clientId: string)
    | SendInput(rig: string, clientId: string, packet: Input)
    | SendCommand(rig: string, clientId: string, body: Body)
    | Message(leader: string, rig: string, joints: Vector)
    | Open(rig: string, socket: nat)
    | Close(rig: string, socket: nat)
    | Land(ticket: nat, dropped: bool)
    | SetCeiling(rig: string, ceiling: Option<Time>)
    | Revoke(rig: string)

  datatype Event = Event(step: Step, now: Time)

  /** Steps that carry neither a packet nor a command and land nothing. */
  predicate Registers(s: Step) {
    !s.SendInput? && !s.SendCommand? && !s.Message? && !s.Land?
  }

  datatype Reply =
    | Refused(status: nat)
    | Await(ticket: nat)
    | Done
    | Ignored
    | Claimed(ok: bool, holder: Option<string>)
    | Linked(input: Option<Post>, commands: seq<Command>, holder: Option<string>)
    | Beat(command: Option<LeaderCommand>, bound: bool)
    | Sent(post: Post)

  datatype Outcome = Outcome(hub: Hub, reply: Reply)

  /** The socket handler as it is written, and as its header describes it: there a packet pushed
      over a socket never enters the mailbox. */
  datatype Design = Written | Described

  // ---- verbs ------------------------------------------------------------------------------------

  datatype Tier = Safety | Owner | Holder
  datatype Verb = Verb(tier: Tier, args: Option<set<string>>, hubOnly: set<string>)

  function Table(): map<string, Verb> {
    var plain := Verb(Holder, None, {});
    map[
      "connect_sim" := plain, "connect_real" := plain,
      "teleop_start" := plain, "teleop_start_leader" := plain, "teleop_start_remote" := plain,
      "teleop_stop" := Verb(Safety, None, {}), "estop" := Verb(Safety, None, {}),
      "task_upsert" := Verb(Owner, Some({"task"}), {}), "task_delete" := Verb(Owner, Some({"id"}), {}),
      "dataset_push" := Verb(Owner, Some({"repoName", "private", "excludeEpisodes"}), {"excludeEpisodes"}),
      "attempt_start" := Verb(Holder, Some({"taskId", "rejectedEpisodes"}), {"rejectedEpisodes"}),
      "attempt_finish" := Verb(Holder, Some({"success"}), {}),
      "camera_probe" := Verb(Owner, None, {}),
      "camera_confirm" := Verb(Owner, Some({"workspace", "wrist"}), {}),
      "camera_disable" := Verb(Owner, Some({"index", "disabled"}), {}),
      "run_create" := Verb(Owner, Some({"id", "name", "datasetRepoId", "episodes", "pretrainedPath",
                                        "steps", "batchSize", "saveFreq", "hypothesis"}), {}),
      "run_update" := Verb(Owner, Some({"id", "status", "hypothesis", "finding"}), {})
    ]
  }

  /** `v in table` also finds what every object inherits. */
  function VerbOf(name: string): Option<Verb> {
    if name in Table() then Some(Table()[name])
    else if Inherited(name) then Some(Verb(Holder, None, {}))
    else None
  }

  // ---- the lease ----------------------------------------------------------------------------------

  function HolderAt(r: Rig, now: Time): Option<string> {
    if r.lease.Some? && r.lease.value.expiresAt > now then Some(r.lease.value.holder) else None
  }

  /** Asking for the holder forgets an expired lease. */
  function Settled(r: Rig, now: Time): Rig {
    if HolderAt(r, now).None? then r.(lease := None) else r
  }

  /** When a lease taken now runs out. */
  function Until(r: Rig, now: Time): Time {
    if r.hardExpiry.Some? && r.hardExpiry.value < now + LEASE then r.hardExpiry.value else now + LEASE
  }

  predicate MayClaim(r: Rig, holder: string, force: bool, now: Time) {
    (force || HolderAt(r, now) in {None, Some(holder)}) && Until(r, now) > now
  }

  function ClaimLease(r: Rig, holder: string, force: bool, now: Time): Rig {
    if MayClaim(r, holder, force, now) then r.(lease := Some(Lease(holder, Until(r, now))))
    else Settled(r, now)
  }

  function ReleaseLease(r: Rig, holder: string, now: Time): Rig {
    if HolderAt(r, now) == Some(holder) then r.(lease := None) else Settled(r, now)
  }

  // ---- leader bindings ----------------------------------------------------------------------------

  predicate MayDrive(l: Leader, name: string, r: Rig, now: Time) {
    l.rig == Some(name) && l.boundTo.Some? && l.boundTo == HolderAt(r, now)
  }

  /** `leaderMayDrive` looks at the lease only for a leader bound to this rig. */
  function Asked(l: Leader, name: string, r: Rig, now: Time): Rig {
    if l.rig == Some(name) && l.boundTo.Some? then Settled(r, now) else r
  }

  function BoundName(l: Leader, driving: Option<string>): Option<string> {
    if driving.Some? then driving else l.rig
  }

  predicate Bound(h: Hub, l: Leader, driving: Option<string>, now: Time) {
    var name := BoundName(l, driving);
    name.Some? && l.boundTo.Some? && name.value in h.rigs && MayDrive(l, name.value, h.rigs[name.value], now)
  }

  function AskBound(h: Hub, l: Leader, driving: Option<string>, now: Time): Hub {
    var name := BoundName(l, driving);
    if name.Some? && l.boundTo.Some? && name.value in h.rigs then
      WithRig(h, name.value, Asked(l, name.value, h.rigs[name.value], now))
    else h
  }

  /** The hub and the leader after `pruneLeaderBinding`. */
  function Prune(h: Hub, name: string, now: Time): Hub
    requires name in h.leaders
  {
    var l := h.leaders[name];
    if l.boundTo.None? then h
    else
      var asked := AskBound(h, l, None, now);
      if Bound(h, l, None, now) then asked
      else WithLeader(asked, name, l.(boundTo := None, rig := None))
  }

  function Fresh(c: LeaderCommand, now: Time): bool {
    now - c.queuedAt < COMMAND_TTL
  }

  function TakenCommand(l: Leader, now: Time): Option<LeaderCommand> {
    if l.pending.Some? && Fresh(l.pending.value, now) then l.pending else None
  }

  // ---- the queue and the mailbox --------------------------------------------------------------------

  /** The commands not yet stale, in order. */
  function Live(q: seq<Command>, now: Time): seq<Command> {
    if q == [] then []
    else Live(q[..|q| - 1], now) + if now - q[|q| - 1].queuedAt < COMMAND_TTL then [q[|q| - 1]] else []
  }

  /** What the mailbox keeps of a packet: joints first, else axes. */
  function Mail(p: Input): Input {
    if p.joints.Some? then Input(None, p.joints)
    else Input(Some(if p.axes.Some? then p.axes.value else []), None)
  }

  predicate Online(lastSeen: Time, now: Time) {
    now - lastSeen < RIG_TTL
  }

  // ---- plumbing ---------------------------------------------------------------------------------

  function WithRig(h: Hub, name: string, r: Rig): Hub {
    h.(rigs := h.rigs[name := r])
  }

  function WithLeader(h: Hub, name: string, l: Leader): Hub {
    h.(leaders := h.leaders[name := l])
  }

  function Suspend(h: Hub, f: Flight): Outcome {
    Outcome(h.(flights := h.flights[h.tickets := f], tickets := h.tickets + 1), Await(h.tickets))
  }

  function NewRig(now: Time): Rig {
    Rig(now, None, None, [], None, FRESH)
  }

  function NewLeader(driving: Option<string>, now: Time): Leader {
    Leader(driving, None, None, None, now)
  }

  // ---- handlers, up to their first await ------------------------------------------------------------

  function OnLink(h: Hub, rig: string, now: Time): Outcome {
    if rig == "" then Outcome(h, Refused(400))
    else
      var r := if rig in h.rigs then h.rigs[rig].(lastSeen := now) else NewRig(now);
      Suspend(WithRig(h, rig, r), LinkFlight(rig))
  }

  function OnHeartbeat(h: Hub, leader: string, driving: Option<string>, now: Time): Outcome {
    if leader == "" then Outcome(h, Refused(400))
    else
      var l := if leader in h.leaders then h.leaders[leader].(driving := driving, lastSeen := now)
               else NewLeader(driving, now);
      Suspend(WithLeader(h, leader, l), BeatFlight(leader, driving))
  }

  function OnLeaderOrder(h: Hub, leader: string, order: Order, now: Time): Outcome {
    if leader !in h.leaders then Outcome(h, Refused(404))
    else if !Online(h.leaders[leader].lastSeen, now) then Outcome(h, Refused(409))
    else Suspend(h, OrderFlight(leader, order))
  }

  function OnClaim(h: Hub, rig: string, clientId: string, force: bool, now: Time): Outcome {
    if rig !in h.rigs then Outcome(h, Refused(404))
    else if clientId == "" then Outcome(h, Refused(400))
    else
      var r := ClaimLease(h.rigs[rig], clientId, force, now);
      Outcome(WithRig(h, rig, r), Claimed(MayClaim(h.rigs[rig], clientId, force, now), HolderAt(r, now)))
  }

  function OnRelease(h: Hub, rig: string, clientId: string, now: Time): Outcome {
    if rig !in h.rigs then Outcome(h, Refused(404))
    else if clientId == "" then Outcome(h, Refused(400))
    else Outcome(WithRig(h, rig, ReleaseLease(h.rigs[rig], clientId, now)), Done)
  }

  /** The leader a client id names, if it names a registered one. */
  function LeaderNamed(h: Hub, clientId: string): Option<string> {
    if LEADER_PREFIX <= clientId && clientId[|LEADER_PREFIX|..] in h.leaders
    then Some(clientId[|LEADER_PREFIX|..]) else None
  }

  /** THE input rule: a leader's packet passes for the browser it is bound to while that one
      holds the rig; any other client must hold the rig itself. */
  predicate MayInput(h: Hub, rig: string, clientId: string, now: Time)
    requires rig in h.rigs
  {
    var leader := LeaderNamed(h, clientId);
    if leader.Some? then MayDrive(h.leaders[leader.value], rig, h.rigs[rig], now)
    else HolderAt(h.rigs[rig], now) == Some(clientId)
  }

  /** The rig after the check: only a browser's own packet renews the lease. */
  function InputAsked(h: Hub, rig: string, clientId: string, now: Time): Rig
    requires rig in h.rigs
  {
    var leader := LeaderNamed(h, clientId);
    if leader.Some? then Asked(h.leaders[leader.value], rig, h.rigs[rig], now)
    else if HolderAt(h.rigs[rig], now) == Some(clientId) then ClaimLease(h.rigs[rig], clientId, false, now)
    else Settled(h.rigs[rig], now)
  }

  function OnInput(h: Hub, rig: string, clientId: string, packet: Input, now: Time): Outcome {
    if rig !in h.rigs then Outcome(h, Refused(404))
    else if clientId == "" then Outcome(h, Refused(400))
    else
      var asked := WithRig(h, rig, InputAsked(h, rig, clientId, now));
      if MayInput(h, rig, clientId, now) then Suspend(asked, InputFlight(rig, packet))
      else Outcome(asked, Refused(403))
  }

  function OnCommand(h: Hub, rig: string, clientId: string, b: Body, now: Time): Outcome {
    if rig !in h.rigs then Outcome(h, Refused(404))
    else if clientId == "" then Outcome(h, Refused(400))
    else if VerbOf(b.verb).None? then Outcome(h, Refused(403))
    else OnVerb(h, rig, clientId, b, VerbOf(b.verb).value, now)
  }

  /** The gates of a known verb, in the order the handler has them; 200 when all are open. */
  function VerbStatus(r: Rig, clientId: string, b: Body, v: Verb, now: Time): nat {
    var allowed := if v.args.Some? then v.args.value - v.hubOnly else {};
    if v.tier == Owner && !b.ownerKey then 403
    else if v.tier == Holder && HolderAt(r, now) != Some(clientId) then 403
    else if !(b.args.Keys <= allowed) then 403
    else if b.size > MAX_ARGS_BYTES then 413
    else if !Online(r.lastSeen, now) then 409
    else if |r.pending| >= MAX_PENDING then 429
    else 200
  }

  /** The command a verb becomes; arguments are relayed only for verbs that take some. */
  function Relayed(r: Rig, b: Body, v: Verb, now: Time): Command {
    Command(b.verb, if v.args.Some? then b.args + b.extra else map[], HolderAt(r, now), now, Plain)
  }

  function OnVerb(h: Hub, rig: string, clientId: string, b: Body, v: Verb, now: Time): Outcome
    requires rig in h.rigs
  {
    var r := h.rigs[rig];
    var status := VerbStatus(r, clientId, b, v, now);
    var asked := if v.tier == Holder then Settled(r, now) else r;
    if status != 200 then Outcome(WithRig(h, rig, asked), Refused(status))
    else Outcome(WithRig(h, rig, Settled(r, now).(pending := r.pending + [Relayed(r, b, v, now)])), Done)
  }

  function OnMessage(h: Hub, leader: string, rig: string, joints: Vector, now: Time): Outcome {
    if rig !in h.rigs || leader !in h.leaders then Outcome(h, Ignored)
    else
      var asked := WithRig(h, rig, Asked(h.leaders[leader], rig, h.rigs[rig], now));
      if MayDrive(h.leaders[leader], rig, h.rigs[rig], now)
      then Suspend(asked, SocketFlight(rig, Input(None, Some(joints))))
      else Outcome(asked, Ignored)
  }

  // ---- handlers, after their await ----------------------------------------------------------------

  function LandLink(h: Hub, rig: string, now: Time): Outcome {
    if rig !in h.rigs then Outcome(h, Ignored)
    else
      var r := h.rigs[rig];
      var input := if r.input.Some? && now - r.input.value.at < INPUT_TTL then r.input else None;
      Outcome(WithRig(h, rig, Settled(r, now).(pending := [], input := None)),
              Linked(input, Live(r.pending, now), HolderAt(r, now)))
  }

  function LandBeat(h: Hub, leader: string, driving: Option<string>, now: Time): Outcome {
    if leader !in h.leaders then Outcome(h, Ignored)
    else
      var l := h.leaders[leader];
      var bound := Bound(h, l, driving, now);
      var asked := AskBound(h, l, driving, now);
      var pruned := if bound then asked else Prune(asked, leader, now);
      Outcome(WithLeader(pruned, leader, pruned.leaders[leader].(pending := None)),
              Beat(TakenCommand(pruned.leaders[leader], now), bound))
  }

  /** Every check of a drive order, in the order the handler makes them. */
  function DriveStatus(h: Hub, l: Leader, rig: string, clientId: string, now: Time): nat {
    if rig !in h.rigs then 404 else DriveGate(h.rigs[rig], rig, l.driving, clientId, now)
  }

  function DriveGate(r: Rig, rig: string, driving: Option<string>, clientId: string, now: Time): nat {
    if !Online(r.lastSeen, now) then 409
    else if clientId == "" then 400
    else if HolderAt(r, now) != Some(clientId) then 403
    else if driving.Some? && driving != Some(rig) then 409
    else if |r.pending| >= MAX_PENDING then 429
    else 200
  }

  /** The gate looks at the lease only after its first two checks. */
  function DriveAsked(r: Rig, clientId: string, now: Time): Rig {
    if !Online(r.lastSeen, now) || clientId == "" then r else Settled(r, now)
  }

  /** The accepted order: bind the leader, and have the rig start its remote source. */
  function Lend(h: Hub, leader: string, rig: string, clientId: string, now: Time): Hub
    requires leader in h.leaders && rig in h.rigs
  {
    var l, r := h.leaders[leader], h.rigs[rig];
    var stop := Command("teleop_stop", map[], Some(clientId), now, DriveStop);
    var start := Command("teleop_start_remote", map[], Some(clientId), now, DriveStart);
    WithRig(WithLeader(h, leader, l.(boundTo := Some(clientId), rig := Some(rig),
                                     pending := Some(LeaderCommand(true, Some(rig), now)))),
            rig, r.(pending := r.pending + [stop, start]))
  }

  function LandDrive(h: Hub, leader: string, rig: string, clientId: string, now: Time): Outcome
    requires leader in h.leaders
  {
    var status := DriveStatus(h, h.leaders[leader], rig, clientId, now);
    if rig !in h.rigs then Outcome(h, Refused(status))
    else
      var asked := WithRig(h, rig, DriveAsked(h.rigs[rig], clientId, now));
      if status != 200 then Outcome(asked, Refused(status))
      else Outcome(Lend(asked, leader, rig, clientId, now), Done)
  }

  function Unbound(h: Hub, leader: string, now: Time): Hub
    requires leader in h.leaders
  {
    WithLeader(h, leader, h.leaders[leader].(boundTo := None, rig := None,
                                             pending := Some(LeaderCommand(false, None, now))))
  }

  function WithStop(h: Hub, rig: string, now: Time): Hub
    requires rig in h.rigs
  {
    var r := h.rigs[rig];
    WithRig(h, rig, Settled(r, now).(pending := r.pending + [Command("teleop_stop", map[], HolderAt(r, now), now, Plain)]))
  }

  function StopIfRoom(h: Hub, rig: Option<string>, now: Time): Hub {
    if rig.Some? && rig.value in h.rigs && |h.rigs[rig.value].pending| < MAX_PENDING then WithStop(h, rig.value, now)
    else h
  }

  function LandStop(h: Hub, leader: string, now: Time): Outcome
    requires leader in h.leaders
  {
    Outcome(StopIfRoom(Unbound(h, leader, now), h.leaders[leader].rig, now), Done)
  }

  function LandOrder(h: Hub, leader: string, order: Order, now: Time): Outcome {
    if leader !in h.leaders then Outcome(h, Ignored)
    else
      match order
      case Drive(rig, clientId) => LandDrive(h, leader, rig, clientId, now)
      case Stop => LandStop(h, leader, now)
      case Unknown => Outcome(h, Refused(400))
  }

  function LandInput(h: Hub, ticket: nat, rig: string, packet: Input, dropped: bool, now: Time): Outcome {
    if rig !in h.rigs || dropped then Outcome(h, Done)
    else
      var r := h.rigs[rig];
      Outcome(WithRig(h, rig, r.(odo := Note(r.odo, packet), input := Some(Post(Mail(packet), now, ticket)))),
              Done)
  }

  /** The rig's socket, while its own link says it is alive. */
  predicate SocketUp(h: Hub, rig: string, now: Time) {
    rig in h.rigs && Online(h.rigs[rig].lastSeen, now) && rig in h.sockets
  }

  function LandMessage(d: Design, h: Hub, ticket: nat, rig: string, packet: Input, dropped: bool, now: Time): Outcome {
    if rig !in h.rigs || dropped then Outcome(h, Ignored)
    else
      var r := h.rigs[rig];
      var post := Post(Mail(packet), now, ticket);
      if SocketUp(h, rig, now) then
        Outcome(if d == Written then WithRig(h, rig, r.(input := Some(post))) else h, Sent(post))
      else
        Outcome(WithRig(h, rig, r.(odo := Note(r.odo, packet), input := Some(post))), Ignored)
  }

  function Landing(d: Design, h: Hub, f: Flight, ticket: nat, dropped: bool, now: Time): Outcome {
    match f
    case LinkFlight(rig) => LandLink(h, rig, now)
    case BeatFlight(leader, driving) => LandBeat(h, leader, driving, now)
    case OrderFlight(leader, order) => LandOrder(h, leader, order, now)
    case InputFlight(rig, packet) => LandInput(h, ticket, rig, packet, dropped, now)
    case SocketFlight(rig, packet) => LandMessage(d, h, ticket, rig, packet, dropped, now)
  }

  function OnLand(d: Design, h: Hub, ticket: nat, dropped: bool, now: Time): Outcome {
    if ticket !in h.flights then Outcome(h, Ignored)
    else Landing(d, h.(flights := h.flights - {ticket}), h.flights[ticket], ticket, dropped, now)
  }

  // ---- what the market layer does to a rig ----------------------------------------------------------

  function Ceiled(h: Hub, rig: string, ceiling: Option<Time>): Hub {
    if rig in h.rigs then WithRig(h, rig, h.rigs[rig].(hardExpiry := ceiling)) else h
  }

  function Revoked(h: Hub, rig: string): Hub {
    if rig in h.rigs then WithRig(h, rig, h.rigs[rig].(lease := None)) else h
  }

  // ---- the machine --------------------------------------------------------------------------------

  function Next(d: Design, h: Hub, e: Event): Outcome {
    match e.step
    case Link(rig) => OnLink(h, rig, e.now)
    case Heartbeat(leader, driving) => OnHeartbeat(h, leader, driving, e.now)
    case LeaderOrder(leader, order) => OnLeaderOrder(h, leader, order, e.now)
    case Claim(rig, clientId, force) => OnClaim(h, rig, clientId, force, e.now)
    case Release(rig, clientId) => OnRelease(h, rig, clientId, e.now)
    case SendInput(rig, clientId, packet) => OnInput(h, rig, clientId, packet, e.now)
    case SendCommand(rig, clientId, body) => OnCommand(h, rig, clientId, body, e.now)
    case Message(leader, rig, joints) => OnMessage(h, leader, rig, joints, e.now)
    case Open(rig, socket) => Outcome(h.(sockets := h.sockets[rig := socket]), Ignored)
    case Close(rig, socket) =>
      Outcome(if rig in h.sockets && h.sockets[rig] == socket then h.(sockets := h.sockets - {rig}) else h, Ignored)
    case Land(ticket, dropped) => OnLand(d, h, ticket, dropped, e.now)
    case SetCeiling(rig, ceiling) => Outcome(Ceiled(h, rig, ceiling), Ignored)
    case Revoke(rig) => Outcome(Revoked(h, rig), Ignored)
  }

  /** An execution: `hubs` are the successive states of the events in `run`, whose clock
      readings never go back. */
  ghost predicate Execution(d: Design, hubs: seq<Hub>, run: seq<Event>) {
    && |hubs| == |run| + 1 && hubs[0] == EMPTY
    && (forall i {:trigger Next(d, hubs[i], run[i])} :: 0 <= i < |run| ==> hubs[i + 1] == Next(d, hubs[i], run[i]).hub)
    && (forall i, j :: 0 <= i < j < |run| ==> run[i].now <= run[j].now)
  }

  lemma ExtendExecution(d: Design, hubs: seq<Hub>, run: seq<Event>, e: Event, next: Hub)
    requires Execution(d, hubs, run) && next == Next(d, hubs[|run|], e).hub
    requires run != [] ==> run[|run| - 1].now <= e.now
    ensures Execution(d, hubs + [next], run + [e])
  {
    forall i | 0 <= i < |run + [e]|
      ensures (hubs + [next])[i + 1] == Next(d, (hubs + [next])[i], (run + [e])[i]).hub
    {
      if i < |run| {
        assert run[i] == (run + [e])[i];
      }
    }
  }
}
