/**
 The headset's own hub client (apps/avp-client/AVPIsaacLeader/DirectHubLeaderClient.swift):
 arming and clutching as in the Mac gateway, with a jerk-limited trajectory in place of the
 low-pass filter. Everything runs on the main actor, so a step is the code between awaits.
 */
module SwiftLeader {
  import opened Prelude
  import opened RealMath
  import opened Clutch

  const COMMAND_TIMEOUT := 0.5
  const SOURCE_FRESHNESS := 0.12
  const EDGE_RATE := 25.0

  function MaxSpeed(j: Joint): real { if j == GRIPPER then 30.0 else 25.0 }
  function MaxAcceleration(j: Joint): real { if j == GRIPPER then 140.0 else 100.0 }
  function MaxJerk(j: Joint): real { if j == GRIPPER then 1000.0 else 700.0 }
  function Lead(j: Joint): real { Max(if j == GRIPPER then 35.0 else 20.0, MaxSpeed(j) * 1.5) }

  /** Shoulder pan is mirrored in the headset; every other axis follows directly. */
  function Direction(j: Joint): real { if j == 0 then -1.0 else 1.0 }

  /** `sqrt` as the program's mathematics library promises it. */
  ghost predicate IsSquareRoot(root: real -> real) {
    forall x :: x >= 0.0 ==> root(x) >= 0.0 && Times(root(x), root(x)) == x
  }

  // ---- one joint of the trajectory ---------------------------------------------------------

  datatype Motion = Motion(position: real, velocity: real, acceleration: real)

  function RequestedVelocity(error: real, j: Joint, root: real -> real): real {
    var stopping := root(2.0 * MaxAcceleration(j) * Abs(error));
    if error == 0.0 then 0.0
    else if error > 0.0 then Min(MaxSpeed(j), stopping) else -Min(MaxSpeed(j), stopping)
  }

  function NextAcceleration(m: Motion, error: real, dt: Tick, j: Joint, root: real -> real): real {
    var requested := Clamp(-MaxAcceleration(j), MaxAcceleration(j),
                           (RequestedVelocity(error, j, root) - m.velocity) / dt);
    var step := MaxJerk(j) * dt;
    m.acceleration + Clamp(-step, step, requested - m.acceleration)
  }

  /** The trajectory before the telemetry guard. */
  function Travel(m: Motion, goal: real, dt: Tick, j: Joint, root: real -> real): Motion {
    var error := goal - m.position;
    var acceleration := NextAcceleration(m, error, dt, j, root);
    var velocity := Clamp(-MaxSpeed(j), MaxSpeed(j), m.velocity + Times(acceleration, dt));
    var stepped := m.position + Times(velocity, dt);
    if Abs(stepped - m.position) >= Abs(error) then Motion(goal, 0.0, 0.0)
    else Motion(stepped, velocity, acceleration)
  }

  function Guard(m: Motion, anchor: real, j: Joint): Motion {
    var guarded := Clamp(anchor - Lead(j), anchor + Lead(j), m.position);
    if guarded != m.position then Motion(guarded, 0.0, 0.0) else m
  }

  function Advance(m: Motion, wanted: real, anchor: real, dt: Tick, j: Joint, root: real -> real): Motion {
    Guard(Travel(m, Clamp(Low(j), High(j), wanted), dt, j, root), anchor, j)
  }

  // ---- the client's state --------------------------------------------------------------------

  type Flags = s: seq<int> | |s| == JOINTS witness [0, 0, 0, 0, 0, 0]

  datatype Command = Command(radians: Pose, gripper: real, armActive: bool, gripperActive: bool,
                             saturation: Flags)
  datatype Sample = Sample(command: Command, receivedAt: real)
  datatype Packet = Packet(rig: string, joints: Pose)

  const STILL: Pose := [0.0, 0.0, 0.0, 0.0, 0.0, 0.0]

  datatype Client = Client(connected: bool, armed: bool, bound: bool, selected: Option<string>,
                           latest: Option<Sample>, actual: Pose, target: Pose,
                           armVirtual: Option<Pose>, armPhysical: Option<Pose>,
                           gripVirtual: Option<real>, gripPhysical: Option<real>,
                           velocity: Pose, acceleration: Pose, neutral: bool)

  const START := Client(false, false, false, None, None, REST_POSE, REST_POSE,
                        None, None, None, None, STILL, STILL, false)

  predicate Paired(b: Client) {
    && (b.armVirtual.Some? <==> b.armPhysical.Some?)
    && (b.gripVirtual.Some? <==> b.gripPhysical.Some?)
  }

  predicate Cleared(b: Client) {
    && b.armVirtual.None? && b.armPhysical.None? && b.gripVirtual.None? && b.gripPhysical.None?
    && b.velocity == STILL && b.acceleration == STILL && !b.neutral
  }

  predicate WithinCaps(b: Client) {
    forall j: Joint :: Abs(b.velocity[j]) <= MaxSpeed(j) && Abs(b.acceleration[j]) <= MaxAcceleration(j)
  }

  predicate Safe(b: Client) {
    && (b.armed ==> b.connected && b.bound && b.selected.Some?)
    && (!b.armed ==> Cleared(b))
    && Paired(b)
    && WithinCaps(b)
  }

  function ClearClutches(b: Client): Client {
    b.(neutral := false, armVirtual := None, armPhysical := None, gripVirtual := None, gripPhysical := None,
       velocity := STILL, acceleration := STILL)
  }

  function Disconnect(b: Client): Client {
    ClearClutches(b.(armed := false, selected := None, bound := false, latest := None, connected := false))
  }

  function ClearBinding(b: Client): Client {
    ClearClutches(b.(armed := false, bound := false, selected := None, latest := None))
  }

  function FailClosed(b: Client): Client {
    ClearClutches(b.(armed := false, bound := false, latest := None))
  }

  function StopLocally(b: Client): Client {
    ClearClutches(b.(armed := false, latest := None))
  }

  function CanArm(b: Client): bool {
    b.connected && b.bound && b.selected.Some?
  }

  function Arm(b: Client): Client {
    if !CanArm(b) then b else ClearClutches(b.(armed := true, target := b.actual))
  }

  function MoveToNeutral(b: Client): Client {
    if !(CanArm(b) && b.armed) then b else ClearClutches(b).(neutral := true)
  }

  function Refresh(b: Client, joints: map<Joint, real>): Client {
    if b.selected.None? || joints == map[] then b
    else
      var actual := Merge(b.actual, joints);
      b.(actual := actual, target := if b.armed then b.target else actual)
  }

  datatype LinkCommand = NoCommand | Drive(rig: string) | Stop

  function Link(b: Client, command: LinkCommand, bound: bool): Client {
    match command
    case Drive(rig) =>
      if rig == "" then FailClosed(b)
      else ClearClutches(b.(selected := Some(rig), bound := bound, armed := false, latest := None))
    case Stop => ClearBinding(b)
    case NoCommand =>
      if b.selected.Some? && !bound then ClearBinding(b) else b.(bound := b.selected.Some?)
  }

  // ---- one tick of the input loop ------------------------------------------------------------

  function Age(b: Client, now: real): real
    requires b.latest.Some?
  {
    now - b.latest.value.receivedAt
  }

  predicate Streaming(b: Client) {
    b.armed && b.bound && b.selected.Some? && b.latest.Some?
  }

  predicate Alive(b: Client, now: real) {
    Streaming(b) && Age(b, now) <= COMMAND_TIMEOUT
  }

  /** The last pose with its activity flags dropped once the volume stopped refreshing. */
  function Current(b: Client, now: real): Command
    requires b.latest.Some?
  {
    var live := Age(b, now) <= SOURCE_FRESHNESS;
    var c := b.latest.value.command;
    c.(armActive := live && c.armActive, gripperActive := live && c.gripperActive)
  }

  function Neutral(b: Client, c: Command): bool {
    b.neutral && !(c.armActive || c.gripperActive)
  }

  predicate Active(b: Client, c: Command) {
    Neutral(b, c) || c.armActive || c.gripperActive
  }

  predicate AtEdge(c: Command, j: Joint) {
    c.saturation[j] in {-1, 1} && if j == GRIPPER then c.gripperActive else c.armActive
  }

  function Pinned(start: Pose, c: Command, j: Joint): real {
    if j != GRIPPER && AtEdge(c, j) then c.radians[j] else start[j]
  }

  function PinVirtual(start: Pose, c: Command): Pose {
    seq(JOINTS, j requires 0 <= j < JOINTS => Pinned(start, c, j))
  }

  function ArmVirtual(b: Client, c: Command): Option<Pose> {
    if Neutral(b, c) then b.armVirtual
    else if !c.armActive then None
    else Some(PinVirtual(if b.armVirtual.Some? then b.armVirtual.value else c.radians, c))
  }

  function ArmPhysical(b: Client, c: Command): Option<Pose> {
    if Neutral(b, c) then b.armPhysical
    else if !c.armActive then None
    else if b.armVirtual.Some? then b.armPhysical else Some(b.target)
  }

  function GripVirtual(b: Client, c: Command): Option<real> {
    if Neutral(b, c) then b.gripVirtual
    else if !c.gripperActive then None
    else if b.gripVirtual.None? || AtEdge(c, GRIPPER) then Some(c.gripper)
    else b.gripVirtual
  }

  function GripPhysical(b: Client, c: Command): Option<real> {
    if Neutral(b, c) then b.gripPhysical
    else if !c.gripperActive then None
    else if b.gripVirtual.Some? then b.gripPhysical else Some(b.target[GRIPPER])
  }

  function Follow(base: real, direction: real, radians: real): real {
    base + Degrees(Times(direction, radians))
  }

  function BodyDesired(target: real, base: real, physical: real, c: Command, dt: Tick, j: Joint): real
    requires j != GRIPPER
  {
    if AtEdge(c, j) then Creep(target, c.saturation[j], EDGE_RATE, dt)
    else Follow(physical, Direction(j), SwiftWrappedDelta(c.radians[j], base))
  }

  function GripDesired(target: real, base: real, physical: real, c: Command, dt: Tick): real {
    if AtEdge(c, GRIPPER) then Creep(target, c.saturation[GRIPPER], MaxSpeed(GRIPPER), dt)
    else EndpointClutched(c.gripper, base, physical, 0.0, 100.0, 1)
  }

  function Desired(b: Client, c: Command, dt: Tick, j: Joint): real
    requires Paired(b)
  {
    if Neutral(b, c) then (if j == GRIPPER then b.target[j] else REST_POSE[j])
    else if j == GRIPPER then
      if !c.gripperActive then b.target[j]
      else GripDesired(b.target[j], GripVirtual(b, c).value, GripPhysical(b, c).value, c, dt)
    else if !c.armActive then b.target[j]
    else BodyDesired(b.target[j], ArmVirtual(b, c).value[j], ArmPhysical(b, c).value[j], c, dt, j)
  }

  function JointMotion(b: Client, j: Joint): Motion {
    Motion(b.target[j], b.velocity[j], b.acceleration[j])
  }

  function NextMotion(b: Client, c: Command, dt: Tick, j: Joint, root: real -> real): Motion
    requires Paired(b)
  {
    Advance(JointMotion(b, j), Desired(b, c, dt, j), b.actual[j], dt, j, root)
  }

  function Positions(b: Client, c: Command, dt: Tick, root: real -> real): Pose
    requires Paired(b)
  {
    seq(JOINTS, j requires 0 <= j < JOINTS => NextMotion(b, c, dt, j, root).position)
  }

  function Velocities(b: Client, c: Command, dt: Tick, root: real -> real): Pose
    requires Paired(b)
  {
    seq(JOINTS, j requires 0 <= j < JOINTS => NextMotion(b, c, dt, j, root).velocity)
  }

  function Accelerations(b: Client, c: Command, dt: Tick, root: real -> real): Pose
    requires Paired(b)
  {
    seq(JOINTS, j requires 0 <= j < JOINTS => NextMotion(b, c, dt, j, root).acceleration)
  }

  predicate AtNeutral(actual: Pose) {
    forall j :: 0 <= j < GRIPPER ==> Abs(actual[j] - REST_POSE[j]) < 1.5
  }

  function PinAtEdges(c: Command, physical: Pose, limited: Pose): Pose {
    seq(JOINTS, j requires 0 <= j < JOINTS =>
      if j != GRIPPER && AtEdge(c, j) then limited[j] else physical[j])
  }

  function Clutched(b: Client, c: Command): Client {
    b.(neutral := Neutral(b, c), armVirtual := ArmVirtual(b, c), armPhysical := ArmPhysical(b, c),
       gripVirtual := GripVirtual(b, c), gripPhysical := GripPhysical(b, c))
  }

  /** After the targets moved: finish a neutral move and re-pin edge-continued clutches. */
  function Settle(b: Client, c: Command): Client {
    b.(neutral := b.neutral && !AtNeutral(b.actual),
       armPhysical := if b.armPhysical.Some?
                      then Some(PinAtEdges(c, b.armPhysical.value, b.target)) else None,
       gripPhysical := if AtEdge(c, GRIPPER) then Some(b.target[GRIPPER]) else b.gripPhysical)
  }

  function Advanced(b: Client, c: Command, dt: Tick, root: real -> real): Client
    requires Paired(b)
  {
    Settle(Clutched(b, c).(target := Positions(b, c, dt, root), velocity := Velocities(b, c, dt, root),
                           acceleration := Accelerations(b, c, dt, root)), c)
  }

  function NextInput(b: Client, dt: Tick, now: real, root: real -> real): (r: (Client, Option<Packet>))
    requires Paired(b)
  {
    if !Streaming(b) then (b, None)
    else if !Alive(b, now) then (ClearClutches(b.(armed := false)), None)
    else
      var c := Current(b, now);
      if !Active(b, c) then (Clutched(b, c), Some(Packet(b.selected.value, b.target)))
      else (Advanced(b, c, dt, root), Some(Packet(b.selected.value, Positions(b, c, dt, root))))
  }

  // ---- the loops over joints -----------------------------------------------------------------

  method FollowArm(start: Pose, physical: Pose, target: Pose, c: Command, dt: Tick)
    returns (base: Pose, desired: Pose)
    requires c.armActive
    ensures base == PinVirtual(start, c)
    ensures forall j: Joint :: desired[j] ==
              if j == GRIPPER then target[j]
              else BodyDesired(target[j], Pinned(start, c, j), physical[j], c, dt, j)
  {
    base, desired := start, target;
    for i := 0 to GRIPPER
      invariant forall j: Joint :: base[j] == if j < i then Pinned(start, c, j) else start[j]
      invariant forall j: Joint :: desired[j] ==
                  if j >= i then target[j]
                  else BodyDesired(target[j], Pinned(start, c, j), physical[j], c, dt, j)
    {
      if AtEdge(c, i) {
        base := base[i := c.radians[i]];
      }
      desired := desired[i := BodyDesired(target[i], base[i], physical[i], c, dt, i)];
    }
  }

  method AdvanceAll(target: Pose, velocity: Pose, acceleration: Pose, desired: Pose, actual: Pose,
                    dt: Tick, root: real -> real)
    returns (limited: Pose, velocity': Pose, acceleration': Pose)
    ensures forall j: Joint ::
              Motion(limited[j], velocity'[j], acceleration'[j])
              == Advance(Motion(target[j], velocity[j], acceleration[j]), desired[j], actual[j], dt, j, root)
  {
    limited, velocity', acceleration' := target, velocity, acceleration;
    for i := 0 to JOINTS
      invariant forall j: Joint :: j < i ==>
                  Motion(limited[j], velocity'[j], acceleration'[j])
                  == Advance(Motion(target[j], velocity[j], acceleration[j]), desired[j], actual[j], dt, j, root)
    {
      var m := Advance(Motion(target[i], velocity[i], acceleration[i]), desired[i], actual[i], dt, i, root);
      limited := limited[i := m.position];
      velocity' := velocity'[i := m.velocity];
      acceleration' := acceleration'[i := m.acceleration];
    }
  }

  lemma PosesAgree(b: Client, c: Command, dt: Tick, root: real -> real, desired: Pose, p: Pose, v: Pose, a: Pose)
    requires Paired(b)
    requires forall j: Joint :: desired[j] == Desired(b, c, dt, j)
    requires forall j: Joint ::
               Motion(p[j], v[j], a[j]) == Advance(JointMotion(b, j), desired[j], b.actual[j], dt, j, root)
    ensures p == Positions(b, c, dt, root) && v == Velocities(b, c, dt, root)
    ensures a == Accelerations(b, c, dt, root)
  {
    forall j: Joint
      ensures p[j] == Positions(b, c, dt, root)[j]
      ensures v[j] == Velocities(b, c, dt, root)[j]
      ensures a[j] == Accelerations(b, c, dt, root)[j]
    {
      assert Motion(p[j], v[j], a[j]) == NextMotion(b, c, dt, j, root);
    }
  }

  // ---- the client object ---------------------------------------------------------------------

  class DirectHubLeaderClient {
    const root: real -> real
    var connected: bool
    var armed: bool
    var bound: bool
    var selected: Option<string>
    var latest: Option<Sample>
    var actual: Pose
    var target: Pose
    var armVirtual: Option<Pose>
    var armPhysical: Option<Pose>
    var gripVirtual: Option<real>
    var gripPhysical: Option<real>
    var velocity: Pose
    var acceleration: Pose
    var neutral: bool

    function View(): Client
      reads this
    {
      Client(connected, armed, bound, selected, latest, actual, target, armVirtual, armPhysical,
             gripVirtual, gripPhysical, velocity, acceleration, neutral)
    }

    /** The arming and pairing part of `Safe`; the motion caps are proved over runs. */
    predicate Valid()
      reads this
    {
      var b := View();
      && (armed ==> connected && bound && selected.Some?)
      && (!armed ==> Cleared(b))
      && Paired(b)
    }

    constructor (root: real -> real)
      ensures Valid() && View() == START && this.root == root
    {
      this.root := root;
      connected, armed, bound, selected, latest := false, false, false, None, None;
      actual, target := REST_POSE, REST_POSE;
      armVirtual, armPhysical, gripVirtual, gripPhysical := None, None, None, None;
      velocity, acceleration, neutral := STILL, STILL, false;
    }

    method ResetClutches()
      modifies this
      ensures View() == ClearClutches(old(View()))
    {
      neutral := false;
      armVirtual := None;
      armPhysical := None;
      gripVirtual := None;
      gripPhysical := None;
      velocity := STILL;
      acceleration := STILL;
    }

    method Connect()
      requires Valid()
      modifies this
      ensures Valid() && View() == Disconnect(old(View())).(connected := true)
    {
      Leave();
      connected := true;
    }

    method Leave()
      requires Valid()
      modifies this
      ensures Valid() && View() == Disconnect(old(View()))
    {
      armed := false;
      selected := None;
      bound := false;
      latest := None;
      ResetClutches();
      connected := false;
    }

    method PressArm()
      requires Valid()
      modifies this
      ensures Valid() && View() == Arm(old(View()))
    {
      if CanArm(View()) {
        armed := true;
        target := actual;
        ResetClutches();
      }
    }

    method RequestNeutral()
      requires Valid()
      modifies this
      ensures Valid() && View() == MoveToNeutral(old(View()))
    {
      if CanArm(View()) && armed {
        ResetClutches();
        neutral := true;
      }
    }

    method PressStop()
      requires Valid()
      modifies this
      ensures Valid() && View() == StopLocally(old(View()))
    {
      armed := false;
      latest := None;
      ResetClutches();
    }

    method Publish(command: Command, now: real)
      requires Valid()
      modifies this
      ensures Valid()
      ensures View() == if old(connected) then old(View()).(latest := Some(Sample(command, now))) else old(View())
    {
      if connected {
        latest := Some(Sample(command, now));
      }
    }

    method LoseBinding()
      requires Valid()
      modifies this
      ensures Valid() && View() == ClearBinding(old(View()))
    {
      armed := false;
      bound := false;
      selected := None;
      latest := None;
      ResetClutches();
    }

    method Fail()
      requires Valid()
      modifies this
      ensures Valid() && View() == FailClosed(old(View()))
    {
      armed := false;
      bound := false;
      latest := None;
      ResetClutches();
    }

    method ApplyLink(command: LinkCommand, nowBound: bool)
      requires Valid()
      modifies this
      ensures Valid() && View() == Link(old(View()), command, nowBound)
    {
      match command {
        case Drive(rig) =>
          if rig == "" {
            Fail();
            return;
          }
          selected := Some(rig);
          bound := nowBound;
          armed := false;
          latest := None;
          ResetClutches();
        case Stop =>
          LoseBinding();
        case NoCommand =>
          if selected.Some? && !nowBound {
            LoseBinding();
          } else {
            bound := selected.Some?;
          }
      }
    }

    method RefreshSelectedRig(joints: map<Joint, real>)
      requires Valid()
      modifies this
      ensures Valid() && View() == Refresh(old(View()), joints)
    {
      if selected.None? || joints == map[] {
        return;
      }
      actual := MergeJoints(actual, joints);
      if !armed {
        target := actual;
      }
    }

    method SeedTarget()
      requires Valid()
      modifies this
      ensures Valid() && View() == old(View()).(target := old(actual))
    {
      target := actual;
    }

    method ArmClutch(c: Command, dt: Tick) returns (desired: Pose)
      requires Paired(View()) && !neutral
      modifies this`armVirtual, this`armPhysical
      ensures armVirtual == ArmVirtual(old(View()), c) && armPhysical == ArmPhysical(old(View()), c)
      ensures forall j: Joint :: desired[j] ==
                if j == GRIPPER then target[j] else Desired(old(View()), c, dt, j)
    {
      desired := target;
      if c.armActive {
        if armVirtual.None? {
          armVirtual := Some(c.radians);
          armPhysical := Some(target);
        }
        assert armPhysical.Some?;
        var base;
        base, desired := FollowArm(armVirtual.value, armPhysical.value, target, c, dt);
        armVirtual := Some(base);
      } else {
        armVirtual := None;
        armPhysical := None;
      }
    }

    method Clutches(c: Command, dt: Tick) returns (desired: Pose)
      requires Valid() && armed
      modifies this`neutral, this`armVirtual, this`armPhysical, this`gripVirtual, this`gripPhysical
      ensures View() == Clutched(old(View()), c)
      ensures forall j: Joint :: desired[j] == Desired(old(View()), c, dt, j)
    {
      if neutral && (c.armActive || c.gripperActive) {
        neutral := false;
      }
      if neutral {
        desired := REST_POSE[GRIPPER := target[GRIPPER]];
        return;
      }
      desired := ArmClutch(c, dt);
      var grip := GripClutch(c, dt);
      desired := desired[GRIPPER := grip];
    }

    /** The gripper's clutch, and where it should go. */
    method GripClutch(c: Command, dt: Tick) returns (desired: real)
      requires Paired(View())
      modifies this`gripVirtual, this`gripPhysical
      ensures !Neutral(old(View()), c) ==>
                && gripVirtual == GripVirtual(old(View()), c) && gripPhysical == GripPhysical(old(View()), c)
                && desired == Desired(old(View()), c, dt, GRIPPER)
    {
      desired := target[GRIPPER];
      if c.gripperActive {
        if gripVirtual.None? {
          gripVirtual := Some(c.gripper);
          gripPhysical := Some(target[GRIPPER]);
        }
        assert gripPhysical.Some?;
        if AtEdge(c, GRIPPER) {
          gripVirtual := Some(c.gripper);
        }
        desired := GripDesired(target[GRIPPER], gripVirtual.value, gripPhysical.value, c, dt);
      } else {
        gripVirtual := None;
        gripPhysical := None;
      }
    }

    method FinishTick(c: Command)
      modifies this`neutral, this`armPhysical, this`gripPhysical
      ensures View() == Settle(old(View()), c)
    {
      if neutral && AtNeutral(actual) {
        neutral := false;
      }
      if AtEdge(c, GRIPPER) {
        gripPhysical := Some(target[GRIPPER]);
      }
      if armPhysical.Some? {
        armPhysical := Some(PinAtEdges(c, armPhysical.value, target));
      }
    }

    method MoveTargets(c: Command, dt: Tick, desired: Pose, ghost b: Client)
      requires Paired(b) && View() == Clutched(b, c)
      requires forall j: Joint :: desired[j] == Desired(b, c, dt, j)
      modifies this`target, this`velocity, this`acceleration
      ensures View() == Clutched(b, c).(target := Positions(b, c, dt, root),
                                        velocity := Velocities(b, c, dt, root),
                                        acceleration := Accelerations(b, c, dt, root))
    {
      target, velocity, acceleration := AdvanceAll(target, velocity, acceleration, desired, actual, dt, root);
      PosesAgree(b, c, dt, root, desired, target, velocity, acceleration);
    }

    /** One pass of the input loop. */
    method InputTick(dt: Tick, now: real) returns (packet: Option<Packet>)
      requires Valid()
      modifies this
      ensures Valid()
      ensures (View(), packet) == NextInput(old(View()), dt, now, root)
    {
      if !Streaming(View()) {
        return None;
      }
      if now - latest.value.receivedAt > COMMAND_TIMEOUT {
        armed := false;
        ResetClutches();
        return None;
      }
      ghost var b := View();
      var c := Current(View(), now);
      var desired := Clutches(c, dt);
      if !(neutral || c.armActive || c.gripperActive) {
        return Some(Packet(selected.value, target));
      }
      MoveTargets(c, dt, desired, b);
      FinishTick(c);
      return Some(Packet(selected.value, target));
    }
  }
}
