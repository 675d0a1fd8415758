/**
 The Mac gateway that lends a Vision Pro to the hub as a leader arm
 (apps/avp-client/tools/hub_virtual_leader_gateway.py): arming, clutching and the motion
 limiter, as atomic steps taken under one lock by several threads.
 */
module HubGateway {
  import opened Prelude
  import opened RealMath
  import opened Clutch

  type Signs = m: seq<int> | |m| == JOINTS && forall i :: 0 <= i < |m| ==> m[i] in {-1, 1}
    witness [1, 1, 1, 1, 1, 1]

  /** `saturated.get(joint, 0)` for every joint. */
  type Saturation = m: seq<int> | |m| == JOINTS && forall i :: 0 <= i < |m| ==> m[i] in {-1, 0, 1}
    witness [0, 0, 0, 0, 0, 0]

  datatype Args = Args(maxSpeed: real, maxGripperSpeed: real, edgeRate: real, smoothingMs: real,
                       timeoutMs: real, scales: Pose, signs: Signs)

  datatype Command = Command(sequence: int, receivedAt: real, radians: Pose, gripper: real,
                             armActive: bool, gripperActive: bool, saturated: Saturation)

  datatype Packet = Packet(rig: string, joints: Pose)

  datatype LinkCommand = NoCommand | Drive(rig: string) | Stop

  /** The fields the lock protects. */
  datatype Bridge = Bridge(bound: bool, armed: bool, selected: Option<string>,
                           latest: Option<Command>, lastSequence: int,
                           actual: Pose, target: Pose,
                           armVirtual: Option<Pose>, armPhysical: Option<Pose>,
                           gripVirtual: Option<real>, gripPhysical: Option<real>,
                           smoothed: Option<Pose>)

  const START := Bridge(false, false, None, None, -1, REST_POSE, REST_POSE, None, None, None, None, None)

  function Speed(a: Args, j: Joint): real { if j == GRIPPER then a.maxGripperSpeed else a.maxSpeed }

  /** Anti-windup: how far a target may lead the reported telemetry. */
  function Lead(a: Args, j: Joint): (r: real)
    ensures r >= 20.0
  {
    if j == GRIPPER then Max(35.0, a.maxGripperSpeed * 1.5) else Max(20.0, a.maxSpeed * 1.5)
  }

  // ---- invariant ------------------------------------------------------------------------

  predicate Paired(b: Bridge) {
    && (b.armVirtual.Some? <==> b.armPhysical.Some?)
    && (b.gripVirtual.Some? <==> b.gripPhysical.Some?)
  }

  predicate Unclutched(b: Bridge) {
    && b.armVirtual.None? && b.armPhysical.None?
    && b.gripVirtual.None? && b.gripPhysical.None?
    && b.smoothed.None?
  }

  predicate Safe(b: Bridge) {
    && (b.armed ==> b.bound && b.selected.Some?)
    && (!b.armed ==> Unclutched(b))
    && Paired(b)
  }

  // ---- steps that bind, arm and disarm -----------------------------------------------------

  function ClearClutches(b: Bridge): Bridge {
    b.(armVirtual := None, armPhysical := None, gripVirtual := None, gripPhysical := None, smoothed := None)
  }

  function Arm(b: Bridge): Bridge {
    if !b.bound || b.selected.None? then b
    else ClearClutches(b.(armed := true, target := b.actual))
  }

  function StopDrive(b: Bridge): Bridge {
    ClearClutches(b.(armed := false, bound := false, latest := None, selected := None))
  }

  /** The control-plane thread's handler for any exception. */
  function ControlFault(b: Bridge): Bridge {
    ClearClutches(b.(armed := false, bound := false, latest := None))
  }

  /** The streaming thread's handler: it keeps the binding and the last command. */
  function InputFault(b: Bridge): Bridge {
    ClearClutches(b.(armed := false))
  }

  function Link(b: Bridge, command: LinkCommand, bound: bool): Bridge {
    match command
    case Drive(rig) =>
      if rig == "" then ControlFault(b)
      else ClearClutches(b.(selected := Some(rig), bound := bound, armed := false, latest := None))
    case Stop => StopDrive(b)
    case NoCommand =>
      if b.selected.Some? && !bound then StopDrive(b)
      else b.(bound := b.selected.Some?)
  }

  function Refresh(b: Bridge, rigs: map<string, map<Joint, real>>): Bridge {
    if b.selected.Some? && b.selected.value in rigs then
      b.(actual := Merge(b.actual, rigs[b.selected.value]))
    else if b.selected.Some? then ControlFault(b)
    else b
  }

  predicate WellFormed(c: Command) {
    && (forall j :: 0 <= j < GRIPPER ==> Abs(c.radians[j]) <= 4.0 * PI)
    && 0.0 <= c.gripper <= 1.0
  }

  function Control(b: Bridge, c: Command): Bridge {
    if !WellFormed(c) || c.sequence <= b.lastSequence then b
    else b.(lastSequence := c.sequence, latest := Some(c))
  }

  // ---- one streaming tick ---------------------------------------------------------------

  /** Edge continuation: the operator holds an active control past the virtual envelope. */
  predicate AtEdge(c: Command, j: Joint) {
    c.saturated[j] != 0 && if j == GRIPPER then c.gripperActive else c.armActive
  }

  function Pinned(start: Pose, c: Command, j: Joint): real {
    if j != GRIPPER && AtEdge(c, j) then c.radians[j] else start[j]
  }

  function PinVirtual(start: Pose, c: Command): Pose {
    seq(JOINTS, j requires 0 <= j < JOINTS => Pinned(start, c, j))
  }

  function ArmVirtual(b: Bridge, c: Command): Option<Pose> {
    if !c.armActive then None
    else
      var start := if b.armVirtual.Some? then b.armVirtual.value else c.radians;
      Some(PinVirtual(start, c))
  }

  function ArmPhysical(b: Bridge, c: Command): Option<Pose> {
    if !c.armActive then None else if b.armVirtual.Some? then b.armPhysical else Some(b.target)
  }

  function GripVirtual(b: Bridge, c: Command): Option<real> {
    if !c.gripperActive then None
    else if b.gripVirtual.None? || AtEdge(c, GRIPPER) then Some(c.gripper)
    else b.gripVirtual
  }

  function GripPhysical(b: Bridge, c: Command): Option<real> {
    if !c.gripperActive then None
    else if b.gripVirtual.Some? then b.gripPhysical else Some(b.target[GRIPPER])
  }

  function BodyDesired(target: real, base: real, physical: real, c: Command, a: Args, dt: Tick, j: Joint): real
    requires j != GRIPPER
  {
    if AtEdge(c, j) then Creep(target, c.saturated[j] * a.signs[j], a.edgeRate, dt)
    else FollowScaled(physical, a.signs[j], WrappedDelta(c.radians[j], base), a.scales[j])
  }

  function GripDesired(target: real, base: real, physical: real, c: Command, a: Args, dt: Tick): real {
    if AtEdge(c, GRIPPER) then
      Creep(target, c.saturated[GRIPPER] * a.signs[GRIPPER], a.maxGripperSpeed, dt)
    else EndpointClutched(c.gripper, base, physical, 0.0, 100.0, a.signs[GRIPPER])
  }

  function Desired(b: Bridge, c: Command, a: Args, dt: Tick, j: Joint): real
    requires Paired(b)
  {
    if j == GRIPPER then
      if !c.gripperActive then b.target[j]
      else GripDesired(b.target[j], GripVirtual(b, c).value, GripPhysical(b, c).value, c, a, dt)
    else if !c.armActive then b.target[j]
    else BodyDesired(b.target[j], ArmVirtual(b, c).value[j], ArmPhysical(b, c).value[j], c, a, dt, j)
  }

  function Alpha(a: Args, dt: Tick): (r: real)
    ensures 0.0 < r <= 1.0
    ensures r == 1.0 <==> a.smoothingMs <= 0.0
  {
    var tau := a.smoothingMs / 1000.0;
    if tau <= 0.0 then 1.0
    else
      DivRange(dt, tau + dt);
      DivTimes(dt, tau + dt);
      dt / (tau + dt)
  }

  function LowPass(state: real, wanted: real, alpha: real): real {
    state + Times(alpha, wanted - state)
  }

  function Smoothed(b: Bridge, c: Command, a: Args, dt: Tick, j: Joint): real
    requires Paired(b)
  {
    if AtEdge(c, j) then Desired(b, c, a, dt, j)
    else LowPass(if b.smoothed.Some? then b.smoothed.value[j] else b.target[j],
                 Desired(b, c, a, dt, j), Alpha(a, dt))
  }

  /** Range clamp, slew limit and anti-windup window, in that order. */
  function Limit(previous: real, wanted: real, anchor: real, a: Args, dt: Tick, j: Joint): real {
    Clamp(anchor - Lead(a, j), anchor + Lead(a, j),
          Slew(previous, Clamp(Low(j), High(j), wanted), Times(Speed(a, j), dt)))
  }

  function SmoothedPose(b: Bridge, c: Command, a: Args, dt: Tick): Pose
    requires Paired(b)
  {
    seq(JOINTS, j requires 0 <= j < JOINTS => Smoothed(b, c, a, dt, j))
  }

  function NextTarget(b: Bridge, c: Command, a: Args, dt: Tick): Pose
    requires Paired(b)
  {
    seq(JOINTS, j requires 0 <= j < JOINTS =>
      Limit(b.target[j], Smoothed(b, c, a, dt, j), b.actual[j], a, dt, j))
  }

  function Clutched(b: Bridge, c: Command): Bridge {
    b.(armVirtual := ArmVirtual(b, c), armPhysical := ArmPhysical(b, c),
       gripVirtual := GripVirtual(b, c), gripPhysical := GripPhysical(b, c))
  }

  /** Edge-continued clutches are pinned at the target after slewing. */
  function PinAtEdges(c: Command, physical: Pose, limited: Pose): Pose {
    seq(JOINTS, j requires 0 <= j < JOINTS =>
      if j != GRIPPER && AtEdge(c, j) then limited[j] else physical[j])
  }

  function Advanced(b: Bridge, c: Command, a: Args, dt: Tick): Bridge
    requires Paired(b)
  {
    var clutched := Clutched(b, c);
    var limited := NextTarget(b, c, a, dt);
    clutched.(
    smoothed := Some(SmoothedPose(b, c, a, dt)),
    target := limited,
    armPhysical := if c.armActive then Some(PinAtEdges(c, clutched.armPhysical.value, limited)) else None,
    gripPhysical := if AtEdge(c, GRIPPER) then Some(limited[GRIPPER]) else clutched.gripPhysical)
  }

  function Age(b: Bridge, now: real): real
    requires b.latest.Some?
  {
    now - b.latest.value.receivedAt
  }

  predicate Fresh(b: Bridge, a: Args, now: real) {
    b.latest.Some? && Age(b, now) <= a.timeoutMs / 1000.0
  }

  predicate Streaming(b: Bridge) {
    b.armed && b.bound && b.selected.Some? && b.latest.Some?
  }

  /** Does this tick move the target at all? */
  predicate Moves(b: Bridge, a: Args, now: real) {
    Streaming(b) && Fresh(b, a, now) && (b.latest.value.armActive || b.latest.value.gripperActive)
  }

  function NextInput(b: Bridge, a: Args, dt: Tick, now: real): (r: (Bridge, Option<Packet>))
    requires Paired(b)
  {
    if !Streaming(b) then (b, None)
    else if !Fresh(b, a, now) then (ClearClutches(b.(armed := false)), None)
    else
      var c := b.latest.value;
      if !(c.armActive || c.gripperActive) then (Clutched(b, c), Some(Packet(b.selected.value, b.target)))
      else (Advanced(b, c, a, dt), Some(Packet(b.selected.value, NextTarget(b, c, a, dt))))
  }

  // ---- the loops over joints ---------------------------------------------------------------

  /** The arm clutch: re-pin joints held at an edge, and compute what each joint should do. */
  method FollowArm(start: Pose, physical: Pose, target: Pose, c: Command, a: Args, dt: Tick)
    returns (base: Pose, desired: Pose)
    requires c.armActive
    ensures base == PinVirtual(start, c)
    ensures forall j: Joint :: desired[j] ==
              if j == GRIPPER then target[j]
              else BodyDesired(target[j], Pinned(start, c, j), physical[j], c, a, dt, j)
  {
    base, desired := start, target;
    for i := 0 to GRIPPER
      invariant forall j: Joint :: base[j] == if j < i then Pinned(start, c, j) else start[j]
      invariant forall j: Joint :: desired[j] ==
                  if j >= i then target[j]
                  else BodyDesired(target[j], Pinned(start, c, j), physical[j], c, a, dt, j)
    {
      if AtEdge(c, i) {
        base := base[i := c.radians[i]];
      }
      desired := desired[i := BodyDesired(target[i], base[i], physical[i], c, a, dt, i)];
    }
  }

  /** The low-pass filter over the wanted pose; edge-continued joints bypass it. */
  method Filter(before: Pose, desired: Pose, c: Command, alpha: real) returns (filter: Pose)
    ensures forall j: Joint :: filter[j] ==
              if AtEdge(c, j) then desired[j] else LowPass(before[j], desired[j], alpha)
  {
    filter := before;
    for i := 0 to JOINTS
      invariant forall j: Joint :: filter[j] ==
                  if j >= i then before[j]
                  else if AtEdge(c, j) then desired[j] else LowPass(before[j], desired[j], alpha)
    {
      if AtEdge(c, i) {
        filter := filter[i := desired[i]];
      } else {
        filter := filter[i := LowPass(filter[i], desired[i], alpha)];
      }
    }
  }

  method LimitAll(target: Pose, wanted: Pose, actual: Pose, a: Args, dt: Tick) returns (limited: Pose)
    ensures forall j: Joint :: limited[j] == Limit(target[j], wanted[j], actual[j], a, dt, j)
  {
    limited := target;
    for i := 0 to JOINTS
      invariant forall j: Joint :: j < i ==>
                  limited[j] == Limit(target[j], wanted[j], actual[j], a, dt, j)
    {
      limited := limited[i := Limit(target[i], wanted[i], actual[i], a, dt, i)];
    }
  }

  // ---- the shared object ----------------------------------------------------------------

  class HubBridgeState {
    const args: Args
    var bound: bool
    var armed: bool
    var selected: Option<string>
    var latest: Option<Command>
    var lastSequence: int
    var actual: Pose
    var target: Pose
    var armVirtual: Option<Pose>
    var armPhysical: Option<Pose>
    var gripVirtual: Option<real>
    var gripPhysical: Option<real>
    var smoothed: Option<Pose>

    function View(): Bridge
      reads this
    {
      Bridge(bound, armed, selected, latest, lastSequence, actual, target,
             armVirtual, armPhysical, gripVirtual, gripPhysical, smoothed)
    }

    predicate Valid()
      reads this
    {
      Safe(View())
    }

    constructor (args: Args)
      ensures Valid() && View() == START && this.args == args
    {
      this.args := args;
      bound, armed, selected, latest, lastSequence := false, false, None, None, -1;
      actual, target := REST_POSE, REST_POSE;
      armVirtual, armPhysical, gripVirtual, gripPhysical, smoothed := None, None, None, None, None;
    }

    method ClearClutchesLocked()
      modifies this
      ensures View() == ClearClutches(old(View()))
    {
      armVirtual := None;
      armPhysical := None;
      gripVirtual := None;
      gripPhysical := None;
      smoothed := None;
    }

    method PairAccepted()
      requires Valid()
      modifies this
      ensures Valid() && View() == old(View()).(lastSequence := -1, latest := None)
    {
      lastSequence := -1;
      latest := None;
    }

    method ArmLeader() returns (accepted: bool)
      requires Valid()
      modifies this
      ensures Valid() && View() == Arm(old(View()))
      ensures accepted <==> old(bound && selected.Some?)
    {
      if !bound || selected.None? {
        return false;
      }
      armed := true;
      target := actual;
      ClearClutchesLocked();
      return true;
    }

    method HandleControl(c: Command)
      requires Valid()
      modifies this
      ensures Valid() && View() == Control(old(View()), c)
    {
      if !WellFormed(c) || c.sequence <= lastSequence {
        return;
      }
      lastSequence := c.sequence;
      latest := Some(c);
    }

    method RefreshRigs(rigs: map<string, map<Joint, real>>)
      requires Valid()
      modifies this
      ensures Valid() && View() == Refresh(old(View()), rigs)
    {
      if selected.Some? && selected.value in rigs {
        actual := MergeJoints(actual, rigs[selected.value]);
      } else if selected.Some? {
        bound := false;
        armed := false;
        latest := None;
        ClearClutchesLocked();
      }
    }

    method ApplyLink(command: LinkCommand, nowBound: bool)
      requires Valid()
      modifies this
      ensures Valid() && View() == Link(old(View()), command, nowBound)
    {
      match command {
        case Drive(rig) =>
          if rig == "" {
            FaultControl();
            return;
          }
          selected := Some(rig);
          bound := nowBound;
          armed := false;
          latest := None;
          ClearClutchesLocked();
        case Stop =>
          Disarm();
        case NoCommand =>
          if selected.Some? && !nowBound {
            Disarm();
          } else if selected.Some? {
            bound := true;
          } else {
            bound := false;
          }
      }
    }

    /** Second lock section of a drive command, after the telemetry refresh. */
    method SeedTarget()
      requires Valid()
      modifies this
      ensures Valid() && View() == old(View()).(target := old(actual))
    {
      target := actual;
    }

    method Disarm()
      requires Valid()
      modifies this
      ensures Valid() && View() == StopDrive(old(View()))
    {
      armed := false;
      bound := false;
      latest := None;
      selected := None;
      ClearClutchesLocked();
    }

    method FaultControl()
      requires Valid()
      modifies this
      ensures Valid() && View() == ControlFault(old(View()))
    {
      armed := false;
      bound := false;
      latest := None;
      ClearClutchesLocked();
    }

    method FaultInput()
      requires Valid()
      modifies this
      ensures Valid() && View() == InputFault(old(View()))
    {
      armed := false;
      ClearClutchesLocked();
    }

    /** First half of a tick: engage or release the clutches and compute the wanted pose. */
    method Clutches(c: Command, dt: Tick) returns (desired: Pose)
      requires Valid() && armed && latest == Some(c)
      modifies this`armVirtual, this`armPhysical, this`gripVirtual, this`gripPhysical
      ensures View() == Clutched(old(View()), c)
      ensures forall j: Joint :: desired[j] == Desired(old(View()), c, args, dt, j)
    {
      desired := ArmClutch(c, dt);
      label arm:
      if c.gripperActive {
        if gripVirtual.None? {
          gripVirtual := Some(c.gripper);
          gripPhysical := Some(target[GRIPPER]);
        }
        assert gripPhysical.Some?;
        if AtEdge(c, GRIPPER) {
          gripVirtual := Some(c.gripper);
        }
        desired := desired[GRIPPER := GripDesired(target[GRIPPER], gripVirtual.value, gripPhysical.value,
                                                  c, args, dt)];
      } else {
        gripVirtual := None;
        gripPhysical := None;
      }
    }

    method ArmClutch(c: Command, dt: Tick) returns (desired: Pose)
      requires Valid() && armed && latest == Some(c)
      modifies this`armVirtual, this`armPhysical
      ensures armVirtual == ArmVirtual(old(View()), c) && armPhysical == ArmPhysical(old(View()), c)
      ensures forall j: Joint :: desired[j] ==
                if j == GRIPPER then target[j] else Desired(old(View()), c, args, dt, j)
    {
      desired := target;
      if c.armActive {
        if armVirtual.None? {
          armVirtual := Some(c.radians);
          armPhysical := Some(target);
        }
        assert armPhysical.Some?;
        var base;
        base, desired := FollowArm(armVirtual.value, armPhysical.value, target, c, args, dt);
        armVirtual := Some(base);
      } else {
        armVirtual := None;
        armPhysical := None;
      }
    }

    /** Second half of a tick: filter, limit, publish, and re-pin the edge-continued clutches. */
    method Advance(c: Command, dt: Tick, desired: Pose, ghost b: Bridge)
      requires Paired(b) && View() == Clutched(b, c)
      requires forall j: Joint :: desired[j] == Desired(b, c, args, dt, j)
      modifies this`smoothed, this`target, this`armPhysical, this`gripPhysical
      ensures View() == Advanced(b, c, args, dt)
    {
      var filter := Filter(if smoothed.None? then target else smoothed.value, desired, c, Alpha(args, dt));
      assert filter == SmoothedPose(b, c, args, dt);
      smoothed := Some(filter);
      target := LimitAll(target, filter, actual, args, dt);
      assert target == NextTarget(b, c, args, dt);
      if AtEdge(c, GRIPPER) {
        gripPhysical := Some(target[GRIPPER]);
      }
      if c.armActive {
        armPhysical := Some(PinAtEdges(c, armPhysical.value, target));
      }
    }

    /** One pass of the streaming loop. */
    method StreamTick(dt: Tick, now: real) returns (packet: Option<Packet>)
      requires Valid()
      modifies this
      ensures Valid()
      ensures (View(), packet) == NextInput(old(View()), args, dt, now)
    {
      if !armed || !bound || selected.None? || latest.None? {
        return None;
      }
      var c := latest.value;
      if now - c.receivedAt > args.timeoutMs / 1000.0 {
        armed := false;
        ClearClutchesLocked();
        return None;
      }
      ghost var b := View();
      var desired := Clutches(c, dt);
      if !c.armActive && !c.gripperActive {
        return Some(Packet(selected.value, target));
      }
      Advance(c, dt, desired, b);
      return Some(Packet(selected.value, target));
    }
  }
}
