/**
 The gateway that drives a follower arm on its own serial port
 (apps/avp-client/tools/virtual_leader_gateway.py). It knows the calibrated joint limits, and
 clutches against the measured pose.
 */
module LocalGateway {
  import opened Prelude
  import opened RealMath
  import opened Clutch

  /** What `validate_args` accepts, as far as motion is concerned. */
  datatype Args = Args(dryRun: bool, allowMotion: bool, maxSpeed: real, maxGripperSpeed: real,
                       motionScale: real, elbowScale: real, signs: seq<int>, timeoutMs: real,
                       limitMargin: real, elbowTolerance: real)
  {
    predicate Valid() {
      && (dryRun || allowMotion)
      && maxSpeed > 0.0 && maxGripperSpeed > 0.0
      && 0.0 < motionScale <= 1.0 && 0.0 < elbowScale <= 1.0
      && |signs| == JOINTS && (forall i :: 0 <= i < |signs| ==> signs[i] in {-1, 1})
      && 50.0 <= timeoutMs <= 2000.0
      && 0.5 <= limitMargin <= 1.0
      && 0.0 <= elbowTolerance <= 20.0
    }
  }

  type ValidArgs = a: Args | a.Valid()
    witness Args(true, false, 15.0, 20.0, 0.35, 1.0, [1, 1, 1, 1, 1, 1], 2000.0, 0.9, 10.0)

  datatype Command = Command(sequence: int, receivedAt: real, radians: Pose, gripper: real,
                             armActive: bool, gripperActive: bool)

  datatype Limits = Limits(low: Pose, high: Pose)

  const DEFAULT_LIMITS := Limits([-85.0, -75.0, -70.0, -85.0, -160.0, 0.0],
                                 [85.0, 75.0, 70.0, 85.0, 160.0, 100.0])

  /** The fields the lock protects. */
  datatype Bridge = Bridge(ready: bool, armed: bool, faulted: bool, latest: Option<Command>,
                           lastSequence: int, actual: Pose, target: Pose, limits: Limits,
                           armVirtual: Option<Pose>, armPhysical: Option<Pose>,
                           gripVirtual: Option<real>, gripPhysical: Option<real>)

  const START := Bridge(false, false, false, None, -1, REST_POSE, REST_POSE, DEFAULT_LIMITS,
                        None, None, None, None)

  predicate Paired(b: Bridge) {
    && (b.armVirtual.Some? <==> b.armPhysical.Some?)
    && (b.gripVirtual.Some? <==> b.gripPhysical.Some?)
  }

  predicate Clutched(b: Bridge) {
    b.armVirtual.Some? || b.gripVirtual.Some?
  }

  predicate Safe(b: Bridge) {
    Paired(b) && (!b.armed ==> !Clutched(b)) && (b.faulted ==> !b.armed)
  }

  function Speed(a: Args, j: Joint): real { if j == GRIPPER then a.maxGripperSpeed else a.maxSpeed }
  function Scale(a: Args, j: Joint): real { if j == 2 then a.elbowScale else a.motionScale }

  // ---- limits ------------------------------------------------------------------------------

  /** Calibrated range of each body joint, in encoder counts. */
  datatype Range = Range(min: int, max: int)

  function HalfRange(r: Range, margin: real): real {
    Times((r.max - r.min) as real * 180.0 / 4095.0, margin)
  }

  function CalibrationLimits(calibration: seq<Range>, margin: real): Limits
    requires |calibration| == GRIPPER
  {
    Limits(seq(JOINTS, j requires 0 <= j < JOINTS =>
             if j == GRIPPER then 0.0 else -HalfRange(calibration[j], margin)),
           seq(JOINTS, j requires 0 <= j < JOINTS =>
             if j == GRIPPER then 100.0 else HalfRange(calibration[j], margin)))
  }

  /** Startup may find the elbow folded a little past its calibrated end. */
  function StartupHardwareLimits(hard: Limits, tolerance: real): Limits {
    Limits(hard.low[2 := hard.low[2] - tolerance], hard.high[2 := hard.high[2] + tolerance])
  }

  predicate Within(p: Pose, limits: Limits) {
    forall j: Joint :: limits.low[j] <= p[j] <= limits.high[j]
  }

  /** Include the measured pose in the soft limits, so that startup never snaps. */
  function WidenedLimits(soft: Limits, actual: Pose): Limits {
    Limits(seq(JOINTS, j requires 0 <= j < JOINTS => Min(soft.low[j], actual[j])),
           seq(JOINTS, j requires 0 <= j < JOINTS => Max(soft.high[j], actual[j])))
  }

  /** The limits a startup at the measured pose ends up with; `None` when it refuses to start. */
  function StartupLimits(calibration: seq<Range>, actual: Pose, a: Args): Option<Limits>
    requires |calibration| == GRIPPER
  {
    var hard := CalibrationLimits(calibration, 1.0);
    if !Within(actual, StartupHardwareLimits(hard, a.elbowTolerance)) then None
    else Some(WidenedLimits(CalibrationLimits(calibration, a.limitMargin), actual))
  }

  // ---- steps -------------------------------------------------------------------------------

  function ClearClutches(b: Bridge): Bridge {
    b.(armVirtual := None, armPhysical := None, gripVirtual := None, gripPhysical := None)
  }

  function Disarm(b: Bridge): Bridge {
    ClearClutches(b.(armed := false))
  }

  function Unregister(b: Bridge): Bridge {
    Disarm(b).(lastSequence := -1, latest := None)
  }

  function Arm(b: Bridge, a: Args): Bridge {
    if b.faulted || !b.ready || !(a.dryRun || a.allowMotion) then b
    else ClearClutches(b.(armed := true, target := b.actual))
  }

  predicate WellFormed(c: Command) {
    && (forall j :: 0 <= j < GRIPPER ==> Abs(c.radians[j]) <= 4.0 * PI)
    && 0.0 <= c.gripper <= 1.0
  }

  function Control(b: Bridge, c: Command): Bridge {
    if !WellFormed(c) || c.sequence <= b.lastSequence then b
    else b.(lastSequence := c.sequence, latest := Some(c))
  }

  function SetReady(b: Bridge, actual: Pose, limits: Limits): Bridge {
    b.(actual := actual, target := actual, limits := limits, ready := true)
  }

  function Fault(b: Bridge): Bridge {
    Disarm(b.(faulted := true, ready := false))
  }

  // ---- one control cycle --------------------------------------------------------------------

  function ArmVirtual(b: Bridge, c: Command): Option<Pose> {
    if !c.armActive then None else if b.armVirtual.Some? then b.armVirtual else Some(c.radians)
  }

  function ArmPhysical(b: Bridge, c: Command): Option<Pose> {
    if !c.armActive then None else if b.armVirtual.Some? then b.armPhysical else Some(b.actual)
  }

  function GripVirtual(b: Bridge, c: Command): Option<real> {
    if !c.gripperActive then None else if b.gripVirtual.Some? then b.gripVirtual else Some(c.gripper)
  }

  function GripPhysical(b: Bridge, c: Command): Option<real> {
    if !c.gripperActive then None
    else if b.gripVirtual.Some? then b.gripPhysical else Some(b.actual[GRIPPER])
  }

  function Desired(b: Bridge, c: Command, a: ValidArgs, j: Joint): real
    requires Paired(b)
  {
    if j == GRIPPER then
      if !c.gripperActive then b.target[j]
      else EndpointClutched(c.gripper, GripVirtual(b, c).value, GripPhysical(b, c).value,
                            b.limits.low[j], b.limits.high[j], a.signs[j])
    else if !c.armActive then b.target[j]
    else FollowScaled(ArmPhysical(b, c).value[j], a.signs[j],
                WrappedDelta(c.radians[j], ArmVirtual(b, c).value[j]), Scale(a, j))
  }

  /** The wanted position, clamped to the limits: where the joint is heading. */
  function Goal(b: Bridge, c: Command, a: ValidArgs, j: Joint): real
    requires Paired(b)
  {
    Clamp(b.limits.low[j], b.limits.high[j], Desired(b, c, a, j))
  }

  function StepSize(a: Args, dt: Tick, j: Joint): real {
    Times(Speed(a, j), dt)
  }

  function Limited(b: Bridge, c: Command, a: ValidArgs, dt: Tick): Pose
    requires Paired(b)
  {
    seq(JOINTS, j requires 0 <= j < JOINTS => Slew(b.target[j], Goal(b, c, a, j), StepSize(a, dt, j)))
  }

  function Engage(b: Bridge, c: Command): Bridge {
    b.(armVirtual := ArmVirtual(b, c), armPhysical := ArmPhysical(b, c),
       gripVirtual := GripVirtual(b, c), gripPhysical := GripPhysical(b, c))
  }

  predicate TimedOut(b: Bridge, a: Args, now: real)
    requires b.latest.Some?
  {
    Clutched(b) && now - b.latest.value.receivedAt > a.timeoutMs / 1000.0
  }

  function NextTarget(b: Bridge, a: ValidArgs, dt: Tick, now: real): (r: (Bridge, bool))
    requires Paired(b)
  {
    if !b.armed || b.latest.None? then (b, false)
    else if TimedOut(b, a, now) then (Disarm(b), false)
    else
      var c := b.latest.value;
      if !(c.armActive || c.gripperActive) then (Engage(b, c), false)
      else (Engage(b, c).(target := Limited(b, c, a, dt)), true)
  }

  // ---- the shared object --------------------------------------------------------------------

  method FollowArm(start: Pose, physical: Pose, target: Pose, c: Command, a: ValidArgs) returns (desired: Pose)
    ensures forall j: Joint :: desired[j] ==
              if j == GRIPPER then target[j]
              else FollowScaled(physical[j], a.signs[j], WrappedDelta(c.radians[j], start[j]), Scale(a, j))
  {
    desired := target;
    for i := 0 to GRIPPER
      invariant forall j: Joint :: desired[j] ==
                  if j >= i then target[j]
                  else FollowScaled(physical[j], a.signs[j], WrappedDelta(c.radians[j], start[j]), Scale(a, j))
    {
      var delta := WrappedDelta(c.radians[i], start[i]);
      desired := desired[i := FollowScaled(physical[i], a.signs[i], delta, Scale(a, i))];
    }
  }

  method LimitAll(target: Pose, desired: Pose, limits: Limits, a: ValidArgs, dt: Tick) returns (limited: Pose)
    ensures forall j: Joint :: limited[j] ==
              Slew(target[j], Clamp(limits.low[j], limits.high[j], desired[j]), StepSize(a, dt, j))
  {
    limited := target;
    for i := 0 to JOINTS
      invariant forall j: Joint :: j < i ==>
                  limited[j] == Slew(target[j], Clamp(limits.low[j], limits.high[j], desired[j]), StepSize(a, dt, j))
    {
      var bounded := Clamp(limits.low[i], limits.high[i], desired[i]);
      limited := limited[i := Slew(target[i], bounded, StepSize(a, dt, i))];
    }
  }

  class BridgeState {
    const args: ValidArgs
    var ready: bool
    var armed: bool
    var faulted: bool
    var latest: Option<Command>
    var lastSequence: int
    var actual: Pose
    var target: Pose
    var limits: Limits
    var armVirtual: Option<Pose>
    var armPhysical: Option<Pose>
    var gripVirtual: Option<real>
    var gripPhysical: Option<real>

    function View(): Bridge
      reads this
    {
      Bridge(ready, armed, faulted, latest, lastSequence, actual, target, limits,
             armVirtual, armPhysical, gripVirtual, gripPhysical)
    }

    predicate Valid()
      reads this
    {
      Safe(View())
    }

    constructor (args: ValidArgs)
      ensures Valid() && View() == START && this.args == args
    {
      this.args := args;
      ready, armed, faulted, latest, lastSequence := false, false, false, None, -1;
      actual, target, limits := REST_POSE, REST_POSE, DEFAULT_LIMITS;
      armVirtual, armPhysical, gripVirtual, gripPhysical := None, None, None, None;
    }

    method ClearClutchesLocked()
      modifies this
      ensures View() == ClearClutches(old(View()))
    {
      armVirtual := None;
      armPhysical := None;
      gripVirtual := None;
      gripPhysical := None;
    }

    method DisarmLocked()
      modifies this
      ensures View() == Disarm(old(View()))
    {
      armed := false;
      ClearClutchesLocked();
    }

    method UnregisterClient()
      requires Valid()
      modifies this
      ensures Valid() && View() == Unregister(old(View()))
    {
      DisarmLocked();
      lastSequence := -1;
      latest := None;
    }

    method HandleArm() returns (accepted: bool)
      requires Valid()
      modifies this
      ensures Valid() && View() == Arm(old(View()), args)
      ensures accepted <==> old(!faulted && ready)
    {
      if faulted || !ready || !(args.dryRun || args.allowMotion) {
        return false;
      }
      armed := true;
      target := actual;
      ClearClutchesLocked();
      return true;
    }

    method HandleControl(c: Command)
      requires Valid()
      modifies this
      ensures Valid() && View() == Control(old(View()), c)
    {
      if !WellFormed(c) || c.sequence <= lastSequence {
        return;
      }
      lastSequence := c.sequence;
      latest := Some(c);
    }

    method SetRobotReady(actual: Pose, limits: Limits)
      requires Valid()
      modifies this
      ensures Valid() && View() == SetReady(old(View()), actual, limits)
    {
      this.actual := actual;
      target := actual;
      this.limits := limits;
      ready := true;
    }

    method SetFault()
      requires Valid()
      modifies this
      ensures Valid() && View() == Fault(old(View()))
    {
      faulted := true;
      ready := false;
      DisarmLocked();
    }

    method UpdateActual(actual: Pose)
      requires Valid()
      modifies this
      ensures Valid() && View() == old(View()).(actual := actual)
    {
      this.actual := actual;
    }

    method UpdateSentTarget(action: map<Joint, real>)
      requires Valid()
      modifies this
      ensures Valid() && View() == old(View()).(target := Merge(old(target), action))
    {
      target := MergeJoints(target, action);
    }

    method Clutches(c: Command) returns (desired: Pose)
      requires Valid() && armed && latest == Some(c)
      modifies this`armVirtual, this`armPhysical, this`gripVirtual, this`gripPhysical
      ensures View() == Engage(old(View()), c)
      ensures forall j: Joint :: desired[j] == Desired(old(View()), c, args, j)
    {
      desired := target;
      if c.armActive {
        if armVirtual.None? {
          armVirtual := Some(c.radians);
          armPhysical := Some(actual);
        }
        assert armPhysical.Some?;
        desired := FollowArm(armVirtual.value, armPhysical.value, target, c, args);
      } else {
        armVirtual := None;
        armPhysical := None;
      }
      if c.gripperActive {
        if gripVirtual.None? {
          gripVirtual := Some(c.gripper);
          gripPhysical := Some(actual[GRIPPER]);
        }
        assert gripPhysical.Some?;
        desired := desired[GRIPPER := EndpointClutched(c.gripper, gripVirtual.value, gripPhysical.value,
                                                       limits.low[GRIPPER], limits.high[GRIPPER],
                                                       args.signs[GRIPPER])];
      } else {
        gripVirtual := None;
        gripPhysical := None;
      }
    }

    method ComputeTarget(dt: Tick, now: real) returns (result: Pose, shouldSend: bool)
      requires Valid()
      modifies this
      ensures Valid()
      ensures (View(), shouldSend) == NextTarget(old(View()), args, dt, now) && result == target
    {
      if !armed || latest.None? {
        return target, false;
      }
      var c := latest.value;
      if Clutched(View()) && now - c.receivedAt > args.timeoutMs / 1000.0 {
        DisarmLocked();
        return target, false;
      }
      ghost var b := View();
      var desired := Clutches(c);
      if !c.armActive && !c.gripperActive {
        return target, false;
      }
      target := LimitAll(target, desired, limits, args, dt);
      assert target == Limited(b, c, args, dt);
      return target, true;
    }
  }
}
