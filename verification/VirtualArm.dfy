/**
 The state the virtual arm keeps between gestures (VirtualLeaderView.swift): five joint
 angles that follow the solver at a bounded rate, and the edge flags sent to the follower.
 */
module VirtualArm {
  import opened Prelude
  import opened RealMath
  import opened Clutch
  import opened Kinematics
  import opened KinematicsBend

  const ARM_SPEED := 0.70
  const WRIST_SPEED := 0.85

  datatype Arm = Arm(motors: Motors, wristFlex: real, wristRoll: real,
                     lastArm: Option<real>, lastWrist: Option<real>,
                     reachSaturation: int, liftSaturation: int)

  const START := Arm(Motors(0.0, 0.0, 0.0), 0.0, 0.0, None, None, 0, 0)

  /** Single-joint mode may freeze some of the three joints the head handle moves. */
  datatype Allowed = Allowed(pan: bool, lift: bool, elbow: bool)

  function CappedElapsed(elapsed: real): (r: real)
    ensures 0.001 <= r <= 0.10
  {
    Min(0.10, Max(0.001, elapsed))
  }

  /** How far a joint may move in this call; `None` means all the way. */
  function Step(last: Option<real>, snap: bool, now: real, speed: real): Option<real> {
    if snap || last.None? then None else Some(speed * CappedElapsed(now - last.value))
  }

  function Moved(value: real, target: real, step: Option<real>): real {
    if step.None? then target else Slew(value, target, step.value)
  }

  function FollowerPose(t: Trig, a: Arm, m: Motors, flex: real, roll: real, snap: bool, now: real): Arm {
    var goal := ClipMotors(t, m);
    var arm := Step(a.lastArm, snap, now, ARM_SPEED);
    var wrist := Step(a.lastWrist, snap, now, WRIST_SPEED);
    a.(motors := Motors(Moved(a.motors.pan, goal.pan, arm), Moved(a.motors.lift, goal.lift, arm),
                        Moved(a.motors.elbow, goal.elbow, arm)),
       wristFlex := Moved(a.wristFlex, Symmetric(MaxWristFlex(t), flex), wrist),
       wristRoll := Moved(a.wristRoll, Symmetric(MaxWristRoll(t), roll), wrist),
       lastArm := Some(now), lastWrist := Some(now))
  }

  function ReachFlag(distance: real, elbowMotor: real): int {
    if distance < MIN_REACH - 0.001 then (if elbowMotor >= 0.0 then 1 else -1)
    else if distance > MAX_REACH + 0.001 then (if elbowMotor >= 0.0 then -1 else 1)
    else 0
  }

  function Flags(allowed: Allowed, boundary: int, distance: real, elbowMotor: real): (f: (int, int)) {
    var reach := if allowed.elbow then ReachFlag(distance, elbowMotor) else 0;
    if !allowed.lift then (reach, 0)
    else if boundary == 1 then (reach, 1)
    else if boundary == -1 then (if allowed.elbow then 1 else reach, 1)
    else (reach, 0)
  }

  function Permitted(a: Arm, allowed: Allowed, m: Motors): Motors {
    Motors(if allowed.pan then m.pan else a.motors.pan,
           if allowed.lift then m.lift else a.motors.lift,
           if allowed.elbow then m.elbow else a.motors.elbow)
  }

  function SetEndEffector(t: Trig, a: Arm, requested: Space, boundary: int, allowed: Allowed, now: real): Arm
    requires t.pi > 0.0
  {
    var distance := Distance(t, Planar(t, requested));
    if distance <= 0.0001 then a
    else
      var m := ClipMotors(t, Requested(t, requested));
      var flags := Flags(allowed, boundary, distance, m.elbow);
      FollowerPose(t, a.(reachSaturation := flags.0, liftSaturation := flags.1),
                   Permitted(a, allowed, m), a.wristFlex, a.wristRoll, false, now)
  }

  class LeaderModel {
    const trig: Trig
    var motors: Motors
    var wristFlex: real
    var wristRoll: real
    var lastArm: Option<real>
    var lastWrist: Option<real>
    var reachSaturation: int
    var liftSaturation: int

    function View(): Arm
      reads this
    {
      Arm(motors, wristFlex, wristRoll, lastArm, lastWrist, reachSaturation, liftSaturation)
    }

    constructor (trig: Trig)
      ensures View() == START && this.trig == trig
    {
      this.trig := trig;
      motors, wristFlex, wristRoll := Motors(0.0, 0.0, 0.0), 0.0, 0.0;
      lastArm, lastWrist, reachSaturation, liftSaturation := None, None, 0, 0;
    }

    method ApplyFollowerPose(m: Motors, flex: real, roll: real, snap: bool, now: real)
      modifies this
      ensures View() == FollowerPose(trig, old(View()), m, flex, roll, snap, now)
    {
      var goal := ClipMotors(trig, m);
      if snap || lastArm.None? {
        motors := goal;
      } else {
        var step := ARM_SPEED * CappedElapsed(now - lastArm.value);
        motors := Motors(Slew(motors.pan, goal.pan, step), Slew(motors.lift, goal.lift, step),
                         Slew(motors.elbow, goal.elbow, step));
      }
      lastArm := Some(now);
      var requestedFlex := Symmetric(MaxWristFlex(trig), flex);
      var requestedRoll := Symmetric(MaxWristRoll(trig), roll);
      if snap || lastWrist.None? {
        wristFlex := requestedFlex;
        wristRoll := requestedRoll;
      } else {
        var step := WRIST_SPEED * CappedElapsed(now - lastWrist.value);
        wristFlex := Slew(wristFlex, requestedFlex, step);
        wristRoll := Slew(wristRoll, requestedRoll, step);
      }
      lastWrist := Some(now);
    }

    method MoveEndEffector(requested: Space, boundary: int, allowed: Allowed, now: real)
      requires trig.pi > 0.0
      modifies this
      ensures View() == SetEndEffector(trig, old(View()), requested, boundary, allowed, now)
    {
      var distance := Distance(trig, Planar(trig, requested));
      if distance <= 0.0001 {
        return;
      }
      var m := ClipMotors(trig, Requested(trig, requested));
      var permitted := Permitted(View(), allowed, m);
      reachSaturation := 0;
      if allowed.elbow {
        reachSaturation := ReachFlag(distance, m.elbow);
      }
      liftSaturation := 0;
      if allowed.lift {
        match boundary {
          case 1 =>
            liftSaturation := 1;
          case -1 =>
            liftSaturation := 1;
            if allowed.elbow {
              reachSaturation := 1;
            }
          case _ =>
        }
      }
      ApplyFollowerPose(permitted, wristFlex, wristRoll, false, now);
    }
  }

  // ---- what a call guarantees ------------------------------------------------------------------

  /** No joint ever leaves its range, whatever is requested. */
  predicate InRange(t: Trig, a: Arm) {
    && InMotorRange(t, a.motors)
    && Abs(a.wristFlex) <= MaxWristFlex(t) && Abs(a.wristRoll) <= MaxWristRoll(t)
  }

  lemma MovedStays(limit: real, value: real, target: real, last: Option<real>, snap: bool, now: real, speed: real)
    requires Abs(value) <= limit && speed > 0.0
    ensures Abs(Moved(value, Symmetric(limit, target), Step(last, snap, now, speed))) <= limit
  {
    var step := Step(last, snap, now, speed);
    if step.Some? {
      SlewBounds(value, Symmetric(limit, target), step.value);
    }
  }

  lemma PoseStaysInRange(t: Trig, a: Arm, m: Motors, flex: real, roll: real, snap: bool, now: real)
    requires InRange(t, a)
    ensures InRange(t, FollowerPose(t, a, m, flex, roll, snap, now))
  {
    MovedStays(MaxPan(t), a.motors.pan, m.pan, a.lastArm, snap, now, ARM_SPEED);
    MovedStays(MaxLift(t), a.motors.lift, m.lift, a.lastArm, snap, now, ARM_SPEED);
    MovedStays(MaxElbow(t), a.motors.elbow, m.elbow, a.lastArm, snap, now, ARM_SPEED);
    MovedStays(MaxWristFlex(t), a.wristFlex, flex, a.lastWrist, snap, now, WRIST_SPEED);
    MovedStays(MaxWristRoll(t), a.wristRoll, roll, a.lastWrist, snap, now, WRIST_SPEED);
  }

  lemma StaysInRange(t: Trig, a: Arm, requested: Space, boundary: int, allowed: Allowed, now: real)
    requires t.pi > 0.0 && InRange(t, a)
    ensures InRange(t, SetEndEffector(t, a, requested, boundary, allowed, now))
  {
    var distance := Distance(t, Planar(t, requested));
    if distance > 0.0001 {
      var m := ClipMotors(t, Requested(t, requested));
      var flags := Flags(allowed, boundary, distance, m.elbow);
      PoseStaysInRange(t, a.(reachSaturation := flags.0, liftSaturation := flags.1),
                       Permitted(a, allowed, m), a.wristFlex, a.wristRoll, false, now);
    }
  }

  /** Outside a snap, a call turns each joint by at most its speed times a tenth of a second,
      however long the event loop stalled. */
  lemma CallIsRateLimited(t: Trig, a: Arm, requested: Space, boundary: int, allowed: Allowed, now: real)
    requires t.pi > 0.0 && InRange(t, a) && a.lastArm.Some?
    ensures var r := SetEndEffector(t, a, requested, boundary, allowed, now).motors;
            && Abs(r.pan - a.motors.pan) <= 0.07
            && Abs(r.lift - a.motors.lift) <= 0.07
            && Abs(r.elbow - a.motors.elbow) <= 0.07
            && (!allowed.pan ==> r.pan == a.motors.pan)
            && (!allowed.lift ==> r.lift == a.motors.lift)
            && (!allowed.elbow ==> r.elbow == a.motors.elbow)
  {
    if Distance(t, Planar(t, requested)) > 0.0001 {
      var step := ARM_SPEED * CappedElapsed(now - a.lastArm.value);
      var goal := ClipMotors(t, Permitted(a, allowed, ClipMotors(t, Requested(t, requested))));
      SlewBounds(a.motors.pan, goal.pan, step);
      SlewBounds(a.motors.lift, goal.lift, step);
      SlewBounds(a.motors.elbow, goal.elbow, step);
    }
  }

  /** The rate limit does not act on this request. */
  predicate WithinStep(a: Arm, m: Motors, now: real) {
    a.lastArm.None? ||
    var step := ARM_SPEED * CappedElapsed(now - a.lastArm.value);
    Abs(m.pan - a.motors.pan) <= step && Abs(m.lift - a.motors.lift) <= step && Abs(m.elbow - a.motors.elbow) <= step
  }

  /** When no joint range clips, no rate limit applies and no joint is frozen, the drawn wrist
      is the reachable target; inside the shell, the very point the hand asked for. */
  lemma HandGetsWhatItAsksFor(t: Trig, a: Arm, requested: Space, boundary: int, now: real)
    requires t.Lawful() && Distance(t, Planar(t, requested)) > 0.0001
    requires InMotorRange(t, Requested(t, requested)) && WithinStep(a, Requested(t, requested), now)
    requires YawResolved(t, requested)
    ensures var r := SetEndEffector(t, a, requested, boundary, Allowed(true, true, true), now);
            && r.motors == Requested(t, requested)
            && InSpace(t, WristPoint(t, r.motors), r.motors.pan) == ReachableTarget(t, requested)
            && (MIN_REACH <= Distance(t, Planar(t, requested)) <= MAX_REACH ==>
                  InSpace(t, WristPoint(t, r.motors), r.motors.pan) == requested)
  {
    var m := Requested(t, requested);
    assert ClipMotors(t, m) == m;
    MotorsArrive(t, a, requested, boundary, now);
    SpatialRoundTrip(t, requested);
    if MIN_REACH <= Distance(t, Planar(t, requested)) <= MAX_REACH {
      ReachableIsRequest(t, requested);
    }
  }

  lemma MotorsArrive(t: Trig, a: Arm, requested: Space, boundary: int, now: real)
    requires t.pi > 0.0 && Distance(t, Planar(t, requested)) > 0.0001
    requires InMotorRange(t, Requested(t, requested)) && WithinStep(a, Requested(t, requested), now)
    ensures SetEndEffector(t, a, requested, boundary, Allowed(true, true, true), now).motors
            == Requested(t, requested)
  {
  }

  /** Every pose inside the ranges that bends to the intended side is within the hand's reach: asked for the
      wrist it draws, a model that no rate limit holds back takes exactly that pose. */
  lemma HandReachesEveryPose(t: Trig, a: Arm, m: Motors, boundary: int, now: real)
    requires t.Lawful() && Resolvable(t, m) && Side(WristPoint(t, m), ElbowPoint(t, m)) < 0.0 && WithinStep(a, m, now)
    ensures SetEndEffector(t, a, WristRequest(t, m), boundary, Allowed(true, true, true), now).motors == m
  {
    InverseUndoesForward(t, m);
    RequestPlane(t, m);
    ReachRange(Distance(t, WristPoint(t, m)));
    MotorsArrive(t, a, WristRequest(t, m), boundary, now);
  }

  /** For instance from the start: one call puts the wrist at this point. */
  lemma FirstCallReachesUpright(t: Trig, now: real)
    requires t.Lawful()
    ensures var r := SetEndEffector(t, START, UPRIGHT, 0, Allowed(true, true, true), now).motors;
            InSpace(t, WristPoint(t, r), r.pan) == UPRIGHT
  {
    UprightIsReached(t);
    HandGetsWhatItAsksFor(t, START, UPRIGHT, 0, now);
  }

  /** Where the solver wants the elbow motor, within its range. */
  function ElbowAsked(t: Trig, requested: Space): real
    requires t.pi > 0.0 && Distance(t, Planar(t, requested)) > 0.0
  {
    Clamp(-MaxElbow(t), MaxElbow(t), Requested(t, requested).elbow)
  }

  /** The edge flags: the elbow's is up when the elbow may move and the hand is more than a millimetre
      outside the shell, away from zero when too near and back towards it when too far, or when the hand is
      under the floor, which counts as folding; the lift's is up when the lift may move and the hand is above
      the ceiling or under the floor. */
  lemma EdgeFlagsMeaning(t: Trig, a: Arm, requested: Space, boundary: int, allowed: Allowed, now: real)
    requires t.pi > 0.0 && Distance(t, Planar(t, requested)) > 0.0001
    ensures var r, d := SetEndEffector(t, a, requested, boundary, allowed, now), Distance(t, Planar(t, requested));
            var near, far, floor := d < MIN_REACH - 0.001, d > MAX_REACH + 0.001, allowed.lift && boundary == -1;
            && (r.reachSaturation == 1 <==>
                  allowed.elbow && (floor || (if ElbowAsked(t, requested) >= 0.0 then near else far)))
            && (r.reachSaturation == -1 <==>
                  allowed.elbow && !floor && (if ElbowAsked(t, requested) >= 0.0 then far else near))
            && r.reachSaturation in {-1, 0, 1}
            && r.liftSaturation == if allowed.lift && (boundary == 1 || boundary == -1) then 1 else 0
  {
  }

  /** What one joint does in a call: all the way to its clipped request, or that much closer to it. */
  predicate Nears(before: real, after: real, request: real, limit: real, step: Option<real>) {
    var goal := Clamp(-limit, limit, request);
    if step.None? then after == goal
    else && Abs(after - goal) == Max(0.0, Abs(before - goal) - step.value)
         && Abs(before - after) <= step.value
  }

  /** How far a joint of that speed goes between two calls. */
  function Stride(speed: real, from: real, to: real): real {
    speed * Min(0.1, Max(0.001, to - from))
  }

  predicate PoseNears(t: Trig, a: Arm, r: Arm, m: Motors, flex: real, roll: real, arm: Option<real>, wrist: Option<real>) {
    && Nears(a.motors.pan, r.motors.pan, m.pan, MaxPan(t), arm)
    && Nears(a.motors.lift, r.motors.lift, m.lift, MaxLift(t), arm)
    && Nears(a.motors.elbow, r.motors.elbow, m.elbow, MaxElbow(t), arm)
    && Nears(a.wristFlex, r.wristFlex, flex, MaxWristFlex(t), wrist)
    && Nears(a.wristRoll, r.wristRoll, roll, MaxWristRoll(t), wrist)
  }

  lemma MovedNears(before: real, request: real, limit: real, step: Option<real>)
    requires step.Some? ==> step.value >= 0.0
    ensures Nears(before, Moved(before, Symmetric(limit, request), step), request, limit, step)
  {
    if step.Some? {
      SlewBounds(before, Symmetric(limit, request), step.value);
    }
  }

  lemma PoseFollows(t: Trig, a: Arm, m: Motors, flex: real, roll: real, snap: bool, now: real)
    ensures PoseNears(t, a, FollowerPose(t, a, m, flex, roll, snap, now), m, flex, roll,
                      Step(a.lastArm, snap, now, ARM_SPEED), Step(a.lastWrist, snap, now, WRIST_SPEED))
  {
    var arm, wrist := Step(a.lastArm, snap, now, ARM_SPEED), Step(a.lastWrist, snap, now, WRIST_SPEED);
    MovedNears(a.motors.pan, m.pan, MaxPan(t), arm);
    MovedNears(a.motors.lift, m.lift, MaxLift(t), arm);
    MovedNears(a.motors.elbow, m.elbow, MaxElbow(t), arm);
    MovedNears(a.wristFlex, flex, MaxWristFlex(t), wrist);
    MovedNears(a.wristRoll, roll, MaxWristRoll(t), wrist);
  }

  /** A telemetry pose that snaps puts all five joints at it, within their ranges; the call after it brings each
      closer to the next pose by its speed times the time between them, counted as at most a tenth of a second. */
  lemma CallsFollowTheClock(t: Trig, a: Arm, m: Motors, flex: real, roll: real, snap: bool, now: real,
                            m': Motors, flex': real, roll': real, now': real)
    ensures var r := FollowerPose(t, a, m, flex, roll, snap, now);
            && (snap ==> PoseNears(t, a, r, m, flex, roll, None, None))
            && PoseNears(t, r, FollowerPose(t, r, m', flex', roll', false, now'), m', flex', roll',
                         Some(Stride(0.7, now, now')), Some(Stride(0.85, now, now')))
  {
    PoseFollows(t, a, m, flex, roll, snap, now);
    NextCallFollows(t, FollowerPose(t, a, m, flex, roll, snap, now), now, m', flex', roll', now');
  }

  lemma NextCallFollows(t: Trig, r: Arm, now: real, m: Motors, flex: real, roll: real, now': real)
    requires r.lastArm == r.lastWrist == Some(now)
    ensures PoseNears(t, r, FollowerPose(t, r, m, flex, roll, false, now'), m, flex, roll,
                      Some(Stride(0.7, now, now')), Some(Stride(0.85, now, now')))
  {
    PoseFollows(t, r, m, flex, roll, false, now');
    assert Step(r.lastArm, false, now', ARM_SPEED) == Some(Stride(0.7, now, now'));
    assert Step(r.lastWrist, false, now', WRIST_SPEED) == Some(Stride(0.85, now, now'));
  }

  /** A hand on the shoulder itself asks for nothing. */
  lemma HandAtShoulderIsIgnored(t: Trig, a: Arm, requested: Space, boundary: int, allowed: Allowed, now: real)
    requires t.Lawful() && requested.y == SHOULDER_Y && -0.0001 <= requested.x <= 0.0001 && requested.z == 0.0
    ensures SetEndEffector(t, a, requested, boundary, allowed, now) == a
  {
    var h := if requested.x < 0.0 then -requested.x else requested.x;
    NegatedSquare(h);
    MulUnits(0.0);
    RootUnique(t, h);
  }
}
