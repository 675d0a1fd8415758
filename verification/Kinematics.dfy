/**
 The two-link inverse and forward kinematics of the virtual arm
 (apps/avp-client/AVPIsaacLeader/VirtualLeaderView.swift).
 */
module Kinematics {
  import opened Prelude
  import opened RealMath
  import opened Clutch

  // ---- the mathematics library ---------------------------------------------------------------

  /** The functions the program imports. A law holds at the arguments it is stated for. */
  datatype Trig = Trig(pi: real, sqrt: real -> real, sin: real -> real, cos: real -> real,
                       acos: real -> real, atan2: (real, real) -> real)
  {
    ghost predicate Root(x: real) {
      x >= 0.0 ==> sqrt(x) >= 0.0 && Times(sqrt(x), sqrt(x)) == x
    }

    ghost predicate Circle(x: real) {
      Times(cos(x), cos(x)) + Times(sin(x), sin(x)) == 1.0
    }

    ghost predicate Difference(x: real, y: real) {
      && cos(x - y) == Times(cos(x), cos(y)) + Times(sin(x), sin(y))
      && sin(x - y) == Times(sin(x), cos(y)) - Times(cos(x), sin(y))
    }

    ghost predicate Turn(x: real) {
      cos(x + 2.0 * pi) == cos(x) && sin(x + 2.0 * pi) == sin(x)
    }

    /** A turn is the shortest period. */
    ghost predicate Period(x: real) {
      cos(x) == 1.0 && -2.0 * pi < x < 2.0 * pi ==> x == 0.0
    }

    ghost predicate Quarter() {
      cos(pi / 2.0) == 0.0 && sin(pi / 2.0) == 1.0
    }

    ghost predicate ArcCosine(x: real) {
      -1.0 <= x <= 1.0 ==> cos(acos(x)) == x && sin(acos(x)) >= 0.0
    }

    /** `atan2` gives the polar angle of (x, y), in [-pi, pi]. */
    ghost predicate Polar(y: real, x: real) {
      var r := sqrt(Times(x, x) + Times(y, y));
      && Times(r, cos(atan2(y, x))) == x && Times(r, sin(atan2(y, x))) == y
      && -pi <= atan2(y, x) <= pi
    }

    ghost predicate Lawful() {
      && pi > 3.0 && Quarter() && (forall x :: Period(x))
      && (forall x :: Root(x)) && (forall x :: Circle(x)) && (forall x, y :: Difference(x, y))
      && (forall x :: Turn(x)) && (forall x :: ArcCosine(x)) && (forall y, x :: Polar(y, x))
    }
  }

  function Square(x: real): (r: real)
    ensures r >= 0.0
  {
    Times(x, x)
  }

  lemma RootUnique(t: Trig, r: real)
    requires t.Lawful() && r >= 0.0
    ensures t.sqrt(Square(r)) == r
  {
    assert t.Root(Square(r));
    var s := t.sqrt(Square(r));
    if s < r {
      MulLe(s, r, s);
      MulLt(s, r, r);
    } else if s > r {
      MulLe(r, s, r);
      MulLt(r, s, s);
    }
  }

  lemma {:induction false} Turns(t: Trig, x: real, k: int)
    requires t.Lawful()
    ensures t.cos(x + Times(2.0 * t.pi, k as real)) == t.cos(x)
    ensures t.sin(x + Times(2.0 * t.pi, k as real)) == t.sin(x)
    decreases if k >= 0 then k else -k
  {
    var m := 2.0 * t.pi;
    MulUnits(m);
    if k > 0 {
      Turns(t, x, k - 1);
      MulAdd((k - 1) as real, 1.0, m);
      assert t.Turn(x + Times(m, (k - 1) as real));
    } else if k < 0 {
      Turns(t, x, k + 1);
      MulAdd(k as real, 1.0, m);
      assert t.Turn(x + Times(m, k as real));
    }
  }

  // ---- geometry -------------------------------------------------------------------------------

  const UPPER_ARM := 0.116 * 1.8
  const FOREARM := 0.135 * 1.8
  const SHOULDER_Y := 0.10

  datatype Plane = Plane(x: real, y: real)
  datatype Space = Space(x: real, y: real, z: real)

  function LiftZero(t: Trig): real { t.pi - 1.327 }
  function ElbowZero(t: Trig): real { t.pi - 0.0385 }
  function MaxPan(t: Trig): real { 110.0 * t.pi / 180.0 }
  function MaxLift(t: Trig): real { 100.0 * t.pi / 180.0 }
  function MaxElbow(t: Trig): real { 96.8 * t.pi / 180.0 }
  function MaxWristFlex(t: Trig): real { 95.0 * t.pi / 180.0 }
  function MaxWristRoll(t: Trig): real { 160.0 * t.pi / 180.0 }

  function Symmetric(limit: real, x: real): real { Clamp(-limit, limit, x) }

  function NormalizedAngle(t: Trig, angle: real): real
    requires t.pi > 0.0
  {
    var r := TruncMod(angle, 2.0 * t.pi);
    var s := if r > t.pi then r - 2.0 * t.pi else r;
    if s < -t.pi then s + 2.0 * t.pi else s
  }

  /** Normalizing removes whole turns, and lands in [-pi, pi]. */
  lemma NormalizedIsTurned(t: Trig, angle: real) returns (k: int)
    requires t.pi > 0.0
    ensures angle == NormalizedAngle(t, angle) + Times(2.0 * t.pi, k as real)
    ensures -t.pi <= NormalizedAngle(t, angle) <= t.pi
  {
    var m := 2.0 * t.pi;
    FloorModRange(angle, m);
    FloorModRange(-angle, m);
    var q := if angle >= 0.0 then (angle / m).Floor else -((-angle / m).Floor);
    MulSub(0.0, (-angle / m).Floor as real, m);
    MulUnits(m);
    assert angle == TruncMod(angle, m) + Times(m, q as real);
    MulAdd(q as real, 1.0, m);
    MulSub(q as real, 1.0, m);
    var r := TruncMod(angle, m);
    k := if r > t.pi then q + 1 else if r < -t.pi then q - 1 else q;
  }

  // ---- inverse kinematics ------------------------------------------------------------------------

  const MIN_REACH := Abs(UPPER_ARM - FOREARM) + 0.015
  const MAX_REACH := UPPER_ARM + FOREARM - 0.015

  function Horizontal(t: Trig, requested: Space): real {
    t.sqrt(Square(requested.x) + Square(requested.z))
  }

  function BaseYaw(t: Trig, requested: Space): real {
    if Horizontal(t, requested) > 0.0001 then t.atan2(requested.z, -requested.x) else 0.0
  }

  /** The requested point in the arm's own vertical plane, from the shoulder. */
  function Planar(t: Trig, requested: Space): Plane {
    Plane(-Horizontal(t, requested), requested.y - SHOULDER_Y)
  }

  function Distance(t: Trig, p: Plane): real {
    t.sqrt(Square(p.x) + Square(p.y))
  }

  function Reach(distance: real): real {
    Max(MIN_REACH, Min(MAX_REACH, distance))
  }

  function RawCosine(reach: real): real
    requires reach > 0.0
  {
    (Square(UPPER_ARM) + Square(reach) - Square(FOREARM)) / (2.0 * UPPER_ARM * reach)
  }

  /** What the solver computes before motor limits; offsets are from the shoulder. */
  datatype Solution = Solution(target: Plane, shoulderAngle: real, elbow: Plane, forearmAngle: real)

  function Solve(t: Trig, p: Plane, distance: real): Solution
    requires distance > 0.0
  {
    var reach := Reach(distance);
    var direction := Plane(p.x / distance, p.y / distance);
    var target := Plane(Times(reach, direction.x), Times(reach, direction.y));
    var cosine := Clamp(-1.0, 1.0, RawCosine(reach));
    var shoulderAngle := t.atan2(direction.y, direction.x) - t.acos(cosine);
    var elbow := Plane(Times(UPPER_ARM, t.cos(shoulderAngle)), Times(UPPER_ARM, t.sin(shoulderAngle)));
    Solution(target, shoulderAngle, elbow, t.atan2(target.y - elbow.y, target.x - elbow.x))
  }

  datatype Motors = Motors(pan: real, lift: real, elbow: real)

  /** The solution in calibrated motor angles, before the joint ranges are applied. */
  function Requested(t: Trig, requested: Space): Motors
    requires t.pi > 0.0 && Distance(t, Planar(t, requested)) > 0.0
  {
    var s := Solve(t, Planar(t, requested), Distance(t, Planar(t, requested)));
    var lift := NormalizedAngle(t, s.shoulderAngle - LiftZero(t));
    Motors(BaseYaw(t, requested), lift, NormalizedAngle(t, s.forearmAngle - lift - ElbowZero(t)))
  }

  predicate InMotorRange(t: Trig, m: Motors) {
    && -MaxPan(t) <= m.pan <= MaxPan(t)
    && -MaxLift(t) <= m.lift <= MaxLift(t)
    && -MaxElbow(t) <= m.elbow <= MaxElbow(t)
  }

  function ClipMotors(t: Trig, m: Motors): Motors {
    Motors(Symmetric(MaxPan(t), m.pan), Symmetric(MaxLift(t), m.lift), Symmetric(MaxElbow(t), m.elbow))
  }

  // ---- forward kinematics ------------------------------------------------------------------------

  function ElbowPoint(t: Trig, m: Motors): Plane {
    var upper := LiftZero(t) + m.lift;
    Plane(Times(UPPER_ARM, t.cos(upper)), Times(UPPER_ARM, t.sin(upper)))
  }

  function WristPoint(t: Trig, m: Motors): Plane {
    var elbow := ElbowPoint(t, m);
    var forearm := ElbowZero(t) + m.lift + m.elbow;
    Plane(elbow.x + Times(FOREARM, t.cos(forearm)), elbow.y + Times(FOREARM, t.sin(forearm)))
  }

  /** The arm assembly turns about the vertical axis; the plane's z is zero. */
  function InSpace(t: Trig, p: Plane, pan: real): Space {
    Space(Times(p.x, t.cos(pan)), p.y + SHOULDER_Y, -Times(p.x, t.sin(pan)))
  }

  // ---- exactness ----------------------------------------------------------------------------------

  lemma ReachRange(distance: real)
    ensures 0.0 < MIN_REACH <= Reach(distance) <= MAX_REACH
    ensures MIN_REACH <= distance <= MAX_REACH ==> Reach(distance) == distance
  {
  }

  /** The clamp around the law of cosines never acts. */
  lemma CosineClampIsInert(reach: real)
    requires MIN_REACH <= reach <= MAX_REACH
    ensures -1.0 <= RawCosine(reach) <= 1.0
    ensures Times(2.0, Times(Times(UPPER_ARM, reach), Clamp(-1.0, 1.0, RawCosine(reach))))
            == Square(UPPER_ARM) + Square(reach) - Square(FOREARM)
  {
    var n := Square(UPPER_ARM) + Square(reach) - Square(FOREARM);
    var d := 2.0 * UPPER_ARM * reach;
    MulNonneg(FOREARM - (reach - UPPER_ARM), FOREARM + (reach - UPPER_ARM));
    MulNonneg(reach + UPPER_ARM - FOREARM, reach + UPPER_ARM + FOREARM);
    assert -d <= n <= d;
    DivTimes(n, d);
    DivLe(-d, n, d);
    DivLe(n, d, d);
    assert (-d) / d == -1.0 && d / d == 1.0;
  }

  lemma SquareSub(a: real, b: real)
    ensures Square(a - b) == Square(a) + Square(b) - Times(2.0, Times(a, b))
  {
  }

  lemma SquareTimes(k: real, x: real)
    ensures Square(Times(k, x)) == Times(Square(k), Square(x))
  {
  }

  /** A point at polar angle `angle` and distance `k`. */
  ghost predicate At(t: Trig, p: Plane, k: real, angle: real) {
    p == Plane(Times(k, t.cos(angle)), Times(k, t.sin(angle)))
  }

  lemma AtDistance(t: Trig, p: Plane, k: real, angle: real)
    requires t.Lawful() && At(t, p, k, angle)
    ensures Square(p.x) + Square(p.y) == Square(k)
  {
    assert t.Circle(angle);
    SquareTimes(k, t.cos(angle));
    SquareTimes(k, t.sin(angle));
    MulAdd(Square(t.cos(angle)), Square(t.sin(angle)), Square(k));
    MulUnits(Square(k));
  }

  /** Any point at a known distance from the origin is recovered by its polar angle. */
  lemma PolarIsExact(t: Trig, p: Plane, k: real)
    requires t.Lawful() && k >= 0.0 && Square(p.x) + Square(p.y) == Square(k)
    ensures At(t, p, k, t.atan2(p.y, p.x))
  {
    assert t.Polar(p.y, p.x);
    RootUnique(t, k);
  }

  lemma DirectionIsUnit(t: Trig, p: Plane)
    requires t.Lawful() && Distance(t, p) > 0.0
    ensures var d := Distance(t, p); Square(p.x / d) + Square(p.y / d) == 1.0
  {
    var d := Distance(t, p);
    assert t.Root(Square(p.x) + Square(p.y));
    DivTimes(p.x, d);
    DivTimes(p.y, d);
    SquareTimes(p.x / d, d);
    SquareTimes(p.y / d, d);
    MulAdd(Square(p.x / d), Square(p.y / d), Square(d));
    MulUnits(Square(d));
    MulPositive(d, d);
    MulCancel(Square(p.x / d) + Square(p.y / d), 1.0, Square(d));
    MulCancel(1.0, Square(p.x / d) + Square(p.y / d), Square(d));
  }

  /** Law of cosines: the squared distance between two points from their polar angles. */
  lemma LawOfCosines(t: Trig, p: Plane, a: real, alpha: real, q: Plane, b: real, beta: real)
    requires t.Lawful() && At(t, p, a, alpha) && At(t, q, b, beta)
    ensures Square(p.x - q.x) + Square(p.y - q.y)
            == Square(a) + Square(b) - Times(2.0, Times(Times(a, b), t.cos(alpha - beta)))
  {
    AtDistance(t, p, a, alpha);
    AtDistance(t, q, b, beta);
    SquareSub(p.x, q.x);
    SquareSub(p.y, q.y);
    assert t.Difference(alpha, beta);
    CrossTerm(a, t.cos(alpha), b, t.cos(beta));
    CrossTerm(a, t.sin(alpha), b, t.sin(beta));
    MulAdd(Times(t.cos(alpha), t.cos(beta)), Times(t.sin(alpha), t.sin(beta)), Times(a, b));
    MulAdd(Times(p.x, q.x), Times(p.y, q.y), 2.0);
  }

  lemma CrossTerm(a: real, x: real, b: real, y: real)
    ensures Times(Times(a, x), Times(b, y)) == Times(Times(a, b), Times(x, y))
  {
  }

  /** Inverse kinematics is exact: the elbow lies one upper arm from the shoulder, and the
      reach-clamped target one forearm from the elbow, for every requested point. */
  lemma LinksKeepTheirLengths(t: Trig, p: Plane)
    requires t.Lawful() && Distance(t, p) > 0.0
    ensures var s := Solve(t, p, Distance(t, p));
            && Square(s.elbow.x) + Square(s.elbow.y) == Square(UPPER_ARM)
            && Square(s.target.x - s.elbow.x) + Square(s.target.y - s.elbow.y) == Square(FOREARM)
            && Square(s.target.x) + Square(s.target.y) == Square(Reach(Distance(t, p)))
  {
    var d := Distance(t, p);
    var reach := Reach(d);
    var s := Solve(t, p, d);
    var u := Plane(p.x / d, p.y / d);
    var phi := t.atan2(u.y, u.x);
    ReachRange(d);
    DirectionIsUnit(t, p);
    MulUnits(1.0);
    PolarIsExact(t, u, 1.0);
    MulUnits(t.cos(phi));
    MulUnits(t.sin(phi));
    assert At(t, s.target, reach, phi);
    assert At(t, s.elbow, UPPER_ARM, s.shoulderAngle);
    AtDistance(t, s.target, reach, phi);
    AtDistance(t, s.elbow, UPPER_ARM, s.shoulderAngle);
    CosineClampIsInert(reach);
    var cosine := Clamp(-1.0, 1.0, RawCosine(reach));
    assert t.ArcCosine(cosine);
    LawOfCosines(t, s.target, reach, phi, s.elbow, UPPER_ARM, s.shoulderAngle);
    assert phi - s.shoulderAngle == t.acos(cosine);
    MulSwap(reach, UPPER_ARM);
  }

  /** Forward kinematics undoes inverse kinematics: as long as the solution is inside the joint
      ranges, the drawn elbow and wrist are the solved elbow and the reach-clamped target. */
  lemma ForwardUndoesInverse(t: Trig, requested: Space)
    requires t.Lawful() && Distance(t, Planar(t, requested)) > 0.0
    requires InMotorRange(t, Requested(t, requested))
    ensures var s := Solve(t, Planar(t, requested), Distance(t, Planar(t, requested)));
            var m := ClipMotors(t, Requested(t, requested));
            ElbowPoint(t, m) == s.elbow && WristPoint(t, m) == s.target
  {
    var p := Planar(t, requested);
    var s := Solve(t, p, Distance(t, p));
    var m := Requested(t, requested);
    assert ClipMotors(t, m) == m;
    LinksKeepTheirLengths(t, p);
    AnglesSurvive(t, s.shoulderAngle, s.forearmAngle, m);
    PolarIsExact(t, Plane(s.target.x - s.elbow.x, s.target.y - s.elbow.y), FOREARM);
  }

  /** Normalized motor angles point the links where the solved angles do. */
  lemma AnglesSurvive(t: Trig, shoulder: real, forearm: real, m: Motors)
    requires t.Lawful() && m.lift == NormalizedAngle(t, shoulder - LiftZero(t))
    requires m.elbow == NormalizedAngle(t, forearm - m.lift - ElbowZero(t))
    ensures var upper, lower := LiftZero(t) + m.lift, ElbowZero(t) + m.lift + m.elbow;
            && t.cos(upper) == t.cos(shoulder) && t.sin(upper) == t.sin(shoulder)
            && t.cos(lower) == t.cos(forearm) && t.sin(lower) == t.sin(forearm)
  {
    var k := NormalizedIsTurned(t, shoulder - LiftZero(t));
    Turns(t, LiftZero(t) + m.lift, k);
    var n := NormalizedIsTurned(t, forearm - m.lift - ElbowZero(t));
    Turns(t, ElbowZero(t) + m.lift + m.elbow, n);
  }

  // ---- in space --------------------------------------------------------------------------------------

  /** The requested point pulled along its ray from the shoulder into the reachable shell. */
  function ReachableTarget(t: Trig, requested: Space): Space
    requires Distance(t, Planar(t, requested)) > 0.0
  {
    var d := Distance(t, Planar(t, requested));
    var scale := Reach(d) / d;
    Space(Times(scale, requested.x), SHOULDER_Y + Times(scale, requested.y - SHOULDER_Y),
          Times(scale, requested.z))
  }

  lemma Angles0(t: Trig)
    requires t.Lawful()
    ensures t.cos(0.0) == 1.0 && t.sin(0.0) == 0.0
  {
    assert t.Difference(0.0, 0.0) && t.Circle(0.0);
    MulUnits(1.0);
    if t.sin(0.0) > 0.0 {
      MulPositive(t.sin(0.0), t.sin(0.0));
    } else if t.sin(0.0) < 0.0 {
      MulPositive(-t.sin(0.0), -t.sin(0.0));
      MulSub(0.0, t.sin(0.0), t.sin(0.0));
      MulSub(0.0, t.sin(0.0), -t.sin(0.0));
      MulUnits(t.sin(0.0));
      MulUnits(-t.sin(0.0));
    }
  }

  /** The base yaw points the arm's plane at the request, except on the vertical axis itself. */
  predicate YawResolved(t: Trig, requested: Space) {
    Horizontal(t, requested) > 0.0001 || (requested.z == 0.0 && requested.x <= 0.0)
  }

  /** Turned into place, the horizontal arm lies along the requested direction exactly when the
      yaw is resolved. */
  lemma YawIsExact(t: Trig, requested: Space)
    requires t.Lawful()
    ensures var h := Horizontal(t, requested); var yaw := BaseYaw(t, requested);
            (Times(-h, t.cos(yaw)) == requested.x && -Times(-h, t.sin(yaw)) == requested.z)
            <==> YawResolved(t, requested)
  {
    var h := Horizontal(t, requested);
    var yaw := BaseYaw(t, requested);
    assert t.Root(Square(requested.x) + Square(requested.z));
    MulSub(0.0, h, t.cos(yaw));
    MulSub(0.0, h, t.sin(yaw));
    MulUnits(t.cos(yaw));
    MulUnits(t.sin(yaw));
    if h > 0.0001 {
      assert t.Polar(requested.z, -requested.x);
      assert Square(-requested.x) == Square(requested.x);
    } else {
      Angles0(t);
      MulUnits(h);
      if requested.z == 0.0 && requested.x <= 0.0 {
        RootUnique(t, -requested.x);
        assert Square(-requested.x) == Square(requested.x);
        MulUnits(0.0);
      }
    }
  }

  lemma ScaledTarget(t: Trig, requested: Space)
    requires t.Lawful() && Distance(t, Planar(t, requested)) > 0.0
    ensures var d := Distance(t, Planar(t, requested)); var scale := Reach(d) / d;
            var target := Solve(t, Planar(t, requested), d).target;
            && scale > 0.0
            && target.x == Times(scale, -Horizontal(t, requested))
            && target.y == Times(scale, requested.y - SHOULDER_Y)
  {
    var d := Distance(t, Planar(t, requested));
    ReachRange(d);
    DivTimes(Reach(d), d);
    assert Reach(d) / d > 0.0;
  }

  lemma MulAssoc(a: real, b: real, c: real)
    ensures Times(Times(a, b), c) == Times(a, Times(b, c))
  {
  }

  /** The whole chain in space: drawn through forward kinematics, the wrist is the reachable
      target if and only if the yaw is resolved; within a tenth of a millimetre of the vertical
      axis the code gives up the yaw and the wrist is off by that much. */
  lemma SpatialRoundTrip(t: Trig, requested: Space)
    requires t.Lawful() && Distance(t, Planar(t, requested)) > 0.0
    requires InMotorRange(t, Requested(t, requested))
    ensures var m := ClipMotors(t, Requested(t, requested));
            InSpace(t, WristPoint(t, m), m.pan) == ReachableTarget(t, requested)
            <==> YawResolved(t, requested)
  {
    var m := Requested(t, requested);
    var d := Distance(t, Planar(t, requested));
    var scale := Reach(d) / d;
    var h := Horizontal(t, requested);
    ForwardUndoesInverse(t, requested);
    ScaledTarget(t, requested);
    YawIsExact(t, requested);
    MulAssoc(scale, -h, t.cos(m.pan));
    MulAssoc(scale, -h, t.sin(m.pan));
    MulSub(0.0, Times(-h, t.sin(m.pan)), scale);
    MulUnits(scale);
    ScaleInjective(scale, Times(-h, t.cos(m.pan)), requested.x);
    ScaleInjective(scale, -Times(-h, t.sin(m.pan)), requested.z);
  }

  /** The yaw is given up, concretely: 0.03 mm in front of the axis and 0.04 mm beside it, the wrist
      is drawn in the plane z == 0 at whatever joints the solver asks for, and the reachable
      target lies beside it. */
  lemma YawIsLostNearTheAxis(t: Trig, y: real)
    requires t.Lawful()
    ensures var requested := Space(0.00003, y, 0.00004);
            && Horizontal(t, requested) == 0.00005 && !YawResolved(t, requested)
            && Distance(t, Planar(t, requested)) > 0.0
            && var m := ClipMotors(t, Requested(t, requested));
               InSpace(t, WristPoint(t, m), m.pan).z == 0.0 < ReachableTarget(t, requested).z
  {
    var requested := Space(0.00003, y, 0.00004);
    NearAxisDistance(t, y);
    var m := ClipMotors(t, Requested(t, requested));
    assert m.pan == 0.0;
    Angles0(t);
    MulUnits(WristPoint(t, m).x);
    ScaledTarget(t, requested);
    MulPositive(Reach(Distance(t, Planar(t, requested))) / Distance(t, Planar(t, requested)), 0.00004);
  }

  lemma NearAxisDistance(t: Trig, y: real)
    requires t.Lawful()
    ensures var requested := Space(0.00003, y, 0.00004);
            Horizontal(t, requested) == 0.00005 && Distance(t, Planar(t, requested)) > 0.0
  {
    var requested := Space(0.00003, y, 0.00004);
    assert Square(0.00003) + Square(0.00004) == Square(0.00005);
    RootUnique(t, 0.00005);
    var p := Planar(t, requested);
    assert t.Root(Square(p.x) + Square(p.y));
    MulPositive(0.00005, 0.00005);
    NegatedSquare(0.00005);
    assert Square(p.x) + Square(p.y) > 0.0;
    MulUnits(0.0);
  }

  lemma NegatedSquare(x: real)
    ensures Square(-x) == Square(x)
  {
  }

  lemma ScaleInjective(scale: real, a: real, b: real)
    requires scale > 0.0
    ensures Times(scale, a) == Times(scale, b) <==> a == b
  {
    MulSwap(scale, a);
    MulSwap(scale, b);
    MulCancel(a, b, scale);
    MulCancel(b, a, scale);
  }

  /** Inside the shell the reachable target is the request itself. */
  lemma ReachableIsRequest(t: Trig, requested: Space)
    requires MIN_REACH <= Distance(t, Planar(t, requested)) <= MAX_REACH
    ensures ReachableTarget(t, requested) == requested
  {
    var d := Distance(t, Planar(t, requested));
    assert Reach(d) / d == 1.0 by { DivTimes(d, d); }
    MulUnits(requested.x);
    MulUnits(requested.y - SHOULDER_Y);
    MulUnits(requested.z);
  }
}
