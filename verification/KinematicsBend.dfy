/**
 On which side the virtual arm bends, and the other direction of the round trip: inverse kinematics
 undoes forward kinematics for exactly the poses that bend to that side.
 */
module KinematicsBend {
  import opened Prelude
  import opened RealMath
  import opened Clutch
  import opened Kinematics

  /** Twice the signed area of the triangle shoulder, target, elbow; negative when the elbow lies on the
      intended side of the line to the target. */
  function Side(target: Plane, elbow: Plane): real {
    Times(target.x, elbow.y) - Times(target.y, elbow.x)
  }

  function Dot(p: Plane, q: Plane): real {
    Times(p.x, q.x) + Times(p.y, q.y)
  }

  // ---- the elbow of a solution -----------------------------------------------------------------

  lemma CosineIsInside(reach: real)
    requires MIN_REACH <= reach <= MAX_REACH
    ensures -1.0 < Clamp(-1.0, 1.0, RawCosine(reach)) < 1.0
  {
    CosineClampIsInert(reach);
    var c := RawCosine(reach);
    MulPositive(FOREARM - (reach - UPPER_ARM), FOREARM + (reach - UPPER_ARM));
    MulPositive(reach + UPPER_ARM - FOREARM, reach + UPPER_ARM + FOREARM);
    var n := Square(UPPER_ARM) + Square(reach) - Square(FOREARM);
    assert Times(2.0, Times(Times(UPPER_ARM, reach), 1.0)) > n;
    assert Times(2.0, Times(Times(UPPER_ARM, reach), -1.0)) < n;
  }

  lemma SinePositive(t: Trig, c: real)
    requires t.Lawful() && -1.0 < c < 1.0
    ensures t.cos(t.acos(c)) == c && t.sin(t.acos(c)) > 0.0
  {
    assert t.ArcCosine(c) && t.Circle(t.acos(c));
    if t.sin(t.acos(c)) == 0.0 {
      MulUnits(0.0);
      SquareBelowOne(c);
    }
  }

  lemma SquareBelowOne(c: real)
    requires -1.0 < c < 1.0
    ensures Times(c, c) < 1.0
  {
    MulPositive(1.0 - c, 1.0 + c);
  }

  /** The signed area of two points from their polar angles. */
  lemma SideOfAngles(t: Trig, p: Plane, a: real, alpha: real, q: Plane, b: real, beta: real)
    requires t.Lawful() && At(t, p, a, alpha) && At(t, q, b, beta)
    ensures Side(p, q) == -Times(Times(a, b), t.sin(alpha - beta))
  {
    assert t.Difference(alpha, beta);
    CrossTerm(a, t.cos(alpha), b, t.sin(beta));
    CrossTerm(a, t.sin(alpha), b, t.cos(beta));
    MulSub(Times(t.sin(alpha), t.cos(beta)), Times(t.cos(alpha), t.sin(beta)), Times(a, b));
  }

  /** The elbow never flips: for every request it lies on the same side of the line from the shoulder to
      the reachable target, and never on it. */
  lemma ElbowBendsToOneSide(t: Trig, p: Plane)
    requires t.Lawful() && Distance(t, p) > 0.0
    ensures var s := Solve(t, p, Distance(t, p)); Side(s.target, s.elbow) < 0.0
  {
    var d := Distance(t, p);
    var reach := Reach(d);
    var s := Solve(t, p, d);
    var u := Plane(p.x / d, p.y / d);
    var phi := t.atan2(u.y, u.x);
    ReachRange(d);
    DirectionIsUnit(t, p);
    MulUnits(1.0);
    PolarIsExact(t, u, 1.0);
    MulUnits(t.cos(phi));
    MulUnits(t.sin(phi));
    assert At(t, s.target, reach, phi) && At(t, s.elbow, UPPER_ARM, s.shoulderAngle);
    var cosine := Clamp(-1.0, 1.0, RawCosine(reach));
    CosineIsInside(reach);
    SinePositive(t, cosine);
    SideOfAngles(t, s.target, reach, phi, s.elbow, UPPER_ARM, s.shoulderAngle);
    assert phi - s.shoulderAngle == t.acos(cosine);
    MulPositive(reach, UPPER_ARM);
    MulPositive(Times(reach, UPPER_ARM), t.sin(t.acos(cosine)));
  }

  // ---- the elbow is determined by its side --------------------------------------------------------

  lemma Lagrange(p: Plane, q: Plane)
    ensures Square(Side(p, q)) + Square(Dot(p, q)) == Times(Square(p.x) + Square(p.y), Square(q.x) + Square(q.y))
  {
    var a, b, x, y := p.x, p.y, q.x, q.y;
    assert Square(Side(p, q)) == (a * y - b * x) * (a * y - b * x);
    assert Square(Dot(p, q)) == (a * x + b * y) * (a * x + b * y);
  }

  lemma Resolve(p: Plane, q: Plane)
    ensures Times(Square(p.x) + Square(p.y), q.x) == Times(p.x, Dot(p, q)) - Times(p.y, Side(p, q))
    ensures Times(Square(p.x) + Square(p.y), q.y) == Times(p.y, Dot(p, q)) + Times(p.x, Side(p, q))
  {
    MulAdd(Square(p.x), Square(p.y), q.x);
    MulAdd(Square(p.x), Square(p.y), q.y);
    MulAdd(Times(p.x, q.x), Times(p.y, q.y), p.x);
    MulAdd(Times(p.x, q.x), Times(p.y, q.y), p.y);
    MulSub(Times(p.x, q.y), Times(p.y, q.x), p.x);
    MulSub(Times(p.x, q.y), Times(p.y, q.x), p.y);
    MulAssociates(p.x, p.x, q.x);
    MulAssociates(p.x, p.x, q.y);
    MulAssociates(p.y, p.y, q.x);
    MulAssociates(p.y, p.y, q.y);
    MulAssociates(p.x, p.y, q.x);
    MulAssociates(p.x, p.y, q.y);
    MulAssociates(p.y, p.x, q.x);
    MulAssociates(p.y, p.x, q.y);
    MulSwap(p.x, p.y);
  }

  lemma DotOfDistances(p: Plane, q: Plane)
    ensures Square(p.x - q.x) + Square(p.y - q.y)
            == Square(p.x) + Square(p.y) + (Square(q.x) + Square(q.y)) - 2.0 * Dot(p, q)
  {
    SquareSub(p.x, q.x);
    SquareSub(p.y, q.y);
  }

  lemma NegativeRoots(x: real, y: real)
    requires x < 0.0 && y < 0.0 && Square(x) == Square(y)
    ensures x == y
  {
    NegatedSquare(x);
    NegatedSquare(y);
    if -x < -y {
      MulLt(-x, -y, -x);
      MulLt(-x, -y, -y);
    } else if -y < -x {
      MulLt(-y, -x, -x);
      MulLt(-y, -x, -y);
    }
  }

  /** Two circles meet once on each side of the line through their centres. */
  lemma ElbowUnique(p: Plane, q: Plane, r: Plane, near: real, far: real)
    requires Square(p.x) + Square(p.y) > 0.0 && Side(p, q) < 0.0 && Side(p, r) < 0.0
    requires Square(q.x) + Square(q.y) == near == Square(r.x) + Square(r.y)
    requires Square(p.x - q.x) + Square(p.y - q.y) == far == Square(p.x - r.x) + Square(p.y - r.y)
    ensures q == r
  {
    DotOfDistances(p, q);
    DotOfDistances(p, r);
    Lagrange(p, q);
    Lagrange(p, r);
    NegativeRoots(Side(p, q), Side(p, r));
    Resolve(p, q);
    Resolve(p, r);
    ScaleInjective(Square(p.x) + Square(p.y), q.x, r.x);
    ScaleInjective(Square(p.x) + Square(p.y), q.y, r.y);
  }

  // ---- angles are determined up to a turn -------------------------------------------------------------

  /** Two angles less than a turn apart that point the same way are equal. */
  lemma SameDirection(t: Trig, k: real, x: real, y: real)
    requires t.Lawful() && k > 0.0 && -2.0 * t.pi < x - y < 2.0 * t.pi
    requires Times(k, t.cos(x)) == Times(k, t.cos(y)) && Times(k, t.sin(x)) == Times(k, t.sin(y))
    ensures x == y
  {
    ScaleInjective(k, t.cos(x), t.cos(y));
    ScaleInjective(k, t.sin(x), t.sin(y));
    assert t.Difference(x, y) && t.Circle(x);
    assert t.Period(x - y);
  }

  // ---- inverse after forward ----------------------------------------------------------------------------

  /** A drawn wrist in front of the axis and inside the shell, which the solver resolves. */
  ghost predicate Resolvable(t: Trig, m: Motors) {
    var p := WristPoint(t, m);
    InMotorRange(t, m) && p.x < -0.0001 && MIN_REACH <= Distance(t, p) <= MAX_REACH
  }

  function WristRequest(t: Trig, m: Motors): Space {
    InSpace(t, WristPoint(t, m), m.pan)
  }

  lemma RequestPlane(t: Trig, m: Motors)
    requires t.Lawful() && Resolvable(t, m)
    ensures var requested := WristRequest(t, m);
            Horizontal(t, requested) == -WristPoint(t, m).x && Planar(t, requested) == WristPoint(t, m)
  {
    var x := WristPoint(t, m).x;
    var requested := WristRequest(t, m);
    AtDistance(t, Plane(Times(x, t.cos(m.pan)), Times(x, t.sin(m.pan))), x, m.pan);
    NegatedSquare(Times(x, t.sin(m.pan)));
    NegatedSquare(x);
    RootUnique(t, -x);
  }

  lemma YawIsPan(t: Trig, m: Motors)
    requires t.Lawful() && Resolvable(t, m)
    ensures BaseYaw(t, WristRequest(t, m)) == m.pan
  {
    var x := WristPoint(t, m).x;
    var requested := WristRequest(t, m);
    RequestPlane(t, m);
    YawIsExact(t, requested);
    var yaw := BaseYaw(t, requested);
    assert t.Polar(requested.z, -requested.x);
    MulSub(0.0, x, t.cos(m.pan));
    MulSub(0.0, x, t.sin(m.pan));
    MulSub(0.0, x, t.cos(yaw));
    MulSub(0.0, x, t.sin(yaw));
    MulUnits(t.cos(m.pan));
    MulUnits(t.sin(m.pan));
    MulUnits(t.cos(yaw));
    MulUnits(t.sin(yaw));
    SameDirection(t, -x, yaw, m.pan);
  }

  lemma WristDistances(t: Trig, m: Motors)
    requires t.Lawful()
    ensures var e, w := ElbowPoint(t, m), WristPoint(t, m);
            && Square(e.x) + Square(e.y) == Square(UPPER_ARM)
            && At(t, Plane(w.x - e.x, w.y - e.y), FOREARM, ElbowZero(t) + m.lift + m.elbow)
            && Square(w.x - e.x) + Square(w.y - e.y) == Square(FOREARM)
  {
    var e, w := ElbowPoint(t, m), WristPoint(t, m);
    AtDistance(t, e, UPPER_ARM, LiftZero(t) + m.lift);
    AtDistance(t, Plane(w.x - e.x, w.y - e.y), FOREARM, ElbowZero(t) + m.lift + m.elbow);
  }

  lemma TargetInShell(t: Trig, p: Plane)
    requires MIN_REACH <= Distance(t, p) <= MAX_REACH
    ensures Reach(Distance(t, p)) == Distance(t, p) > 0.0 && Solve(t, p, Distance(t, p)).target == p
  {
    ReachRange(Distance(t, p));
    DivTimes(p.x, Distance(t, p));
    DivTimes(p.y, Distance(t, p));
  }

  lemma SolvesToElbow(t: Trig, m: Motors)
    requires t.Lawful() && Resolvable(t, m) && Side(WristPoint(t, m), ElbowPoint(t, m)) < 0.0
    ensures var s := Solve(t, WristPoint(t, m), Distance(t, WristPoint(t, m)));
            s.target == WristPoint(t, m) && s.elbow == ElbowPoint(t, m)
  {
    var p := WristPoint(t, m);
    var d := Distance(t, p);
    var s := Solve(t, p, d);
    TargetInShell(t, p);
    LinksKeepTheirLengths(t, p);
    WristDistances(t, m);
    ElbowBendsToOneSide(t, p);
    MulPositive(d, d);
    ElbowUnique(p, s.elbow, ElbowPoint(t, m), Square(UPPER_ARM), Square(FOREARM));
  }

  lemma AnglesReturn(t: Trig, m: Motors)
    requires t.Lawful() && Resolvable(t, m) && Side(WristPoint(t, m), ElbowPoint(t, m)) < 0.0
    ensures Distance(t, Planar(t, WristRequest(t, m))) > 0.0
    ensures var r := Requested(t, WristRequest(t, m)); r.lift == m.lift && r.elbow == m.elbow
  {
    var p := WristPoint(t, m);
    RequestPlane(t, m);
    ReachRange(Distance(t, p));
    SolvesToElbow(t, m);
    LinkAnglesReturn(t, m, Solve(t, p, Distance(t, p)), Requested(t, WristRequest(t, m)));
  }

  lemma LinkAnglesReturn(t: Trig, m: Motors, s: Solution, r: Motors)
    requires t.Lawful() && InMotorRange(t, m) && s.target == WristPoint(t, m) && s.elbow == ElbowPoint(t, m)
    requires At(t, s.elbow, UPPER_ARM, s.shoulderAngle)
    requires s.forearmAngle == t.atan2(s.target.y - s.elbow.y, s.target.x - s.elbow.x)
    requires r.lift == NormalizedAngle(t, s.shoulderAngle - LiftZero(t))
    requires r.elbow == NormalizedAngle(t, s.forearmAngle - r.lift - ElbowZero(t))
    ensures r.lift == m.lift && r.elbow == m.elbow
  {
    AnglesSurvive(t, s.shoulderAngle, s.forearmAngle, r);
    var k := NormalizedIsTurned(t, s.shoulderAngle - LiftZero(t));
    var n := NormalizedIsTurned(t, s.forearmAngle - r.lift - ElbowZero(t));
    SameDirection(t, UPPER_ARM, LiftZero(t) + r.lift, LiftZero(t) + m.lift);
    WristDistances(t, m);
    PolarIsExact(t, Plane(s.target.x - s.elbow.x, s.target.y - s.elbow.y), FOREARM);
    SameDirection(t, FOREARM, ElbowZero(t) + r.lift + r.elbow, ElbowZero(t) + m.lift + m.elbow);
  }

  /** Inverse kinematics undoes forward kinematics for exactly the poses that bend to the intended side:
      asked for the wrist such a pose draws, the solver answers with the pose. */
  lemma InverseUndoesForward(t: Trig, m: Motors)
    requires t.Lawful() && Resolvable(t, m)
    ensures Distance(t, Planar(t, WristRequest(t, m))) > 0.0
    ensures Requested(t, WristRequest(t, m)) == m <==> Side(WristPoint(t, m), ElbowPoint(t, m)) < 0.0
  {
    RequestPlane(t, m);
    ReachRange(Distance(t, WristPoint(t, m)));
    if Side(WristPoint(t, m), ElbowPoint(t, m)) < 0.0 {
      AnglesReturn(t, m);
      YawIsPan(t, m);
    }
    if Requested(t, WristRequest(t, m)) == m {
      ForwardUndoesInverse(t, WristRequest(t, m));
      ElbowBendsToOneSide(t, WristPoint(t, m));
    }
  }

  // ---- such a pose ------------------------------------------------------------------------------------------

  lemma HalfTurn(t: Trig)
    requires t.Lawful()
    ensures t.cos(t.pi) == -1.0 && t.sin(t.pi) == 0.0
  {
    Angles0(t);
    var q := t.pi / 2.0;
    assert t.Difference(0.0, q) && t.Difference(q, 0.0 - q);
    MulUnits(0.0);
    MulUnits(1.0);
    MulUnits(-1.0);
  }

  /** The upper arm straight up and the forearm straight ahead. */
  function UprightPose(t: Trig): Motors {
    Motors(0.0, 1.327 - t.pi / 2.0, t.pi / 2.0 - 1.2885)
  }

  const UPRIGHT := Space(-FOREARM, SHOULDER_Y + UPPER_ARM, 0.0)

  lemma UprightPoints(t: Trig)
    requires t.Lawful()
    ensures var m := UprightPose(t);
            && ElbowPoint(t, m) == Plane(0.0, UPPER_ARM) && WristPoint(t, m) == Plane(-FOREARM, UPPER_ARM)
            && WristRequest(t, m) == UPRIGHT
  {
    var m := UprightPose(t);
    assert LiftZero(t) + m.lift == t.pi / 2.0 && ElbowZero(t) + m.lift + m.elbow == t.pi;
    HalfTurn(t);
    Angles0(t);
    MulUnits(UPPER_ARM);
    MulUnits(FOREARM);
    MulUnits(-FOREARM);
    assert Times(FOREARM, -1.0) == -FOREARM;
  }

  lemma UprightIsInShell(t: Trig)
    requires t.Lawful()
    ensures MIN_REACH <= Distance(t, Plane(-FOREARM, UPPER_ARM)) <= MAX_REACH
  {
    var d := Distance(t, Plane(-FOREARM, UPPER_ARM));
    assert t.Root(Square(-FOREARM) + Square(UPPER_ARM));
    assert Square(-FOREARM) + Square(UPPER_ARM) == FOREARM * FOREARM + UPPER_ARM * UPPER_ARM;
    if d > MAX_REACH {
      MulLt(MAX_REACH, d, d);
      MulLt(MAX_REACH, d, MAX_REACH);
    } else if d < MIN_REACH {
      MulLe(d, MIN_REACH, d);
      MulLe(d, MIN_REACH, MIN_REACH);
    }
  }

  /** The joint ranges do leave room: this request is resolved to a pose inside them, whatever the library
      behind the laws. */
  lemma UprightIsReached(t: Trig)
    requires t.Lawful()
    ensures Distance(t, Planar(t, UPRIGHT)) > 0.0 && Requested(t, UPRIGHT) == UprightPose(t)
    ensures InMotorRange(t, UprightPose(t)) && YawResolved(t, UPRIGHT) && Resolvable(t, UprightPose(t))
    ensures MIN_REACH <= Distance(t, Planar(t, UPRIGHT)) <= MAX_REACH
  {
    var m := UprightPose(t);
    UprightPoints(t);
    UprightIsInShell(t);
    RequestPlane(t, m);
    MulPositive(FOREARM, UPPER_ARM);
    MulSub(0.0, FOREARM, UPPER_ARM);
    MulUnits(UPPER_ARM);
    InverseUndoesForward(t, m);
  }
}
