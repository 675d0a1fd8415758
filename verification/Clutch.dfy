/**
 The arithmetic every leader bridge shares: joints and poses, wrapped angle differences,
 relative clutching and slew limits. Sources: the two Python gateways under
 apps/avp-client/tools and DirectHubLeaderClient.swift.
 */
module Clutch {
  import opened Prelude
  import opened RealMath

  /** Joints are numbered in the order of `ALL_JOINTS`: shoulder_pan, shoulder_lift,
      elbow_flex, wrist_flex, wrist_roll, gripper. The body joints come first. */
  type Joint = j: nat | j < JOINTS

  const JOINTS := 6
  const GRIPPER: Joint := 5

  /** A dictionary with exactly one entry per joint. */
  type Pose = p: seq<real> | |p| == JOINTS witness [0.0, 0.0, 0.0, 0.0, 0.0, 50.0]

  const REST_POSE: Pose := [0.0, 0.0, 0.0, 0.0, 0.0, 50.0]

  /** Seconds one control cycle stands for: `min(0.25, max(0.001, elapsed))`. */
  type Tick = d: real | 0.001 <= d <= 0.25 witness 0.001

  /** The nominal range every hub leader clamps to: degrees, and percent for the gripper. */
  function Low(j: Joint): real { if j == GRIPPER then 0.0 else -180.0 }
  function High(j: Joint): real { if j == GRIPPER then 100.0 else 180.0 }

  /** Telemetry overwrites the joints it mentions. */
  function Merge(actual: Pose, joints: map<Joint, real>): Pose {
    seq(JOINTS, j requires 0 <= j < JOINTS => if j in joints then joints[j] else actual[j])
  }

  method MergeJoints(actual: Pose, joints: map<Joint, real>) returns (r: Pose)
    ensures r == Merge(actual, joints)
  {
    r := actual;
    for i := 0 to JOINTS
      invariant forall j: Joint :: r[j] == if j < i && j in joints then joints[j] else actual[j]
    {
      if i in joints {
        r := r[i := joints[i]];
      }
    }
  }

  /** Edge continuation: keep creeping while a control is held past the virtual envelope. */
  function Creep(target: real, direction: int, rate: real, dt: Tick): real {
    target + Times(Times(direction as real, rate), dt)
  }

  /** The value of `math.pi` and of Swift's `.pi`. */
  const PI := 3.141592653589793

  function Degrees(radians: real): real {
    radians * 180.0 / PI
  }

  // ---- angle differences ----------------------------------------------------------------

  /** Remainder with the sign of the divisor, as Python's `%`. */
  function FloorMod(x: real, m: real): real
    requires m > 0.0
  {
    x - Times(m, (x / m).Floor as real)
  }

  /** Remainder with the sign of the dividend, as Swift's `truncatingRemainder`. */
  function TruncMod(x: real, m: real): real
    requires m > 0.0
  {
    if x >= 0.0 then FloorMod(x, m) else -FloorMod(-x, m)
  }

  function WrappedDelta(value: real, origin: real): real {
    FloorMod(value - origin + PI, 2.0 * PI) - PI
  }

  function SwiftWrappedDelta(value: real, origin: real): real {
    TruncMod(value - origin + PI, 2.0 * PI) - PI
  }

  lemma FloorModRange(x: real, m: real)
    requires m > 0.0
    ensures 0.0 <= FloorMod(x, m) < m
  {
    var q := x / m;
    var f := q.Floor as real;
    DivTimes(x, m);
    MulLe(f, q, m);
    MulLt(q, f + 1.0, m);
    MulAdd(f, 1.0, m);
    MulUnits(m);
  }

  lemma QuotientBetween(x: real, m: real, f: real)
    requires m > 0.0 && Times(f, m) <= x < Times(f, m) + m
    ensures f <= x / m < f + 1.0
  {
    DivTimes(x, m);
    MulAdd(f, 1.0, m);
    MulUnits(m);
    MulCancel(f, x / m, m);
    MulCancel(x / m, f + 1.0, m);
  }

  /** The only representative of `x` modulo `m` inside one period. */
  lemma FloorModUnique(x: real, m: real, k: int, r: real)
    requires m > 0.0 && x == Times(m, k as real) + r && 0.0 <= r < m
    ensures FloorMod(x, m) == r
  {
    MulSwap(m, k as real);
    QuotientBetween(x, m, k as real);
    var q := x / m;
    assert q.Floor == k;
  }

  ghost predicate Turned(value: real, origin: real, d: real, turns: int) {
    value - origin == d + Times(2.0 * PI, turns as real)
  }

  /** The shortest signed rotation: in [-pi, pi), congruent to the difference, and the only
      such number. */
  lemma WrappedDeltaIsShortest(value: real, origin: real, turns: int, d: real)
    ensures -PI <= WrappedDelta(value, origin) < PI
    ensures exists k: int :: Turned(value, origin, WrappedDelta(value, origin), k)
    ensures Turned(value, origin, d, turns) && -PI <= d < PI
            ==> d == WrappedDelta(value, origin)
  {
    var x, m := value - origin + PI, 2.0 * PI;
    FloorModRange(x, m);
    var k := (x / m).Floor;
    assert Turned(value, origin, WrappedDelta(value, origin), k);
    if Turned(value, origin, d, turns) && -PI <= d < PI {
      FloorModUnique(x, m, turns, d + PI);
    }
  }

  /** A multiple of the period, as a caller can test it. */
  predicate WholeTurns(x: real) {
    FloorMod(x, 2.0 * PI) == 0.0
  }

  /** The Swift client's truncating remainder is not the Python gateway's floored one: they
      agree exactly from -pi upwards (and at the isolated whole turns below), and elsewhere
      the Swift result is one whole turn too small. */
  lemma SwiftDeltaAgrees(value: real, origin: real)
    ensures SwiftWrappedDelta(value, origin) == WrappedDelta(value, origin)
            <==> value - origin >= -PI || WholeTurns(value - origin + PI)
    ensures SwiftWrappedDelta(value, origin) != WrappedDelta(value, origin)
            ==> SwiftWrappedDelta(value, origin) == WrappedDelta(value, origin) - 2.0 * PI
  {
    var x, m := value - origin + PI, 2.0 * PI;
    if x < 0.0 {
      FloorModRange(x, m);
      FloorModRange(-x, m);
      var k := (-x / m).Floor;
      var r := FloorMod(-x, m);
      MulSub(0.0, k as real, m);
      MulUnits(m);
      assert x == Times(m, (-k) as real) - r;
      if r == 0.0 {
        FloorModUnique(x, m, -k, 0.0);
      } else {
        MulSub((-k) as real, 1.0, m);
        FloorModUnique(x, m, -k - 1, m - r);
      }
    }
  }

  /** They do differ: at -4 radians from an origin of 0. */
  lemma SwiftDeltaDiffers()
    ensures SwiftWrappedDelta(-4.0, 0.0) == WrappedDelta(-4.0, 0.0) - 2.0 * PI
  {
    SwiftDeltaAgrees(-4.0, 0.0);
    FloorModUnique(PI - 4.0, 2.0 * PI, -1, 3.0 * PI - 4.0);
  }

  lemma NoDelta(value: real)
    ensures WrappedDelta(value, value) == 0.0 && SwiftWrappedDelta(value, value) == 0.0
  {
    MulUnits(2.0 * PI);
    FloorModUnique(PI, 2.0 * PI, 0, PI);
  }

  /** The Python gateways' joints: the arm's angle at the engagement plus the hand's turn, signed and scaled. */
  function FollowScaled(base: real, sign: int, radians: real, scale: real): real {
    base + Times(Times(sign as real, Degrees(radians)), scale)
  }

  lemma FollowsHand(arm: real, sign: int, turn: real, scale: real, wanted: real)
    requires Times(wanted - arm, PI) == Times(180.0 * sign as real * turn, scale)
    ensures FollowScaled(arm, sign, turn, scale) == wanted
  {
    var r := FollowScaled(arm, sign, turn, scale);
    var degrees := Times(sign as real, Degrees(turn));
    assert Times(degrees, PI) == 180.0 * sign as real * turn;
    MulAssociates(PI, degrees, scale);
    MulSwap(PI, degrees);
    MulSwap(PI, r - arm);
    assert Times(r - arm, PI) == Times(wanted - arm, PI);
    MulCancel(wanted - arm, r - arm, PI);
    MulCancel(r - arm, wanted - arm, PI);
  }


  // ---- the gripper clutch ---------------------------------------------------------------

  function Share(whole: real, progress: real): real {
    Times(whole, Clamp(0.0, 1.0, progress))
  }

  function Blend(base: real, endpoint: real, progress: real): real {
    base + Share(endpoint - base, progress)
  }

  function EndpointClutched(value: real, virtualBase: real, physicalBase: real,
                            low: real, high: real, sign: int): (r: real)
  {
    if value < virtualBase then
      var progress := if virtualBase > 0.0 then (virtualBase - value) / virtualBase else 0.0;
      Blend(physicalBase, if sign > 0 then low else high, progress)
    else if value > virtualBase then
      var remaining := 1.0 - virtualBase;
      var progress := if remaining > 0.0 then (value - virtualBase) / remaining else 0.0;
      Blend(physicalBase, if sign > 0 then high else low, progress)
    else physicalBase
  }

  lemma ShareOrder(d: real, s: real, t: real)
    requires s <= t
    ensures d >= 0.0 ==> 0.0 <= Share(d, s) <= Share(d, t) <= d
    ensures d <= 0.0 ==> 0.0 >= Share(d, s) >= Share(d, t) >= d
  {
    var s', t' := Clamp(0.0, 1.0, s), Clamp(0.0, 1.0, t);
    MulUnits(d);
    if d >= 0.0 {
      MulLe(0.0, s', d);
      MulLe(s', t', d);
      MulLe(t', 1.0, d);
    } else {
      MulSub(0.0, d, s');
      MulSub(0.0, d, t');
      MulUnits(s');
      MulUnits(t');
      MulUnits(-d);
      MulLe(0.0, s', -d);
      MulLe(s', t', -d);
      MulLe(t', 1.0, -d);
    }
  }

  lemma BlendOrder(a: real, b: real, s: real, t: real)
    requires s <= t
    ensures a <= b ==> a <= Blend(a, b, s) <= Blend(a, b, t) <= b
    ensures a >= b ==> a >= Blend(a, b, s) >= Blend(a, b, t) >= b
  {
    ShareOrder(b - a, s, t);
  }

  lemma BlendEnds(a: real, b: real)
    ensures Blend(a, b, 0.0) == a && Blend(a, b, 1.0) == b
  {
    MulUnits(b - a);
  }

  /** How far the slider has left its base, as a share of the rail on that side. */
  function Progress(value: real, virtualBase: real): (r: real) {
    if value < virtualBase && virtualBase > 0.0 then (virtualBase - value) / virtualBase
    else if value > virtualBase && virtualBase < 1.0 then (value - virtualBase) / (1.0 - virtualBase)
    else 0.0
  }

  lemma ClutchIsBlend(value: real, virtualBase: real, physicalBase: real, low: real, high: real, sign: int)
    ensures EndpointClutched(value, virtualBase, physicalBase, low, high, sign) ==
            Blend(physicalBase, if (value < virtualBase) == (sign > 0) then low else high,
                  Progress(value, virtualBase))
  {
    BlendEnds(physicalBase, low);
    BlendEnds(physicalBase, high);
  }

  lemma ProgressOrder(x: real, y: real, virtualBase: real)
    requires x <= y
    ensures y <= virtualBase ==> Progress(x, virtualBase) >= Progress(y, virtualBase)
    ensures virtualBase <= x ==> Progress(x, virtualBase) <= Progress(y, virtualBase)
  {
    if x < virtualBase && virtualBase > 0.0 {
      DivLe(0.0, virtualBase - x, virtualBase);
      if y < virtualBase {
        DivLe(virtualBase - y, virtualBase - x, virtualBase);
      }
    }
    if virtualBase < y && virtualBase < 1.0 {
      DivLe(0.0, y - virtualBase, 1.0 - virtualBase);
      if virtualBase < x {
        DivLe(x - virtualBase, y - virtualBase, 1.0 - virtualBase);
      }
    }
  }

  /** The relative clutch is anchored where it engaged and never leaves the physical range. */
  lemma ClutchStaysInRange(value: real, virtualBase: real, physicalBase: real,
                           low: real, high: real, sign: int)
    requires low <= physicalBase <= high
    ensures low <= EndpointClutched(value, virtualBase, physicalBase, low, high, sign) <= high
    ensures EndpointClutched(virtualBase, virtualBase, physicalBase, low, high, sign) == physicalBase
  {
    ClutchIsBlend(value, virtualBase, physicalBase, low, high, sign);
    var endpoint := if (value < virtualBase) == (sign > 0) then low else high;
    var p := Progress(value, virtualBase);
    BlendOrder(physicalBase, endpoint, p, p);
  }

  /** Both ends of the physical range stay reachable, at the ends of the virtual rail, from
      wherever the clutch engaged. */
  lemma ClutchReachesEndpoints(virtualBase: real, physicalBase: real, low: real, high: real, sign: int)
    ensures virtualBase > 0.0 ==> EndpointClutched(0.0, virtualBase, physicalBase, low, high, sign)
                                  == if sign > 0 then low else high
    ensures virtualBase < 1.0 ==> EndpointClutched(1.0, virtualBase, physicalBase, low, high, sign)
                                  == if sign > 0 then high else low
  {
    BlendEnds(physicalBase, low);
    BlendEnds(physicalBase, high);
  }

  /** Moving the virtual slider one way never moves the gripper the other way. */
  lemma ClutchIsMonotone(x: real, y: real, virtualBase: real, physicalBase: real,
                         low: real, high: real, sign: int)
    requires x <= y && low <= physicalBase <= high
    ensures var fx := EndpointClutched(x, virtualBase, physicalBase, low, high, sign);
            var fy := EndpointClutched(y, virtualBase, physicalBase, low, high, sign);
            if sign > 0 then fx <= fy else fx >= fy
  {
    var first := if sign > 0 then low else high;
    var second := if sign > 0 then high else low;
    var px, py := Progress(x, virtualBase), Progress(y, virtualBase);
    ClutchIsBlend(x, virtualBase, physicalBase, low, high, sign);
    ClutchIsBlend(y, virtualBase, physicalBase, low, high, sign);
    ProgressOrder(x, y, virtualBase);
    if y < virtualBase {
      BlendOrder(physicalBase, first, py, px);
    } else if virtualBase <= x {
      BlendOrder(physicalBase, second, px, py);
    } else {
      BlendOrder(physicalBase, first, px, px);
      BlendOrder(physicalBase, second, py, py);
    }
  }

  // ---- slew limiting ---------------------------------------------------------------------

  /** One rate-limited step of at most `step` towards `goal`. */
  function Slew(previous: real, goal: real, step: real): real {
    previous + Clamp(-step, step, goal - previous)
  }

  lemma SlewBounds(previous: real, goal: real, step: real)
    requires step >= 0.0
    ensures var r := Slew(previous, goal, step);
            && Abs(r - previous) <= step
            && Min(previous, goal) <= r <= Max(previous, goal)
            && (Abs(goal - previous) <= step ==> r == goal)
            && (Abs(goal - previous) > step ==> Abs(goal - r) == Abs(goal - previous) - step)
  {
  }
}
