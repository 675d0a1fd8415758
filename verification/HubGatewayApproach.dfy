/**
 Where the hub gateway's arm goes: with the hand held still every joint approaches the pose the
 hand asks for, whatever the low-pass filter held before.
 */
module HubGatewayApproach {
  import opened Prelude
  import opened RealMath
  import opened Clutch
  import opened HubGateway
  import opened HubGatewayRuns

  // ---- one tick of one joint ---------------------------------------------------------------

  /** Seconds of smoothing. */
  function Smoothing(a: Args): real { Max(0.0, a.smoothingMs / 1000.0) }

  /** What the filter holds for this joint. */
  function Filtered(b: Bridge, j: Joint): real {
    if b.smoothed.Some? then b.smoothed.value[j] else b.target[j]
  }

  lemma Projected(x: real, y: real, low: real, high: real)
    requires low <= high
    ensures Abs(Clamp(low, high, x) - Clamp(low, high, y)) <= Abs(x - y)
  {
  }

  /** Whatever a slew-limited value is sent to, it gets a step closer to the goal or within the
      distance its order has from the goal. */
  lemma SlewApproaches(t: real, order: real, goal: real, step: real)
    requires step >= 0.0
    ensures Abs(Slew(t, order, step) - goal) <= Max(Abs(order - goal), Abs(t - goal) - step)
  {
  }

  lemma LimitApproaches(t: real, f: real, wanted: real, anchor: real, a: Args, dt: Tick, j: Joint)
    requires Speed(a, j) >= 0.0
    requires Abs(Clamp(Low(j), High(j), wanted) - anchor) <= Lead(a, j)
    ensures Abs(Limit(t, f, anchor, a, dt, j) - Clamp(Low(j), High(j), wanted))
            <= Max(Abs(f - wanted), Abs(t - Clamp(Low(j), High(j), wanted)) - Times(Speed(a, j), dt))
  {
    var goal, order, step := Clamp(Low(j), High(j), wanted), Clamp(Low(j), High(j), f), Times(Speed(a, j), dt);
    MulNonneg(Speed(a, j), dt);
    Projected(f, wanted, Low(j), High(j));
    SlewApproaches(t, order, goal, step);
    Projected(Slew(t, order, step), goal, anchor - Lead(a, j), anchor + Lead(a, j));
  }

  /** The filter's error shrinks by tau / (tau + dt). */
  lemma FilterApproaches(f: real, wanted: real, a: Args, dt: Tick)
    ensures Times(Smoothing(a) + dt, Abs(LowPass(f, wanted, Alpha(a, dt)) - wanted)) == Times(Smoothing(a), Abs(f - wanted))
  {
    var tau, e := Smoothing(a), f - wanted;
    var alpha := Alpha(a, dt);
    var next := LowPass(f, wanted, alpha) - wanted;
    MulSub(0.0, e, alpha);
    MulUnits(alpha);
    assert next == e - Times(alpha, e) by { MulSwap(alpha, e); MulSwap(alpha, -e); assert wanted - f == -e; }
    assert Times(tau + dt, alpha) == dt by { ShareOf(a, dt); }
    MulAssociates(tau + dt, alpha, e);
    MulSub(e, Times(alpha, e), tau + dt);
    MulAdd(tau, dt, e);
    assert Times(tau + dt, next) == Times(tau, e);
    TimesAbs(tau + dt, next);
    TimesAbs(tau, e);
  }

  lemma ShareOf(a: Args, dt: Tick)
    ensures Times(Smoothing(a) + dt, Alpha(a, dt)) == dt
  {
    if a.smoothingMs <= 0.0 {
      MulUnits(dt);
    } else {
      DivTimes(dt, a.smoothingMs / 1000.0 + dt);
    }
  }

  lemma TimesAbs(a: real, b: real)
    requires a >= 0.0
    ensures Times(a, Abs(b)) == Abs(Times(a, b))
  {
    MulSub(0.0, b, a);
    MulUnits(a);
    MulNonneg(a, Abs(b));
  }

  // ---- what is asked of a joint --------------------------------------------------------------

  /** A joint's clutch, engaged with the hand at `hand` and the arm at `arm`, and the angle or slider
      position `at` that the hand keeps. */
  datatype Aim = Aim(hand: real, arm: real, at: real)

  ghost predicate Engaged(b: Bridge, j: Joint, aim: Aim) {
    if j == GRIPPER then b.gripVirtual == Some(aim.hand) && b.gripPhysical == Some(aim.arm)
    else && b.armVirtual.Some? && b.armVirtual.value[j] == aim.hand
         && b.armPhysical.Some? && b.armPhysical.value[j] == aim.arm
  }

  ghost predicate Asks(c: Command, j: Joint, at: real) {
    && !AtEdge(c, j)
    && if j == GRIPPER then c.gripperActive && c.gripper == at else c.armActive && c.radians[j] == at
  }

  /** Where the hand wants the joint: the arm's angle when the clutch engaged plus the hand's turn
      since, in degrees, signed and scaled; or the slider's share of the rest of its rail. */
  ghost predicate Aims(a: Args, j: Joint, aim: Aim, wanted: real) {
    if j == GRIPPER then wanted == EndpointClutched(aim.at, aim.hand, aim.arm, 0.0, 100.0, a.signs[j])
    else Times(wanted - aim.arm, PI) == Times(180.0 * a.signs[j] as real * WrappedDelta(aim.at, aim.hand), a.scales[j])
  }

  lemma AimIsDesired(b: Bridge, c: Command, a: Args, dt: Tick, j: Joint, aim: Aim, wanted: real)
    requires Paired(b) && Engaged(b, j, aim) && Asks(c, j, aim.at) && Aims(a, j, aim, wanted)
    ensures Desired(b, c, a, dt, j) == wanted
  {
    if j != GRIPPER {
      FollowsHand(aim.arm, a.signs[j], WrappedDelta(aim.at, aim.hand), a.scales[j], wanted);
    }
  }

  // ---- one tick of the gateway -----------------------------------------------------------------

  function Goal(j: Joint, wanted: real): real { Clamp(Low(j), High(j), wanted) }

  function FilterError(b: Bridge, j: Joint, wanted: real): real { Abs(Filtered(b, j) - wanted) }

  function Distance(b: Bridge, j: Joint, wanted: real): real { Abs(b.target[j] - Goal(j, wanted)) }

  /** The pose asked for lies in the window around telemetry. */
  predicate InWindow(b: Bridge, a: Args, j: Joint, wanted: real) {
    Abs(Goal(j, wanted) - b.actual[j]) <= Lead(a, j)
  }

  /** A tick that asks joint `j` to be at `wanted`. */
  ghost predicate Follows(b: Bridge, a: Args, now: real, j: Joint, aim: Aim, wanted: real) {
    && Moves(b, a, now) && Engaged(b, j, aim) && Asks(b.latest.value, j, aim.at) && Aims(a, j, aim, wanted)
  }

  lemma TickOfJoint(b: Bridge, a: Args, dt: Tick, now: real, j: Joint, aim: Aim, wanted: real)
    requires Safe(b) && Follows(b, a, now, j, aim, wanted)
    ensures var r := NextInput(b, a, dt, now).0;
            && Engaged(r, j, aim) && r.smoothed.Some?
            && Filtered(r, j) == LowPass(Filtered(b, j), wanted, Alpha(a, dt))
            && r.target[j] == Limit(b.target[j], Filtered(r, j), b.actual[j], a, dt, j)
  {
    AimIsDesired(b, b.latest.value, a, dt, j, aim, wanted);
  }

  /** Every tick brings the filter closer to the pose the hand asks for by the factor tau / (tau + dt),
      and the target either a slew step closer to it or as close as the filter is. */
  lemma TickApproaches(b: Bridge, a: Args, dt: Tick, now: real, j: Joint, aim: Aim, wanted: real)
    requires Safe(b) && Follows(b, a, now, j, aim, wanted) && Speed(a, j) >= 0.0 && InWindow(b, a, j, wanted)
    ensures var r := NextInput(b, a, dt, now).0;
            && Times(Smoothing(a) + dt, FilterError(r, j, wanted)) == Times(Smoothing(a), FilterError(b, j, wanted))
            && Distance(r, j, wanted) <= Max(FilterError(r, j, wanted), Distance(b, j, wanted) - Times(Speed(a, j), dt))
  {
    TickOfJoint(b, a, dt, now, j, aim, wanted);
    FilterApproaches(Filtered(b, j), wanted, a, dt);
    LimitApproaches(b.target[j], Filtered(NextInput(b, a, dt, now).0, j), wanted, b.actual[j], a, dt, j);
  }

  /** The filter lies between the target and the pose asked for: so it is when a clutch engages with the
      filter at rest. */
  predicate Ordered(b: Bridge, j: Joint, wanted: real) {
    b.target[j] <= Filtered(b, j) <= wanted || wanted <= Filtered(b, j) <= b.target[j]
  }

  predicate Placed(b: Bridge, a: Args, j: Joint) {
    Low(j) <= b.target[j] <= High(j) && Abs(b.target[j] - b.actual[j]) <= Lead(a, j)
  }

  lemma LowPassBetween(f: real, wanted: real, alpha: real)
    requires 0.0 < alpha <= 1.0
    ensures var r := LowPass(f, wanted, alpha);
            && (f <= wanted ==> f <= r <= wanted) && (f >= wanted ==> f >= r >= wanted)
            && (f < wanted ==> f < r) && (f > wanted ==> f > r)
  {
    var e := wanted - f;
    MulUnits(e);
    if e > 0.0 {
      MulPositive(alpha, e);
      MulLe(alpha, 1.0, e);
    } else if e < 0.0 {
      MulPositive(alpha, -e);
      MulLe(alpha, 1.0, -e);
      MulUnits(-e);
      MulSub(0.0, -e, alpha);
      MulUnits(alpha);
    }
  }

  /** While the filter trails between target and hand, no tick moves the target away from the hand or
      past it, and every tick moves a target that has not arrived unless telemetry holds it back. */
  lemma TickMovesTowards(b: Bridge, a: Args, dt: Tick, now: real, j: Joint, aim: Aim, wanted: real)
    requires Safe(b) && Follows(b, a, now, j, aim, wanted) && Speed(a, j) > 0.0 && Placed(b, a, j) && Ordered(b, j, wanted)
    ensures var r := NextInput(b, a, dt, now).0; var t, t', goal := b.target[j], r.target[j], Goal(j, wanted);
            && (t <= goal ==> t <= t' <= goal) && (t >= goal ==> t >= t' >= goal)
            && (t' == t ==> t == goal || t == b.actual[j] + if t < goal then Lead(a, j) else -Lead(a, j))
            && Ordered(r, j, wanted)
  {
    TickOfJoint(b, a, dt, now, j, aim, wanted);
    LowPassBetween(Filtered(b, j), wanted, Alpha(a, dt));
    MulPositive(Speed(a, j), dt);
  }

  /** A filter that still holds something else can take the target away from the hand. Exactly when it does
      not: `order` is the filter's value after the tick, inside the range and the telemetry window. */
  predicate NoFurther(t: real, order: real, goal: real, step: real) {
    var reach := Min(Abs(order - t), step);
    reach == 0.0 || (goal != t && (order > t <==> goal > t) && reach <= 2.0 * Abs(goal - t))
  }

  lemma SlewNoFurther(t: real, order: real, goal: real, step: real)
    requires step >= 0.0
    ensures Abs(Slew(t, order, step) - goal) <= Abs(t - goal) <==> NoFurther(t, order, goal, step)
  {
  }

  lemma TickNoFurtherExactlyWhen(b: Bridge, a: Args, dt: Tick, now: real, j: Joint, aim: Aim, wanted: real)
    requires Safe(b) && Follows(b, a, now, j, aim, wanted) && Speed(a, j) >= 0.0 && Placed(b, a, j)
    ensures var r := NextInput(b, a, dt, now).0;
            var order := Clamp(b.actual[j] - Lead(a, j), b.actual[j] + Lead(a, j), Goal(j, Filtered(r, j)));
            Distance(r, j, wanted) <= Distance(b, j, wanted)
            <==> NoFurther(b.target[j], order, Goal(j, wanted), Times(Speed(a, j), dt))
  {
    TickOfJoint(b, a, dt, now, j, aim, wanted);
    LimitNoFurther(b.target[j], Filtered(NextInput(b, a, dt, now).0, j), b.actual[j], Goal(j, wanted), a, dt, j);
  }

  lemma LimitNoFurther(t: real, f: real, anchor: real, goal: real, a: Args, dt: Tick, j: Joint)
    requires Speed(a, j) >= 0.0 && Abs(t - anchor) <= Lead(a, j)
    ensures Abs(Limit(t, f, anchor, a, dt, j) - goal) <= Abs(t - goal)
            <==> NoFurther(t, Clamp(anchor - Lead(a, j), anchor + Lead(a, j), Goal(j, f)), goal, Times(Speed(a, j), dt))
  {
    var order, low, high, step := Goal(j, f), anchor - Lead(a, j), anchor + Lead(a, j), Times(Speed(a, j), dt);
    MulNonneg(Speed(a, j), dt);
    ClampedSlew(t, order, low, high, step);
    SlewNoFurther(t, Clamp(low, high, order), goal, step);
  }

  lemma ClampedSlew(t: real, order: real, low: real, high: real, step: real)
    requires low <= t <= high && step >= 0.0
    ensures Clamp(low, high, Slew(t, order, step)) == Slew(t, Clamp(low, high, order), step)
  {
  }

  // ---- a held hand over runs -----------------------------------------------------------------------

  /** Nothing but ticks that follow the hand, frames, confirming heartbeats and telemetry. */
  ghost predicate HoldsStep(b: Bridge, a: Args, s: Step, j: Joint, aim: Aim, wanted: real) {
    match s
    case Stream(_, now) => Follows(b, a, now, j, aim, wanted) && InWindow(b, a, j, wanted)
    case Frame(_) => true
    case Telemetry(rigs) => b.selected.Some? && b.selected.value in rigs
    case LinkReply(command, bound) => command == NoCommand && bound && b.selected.Some?
    case _ => false
  }

  ghost predicate Holding(a: Args, run: seq<Step>, i: nat, k: nat, j: Joint, aim: Aim, wanted: real)
    requires i <= k <= |run|
    decreases k
  {
    i < k ==> Holding(a, run, i, k - 1, j, aim, wanted) && HoldsStep(After(a, run[..k - 1]), a, run[k - 1], j, aim, wanted)
  }

  /** The seconds the ticks from `i` to `k` stand for. */
  function Seconds(run: seq<Step>, i: nat, k: nat): (t: real)
    requires i <= k <= |run|
    ensures t >= 0.0
    decreases k
  {
    if i == k then 0.0 else Seconds(run, i, k - 1) + if run[k - 1].Stream? then run[k - 1].dt else 0.0
  }

  lemma QuietStep(b: Bridge, a: Args, s: Step, j: Joint, aim: Aim, wanted: real)
    requires Safe(b) && HoldsStep(b, a, s, j, aim, wanted) && !s.Stream? && Engaged(b, j, aim)
    ensures var r := Next(b, a, s).0; Engaged(r, j, aim) && r.target == b.target && r.smoothed == b.smoothed
  {
  }

  /** What `t` seconds of ticks leave of a filter error `e0` and a distance `d0`. */
  ghost predicate Near(b: Bridge, a: Args, j: Joint, wanted: real, e0: real, d0: real, t: real) {
    && FilterError(b, j, wanted) <= e0
    && Times(Smoothing(a) + t, FilterError(b, j, wanted)) <= Times(Smoothing(a), e0)
    && Distance(b, j, wanted) <= Max(e0, d0 - Times(Speed(a, j), t))
  }

  lemma Decays(tau: real, t: real, dt: real, e: real, next: real, e0: real)
    requires tau >= 0.0 && t >= 0.0 && dt > 0.0 && e >= 0.0 && next >= 0.0
    requires Times(tau + dt, next) == Times(tau, e) && Times(tau + t, e) <= Times(tau, e0)
    ensures next <= e && Times(tau + (t + dt), next) <= Times(tau, e0)
  {
    if next > e {
      MulLe(e, next, tau);
      MulAdd(tau, dt, next);
      MulPositive(dt, next);
    }
    MulAdd(tau, t, e);
    MulAdd(tau + dt, t, next);
    assert tau + (t + dt) == tau + dt + t;
    MulLe(next, e, t);
  }

  lemma NearTick(b: Bridge, a: Args, dt: Tick, now: real, j: Joint, aim: Aim, wanted: real, e0: real, d0: real, t: real)
    requires Safe(b) && Follows(b, a, now, j, aim, wanted) && Speed(a, j) >= 0.0 && InWindow(b, a, j, wanted)
    requires Near(b, a, j, wanted, e0, d0, t) && t >= 0.0
    ensures var r := NextInput(b, a, dt, now).0; Near(r, a, j, wanted, e0, d0, t + dt)
  {
    TickApproaches(b, a, dt, now, j, aim, wanted);
    Decays(Smoothing(a), t, dt, FilterError(b, j, wanted), FilterError(NextInput(b, a, dt, now).0, j, wanted), e0);
    MulAdd(t, dt, Speed(a, j));
    MulNonneg(Speed(a, j), dt);
  }

  ghost predicate Nears(b: Bridge, r: Bridge, a: Args, j: Joint, aim: Aim, wanted: real, t: real) {
    Engaged(r, j, aim) && Near(r, a, j, wanted, FilterError(b, j, wanted), Distance(b, j, wanted), t)
  }

  lemma {:induction false} HoldingNears(a: Args, run: seq<Step>, i: nat, k: nat, j: Joint, aim: Aim, wanted: real)
    requires i <= k <= |run| && Holding(a, run, i, k, j, aim, wanted)
    requires Engaged(After(a, run[..i]), j, aim) && Speed(a, j) >= 0.0
    ensures Nears(After(a, run[..i]), After(a, run[..k]), a, j, aim, wanted, Seconds(run, i, k))
    decreases k
  {
    if i == k {
      NearsItself(After(a, run[..i]), a, j, aim, wanted);
    } else {
      var p: nat := k - 1;
      HoldingNears(a, run, i, p, j, aim, wanted);
      NearsNext(After(a, run[..i]), a, run, i, p, j, aim, wanted);
    }
  }

  lemma NearsItself(b: Bridge, a: Args, j: Joint, aim: Aim, wanted: real)
    requires Engaged(b, j, aim)
    ensures Nears(b, b, a, j, aim, wanted, 0.0)
  {
    MulUnits(Speed(a, j));
  }

  function TickTime(s: Step): real { if s.Stream? then s.dt else 0.0 }

  lemma SecondsNext(run: seq<Step>, i: nat, p: nat)
    requires i <= p < |run|
    ensures Seconds(run, i, p + 1) == Seconds(run, i, p) + TickTime(run[p])
  {
  }

  lemma NearsNext(b: Bridge, a: Args, run: seq<Step>, i: nat, p: nat, j: Joint, aim: Aim, wanted: real)
    requires i <= p < |run| && HoldsStep(After(a, run[..p]), a, run[p], j, aim, wanted) && Speed(a, j) >= 0.0
    requires Nears(b, After(a, run[..p]), a, j, aim, wanted, Seconds(run, i, p))
    ensures Nears(b, After(a, run[..p + 1]), a, j, aim, wanted, Seconds(run, i, p + 1))
  {
    AfterStep(a, run, p);
    SecondsNext(run, i, p);
    NearsStep(b, After(a, run[..p]), a, run[p], j, aim, wanted, Seconds(run, i, p));
  }

  lemma NearsStep(b: Bridge, m: Bridge, a: Args, s: Step, j: Joint, aim: Aim, wanted: real, t: real)
    requires Safe(m) && HoldsStep(m, a, s, j, aim, wanted) && Speed(a, j) >= 0.0 && t >= 0.0
    requires Nears(b, m, a, j, aim, wanted, t)
    ensures Nears(b, Next(m, a, s).0, a, j, aim, wanted, t + TickTime(s))
  {
    HoldingStep(m, a, s, j, aim, wanted, FilterError(b, j, wanted), Distance(b, j, wanted), t);
  }

  lemma HoldingStep(b: Bridge, a: Args, s: Step, j: Joint, aim: Aim, wanted: real, e0: real, d0: real, t: real)
    requires Safe(b) && HoldsStep(b, a, s, j, aim, wanted) && Engaged(b, j, aim) && Speed(a, j) >= 0.0
    requires Near(b, a, j, wanted, e0, d0, t) && t >= 0.0
    ensures var r := Next(b, a, s).0;
            Engaged(r, j, aim) && Near(r, a, j, wanted, e0, d0, t + TickTime(s))
  {
    if s.Stream? {
      TickOfJoint(b, a, s.dt, s.now, j, aim, wanted);
      NearTick(b, a, s.dt, s.now, j, aim, wanted, e0, d0, t);
    } else {
      QuietStep(b, a, s, j, aim, wanted);
    }
  }

  lemma {:induction false} HoldingSplits(a: Args, run: seq<Step>, i: nat, m: nat, k: nat, j: Joint, aim: Aim, wanted: real)
    requires i <= m <= k <= |run| && Holding(a, run, i, k, j, aim, wanted)
    ensures Holding(a, run, i, m, j, aim, wanted) && Holding(a, run, m, k, j, aim, wanted)
    decreases k
  {
    if m < k {
      HoldingSplits(a, run, i, m, k - 1, j, aim, wanted);
    }
  }

  /** The pose a held hand asks for is approached, whatever the filter held and wherever telemetry goes
      while that pose stays in its window: from `i` on, once the ticks up to `m` stand for enough
      seconds for the filter to come within `close`, and those up to `k` for enough seconds at the
      speed limit, the target is within `close` of it. */
  lemma HeldHandIsApproached(a: Args, run: seq<Step>, i: nat, m: nat, k: nat, j: Joint, aim: Aim, wanted: real, close: real)
    requires i <= m <= k <= |run| && Holding(a, run, i, k, j, aim, wanted)
    requires Engaged(After(a, run[..i]), j, aim) && Speed(a, j) >= 0.0 && close > 0.0
    requires Times(Smoothing(a) + Seconds(run, i, m), close) >= Times(Smoothing(a), FilterError(After(a, run[..i]), j, wanted))
    requires Seconds(run, i, m) > 0.0
    requires Times(Speed(a, j), Seconds(run, m, k))
             >= Max(FilterError(After(a, run[..i]), j, wanted), Distance(After(a, run[..i]), j, wanted))
    ensures Distance(After(a, run[..k]), j, wanted) <= close
  {
    HoldingSplits(a, run, i, m, k, j, aim, wanted);
    HoldingNears(a, run, i, m, j, aim, wanted);
    HoldingNears(a, run, m, k, j, aim, wanted);
    var mid := After(a, run[..m]);
    var all := Smoothing(a) + Seconds(run, i, m);
    MulSwap(all, close);
    MulSwap(all, FilterError(mid, j, wanted));
    MulCancel(FilterError(mid, j, wanted), close, all);
    MulNonneg(Speed(a, j), Seconds(run, i, m));
  }

  // ---- the direction of the hand -------------------------------------------------------------------

  /** The same state with two frames that differ in where the hand is, the second further on. */
  ghost predicate FurtherOn(b: Bridge, b': Bridge, j: Joint) {
    && b.latest.Some? && b'.latest.Some? && b' == b.(latest := b'.latest)
    && var c, c' := b.latest.value, b'.latest.value;
       && !AtEdge(c, j) && !AtEdge(c', j)
       && if j == GRIPPER then
            && c.gripperActive && c'.gripperActive && c.gripper <= c'.gripper
            && b.gripVirtual.Some? && b.gripPhysical.Some? && 0.0 <= b.gripPhysical.value <= 100.0
          else
            && c.armActive && c'.armActive && b.armVirtual.Some?
            && WrappedDelta(c.radians[j], b.armVirtual.value[j]) <= WrappedDelta(c'.radians[j], b.armVirtual.value[j])
  }

  lemma FollowOrder(arm: real, sign: int, x: real, y: real, scale: real)
    requires x <= y && scale >= 0.0 && sign in {-1, 1}
    ensures if sign == 1 then FollowScaled(arm, sign, x, scale) <= FollowScaled(arm, sign, y, scale)
            else FollowScaled(arm, sign, x, scale) >= FollowScaled(arm, sign, y, scale)
  {
    DivLe(x * 180.0, y * 180.0, PI);
    var dx, dy := Degrees(x), Degrees(y);
    MulUnits(dx);
    MulUnits(dy);
    if sign == 1 {
      MulLe(dx, dy, scale);
    } else {
      assert Times(-1.0, dx) == -dx && Times(-1.0, dy) == -dy;
      MulLe(-dy, -dx, scale);
    }
  }

  lemma LimitOrder(t: real, x: real, y: real, anchor: real, a: Args, dt: Tick, j: Joint)
    requires x <= y && Speed(a, j) >= 0.0
    ensures Limit(t, x, anchor, a, dt, j) <= Limit(t, y, anchor, a, dt, j)
  {
    MulNonneg(Speed(a, j), dt);
  }

  lemma LowPassOrder(f: real, x: real, y: real, alpha: real)
    requires x <= y && alpha > 0.0
    ensures LowPass(f, x, alpha) <= LowPass(f, y, alpha)
  {
    MulLe(x - f, y - f, alpha);
  }

  lemma DesiredOrder(b: Bridge, b': Bridge, a: Args, dt: Tick, j: Joint)
    requires Paired(b) && FurtherOn(b, b', j) && (j != GRIPPER ==> a.scales[j] >= 0.0)
    ensures var d, d' := Desired(b, b.latest.value, a, dt, j), Desired(b', b'.latest.value, a, dt, j);
            if a.signs[j] == 1 then d <= d' else d >= d'
  {
    var c, c' := b.latest.value, b'.latest.value;
    if j == GRIPPER {
      ClutchIsMonotone(c.gripper, c'.gripper, b.gripVirtual.value, b.gripPhysical.value, 0.0, 100.0, a.signs[j]);
    } else {
      var base := b.armVirtual.value[j];
      FollowOrder(b.armPhysical.value[j], a.signs[j], WrappedDelta(c.radians[j], base), WrappedDelta(c'.radians[j], base), a.scales[j]);
    }
  }

  /** The arm goes with the hand: in the same state, a hand turned further never gives a smaller target,
      and with the joint's sign reversed never a greater one. */
  lemma TargetFollowsHand(b: Bridge, b': Bridge, a: Args, dt: Tick, now: real, now': real, j: Joint)
    requires Safe(b) && Safe(b') && Moves(b, a, now) && Moves(b', a, now') && FurtherOn(b, b', j)
    requires Speed(a, j) >= 0.0 && (j != GRIPPER ==> a.scales[j] >= 0.0)
    ensures var t, t' := NextInput(b, a, dt, now).0.target[j], NextInput(b', a, dt, now').0.target[j];
            if a.signs[j] == 1 then t <= t' else t >= t'
  {
    DesiredOrder(b, b', a, dt, j);
    var d, d' := Desired(b, b.latest.value, a, dt, j), Desired(b', b'.latest.value, a, dt, j);
    var low, high := Min(d, d'), Max(d, d');
    var f := Filtered(b, j);
    LowPassOrder(f, low, high, Alpha(a, dt));
    LimitOrder(b.target[j], LowPass(f, low, Alpha(a, dt)), LowPass(f, high, Alpha(a, dt)), b.actual[j], a, dt, j);
  }

  // ---- past the edge ----------------------------------------------------------------------------------

  function EdgeRate(a: Args, j: Joint): real { if j == GRIPPER then a.maxGripperSpeed else a.edgeRate }

  /** There is room for `step` on either side. */
  predicate Room(t: real, step: real, low: real, high: real, anchor: real, lead: real) {
    && low <= t <= high && Abs(t - anchor) <= lead
    && t + step <= Min(high, anchor + lead) && t - step >= Max(low, anchor - lead)
  }

  /** A control held past the edge of the virtual arm pushes the joint on, in the direction it is held times
      the joint's sign, by exactly the edge rate or the speed limit where that is lower. */
  lemma EdgePushesOn(b: Bridge, a: Args, dt: Tick, now: real, j: Joint)
    requires Safe(b) && Moves(b, a, now) && AtEdge(b.latest.value, j)
    requires Speed(a, j) >= 0.0 && EdgeRate(a, j) >= 0.0
    requires Room(b.target[j], Times(EdgeRate(a, j), dt), Low(j), High(j), b.actual[j], Lead(a, j))
    ensures var moved := NextInput(b, a, dt, now).0.target[j] - b.target[j];
            var step := Times(Min(EdgeRate(a, j), Speed(a, j)), dt);
            moved == if b.latest.value.saturated[j] == a.signs[j] then step else -step
  {
    var c := b.latest.value;
    EdgeDesired(b, c, a, dt, j);
    EdgeLimit(b.target[j], EdgeRate(a, j), Speed(a, j), dt, c.saturated[j] == a.signs[j],
              Low(j), High(j), b.actual[j], Lead(a, j));
  }

  lemma EdgeDesired(b: Bridge, c: Command, a: Args, dt: Tick, j: Joint)
    requires Paired(b) && AtEdge(c, j)
    ensures Desired(b, c, a, dt, j)
            == b.target[j] + if c.saturated[j] == a.signs[j] then Times(EdgeRate(a, j), dt) else -Times(EdgeRate(a, j), dt)
  {
    var side := c.saturated[j] * a.signs[j];
    assert side == if c.saturated[j] == a.signs[j] then 1 else -1;
    MulUnits(EdgeRate(a, j));
    MulSub(0.0, EdgeRate(a, j), dt);
    MulUnits(dt);
    assert Times(-1.0, EdgeRate(a, j)) == -EdgeRate(a, j);
  }

  lemma EdgeLimit(t: real, rate: real, speed: real, dt: Tick, up: bool, low: real, high: real, anchor: real, lead: real)
    requires rate >= 0.0 && speed >= 0.0 && Room(t, Times(rate, dt), low, high, anchor, lead)
    ensures var wanted := t + if up then Times(rate, dt) else -Times(rate, dt);
            var r := Clamp(anchor - lead, anchor + lead, Slew(t, Clamp(low, high, wanted), Times(speed, dt)));
            r - t == if up then Times(Min(rate, speed), dt) else -Times(Min(rate, speed), dt)
  {
    MulNonneg(rate, dt);
    MulNonneg(speed, dt);
    MulLe(Min(rate, speed), rate, dt);
    MulLe(Min(rate, speed), speed, dt);
  }

  // ---- engaging, releasing and leaving an edge --------------------------------------------------------

  /** After a tick that sends, a clutch is engaged exactly when its control is active; newly engaged, it starts
      at the hand's pose and the target. */
  lemma ClutchesFollowTheHand(b: Bridge, a: Args, dt: Tick, now: real, j: Joint)
    requires Safe(b) && Streaming(b) && Fresh(b, a, now)
    ensures var r, c := NextInput(b, a, dt, now).0, b.latest.value;
            && (r.armVirtual.Some? <==> c.armActive) && (r.gripVirtual.Some? <==> c.gripperActive)
            && (c.armActive && b.armVirtual.None? && j != GRIPPER && !AtEdge(c, j) ==>
                  r.armVirtual.value[j] == c.radians[j] && r.armPhysical.value[j] == b.target[j])
            && (c.gripperActive && b.gripVirtual.None? && !AtEdge(c, GRIPPER) ==>
                  r.gripVirtual.value == c.gripper && r.gripPhysical.value == b.target[GRIPPER])
  {
  }

  /** The clutch is pinned where the hand and the arm are. */
  ghost predicate PinnedHere(b: Bridge, c: Command, j: Joint) {
    Engaged(b, j, Aim(if j == GRIPPER then c.gripper else c.radians[j], b.target[j], 0.0))
  }

  lemma EdgeTickPins(b: Bridge, a: Args, dt: Tick, now: real, j: Joint)
    requires Safe(b) && Moves(b, a, now) && AtEdge(b.latest.value, j)
    ensures var r := NextInput(b, a, dt, now).0; PinnedHere(r, b.latest.value, j)
  {
  }

  /** The first tick off an edge, the hand still where it was: it moves nothing if and only if the filter is
      settled. */
  lemma LeavingEdgeHoldsExactlyWhenSettled(b: Bridge, a: Args, dt: Tick, now: real, j: Joint)
    requires Safe(b) && Moves(b, a, now) && Speed(a, j) > 0.0 && Placed(b, a, j)
    requires PinnedHere(b, b.latest.value, j) && !AtEdge(b.latest.value, j)
    requires if j == GRIPPER then b.latest.value.gripperActive else b.latest.value.armActive
    ensures NextInput(b, a, dt, now).0.target[j] == b.target[j] <==> Settled(b, a, j)
  {
    var c, t := b.latest.value, b.target[j];
    var at := if j == GRIPPER then c.gripper else c.radians[j];
    NoDelta(at);
    MulUnits(PI);
    MulUnits(a.scales[j]);
    assert Aims(a, j, Aim(at, t, at), t);
    TickOfJoint(b, a, dt, now, j, Aim(at, t, at), t);
    LowPassSide(Filtered(b, j), t, Alpha(a, dt));
    LimitHolds(t, LowPass(Filtered(b, j), t, Alpha(a, dt)), b.actual[j], a, dt, j);
  }

  /** An edge tick settles the filter exactly when the edge rate is within the speed limit; with the gateway's
      own arguments it is not, and the joint creeps on after the hand has backed off. */
  lemma EdgeTickSettlesExactlyWhen(b: Bridge, a: Args, dt: Tick, now: real, j: Joint)
    requires Safe(b) && Moves(b, a, now) && AtEdge(b.latest.value, j)
    requires Speed(a, j) >= 0.0 && EdgeRate(a, j) >= 0.0
    requires Room(b.target[j], Times(EdgeRate(a, j), dt), Low(j), High(j), b.actual[j], Lead(a, j))
    ensures var r := NextInput(b, a, dt, now).0; Filtered(r, j) == r.target[j] <==> EdgeRate(a, j) <= Speed(a, j)
    ensures j != GRIPPER ==> EdgeRate(DEFAULTS, j) > Speed(DEFAULTS, j)
  {
    EdgePushesOn(b, a, dt, now, j);
    EdgeDesired(b, b.latest.value, a, dt, j);
    if EdgeRate(a, j) > Speed(a, j) {
      MulLt(Speed(a, j), EdgeRate(a, j), dt);
    }
  }

  /** So it is with the gateway's own arguments: after an edge tick, the first tick with the hand backed off to
      where it was moves every body joint on, unless a bound holds it. */
  lemma BackingOffMovesOn(b: Bridge, dt: Tick, now: real, mid: Bridge, dt': Tick, now': real, j: Joint)
    requires Safe(b) && Moves(b, DEFAULTS, now) && j != GRIPPER && AtEdge(b.latest.value, j)
    requires Room(b.target[j], Times(30.0, dt), Low(j), High(j), b.actual[j], Lead(DEFAULTS, j))
    requires var r := NextInput(b, DEFAULTS, dt, now).0; mid == r.(latest := mid.latest, lastSequence := mid.lastSequence)
    requires Safe(mid) && Moves(mid, DEFAULTS, now') && Placed(mid, DEFAULTS, j)
    requires var c := mid.latest.value; c.armActive && !AtEdge(c, j) && c.radians[j] == b.latest.value.radians[j]
    requires !Blocked(mid.target[j], mid.actual[j], Filtered(mid, j) > mid.target[j], DEFAULTS, j)
    ensures NextInput(mid, DEFAULTS, dt', now').0.target[j] != mid.target[j]
  {
    EdgeTickPins(b, DEFAULTS, dt, now, j);
    EdgeTickSettlesExactlyWhen(b, DEFAULTS, dt, now, j);
    LeavingEdgeHoldsExactlyWhenSettled(mid, DEFAULTS, dt', now', j);
  }
}
