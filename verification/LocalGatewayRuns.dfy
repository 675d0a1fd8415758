/** Limits, convergence and dry runs of the local gateway. */
module LocalGatewayRuns {
  import opened Prelude
  import opened RealMath
  import opened Clutch
  import opened LocalGateway

  // ---- startup -------------------------------------------------------------------------------

  /** A startup that is accepted can hold its measured pose, loses none of the soft range, and
      never allows a joint past its hardware end by more than the folded-elbow tolerance. */
  lemma StartupNeverSnaps(calibration: seq<Range>, actual: Pose, a: ValidArgs)
    requires |calibration| == GRIPPER && forall j :: 0 <= j < GRIPPER ==> calibration[j].min <= calibration[j].max
    ensures match StartupLimits(calibration, actual, a)
            case None => !Within(actual, StartupHardwareLimits(CalibrationLimits(calibration, 1.0), a.elbowTolerance))
            case Some(limits) =>
              var soft := CalibrationLimits(calibration, a.limitMargin);
              var hardest := StartupHardwareLimits(CalibrationLimits(calibration, 1.0), a.elbowTolerance);
              && Within(actual, limits)
              && forall j: Joint ::
                   && hardest.low[j] <= limits.low[j] <= soft.low[j]
                   && soft.high[j] <= limits.high[j] <= hardest.high[j]
                   && (soft.low[j] <= actual[j] ==> limits.low[j] == soft.low[j])
                   && (actual[j] <= soft.high[j] ==> limits.high[j] == soft.high[j])
  {
    forall j: Joint | j != GRIPPER
      ensures HalfRange(calibration[j], a.limitMargin) <= HalfRange(calibration[j], 1.0)
    {
      MulLe(a.limitMargin, 1.0, (calibration[j].max - calibration[j].min) as real * 180.0 / 4095.0);
    }
  }

  /** The limits are the calibrated travel, 4095 counts to the turn, shrunk by the margin and centred on zero; the
      gripper's are its whole percentage. */
  lemma LimitsAreTheCalibratedTravel(calibration: seq<Range>, margin: real, j: Joint)
    requires |calibration| == GRIPPER
    ensures var limits := CalibrationLimits(calibration, margin);
            if j == GRIPPER then limits.low[j] == 0.0 && limits.high[j] == 100.0
            else && limits.low[j] == -limits.high[j]
                 && 4095.0 * (limits.high[j] - limits.low[j])
                    == Times(360.0 * (calibration[j].max - calibration[j].min) as real, margin)
  {
    if j != GRIPPER {
      var travel := (calibration[j].max - calibration[j].min) as real;
      assert Times(travel * 180.0 / 4095.0, margin) * 8190.0 == Times(360.0 * travel, margin);
    }
  }

  // ---- the limiter ----------------------------------------------------------------------------

  function Outside(x: real, low: real, high: real): real {
    Max(0.0, Max(low - x, x - high))
  }

  /** A target's distance outside its limits never grows, so once inside it stays inside; and
      one tick moves it by at most one slew step. */
  lemma TickNeverLeavesLimits(b: Bridge, a: ValidArgs, dt: Tick, now: real, j: Joint)
    requires Safe(b) && b.limits.low[j] <= b.limits.high[j]
    ensures var r := NextTarget(b, a, dt, now).0; var low, high := b.limits.low[j], b.limits.high[j];
            && Outside(r.target[j], low, high) <= Outside(b.target[j], low, high)
            && (low <= b.target[j] <= high ==> low <= r.target[j] <= high)
            && Abs(r.target[j] - b.target[j]) <= StepSize(a, dt, j)
  {
    MulNonneg(Speed(a, j), dt);
    if NextTarget(b, a, dt, now).1 {
      SlewBounds(b.target[j], Goal(b, b.latest.value, a, j), StepSize(a, dt, j));
    }
  }

  // ---- a held command --------------------------------------------------------------------------

  /** One dry-run cycle under a held command: the simulated follower takes the target at once. */
  function Cycle(b: Bridge, c: Command, a: ValidArgs, dt: Tick): (r: Bridge)
    requires Paired(b)
    ensures Paired(r)
  {
    var limited := Limited(b, c, a, dt);
    Engage(b, c).(target := limited, actual := limited)
  }

  function Held(b: Bridge, c: Command, a: ValidArgs, dt: Tick, n: nat): (r: Bridge)
    requires Paired(b)
    ensures Paired(r)
  {
    if n == 0 then b else Cycle(Held(b, c, a, dt, n - 1), c, a, dt)
  }

  /** `Cycle` is what an unexpired tick and the worker's two updates do. */
  lemma CycleIsOneTick(b: Bridge, a: ValidArgs, dt: Tick, now: real)
    requires Safe(b) && b.armed && b.latest.Some? && !TimedOut(b, a, now)
    requires b.latest.value.armActive || b.latest.value.gripperActive
    ensures var (r, send) := NextTarget(b, a, dt, now);
            send && r.(actual := r.target) == Cycle(b, b.latest.value, a, dt)
  {
  }

  predicate Driven(c: Command, j: Joint) {
    if j == GRIPPER then c.gripperActive else c.armActive
  }

  /** Holding the command holds the goal: it depends on the clutch bases, not on the target. */
  lemma GoalIsConstant(b: Bridge, c: Command, a: ValidArgs, dt: Tick, j: Joint)
    requires Paired(b) && Driven(c, j)
    ensures Goal(Cycle(b, c, a, dt), c, a, j) == Goal(b, c, a, j)
  {
  }

  lemma CycleSlews(b: Bridge, c: Command, a: ValidArgs, dt: Tick, j: Joint)
    requires Paired(b)
    ensures var r := Cycle(b, c, a, dt); var goal := Goal(b, c, a, j);
            Abs(goal - r.target[j]) == Max(0.0, Abs(goal - b.target[j]) - StepSize(a, dt, j))
  {
    MulNonneg(Speed(a, j), dt);
    SlewBounds(b.target[j], Goal(b, c, a, j), StepSize(a, dt, j));
  }

  lemma {:induction false} HeldPosition(b: Bridge, c: Command, a: ValidArgs, dt: Tick, n: nat, j: Joint)
    requires Paired(b) && Driven(c, j)
    ensures var r := Held(b, c, a, dt, n); var goal := Goal(b, c, a, j);
            && Goal(r, c, a, j) == goal
            && Abs(goal - r.target[j])
               == Max(0.0, Abs(goal - b.target[j]) - Times(n as real, StepSize(a, dt, j)))
  {
    if n == 0 {
      MulUnits(StepSize(a, dt, j));
    } else {
      HeldPosition(b, c, a, dt, n - 1, j);
      CycleStep(Held(b, c, a, dt, n - 1), c, a, dt, n, j, Goal(b, c, a, j), Abs(Goal(b, c, a, j) - b.target[j]));
    }
  }

  lemma CycleStep(b: Bridge, c: Command, a: ValidArgs, dt: Tick, n: nat, j: Joint, goal: real, distance: real)
    requires Paired(b) && Driven(c, j) && n > 0 && Goal(b, c, a, j) == goal
    requires Abs(goal - b.target[j]) == Max(0.0, distance - Times((n - 1) as real, StepSize(a, dt, j)))
    ensures var r := Cycle(b, c, a, dt);
            && Goal(r, c, a, j) == goal
            && Abs(goal - r.target[j]) == Max(0.0, distance - Times(n as real, StepSize(a, dt, j)))
  {
    GoalIsConstant(b, c, a, dt, j);
    CycleSlews(b, c, a, dt, j);
    MulNonneg(Speed(a, j), dt);
    DistanceShrinks(distance, n, StepSize(a, dt, j));
  }

  lemma DistanceShrinks(distance: real, n: nat, step: real)
    requires n > 0 && step >= 0.0
    ensures Max(0.0, Max(0.0, distance - Times((n - 1) as real, step)) - step)
            == Max(0.0, distance - Times(n as real, step))
  {
    MulAdd((n - 1) as real, 1.0, step);
    MulUnits(step);
  }

  function Ceil(x: real): int {
    -((-x).Floor)
  }

  lemma CeilCovers(d: real, step: real, n: int)
    requires step > 0.0
    ensures n >= Ceil(d / step) <==> Times(n as real, step) >= d
  {
    DivTimes(d, step);
    assert n >= Ceil(d / step) <==> n as real >= d / step;
    MulCancel(d / step, n as real, step);
    if n as real >= d / step {
      MulLe(d / step, n as real, step);
    }
  }

  /** ceil(distance / (speed * dt)) */
  function CyclesNeeded(b: Bridge, c: Command, a: ValidArgs, dt: Tick, j: Joint): int
    requires Paired(b)
  {
    MulPositive(Speed(a, j), dt);
    Ceil(Abs(Goal(b, c, a, j) - b.target[j]) / StepSize(a, dt, j))
  }

  lemma CyclesCover(b: Bridge, c: Command, a: ValidArgs, dt: Tick, j: Joint, n: nat)
    requires Paired(b)
    ensures n >= CyclesNeeded(b, c, a, dt, j)
            <==> Times(n as real, Times(Speed(a, j), dt)) >= Abs(Goal(b, c, a, j) - b.target[j])
  {
    MulPositive(Speed(a, j), dt);
    CeilCovers(Abs(Goal(b, c, a, j) - b.target[j]), StepSize(a, dt, j), n);
  }

  /** The exact arrival time: a driven joint is at its goal after n cycles if and only if
      n >= ceil(distance / (speed * dt)); in particular it arrives, and then stays. */
  lemma ArrivesExactlyOnTime(b: Bridge, c: Command, a: ValidArgs, dt: Tick, n: nat, j: Joint)
    requires Paired(b) && Driven(c, j)
    ensures Held(b, c, a, dt, n).target[j] == Goal(b, c, a, j) <==> n >= CyclesNeeded(b, c, a, dt, j)
  {
    MulPositive(Speed(a, j), dt);
    HeldPosition(b, c, a, dt, n, j);
    CyclesCover(b, c, a, dt, j, n);
  }

  // ---- whole dry runs ---------------------------------------------------------------------------

  /** Steps of a dry run. The worker computes a target, then publishes it as the simulated
      pose, then as the sent target; client messages may fall between any two of these. */
  datatype Step =
    | Ready
    | PressArm
    | Frame(c: Command)
    | PressStop
    | Leave
    | Compute(dt: Tick, now: real)
    | PublishPose
    | PublishTarget
    | Fail

  /** `pending` is the worker's local variable: the target it is about to act on. */
  datatype World = World(b: Bridge, pending: Option<Pose>)

  function Next(w: World, a: ValidArgs, s: Step): World
    requires Paired(w.b)
  {
    match s
    case Ready => w.(b := SetReady(w.b, REST_POSE, DEFAULT_LIMITS))
    case PressArm => w.(b := Arm(w.b, a))
    case Frame(c) => w.(b := Control(w.b, c))
    case PressStop => w.(b := Disarm(w.b))
    case Leave => w.(b := Unregister(w.b))
    case Compute(dt, now) =>
      var (b, send) := NextTarget(w.b, a, dt, now);
      World(b, if send then Some(b.target) else None)
    case PublishPose => if w.pending.Some? then w.(b := w.b.(actual := w.pending.value)) else w
    case PublishTarget => if w.pending.Some? then w.(b := w.b.(target := w.pending.value)) else w
    case Fail => w.(b := Fault(w.b))
  }

  ghost predicate Inside(w: World) {
    && Safe(w.b)
    && w.b.limits == DEFAULT_LIMITS
    && Within(w.b.actual, DEFAULT_LIMITS) && Within(w.b.target, DEFAULT_LIMITS)
    && (w.pending.Some? ==> Within(w.pending.value, DEFAULT_LIMITS))
  }

  lemma ComputeStaysInside(b: Bridge, a: ValidArgs, dt: Tick, now: real)
    requires Safe(b) && b.limits == DEFAULT_LIMITS && Within(b.target, DEFAULT_LIMITS)
    ensures var r := NextTarget(b, a, dt, now).0;
            && Safe(r) && r.limits == DEFAULT_LIMITS && r.actual == b.actual
            && Within(r.target, DEFAULT_LIMITS)
  {
    forall j: Joint
      ensures DEFAULT_LIMITS.low[j] <= NextTarget(b, a, dt, now).0.target[j] <= DEFAULT_LIMITS.high[j]
    {
      TickNeverLeavesLimits(b, a, dt, now, j);
    }
  }

  lemma StepStaysInside(w: World, a: ValidArgs, s: Step)
    requires Inside(w)
    ensures Inside(Next(w, a, s))
  {
    match s {
      case Compute(dt, now) => ComputeStaysInside(w.b, a, dt, now);
      case Frame(c) =>
      case _ =>
    }
  }

  function After(a: ValidArgs, run: seq<Step>): (w: World)
    ensures Inside(w)
  {
    if run == [] then World(START, None)
    else
      var before := After(a, run[..|run| - 1]);
      StepStaysInside(before, a, run[|run| - 1]);
      Next(before, a, run[|run| - 1])
  }

  /** No interleaving of client messages with the worker drives a dry run outside its limits,
      and disarming always drops both clutches. */
  lemma DryRunStaysInside(a: ValidArgs, run: seq<Step>)
    ensures var w := After(a, run);
            && Within(w.b.target, DEFAULT_LIMITS) && Within(w.b.actual, DEFAULT_LIMITS)
            && (!w.b.armed ==> !Clutched(w.b))
  {
    assert Inside(After(a, run));
  }

  // ---- arrival, in runs -----------------------------------------------------------------------------

  lemma AfterOne(a: ValidArgs, run: seq<Step>, s: Step)
    ensures After(a, run + [s]) == Next(After(a, run), a, s)
  {
    assert (run + [s])[..|run|] == run;
  }

  /** One turn of the worker, before which the headset may have repeated its frame. */
  datatype Beat = Beat(frame: Option<Command>, now: real)

  function Frames(beat: Beat): seq<Step> {
    if beat.frame.Some? then [Frame(beat.frame.value)] else []
  }

  function Beats(beats: seq<Beat>, dt: Tick): seq<Step> {
    if beats == [] then []
    else
      var last := beats[|beats| - 1];
      Beats(beats[..|beats| - 1], dt) + Frames(last) + [Compute(dt, last.now)] + [PublishPose] + [PublishTarget]
  }

  /** The same hand pose under a later stamp. */
  predicate SameHold(c: Command, c': Command) {
    c' == c.(sequence := c'.sequence, receivedAt := c'.receivedAt)
  }

  /** The headset holds its pose, and at each turn the latest frame is recent enough. */
  ghost predicate KeptUp(a: ValidArgs, run: seq<Step>, c: Command, beats: seq<Beat>, dt: Tick) {
    forall i :: 0 <= i < |beats| ==>
      && (beats[i].frame.Some? ==> SameHold(c, beats[i].frame.value))
      && var b := After(a, run + Beats(beats[..i], dt) + Frames(beats[i])).b;
         b.latest.Some? ==> !TimedOut(b, a, beats[i].now)
  }

  /** `r` is `b` but for the stamps of the latest frame, which still holds `c`. */
  predicate HoldsAs(r: Bridge, b: Bridge, c: Command) {
    && r.armed && r.latest.Some? && SameHold(c, r.latest.value)
    && r == b.(latest := r.latest, lastSequence := r.lastSequence)
  }

  lemma CycleIgnoresStamps(r: Bridge, b: Bridge, c: Command, a: ValidArgs, dt: Tick)
    requires HoldsAs(r, b, c) && Paired(b)
    ensures Paired(r) && HoldsAs(Cycle(r, r.latest.value, a, dt), Cycle(b, c, a, dt), c)
  {
    var c' := r.latest.value;
    assert forall j: Joint :: Goal(r, c', a, j) == Goal(b, c, a, j);
    assert Limited(r, c', a, dt) == Limited(b, c, a, dt);
  }

  lemma TurnIsCycle(a: ValidArgs, run: seq<Step>, dt: Tick, now: real)
    requires var b := After(a, run).b;
             && b.armed && b.latest.Some? && !TimedOut(b, a, now)
             && (b.latest.value.armActive || b.latest.value.gripperActive)
    ensures var b := After(a, run).b;
            After(a, run + [Compute(dt, now)] + [PublishPose] + [PublishTarget]).b == Cycle(b, b.latest.value, a, dt)
  {
    CycleIsOneTick(After(a, run).b, a, dt, now);
    AfterOne(a, run, Compute(dt, now));
    AfterOne(a, run + [Compute(dt, now)], PublishPose);
    AfterOne(a, run + [Compute(dt, now)] + [PublishPose], PublishTarget);
  }

  lemma FrameHolds(a: ValidArgs, run: seq<Step>, beat: Beat, b: Bridge, c: Command)
    requires HoldsAs(After(a, run).b, b, c) && (beat.frame.Some? ==> SameHold(c, beat.frame.value))
    ensures HoldsAs(After(a, run + Frames(beat)).b, b, c)
  {
    if beat.frame.Some? {
      AfterOne(a, run, Frame(beat.frame.value));
    } else {
      assert run + Frames(beat) == run;
    }
  }

  lemma KeptUpFront(a: ValidArgs, run: seq<Step>, c: Command, front: seq<Beat>, last: Beat, dt: Tick)
    requires KeptUp(a, run, c, front + [last], dt)
    ensures KeptUp(a, run, c, front, dt)
    ensures last.frame.Some? ==> SameHold(c, last.frame.value)
    ensures var b := After(a, run + Beats(front, dt) + Frames(last)).b; b.latest.Some? ==> !TimedOut(b, a, last.now)
  {
    var whole := front + [last];
    assert whole[..|front|] == front && whole[|front|] == last;
    assert forall i :: 0 <= i < |front| ==> whole[i] == front[i] && whole[..i] == front[..i];
  }

  lemma BeatsLast(run: seq<Step>, front: seq<Beat>, last: Beat, dt: Tick)
    ensures run + Beats(front + [last], dt)
            == run + Beats(front, dt) + Frames(last) + [Compute(dt, last.now)] + [PublishPose] + [PublishTarget]
  {
    assert (front + [last])[..|front|] == front;
  }

  lemma BeatStep(a: ValidArgs, before: seq<Step>, last: Beat, held: Bridge, c: Command, dt: Tick)
    requires HoldsAs(After(a, before).b, held, c) && Paired(held) && (c.armActive || c.gripperActive)
    requires last.frame.Some? ==> SameHold(c, last.frame.value)
    requires var b := After(a, before + Frames(last)).b; b.latest.Some? ==> !TimedOut(b, a, last.now)
    ensures HoldsAs(After(a, before + Frames(last) + [Compute(dt, last.now)] + [PublishPose] + [PublishTarget]).b,
                    Cycle(held, c, a, dt), c)
  {
    FrameHolds(a, before, last, held, c);
    TurnIsCycle(a, before + Frames(last), dt, last.now);
    CycleIgnoresStamps(After(a, before + Frames(last)).b, held, c, a, dt);
  }

  lemma LastBeatHolds(a: ValidArgs, run: seq<Step>, b: Bridge, c: Command, front: seq<Beat>, last: Beat, dt: Tick)
    requires Paired(b) && (c.armActive || c.gripperActive) && KeptUp(a, run, c, front + [last], dt)
    requires HoldsAs(After(a, run + Beats(front, dt)).b, Held(b, c, a, dt, |front|), c)
    ensures HoldsAs(After(a, run + Beats(front + [last], dt)).b, Held(b, c, a, dt, |front| + 1), c)
  {
    KeptUpFront(a, run, c, front, last, dt);
    BeatStep(a, run + Beats(front, dt), last, Held(b, c, a, dt, |front|), c, dt);
    BeatsLast(run, front, last, dt);
  }

  /** Holding a pose, the run stays in step with `Held`. */
  lemma {:induction false} BeatsAreCycles(a: ValidArgs, run: seq<Step>, b: Bridge, c: Command, beats: seq<Beat>, dt: Tick)
    requires b == After(a, run).b && b.armed && b.latest == Some(c)
    requires (c.armActive || c.gripperActive) && KeptUp(a, run, c, beats, dt)
    ensures HoldsAs(After(a, run + Beats(beats, dt)).b, Held(b, c, a, dt, |beats|), c)
    decreases |beats|
  {
    if beats == [] {
      assert run + Beats(beats, dt) == run;
    } else {
      var front, last := beats[..|beats| - 1], beats[|beats| - 1];
      assert beats == front + [last];
      KeptUpFront(a, run, c, front, last, dt);
      BeatsAreCycles(a, run, b, c, front, dt);
      LastBeatHolds(a, run, b, c, front, last, dt);
    }
  }

  /** The arrival time in runs: wherever a run has the arm armed with frame `c`, if from there on the
      headset holds that pose and the worker turns n times, each turn computing, publishing the
      pose and publishing the target, then a driven joint is at its goal if and only if n has
      reached ceil(distance / (speed * dt)). */
  lemma ArrivesOnTimeInRuns(a: ValidArgs, run: seq<Step>, c: Command, beats: seq<Beat>, dt: Tick, j: Joint)
    requires var b := After(a, run).b; b.armed && b.latest == Some(c)
    requires Driven(c, j) && KeptUp(a, run, c, beats, dt)
    ensures var b := After(a, run).b;
            After(a, run + Beats(beats, dt)).b.target[j] == Goal(b, c, a, j)
            <==> |beats| >= CyclesNeeded(b, c, a, dt, j)
  {
    BeatsAreCycles(a, run, After(a, run).b, c, beats, dt);
    ArrivesExactlyOnTime(After(a, run).b, c, a, dt, |beats|, j);
  }

  // ---- where the goal is ----------------------------------------------------------------------------

  /** A joint's clutch, engaged with the hand at `hand` and the arm at `arm`, and the angle or slider position
      `at` that the hand keeps. */
  datatype Aim = Aim(hand: real, arm: real, at: real)

  /** The clutch a frame drives this joint through: the one engaged, or one engaging here and now. */
  ghost predicate Aimed(b: Bridge, c: Command, j: Joint, aim: Aim) {
    if j == GRIPPER then
      && aim.at == c.gripper
      && (b.gripVirtual.Some? ==> b.gripVirtual == Some(aim.hand) && b.gripPhysical == Some(aim.arm))
      && (b.gripVirtual.None? ==> aim.hand == c.gripper && aim.arm == b.actual[j])
    else
      && aim.at == c.radians[j]
      && (b.armVirtual.Some? ==>
            b.armVirtual.value[j] == aim.hand && b.armPhysical.Some? && b.armPhysical.value[j] == aim.arm)
      && (b.armVirtual.None? ==> aim.hand == c.radians[j] && aim.arm == b.actual[j])
  }

  /** Where the hand wants the joint: the arm's angle at the engagement plus the hand's turn since, in degrees,
      signed and scaled; or the slider's share of the rest of its rail, between the joint's own limits. */
  ghost predicate Aims(b: Bridge, a: ValidArgs, j: Joint, aim: Aim, wanted: real) {
    if j == GRIPPER then
      wanted == EndpointClutched(aim.at, aim.hand, aim.arm, b.limits.low[j], b.limits.high[j], a.signs[j])
    else
      Times(wanted - aim.arm, PI)
      == Times(180.0 * a.signs[j] as real * WrappedDelta(aim.at, aim.hand), if j == 2 then a.elbowScale else a.motionScale)
  }

  lemma GoalIsAim(b: Bridge, c: Command, a: ValidArgs, j: Joint, aim: Aim, wanted: real)
    requires Paired(b) && Driven(c, j) && Aimed(b, c, j, aim) && Aims(b, a, j, aim, wanted)
    ensures Goal(b, c, a, j) == Clamp(b.limits.low[j], b.limits.high[j], wanted)
  {
    if j != GRIPPER {
      FollowsHand(aim.arm, a.signs[j], WrappedDelta(aim.at, aim.hand), if j == 2 then a.elbowScale else a.motionScale, wanted);
    }
  }

  /** `n` turns at the joint's speed cover the distance from its target to where the hand wants it, clamped to
      its limits. */
  predicate Covers(b: Bridge, a: ValidArgs, dt: Tick, j: Joint, wanted: real, n: nat) {
    Times(n as real, Times(Speed(a, j), dt)) >= Abs(Clamp(b.limits.low[j], b.limits.high[j], wanted) - b.target[j])
  }

  lemma AimReached(b: Bridge, c: Command, a: ValidArgs, dt: Tick, j: Joint, aim: Aim, wanted: real, n: nat)
    requires Paired(b) && Driven(c, j) && Aimed(b, c, j, aim) && Aims(b, a, j, aim, wanted)
    ensures Goal(b, c, a, j) == Clamp(b.limits.low[j], b.limits.high[j], wanted)
    ensures n >= CyclesNeeded(b, c, a, dt, j) <==> Covers(b, a, dt, j, wanted, n)
  {
    GoalIsAim(b, c, a, j, aim, wanted);
    CyclesCover(b, c, a, dt, j, n);
  }

  /** Where that is and when: a driven joint is at the pose the held hand asks for, clamped to its limits, if and
      only if the turns of the worker have covered the distance to it at the joint's speed. */
  lemma ArrivesWhereAsked(a: ValidArgs, run: seq<Step>, b: Bridge, c: Command, beats: seq<Beat>, dt: Tick, j: Joint,
                          aim: Aim, wanted: real)
    requires b == After(a, run).b && b.armed && b.latest == Some(c)
    requires Aimed(b, c, j, aim) && Aims(b, a, j, aim, wanted)
    requires Driven(c, j) && KeptUp(a, run, c, beats, dt)
    ensures After(a, run + Beats(beats, dt)).b.target[j] == Clamp(b.limits.low[j], b.limits.high[j], wanted)
            <==> Covers(b, a, dt, j, wanted, |beats|)
  {
    AimReached(b, c, a, dt, j, aim, wanted, |beats|);
    ArrivesOnTimeInRuns(a, run, c, beats, dt, j);
  }
}
