/**
 What holds over whole runs of the hub gateway, whatever the order in which the headset,
 control-plane and streaming threads take the lock.
 */
module HubGatewayRuns {
  import opened Prelude
  import opened RealMath
  import opened Clutch
  import opened HubGateway

  /** One section executed under the lock. `Seed` is the second section of a drive command:
      it comes after a network round trip, so anything may happen in between. */
  datatype Step =
    | Pair
    | PressArm
    | Frame(c: Command)
    | Stream(dt: Tick, now: real)
    | LinkReply(command: LinkCommand, bound: bool)
    | Seed
    | Telemetry(rigs: map<string, map<Joint, real>>)
    | Halt
    | ControlError
    | InputError

  function Next(b: Bridge, a: Args, s: Step): (r: (Bridge, Option<Packet>))
    requires Paired(b)
  {
    match s
    case Pair => (b.(lastSequence := -1, latest := None), None)
    case PressArm => (Arm(b), None)
    case Frame(c) => (Control(b, c), None)
    case Stream(dt, now) => NextInput(b, a, dt, now)
    case LinkReply(command, bound) => (Link(b, command, bound), None)
    case Seed => (b.(target := b.actual), None)
    case Telemetry(rigs) => (Refresh(b, rigs), None)
    case Halt => (StopDrive(b), None)
    case ControlError => (ControlFault(b), None)
    case InputError => (InputFault(b), None)
  }

  /** Every step keeps the arming invariant: armed only while bound to a selected rig; no
      clutch base and no filter state survives a disarm; bases come in pairs. */
  lemma StepIsSafe(b: Bridge, a: Args, s: Step)
    requires Safe(b)
    ensures Safe(Next(b, a, s).0)
  {
  }

  /** The shared state after a run. */
  function After(a: Args, run: seq<Step>): (b: Bridge)
    ensures Safe(b)
  {
    if run == [] then START
    else
      var before := After(a, run[..|run| - 1]);
      StepIsSafe(before, a, run[|run| - 1]);
      Next(before, a, run[|run| - 1]).0
  }

  function Sent(a: Args, run: seq<Step>, k: nat): Option<Packet>
    requires k < |run|
  {
    Next(After(a, run[..k]), a, run[k]).1
  }

  lemma AfterStep(a: Args, run: seq<Step>, k: nat)
    requires k < |run|
    ensures After(a, run[..k + 1]) == Next(After(a, run[..k]), a, run[k]).0
  {
    assert run[..k + 1][..k] == run[..k];
  }

  // ---- arming --------------------------------------------------------------------------

  /** Only an accepted press of Arm arms. */
  lemma OnlyArmArms(b: Bridge, a: Args, s: Step)
    requires Safe(b) && !b.armed
    ensures Next(b, a, s).0.armed <==> s == PressArm && b.bound && b.selected.Some?
    ensures Next(b, a, s).1 == None
  {
  }

  ghost predicate ArmedSince(a: Args, run: seq<Step>, i: nat, k: nat)
    requires i < k <= |run|
  {
    && run[i] == PressArm
    && After(a, run[..i]).bound && After(a, run[..i]).selected.Some?
    && forall m {:trigger run[..m]} :: i < m <= k ==> After(a, run[..m]).armed
  }

  lemma {:induction false} ArmedHasCause(a: Args, run: seq<Step>, k: nat)
    requires k <= |run| && After(a, run[..k]).armed
    ensures exists i: nat :: i < k && ArmedSince(a, run, i, k)
    decreases k
  {
    if k > 0 {
      AfterStep(a, run, k - 1);
      if After(a, run[..k - 1]).armed && run[k - 1] != PressArm {
        ArmedHasCause(a, run, k - 1);
        var i: nat :| i < k - 1 && ArmedSince(a, run, i, k - 1);
        assert ArmedSince(a, run, i, k);
      } else {
        if !After(a, run[..k - 1]).armed {
          OnlyArmArms(After(a, run[..k - 1]), a, run[k - 1]);
        }
        if After(a, run[..k - 1]).bound && After(a, run[..k - 1]).selected.Some? {
          assert ArmedSince(a, run, k - 1, k);
        }
      }
    }
  }

  /** A packet leaves only under an arming that has lasted since the operator pressed Arm on a
      bound rig, addressed to the rig now selected, with a frame no older than the timeout. */
  lemma PacketNeedsArming(a: Args, run: seq<Step>, k: nat)
    requires k < |run| && Sent(a, run, k).Some?
    ensures exists i: nat :: i < k && ArmedSince(a, run, i, k)
    ensures var b := After(a, run[..k]);
            && run[k].Stream? && Fresh(b, a, run[k].now)
            && b.bound && b.selected == Some(Sent(a, run, k).value.rig)
            && After(a, run[..k + 1]).armed
            && Sent(a, run, k).value.joints == After(a, run[..k + 1]).target
  {
    AfterStep(a, run, k);
    ArmedHasCause(a, run, k);
  }

  /** However it was disarmed, nothing is sent before the next press of Arm. */
  lemma {:induction false} SilentUntilArmed(a: Args, run: seq<Step>, i: nat, k: nat)
    requires i <= k < |run| && !After(a, run[..i]).armed
    requires forall m :: i <= m < k ==> run[m] != PressArm
    ensures Sent(a, run, k) == None && !After(a, run[..k]).armed
    decreases k
  {
    if i < k {
      SilentUntilArmed(a, run, i, k - 1);
      AfterStep(a, run, k - 1);
      OnlyArmArms(After(a, run[..k - 1]), a, run[k - 1]);
    }
    OnlyArmArms(After(a, run[..k]), a, run[k]);
  }

  // ---- the motion limiter ---------------------------------------------------------------

  /** How far a value lies outside the window a target must keep around telemetry. */
  function OutsideWindow(value: real, anchor: real, lead: real): real {
    Max(0.0, Abs(value - anchor) - lead)
  }

  lemma LimitBounds(previous: real, wanted: real, anchor: real, a: Args, dt: Tick, j: Joint)
    requires Speed(a, j) >= 0.0
    ensures var r := Limit(previous, wanted, anchor, a, dt, j);
            && Abs(r - anchor) <= Lead(a, j)
            && Abs(r - previous) <= Max(Times(Speed(a, j), dt), OutsideWindow(previous, anchor, Lead(a, j)))
            && (Low(j) <= previous <= High(j) && Low(j) <= anchor <= High(j) ==> Low(j) <= r <= High(j))
  {
    MulNonneg(Speed(a, j), dt);
    SlewBounds(previous, Clamp(Low(j), High(j), wanted), Times(Speed(a, j), dt));
  }

  /** Every tick that moves leaves each target inside its lead window, and moves no joint by
      more than one slew step unless telemetry itself pulled the window away. */
  lemma TickBounds(b: Bridge, a: Args, dt: Tick, now: real, j: Joint)
    requires Safe(b) && Moves(b, a, now) && Speed(a, j) >= 0.0
    ensures var r := NextInput(b, a, dt, now).0;
            && Abs(r.target[j] - b.actual[j]) <= Lead(a, j)
            && Abs(r.target[j] - b.target[j])
               <= Max(Times(Speed(a, j), dt), OutsideWindow(b.target[j], b.actual[j], Lead(a, j)))
  {
    LimitBounds(b.target[j], Smoothed(b, b.latest.value, a, dt, j), b.actual[j], a, dt, j);
  }

  /** A tick that does not move re-sends the target it holds. */
  lemma IdleTickHolds(b: Bridge, a: Args, dt: Tick, now: real)
    requires Safe(b) && !Moves(b, a, now)
    ensures var (r, packet) := NextInput(b, a, dt, now);
            r.target == b.target && (packet.Some? ==> packet.value.joints == b.target)
  {
  }

  /** Steps under which an armed drive only holds: ticks that do not move, frames, telemetry, and
      heartbeats that confirm the binding. */
  predicate HoldsStill(b: Bridge, a: Args, s: Step) {
    match s
    case Stream(_, now) => !Moves(b, a, now)
    case Frame(_) => true
    case Telemetry(_) => true
    case LinkReply(command, bound) => command == NoCommand && bound
    case _ => false
  }

  ghost predicate StillRun(a: Args, run: seq<Step>, i: nat, k: nat)
    requires i <= k <= |run|
  {
    forall m: nat {:trigger run[m]} :: i <= m < k ==> HoldsStill(After(a, run[..m]), a, run[m])
  }

  lemma {:induction false} HoldingKeepsTheTarget(a: Args, run: seq<Step>, i: nat, k: nat)
    requires i <= k <= |run| && StillRun(a, run, i, k)
    ensures After(a, run[..k]).target == After(a, run[..i]).target
    decreases k
  {
    if i < k {
      var p: nat := k - 1;
      HoldingKeepsTheTarget(a, run, i, p);
      AfterHolds(a, run, p);
    }
  }

  lemma AfterHolds(a: Args, run: seq<Step>, m: nat)
    requires m < |run| && HoldsStill(After(a, run[..m]), a, run[m])
    ensures After(a, run[..m + 1]).target == After(a, run[..m]).target
    ensures Sent(a, run, m).Some? ==> Sent(a, run, m).value.joints == After(a, run[..m]).target
  {
    HoldStep(After(a, run[..m]), a, run[m]);
    AfterStep(a, run, m);
  }

  /** Holding is re-sending: as long as nothing moves the arm, every packet carries the one target
      it was left at, wherever telemetry goes meanwhile. */
  lemma HoldingResendsTheTarget(a: Args, run: seq<Step>, i: nat, m: nat)
    requires i <= m < |run| && StillRun(a, run, i, m + 1) && Sent(a, run, m).Some?
    ensures Sent(a, run, m).value.joints == After(a, run[..i]).target
  {
    assert HoldsStill(After(a, run[..m]), a, run[m]);
    assert StillRun(a, run, i, m);
    HoldingKeepsTheTarget(a, run, i, m);
    AfterHolds(a, run, m);
  }

  lemma HoldStep(b: Bridge, a: Args, s: Step)
    requires Safe(b) && HoldsStill(b, a, s)
    ensures var (r, packet) := Next(b, a, s); r.target == b.target && (packet.Some? ==> packet.value.joints == b.target)
  {
    if s.Stream? {
      IdleTickHolds(b, a, s.dt, s.now);
    }
  }

  ghost predicate InRange(p: Pose) {
    forall j: Joint :: Low(j) <= p[j] <= High(j)
  }

  ghost predicate TelemetryInRange(s: Step) {
    s.Telemetry? ==>
      forall rig, j: Joint :: rig in s.rigs && j in s.rigs[rig] ==> Low(j) <= s.rigs[rig][j] <= High(j)
  }

  lemma TickKeepsRange(b: Bridge, a: Args, dt: Tick, now: real)
    requires Safe(b) && InRange(b.actual) && InRange(b.target)
    requires a.maxSpeed >= 0.0 && a.maxGripperSpeed >= 0.0
    ensures var r := NextInput(b, a, dt, now).0; InRange(r.actual) && InRange(r.target)
  {
    if Moves(b, a, now) {
      forall j: Joint
        ensures Low(j) <= NextInput(b, a, dt, now).0.target[j] <= High(j)
      {
        LimitBounds(b.target[j], Smoothed(b, b.latest.value, a, dt, j), b.actual[j], a, dt, j);
      }
    }
  }

  lemma RefreshKeepsRange(b: Bridge, rigs: map<string, map<Joint, real>>)
    requires InRange(b.actual) && TelemetryInRange(Telemetry(rigs))
    ensures InRange(Refresh(b, rigs).actual)
  {
    if b.selected.Some? && b.selected.value in rigs {
      var joints := rigs[b.selected.value];
      assert forall j: Joint :: j in joints ==> Low(j) <= joints[j] <= High(j);
    }
  }

  lemma StepKeepsRange(b: Bridge, a: Args, s: Step)
    requires Safe(b) && InRange(b.actual) && InRange(b.target)
    requires a.maxSpeed >= 0.0 && a.maxGripperSpeed >= 0.0
    requires TelemetryInRange(s)
    ensures InRange(Next(b, a, s).0.actual) && InRange(Next(b, a, s).0.target)
  {
    match s {
      case Stream(dt, now) => TickKeepsRange(b, a, dt, now);
      case Telemetry(rigs) => RefreshKeepsRange(b, rigs);
      case _ =>
    }
  }

  /** While telemetry stays in the nominal range, so does every commanded target of the run. */
  lemma {:induction false} TargetsStayInRange(a: Args, run: seq<Step>)
    requires a.maxSpeed >= 0.0 && a.maxGripperSpeed >= 0.0
    requires forall i :: 0 <= i < |run| ==> TelemetryInRange(run[i])
    ensures InRange(After(a, run).actual) && InRange(After(a, run).target)
  {
    if run != [] {
      TargetsStayInRange(a, run[..|run| - 1]);
      StepKeepsRange(After(a, run[..|run| - 1]), a, run[|run| - 1]);
    }
  }

  // ---- no jump when clutching -----------------------------------------------------------

  /** This joint's clutch engages on this very frame, or is not engaged at all. */
  predicate NewlyClutched(b: Bridge, c: Command, j: Joint) {
    if j == GRIPPER then b.gripVirtual.None? || !c.gripperActive else b.armVirtual.None? || !c.armActive
  }

  /** A newly engaged clutch, not held at an edge, asks every joint to stay where it is. */
  lemma EngagementAsksForNothing(b: Bridge, c: Command, a: Args, dt: Tick, j: Joint)
    requires Paired(b) && NewlyClutched(b, c, j) && !AtEdge(c, j)
    ensures Desired(b, c, a, dt, j) == b.target[j]
  {
    if j != GRIPPER && c.armActive {
      NoDelta(c.radians[j]);
      assert Degrees(0.0) == 0.0;
      MulUnits(a.signs[j] as real);
      MulUnits(a.scales[j]);
    }
  }

  /** Where a stale filter cannot push: the target already sits on the bound it is pushed to. */
  predicate Blocked(target: real, anchor: real, up: bool, a: Args, j: Joint) {
    if up then target == High(j) || target == anchor + Lead(a, j)
    else target == Low(j) || target == anchor - Lead(a, j)
  }

  /** The filter state cannot disturb this joint: there is none, it agrees with the target,
      filtering is off, or it only pushes against a bound. */
  predicate Settled(b: Bridge, a: Args, j: Joint) {
    || b.smoothed.None?
    || b.smoothed.value[j] == b.target[j]
    || a.smoothingMs <= 0.0
    || Blocked(b.target[j], b.actual[j], b.smoothed.value[j] > b.target[j], a, j)
  }

  lemma LimitHolds(target: real, wanted: real, anchor: real, a: Args, dt: Tick, j: Joint)
    requires Speed(a, j) > 0.0
    requires Low(j) <= target <= High(j) && Abs(target - anchor) <= Lead(a, j)
    ensures Limit(target, wanted, anchor, a, dt, j) == target
            <==> wanted == target || Blocked(target, anchor, wanted > target, a, j)
  {
    MulPositive(Speed(a, j), dt);
  }

  lemma LowPassSide(state: real, target: real, alpha: real)
    requires 0.0 < alpha <= 1.0
    ensures var r := LowPass(state, target, alpha);
            && (r == target <==> state == target || alpha == 1.0)
            && (alpha < 1.0 ==> (r > target <==> state > target))
  {
    MulSub(1.0, alpha, target - state);
    MulUnits(target - state);
    if alpha < 1.0 {
      if state > target {
        MulPositive(1.0 - alpha, state - target);
        MulSub(0.0, target - state, 1.0 - alpha);
        MulUnits(1.0 - alpha);
        MulSwap(1.0 - alpha, target - state);
        MulSwap(1.0 - alpha, state - target);
      } else if state < target {
        MulPositive(1.0 - alpha, target - state);
      } else {
        MulUnits(1.0 - alpha);
      }
    }
  }

  /** Engaging an unsaturated clutch moves an in-range, in-window joint if and only if the
      low-pass filter still holds a different pose. Releasing a clutch does not reset that
      filter, so a re-engagement can move the arm although the hand has not. */
  lemma EngagementHoldsExactlyWhenSettled(b: Bridge, a: Args, dt: Tick, now: real, j: Joint)
    requires Safe(b) && Moves(b, a, now) && Speed(a, j) > 0.0
    requires NewlyClutched(b, b.latest.value, j) && !AtEdge(b.latest.value, j)
    requires Low(j) <= b.target[j] <= High(j) && Abs(b.target[j] - b.actual[j]) <= Lead(a, j)
    ensures NextInput(b, a, dt, now).0.target[j] == b.target[j] <==> Settled(b, a, j)
  {
    var c := b.latest.value;
    var t := b.target[j];
    EngagementAsksForNothing(b, c, a, dt, j);
    var state := if b.smoothed.Some? then b.smoothed.value[j] else t;
    LowPassSide(state, t, Alpha(a, dt));
    LimitHolds(t, LowPass(state, t, Alpha(a, dt)), b.actual[j], a, dt, j);
  }

  // ---- such a re-engagement -----------------------------------------------------------------

  /** The gateway's own defaults. */
  const DEFAULTS := Args(8.0, 12.0, 30.0, 120.0, 500.0, [1.0, 1.0, 1.0, 1.0, 1.0, 1.0], [1, 1, 1, 1, 1, 1])

  const ZERO: Pose := [0.0, 0.0, 0.0, 0.0, 0.0, 0.0]

  /** Frames come halfway between ticks, which are 40 ms apart. */
  function Grip(sequence: int, gripper: real, active: bool): Command {
    Command(sequence, sequence as real * 0.04 + 0.02, ZERO, gripper, false, active, [0, 0, 0, 0, 0, 0])
  }

  const TICK: Tick := 0.04

  /** The tick that follows frame `c`. */
  function TickAfter(c: Command): Step {
    Stream(TICK, c.receivedAt + 0.02)
  }

  /** Arm, clutch the gripper half open, open it all the way, let go, and clutch it again where
      the hand still is. */
  const REGRIP: seq<Step> := [
    LinkReply(Drive("r"), true), PressArm,
    Frame(Grip(0, 0.5, true)), TickAfter(Grip(0, 0.5, true)),
    Frame(Grip(1, 1.0, true)), TickAfter(Grip(1, 1.0, true)),
    Frame(Grip(2, 1.0, false)), TickAfter(Grip(2, 1.0, false)),
    Frame(Grip(3, 1.0, true)), TickAfter(Grip(3, 1.0, true))]

  /** The four ticks read the clock at 40, 80, 120 and 160 ms. */
  lemma TicksAreSpaced()
    ensures forall i: nat :: i < 4 ==> REGRIP[2 * i + 3] == Stream(TICK, (i + 1) as real * TICK)
  {
    forall i: nat | i < 4
      ensures REGRIP[2 * i + 3] == Stream(TICK, (i + 1) as real * TICK)
    {
      assert i == 0 || i == 1 || i == 2 || i == 3;
    }
  }

  /** The gripper's share of a state in which a rig is armed and nothing else is clutched. */
  predicate Gripping(b: Bridge, base: Option<(real, real)>, target: real, smoothed: Option<real>) {
    && b.armed && b.bound && b.selected.Some? && b.actual == REST_POSE && b.armVirtual.None? && Paired(b)
    && b.target[GRIPPER] == target
    && (b.smoothed.Some? <==> smoothed.Some?) && (smoothed.Some? ==> b.smoothed.value[GRIPPER] == smoothed.value)
    && b.gripVirtual == (if base.Some? then Some(base.value.0) else None)
    && b.gripPhysical == (if base.Some? then Some(base.value.1) else None)
  }

  predicate Holds(b: Bridge, c: Command) {
    b.latest == Some(c) && b.lastSequence == c.sequence
  }

  lemma GripFrame(b: Bridge, sequence: int, gripper: real, active: bool)
    requires b.lastSequence < sequence && 0.0 <= gripper <= 1.0
    ensures var c := Grip(sequence, gripper, active); Control(b, c) == b.(lastSequence := sequence, latest := Some(c))
  {
  }

  lemma TickShare()
    ensures Alpha(DEFAULTS, TICK) == 0.25 && Times(12.0, TICK) == 0.48
  {
    assert DEFAULTS.smoothingMs / 1000.0 == 0.12;
  }

  /** One tick with only the gripper clutched, away from its edge. */
  lemma GripTick(b: Bridge, c: Command, base: Option<(real, real)>, target: real, smoothed: Option<real>)
    requires Gripping(b, base, target, smoothed) && Holds(b, c)
    requires c == Grip(c.sequence, c.gripper, true)
    ensures var r := NextInput(b, DEFAULTS, TICK, c.receivedAt + 0.02).0;
            var kept := if base.Some? then base.value else (c.gripper, target);
            var wanted := EndpointClutched(c.gripper, kept.0, kept.1, 0.0, 100.0, 1);
            var filtered := LowPass(if smoothed.Some? then smoothed.value else target, wanted, 0.25);
            && Gripping(r, Some(kept), Limit(target, filtered, 50.0, DEFAULTS, TICK, GRIPPER), Some(filtered))
            && Holds(r, c)
  {
    TickShare();
    assert Desired(b, c, DEFAULTS, TICK, GRIPPER)
      == GripDesired(b.target[GRIPPER], GripVirtual(b, c).value, GripPhysical(b, c).value, c, DEFAULTS, TICK);
  }

  /** A tick with nothing clutched drops the bases and keeps the filter. */
  lemma ReleaseTick(b: Bridge, c: Command, base: Option<(real, real)>, target: real, smoothed: Option<real>)
    requires Gripping(b, base, target, smoothed) && Holds(b, c)
    requires c == Grip(c.sequence, c.gripper, false)
    ensures var r := NextInput(b, DEFAULTS, TICK, c.receivedAt + 0.02).0; Gripping(r, None, target, smoothed) && Holds(r, c)
  {
  }

  /** Near telemetry, one tick moves the gripper to `wanted` or as far as the slew limit goes. */
  lemma LimitGrip(start: real, wanted: real)
    requires 20.0 <= start <= wanted && start <= 80.0
    ensures Limit(start, wanted, 50.0, DEFAULTS, TICK, GRIPPER) == Min(wanted, start + 0.48)
  {
    TickShare();
  }

  lemma FilterUp(start: real, wanted: real)
    requires start <= wanted
    ensures LowPass(start, wanted, 0.25) == start + 0.25 * (wanted - start)
  {
  }

  /** The state after a frame and the tick that follows it. */
  function FrameThenTick(b: Bridge, c: Command): Bridge
    requires Safe(b)
  {
    StepIsSafe(b, DEFAULTS, Frame(c));
    NextInput(Next(b, DEFAULTS, Frame(c)).0, DEFAULTS, TICK, c.receivedAt + 0.02).0
  }

  lemma GripStep(b: Bridge, c: Command, base: Option<(real, real)>, target: real, smoothed: Option<real>,
                 kept: (real, real), wanted: real, filtered: real, limited: real)
    requires Safe(b) && Gripping(b, base, target, smoothed) && b.lastSequence < c.sequence
    requires c == Grip(c.sequence, c.gripper, true) && 0.0 <= c.gripper <= 1.0
    requires kept == if base.Some? then base.value else (c.gripper, target)
    requires wanted == EndpointClutched(c.gripper, kept.0, kept.1, 0.0, 100.0, 1)
    requires filtered == LowPass(if smoothed.Some? then smoothed.value else target, wanted, 0.25)
    requires limited == Limit(target, filtered, 50.0, DEFAULTS, TICK, GRIPPER)
    ensures var r := FrameThenTick(b, c); Gripping(r, Some(kept), limited, Some(filtered)) && r.lastSequence == c.sequence
  {
    GripFrame(b, c.sequence, c.gripper, true);
    GripTick(Control(b, c), c, base, target, smoothed);
  }

  /** Engaging for the first time moves nothing. */
  lemma FirstTickStays(b: Bridge, half: real, start: real)
    requires Safe(b) && Gripping(b, None, start, None) && b.lastSequence == -1
    requires 0.0 < half < 1.0 && 20.0 <= start <= 80.0
    ensures var r := FrameThenTick(b, Grip(0, half, true));
            Gripping(r, Some((half, start)), start, Some(start)) && r.lastSequence == 0
  {
    FilterUp(start, start);
    LimitGrip(start, start);
    GripStep(b, Grip(0, half, true), None, start, None, (half, start), start, start, start);
  }

  /** Opening all the way leaves the filter far ahead of the slew-limited target. */
  lemma SecondTickOpens(b: Bridge, half: real, start: real) returns (target: real, filter: real)
    requires Safe(b) && Gripping(b, Some((half, start)), start, Some(start)) && b.lastSequence == 0
    requires 0.0 < half < 1.0 && 20.0 <= start <= 60.0
    ensures var r := FrameThenTick(b, Grip(1, 1.0, true));
            Gripping(r, Some((half, start)), target, Some(filter)) && r.lastSequence == 1
    ensures 20.0 < target < filter && target < 61.0
  {
    ClutchReachesEndpoints(half, start, 0.0, 100.0, 1);
    filter := LowPass(start, 100.0, 0.25);
    FilterUp(start, 100.0);
    LimitGrip(start, filter);
    target := Min(filter, start + 0.48);
    GripStep(b, Grip(1, 1.0, true), Some((half, start)), start, Some(start), (half, start), 100.0, filter, target);
  }

  /** Letting go drops the clutch and keeps the filter. */
  lemma ThirdTickLetsGo(b: Bridge, base: (real, real), target: real, filter: real)
    requires Safe(b) && Gripping(b, Some(base), target, Some(filter)) && b.lastSequence == 1
    ensures var r := FrameThenTick(b, Grip(2, 1.0, false)); Gripping(r, None, target, Some(filter)) && r.lastSequence == 2
  {
    GripFrame(b, 2, 1.0, false);
    ReleaseTick(Control(b, Grip(2, 1.0, false)), Grip(2, 1.0, false), Some(base), target, Some(filter));
  }

  lemma FourthTickMoves(b: Bridge, target: real, filter: real)
    requires Safe(b) && Gripping(b, None, target, Some(filter)) && b.lastSequence == 2
    requires 20.0 < target < filter && target < 61.0
    ensures var held := Next(b, DEFAULTS, Frame(Grip(3, 1.0, true))).0;
            && held == b.(lastSequence := 3, latest := Some(Grip(3, 1.0, true)))
            && NewlyClutched(held, held.latest.value, GRIPPER) && !AtEdge(held.latest.value, GRIPPER)
    ensures FrameThenTick(b, Grip(3, 1.0, true)).target[GRIPPER] != b.target[GRIPPER]
  {
    GripFrame(b, 3, 1.0, true);
    var held := Control(b, Grip(3, 1.0, true));
    EngagementHoldsExactlyWhenSettled(held, DEFAULTS, TICK, Grip(3, 1.0, true).receivedAt + 0.02, GRIPPER);
  }

  lemma RunTwo(run: seq<Step>, k: nat, c: Command)
    requires k + 1 < |run| && run[k] == Frame(c) && run[k + 1] == TickAfter(c)
    ensures After(DEFAULTS, run[..k + 2]) == FrameThenTick(After(DEFAULTS, run[..k]), c)
  {
    AfterStep(DEFAULTS, run, k);
    AfterStep(DEFAULTS, run, k + 1);
  }

  lemma ArmedToGrip(run: seq<Step>)
    requires |run| >= 2 && run[0] == LinkReply(Drive("r"), true) && run[1] == PressArm
    ensures var b := After(DEFAULTS, run[..2]); Gripping(b, None, 50.0, None) && b.lastSequence == -1
  {
    AfterStep(DEFAULTS, run, 0);
    AfterStep(DEFAULTS, run, 1);
    assert After(DEFAULTS, run[..0]) == START;
  }

  ghost predicate At(run: seq<Step>, k: nat, base: Option<(real, real)>, target: real, smoothed: Option<real>, sequence: int)
    requires k <= |run|
  {
    var b := After(DEFAULTS, run[..k]);
    Gripping(b, base, target, smoothed) && b.lastSequence == sequence
  }

  lemma Engages(run: seq<Step>, half: real, start: real)
    requires |run| > 3 && run[2] == Frame(Grip(0, half, true)) && run[3] == TickAfter(Grip(0, half, true))
    requires At(run, 2, None, start, None, -1) && 0.0 < half < 1.0 && 20.0 <= start <= 80.0
    ensures At(run, 4, Some((half, start)), start, Some(start), 0)
  {
    RunTwo(run, 2, Grip(0, half, true));
    FirstTickStays(After(DEFAULTS, run[..2]), half, start);
  }

  lemma Opens(run: seq<Step>, half: real, start: real) returns (target: real, filter: real)
    requires |run| > 5 && run[4] == Frame(Grip(1, 1.0, true)) && run[5] == TickAfter(Grip(1, 1.0, true))
    requires At(run, 4, Some((half, start)), start, Some(start), 0) && 0.0 < half < 1.0 && 20.0 <= start <= 60.0
    ensures At(run, 6, Some((half, start)), target, Some(filter), 1)
    ensures 20.0 < target < filter && target < 61.0
  {
    RunTwo(run, 4, Grip(1, 1.0, true));
    target, filter := SecondTickOpens(After(DEFAULTS, run[..4]), half, start);
  }

  lemma LetsGo(run: seq<Step>, base: (real, real), target: real, filter: real)
    requires |run| > 7 && run[6] == Frame(Grip(2, 1.0, false)) && run[7] == TickAfter(Grip(2, 1.0, false))
    requires At(run, 6, Some(base), target, Some(filter), 1)
    ensures At(run, 8, None, target, Some(filter), 2)
  {
    RunTwo(run, 6, Grip(2, 1.0, false));
    ThirdTickLetsGo(After(DEFAULTS, run[..6]), base, target, filter);
  }

  lemma Regripped(run: seq<Step>, half: real, start: real) returns (target: real, filter: real)
    requires |run| > 7 && run[2] == Frame(Grip(0, half, true)) && run[4] == Frame(Grip(1, 1.0, true))
    requires run[6] == Frame(Grip(2, 1.0, false)) && run[3] == TickAfter(Grip(0, half, true))
    requires run[5] == TickAfter(Grip(1, 1.0, true)) && run[7] == TickAfter(Grip(2, 1.0, false))
    requires At(run, 2, None, start, None, -1) && 0.0 < half < 1.0 && 20.0 <= start <= 60.0
    ensures At(run, 8, None, target, Some(filter), 2)
    ensures 20.0 < target < filter && target < 61.0
  {
    Engages(run, half, start);
    target, filter := Opens(run, half, start);
    LetsGo(run, (half, start), target, filter);
  }

  lemma Regrips(run: seq<Step>, target: real, filter: real)
    requires |run| == 10 && run[8] == Frame(Grip(3, 1.0, true)) && run[9] == TickAfter(Grip(3, 1.0, true))
    requires At(run, 8, None, target, Some(filter), 2) && 20.0 < target < filter && target < 61.0
    ensures var b := After(DEFAULTS, run[..9]);
            && b.latest == Some(Grip(3, 1.0, true)) && NewlyClutched(b, b.latest.value, GRIPPER)
            && !AtEdge(b.latest.value, GRIPPER)
            && After(DEFAULTS, run[..10]).target[GRIPPER] != b.target[GRIPPER]
  {
    RunTwo(run, 8, Grip(3, 1.0, true));
    AfterStep(DEFAULTS, run, 8);
    FourthTickMoves(After(DEFAULTS, run[..8]), target, filter);
  }

  /** With the gateway's defaults and from its start, a clutch released and engaged again with the
      hand unmoved does move the gripper: the last tick of this run. */
  lemma ReengagementMoves(run: seq<Step>)
    requires run == REGRIP
    ensures var b := After(DEFAULTS, run[..9]);
            && b.latest == Some(Grip(3, 1.0, true)) && NewlyClutched(b, b.latest.value, GRIPPER)
            && !AtEdge(b.latest.value, GRIPPER)
            && After(DEFAULTS, run).target[GRIPPER] != b.target[GRIPPER]
    ensures forall i: nat :: i < 4 ==> run[2 * i + 3] == Stream(TICK, (i + 1) as real * TICK)
  {
    TicksAreSpaced();
    ArmedToGrip(run);
    var target, filter := Regripped(run, 0.5, 50.0);
    Regrips(run, target, filter);
    assert run[..10] == run;
  }

  predicate NeverEngaged(b: Bridge) {
    b.armVirtual.None? && b.gripVirtual.None? && b.smoothed.None?
  }

  lemma NeverEngagedStep(b: Bridge, a: Args, s: Step)
    requires Safe(b) && NeverEngaged(b)
    requires s.Stream? ==> !Moves(b, a, s.now)
    ensures NeverEngaged(Next(b, a, s).0)
  {
  }

  /** From the press of Arm to the first active tick no filter state builds up, so the first
      engagement after arming is seamless. */
  lemma {:induction false} FirstEngagementHasNoFilter(a: Args, run: seq<Step>, i: nat, k: nat)
    requires i < k <= |run| && run[i] == PressArm
    requires After(a, run[..i]).bound && After(a, run[..i]).selected.Some?
    requires forall m :: i < m < k ==> run[m].Stream? ==> !Moves(After(a, run[..m]), a, run[m].now)
    ensures NeverEngaged(After(a, run[..k]))
    decreases k
  {
    AfterStep(a, run, k - 1);
    if i < k - 1 {
      FirstEngagementHasNoFilter(a, run, i, k - 1);
      NeverEngagedStep(After(a, run[..k - 1]), a, run[k - 1]);
    }
  }

  lemma FirstEngagementIsSeamless(a: Args, run: seq<Step>, i: nat, k: nat, j: Joint)
    requires i < k < |run| && run[i] == PressArm
    requires After(a, run[..i]).bound && After(a, run[..i]).selected.Some?
    requires forall m :: i < m < k ==> run[m].Stream? ==> !Moves(After(a, run[..m]), a, run[m].now)
    requires var b := After(a, run[..k]);
             && run[k].Stream? && Moves(b, a, run[k].now) && !AtEdge(b.latest.value, j)
             && Speed(a, j) > 0.0
             && Low(j) <= b.target[j] <= High(j) && Abs(b.target[j] - b.actual[j]) <= Lead(a, j)
    ensures After(a, run[..k + 1]).target[j] == After(a, run[..k]).target[j]
  {
    FirstEngagementHasNoFilter(a, run, i, k);
    AfterStep(a, run, k);
    EngagementHoldsExactlyWhenSettled(After(a, run[..k]), a, run[k].dt, run[k].now, j);
  }
}
