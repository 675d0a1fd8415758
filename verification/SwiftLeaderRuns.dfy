/** What the headset client guarantees per tick and over whole runs. */
module SwiftLeaderRuns {
  import opened Prelude
  import opened RealMath
  import opened Clutch
  import opened SwiftLeader

  // ---- one joint, one tick -------------------------------------------------------------------

  predicate Capped(m: Motion, j: Joint) {
    Abs(m.velocity) <= MaxSpeed(j) && Abs(m.acceleration) <= MaxAcceleration(j)
  }

  lemma AccelerationBounds(m: Motion, error: real, dt: Tick, j: Joint, root: real -> real)
    requires Capped(m, j)
    ensures var a := NextAcceleration(m, error, dt, j, root);
            Abs(a) <= MaxAcceleration(j) && Abs(a - m.acceleration) <= MaxJerk(j) * dt
  {
  }

  lemma TravelBounds(m: Motion, goal: real, dt: Tick, j: Joint, root: real -> real)
    requires Capped(m, j)
    ensures var r := Travel(m, goal, dt, j, root);
            && Capped(r, j)
            && (Abs(r.acceleration - m.acceleration) <= MaxJerk(j) * dt || r.acceleration == 0.0)
            && Abs(r.position - m.position) <= MaxSpeed(j) * dt
            && Abs(r.position - m.position) <= Abs(goal - m.position)
  {
    var error := goal - m.position;
    AccelerationBounds(m, error, dt, j, root);
    var acceleration := NextAcceleration(m, error, dt, j, root);
    var velocity := Clamp(-MaxSpeed(j), MaxSpeed(j), m.velocity + Times(acceleration, dt));
    MulLe(velocity, MaxSpeed(j), dt);
    MulLe(-MaxSpeed(j), velocity, dt);
    assert Times(-MaxSpeed(j), dt) == -(MaxSpeed(j) * dt);
  }

  /** Bounds on one joint's tick: speed and acceleration stay capped; acceleration changes by
      at most one jerk step unless it resets; the target ends inside its lead window; and it
      moves at most one speed step, or back into the window telemetry pulled away. */
  ghost predicate Bounded(m: Motion, r: Motion, anchor: real, dt: Tick, j: Joint) {
    && Capped(r, j)
    && (Abs(r.acceleration - m.acceleration) <= MaxJerk(j) * dt || r.acceleration == 0.0)
    && Abs(r.position - anchor) <= Lead(j)
    && Abs(r.position - m.position) <= Max(MaxSpeed(j) * dt, Abs(m.position - anchor) - Lead(j))
  }

  /** A target that was already inside its window never crosses its goal in a tick. */
  ghost predicate Short(m: Motion, r: Motion, goal: real, anchor: real, j: Joint) {
    Abs(m.position - anchor) <= Lead(j) ==>
      if m.position <= goal then r.position <= goal else r.position >= goal
  }

  lemma AdvanceBounds(m: Motion, wanted: real, anchor: real, dt: Tick, j: Joint, root: real -> real)
    requires Capped(m, j)
    ensures var r := Advance(m, wanted, anchor, dt, j, root);
            Bounded(m, r, anchor, dt, j) && Short(m, r, Clamp(Low(j), High(j), wanted), anchor, j)
  {
    TravelBounds(m, Clamp(Low(j), High(j), wanted), dt, j, root);
  }

  /** The requested speed is one from which the joint can still stop at its goal under its
      acceleration cap: v * v <= 2 * a * distance. */
  lemma RequestedVelocityCanStop(error: real, j: Joint, root: real -> real)
    requires IsSquareRoot(root)
    ensures var v := RequestedVelocity(error, j, root);
            && Abs(v) <= MaxSpeed(j)
            && Times(v, v) <= 2.0 * MaxAcceleration(j) * Abs(error)
            && (error > 0.0 ==> v >= 0.0) && (error < 0.0 ==> v <= 0.0)
  {
    var v := RequestedVelocity(error, j, root);
    var stopping := root(2.0 * MaxAcceleration(j) * Abs(error));
    MulLe(Abs(v), stopping, Abs(v));
    MulLe(Abs(v), stopping, stopping);
    assert Times(v, v) == Times(Abs(v), Abs(v));
    MulSwap(Abs(v), stopping);
  }

  /** A joint asked to stay where it is, in range and in window, stays exactly and at rest. */
  lemma NothingAskedNothingMoves(m: Motion, anchor: real, dt: Tick, j: Joint, root: real -> real)
    requires Low(j) <= m.position <= High(j) && Abs(m.position - anchor) <= Lead(j)
    ensures Advance(m, m.position, anchor, dt, j, root) == Motion(m.position, 0.0, 0.0)
  {
  }

  // ---- clutches ------------------------------------------------------------------------------

  predicate Placed(b: Client, j: Joint) {
    Low(j) <= b.target[j] <= High(j) && Abs(b.target[j] - b.actual[j]) <= Lead(j)
  }

  predicate NewlyClutched(b: Client, c: Command, j: Joint) {
    if j == GRIPPER then b.gripVirtual.None? || !c.gripperActive else b.armVirtual.None? || !c.armActive
  }

  predicate Moves(b: Client, now: real) {
    Alive(b, now) && Active(b, Current(b, now))
  }

  lemma SeamlessDelta(j: Joint, radians: real, base: real)
    ensures Follow(base, Direction(j), SwiftWrappedDelta(radians, radians)) == base
  {
    NoDelta(radians);
    MulUnits(Direction(j));
    assert Degrees(0.0) == 0.0;
  }

  /** Engaging an unsaturated clutch leaves every in-range, in-window joint exactly where it
      was: the trajectory has no filter state that could pull it away. */
  lemma EngagementIsSeamless(b: Client, dt: Tick, now: real, j: Joint, root: real -> real)
    requires Paired(b) && Moves(b, now)
    requires var c := Current(b, now); !Neutral(b, c) && NewlyClutched(b, c, j) && !AtEdge(c, j)
    requires Placed(b, j)
    ensures var r := NextInput(b, dt, now, root).0;
            r.target[j] == b.target[j] && r.velocity[j] == 0.0 && r.acceleration[j] == 0.0
  {
    var c := Current(b, now);
    SeamlessDelta(j, c.radians[j], b.target[j]);
    NothingAskedNothingMoves(JointMotion(b, j), b.actual[j], dt, j, root);
  }

  /** This joint was held at an edge on the last tick, and its clutch is pinned there. */
  ghost predicate PinnedHere(b: Client, c: Command, j: Joint) {
    if j == GRIPPER then b.gripVirtual == Some(c.gripper) && b.gripPhysical == Some(b.target[j])
    else && b.armVirtual.Some? && b.armVirtual.value[j] == c.radians[j]
         && b.armPhysical.Some? && b.armPhysical.value[j] == b.target[j]
  }

  lemma EdgeTickPins(b: Client, dt: Tick, now: real, j: Joint, root: real -> real)
    requires Paired(b) && Moves(b, now) && AtEdge(Current(b, now), j)
    ensures PinnedHere(NextInput(b, dt, now, root).0, Current(b, now), j)
  {
  }

  lemma PinnedAsksForNothing(b: Client, c: Command, dt: Tick, j: Joint)
    requires Paired(b) && PinnedHere(b, c, j) && !Neutral(b, c) && !AtEdge(c, j)
    requires if j == GRIPPER then c.gripperActive else c.armActive
    ensures Desired(b, c, dt, j) == b.target[j]
  {
    if j != GRIPPER {
      SeamlessDelta(j, c.radians[j], b.target[j]);
    }
  }

  // ---- whole runs ------------------------------------------------------------------------------

  datatype Step =
    | Connect
    | Leave
    | PressArm
    | RequestNeutral
    | PressStop
    | Publish(command: Command, at: real)
    | LinkReply(order: LinkCommand, bound: bool)
    | Seed
    | Telemetry(joints: map<Joint, real>)
    | LinkFailure
    | Stream(dt: Tick, now: real)

  function Next(b: Client, s: Step, root: real -> real): (r: (Client, Option<Packet>))
    requires Paired(b)
  {
    match s
    case Connect => (Disconnect(b).(connected := true), None)
    case Leave => (Disconnect(b), None)
    case PressArm => (Arm(b), None)
    case RequestNeutral => (MoveToNeutral(b), None)
    case PressStop => (StopLocally(b), None)
    case Publish(command, at) => (if b.connected then b.(latest := Some(Sample(command, at))) else b, None)
    case LinkReply(order, bound) => (Link(b, order, bound), None)
    case Seed => (b.(target := b.actual), None)
    case Telemetry(joints) => (Refresh(b, joints), None)
    case LinkFailure => (FailClosed(b), None)
    case Stream(dt, now) => NextInput(b, dt, now, root)
  }

  lemma TickMotion(b: Client, dt: Tick, now: real, j: Joint, root: real -> real)
    requires Paired(b) && Moves(b, now)
    ensures JointMotion(NextInput(b, dt, now, root).0, j) == NextMotion(b, Current(b, now), dt, j, root)
  {
  }

  lemma TickBounds(b: Client, dt: Tick, now: real, j: Joint, root: real -> real)
    requires Safe(b) && Moves(b, now)
    ensures var r := JointMotion(NextInput(b, dt, now, root).0, j);
            var goal := Clamp(Low(j), High(j), Desired(b, Current(b, now), dt, j));
            && Bounded(JointMotion(b, j), r, b.actual[j], dt, j)
            && Short(JointMotion(b, j), r, goal, b.actual[j], j)
  {
    TickMotion(b, dt, now, j, root);
    AdvanceBounds(JointMotion(b, j), Desired(b, Current(b, now), dt, j), b.actual[j], dt, j, root);
  }

  lemma TickIsSafe(b: Client, dt: Tick, now: real, root: real -> real)
    requires Safe(b)
    ensures Safe(NextInput(b, dt, now, root).0)
  {
    var r := NextInput(b, dt, now, root).0;
    if Moves(b, now) {
      forall j: Joint
        ensures Abs(r.velocity[j]) <= MaxSpeed(j) && Abs(r.acceleration[j]) <= MaxAcceleration(j)
      {
        TickBounds(b, dt, now, j, root);
        assert Capped(JointMotion(r, j), j);
      }
    }
  }

  lemma LinkIsSafe(b: Client, order: LinkCommand, bound: bool)
    requires Safe(b)
    ensures Safe(Link(b, order, bound))
  {
  }

  lemma ControlIsSafe(b: Client, s: Step, root: real -> real)
    requires Safe(b) && !s.Stream? && !s.LinkReply?
    ensures Safe(Next(b, s, root).0)
  {
  }

  /** Every step keeps the invariant: armed only while connected, bound and on a rig; nothing
      of a clutch or trajectory survives a disarm; bases come in pairs; motion stays capped. */
  lemma StepIsSafe(b: Client, s: Step, root: real -> real)
    requires Safe(b)
    ensures Safe(Next(b, s, root).0)
  {
    match s {
      case Stream(dt, now) => TickIsSafe(b, dt, now, root);
      case LinkReply(order, bound) => LinkIsSafe(b, order, bound);
      case _ => ControlIsSafe(b, s, root);
    }
  }

  function After(run: seq<Step>, root: real -> real): (b: Client)
    ensures Safe(b)
  {
    if run == [] then START
    else
      var before := After(run[..|run| - 1], root);
      StepIsSafe(before, run[|run| - 1], root);
      Next(before, run[|run| - 1], root).0
  }

  /** Anywhere in any run, whatever was commanded and whatever telemetry said, a moving tick
      obeys the trajectory bounds on every joint. */
  lemma EveryTickIsBounded(run: seq<Step>, dt: Tick, now: real, j: Joint, root: real -> real)
    requires Moves(After(run, root), now)
    ensures var b := After(run, root);
            var r := JointMotion(After(run + [Stream(dt, now)], root), j);
            var goal := Clamp(Low(j), High(j), Desired(b, Current(b, now), dt, j));
            && Bounded(JointMotion(b, j), r, b.actual[j], dt, j)
            && Short(JointMotion(b, j), r, goal, b.actual[j], j)
  {
    assert (run + [Stream(dt, now)])[..|run|] == run;
    TickBounds(After(run, root), dt, now, j, root);
  }

  // ---- leaving an edge ------------------------------------------------------------------------

  /** Steps that may fall between two ticks without ending the drive: frames of any content and
      age, telemetry, and heartbeats that confirm the binding. */
  predicate Quiet(s: Step) {
    s.Publish? || s.Telemetry? || s == LinkReply(NoCommand, true)
  }

  /** The state a run of steps leads to from `b`. */
  function From(b: Client, steps: seq<Step>, root: real -> real): (r: Client)
    requires Safe(b)
    ensures Safe(r)
  {
    if steps == [] then b
    else
      var before := From(b, steps[..|steps| - 1], root);
      StepIsSafe(before, steps[|steps| - 1], root);
      Next(before, steps[|steps| - 1], root).0
  }

  /** The state after one tick. */
  function After1(b: Client, dt: Tick, now: real, root: real -> real): (r: Client)
    requires Safe(b)
    ensures Safe(r)
  {
    TickIsSafe(b, dt, now, root);
    NextInput(b, dt, now, root).0
  }

  /** What a tick leaves for the next one, apart from frames and telemetry. */
  predicate SameDrive(b: Client, r: Client) {
    r == b.(latest := r.latest, actual := r.actual)
  }

  lemma QuietStep(b: Client, s: Step, root: real -> real)
    requires Safe(b) && b.armed && Quiet(s)
    ensures SameDrive(b, Next(b, s, root).0)
  {
  }

  lemma {:induction false} QuietSteps(b: Client, steps: seq<Step>, root: real -> real)
    requires Safe(b) && b.armed && forall i :: 0 <= i < |steps| ==> Quiet(steps[i])
    ensures SameDrive(b, From(b, steps, root))
  {
    if steps != [] {
      var front := steps[..|steps| - 1];
      assert forall i :: 0 <= i < |front| ==> front[i] == steps[i];
      QuietSteps(b, front, root);
      QuietStep(From(b, front, root), steps[|steps| - 1], root);
    }
  }

  /** The first tick off an edge, in any state that kept the pins of the last tick on it. */
  lemma UnpinnedTickHolds(b: Client, dt: Tick, now: real, j: Joint, root: real -> real)
    requires Safe(b) && Moves(b, now) && Placed(b, j)
    requires var c := Current(b, now);
             PinnedHere(b, c, j) && !AtEdge(c, j) && if j == GRIPPER then c.gripperActive else c.armActive
    ensures JointMotion(NextInput(b, dt, now, root).0, j) == Motion(b.target[j], 0.0, 0.0)
  {
    var c := Current(b, now);
    PinnedAsksForNothing(b, c, dt, j);
    TickMotion(b, dt, now, j, root);
    NothingAskedNothingMoves(JointMotion(b, j), b.actual[j], dt, j, root);
  }

  /** At the edge `b`, off the edge `mid`, with the joint's slider or angle unchanged. */
  predicate LeavesEdge(b: Client, now: real, mid: Client, now': real, j: Joint) {
    && Moves(b, now) && Moves(mid, now') && Placed(mid, j)
    && var c, c' := Current(b, now), Current(mid, now');
       && c'.radians[j] == c.radians[j] && c'.gripper == c.gripper
       && AtEdge(c, j) && !AtEdge(c', j) && (if j == GRIPPER then c'.gripperActive else c'.armActive)
  }

  /** Leaving edge continuation with the virtual joint where it was moves nothing: a tick with the
      joint at its edge, any frames, telemetry and heartbeats, and then the first tick off the
      edge, whose frame may be as old as the program still takes for live. */
  lemma LeavingEdgeIsSeamless(b: Client, dt: Tick, now: real, between: seq<Step>, dt': Tick, now': real, j: Joint,
                              root: real -> real)
    requires Safe(b) && forall i :: 0 <= i < |between| ==> Quiet(between[i])
    requires LeavesEdge(b, now, From(After1(b, dt, now, root), between, root), now', j)
    ensures var edge := After1(b, dt, now, root);
            JointMotion(After1(From(edge, between, root), dt', now', root), j) == Motion(edge.target[j], 0.0, 0.0)
  {
    var first := After1(b, dt, now, root);
    EdgeTickPins(b, dt, now, j, root);
    QuietSteps(first, between, root);
    UnpinnedTickHolds(From(first, between, root), dt', now', j, root);
  }

  lemma {:induction false} AfterConcat(run: seq<Step>, steps: seq<Step>, root: real -> real)
    ensures After(run + steps, root) == From(After(run, root), steps, root)
  {
    if steps == [] {
      assert run + steps == run;
    } else {
      assert (run + steps)[..|run + steps| - 1] == run + steps[..|steps| - 1];
      AfterConcat(run, steps[..|steps| - 1], root);
    }
  }

  lemma AfterTick(run: seq<Step>, dt: Tick, now: real, root: real -> real)
    ensures After(run + [Stream(dt, now)], root) == After1(After(run, root), dt, now, root)
  {
    assert (run + [Stream(dt, now)])[..|run|] == run;
  }

  /** The same anywhere in any run from the start: `run`, the edge tick, what falls in between, and
      the first tick off the edge. */
  lemma LeavingEdgeInARun(run: seq<Step>, dt: Tick, now: real, between: seq<Step>, dt': Tick, now': real, j: Joint,
                          root: real -> real)
    requires forall i :: 0 <= i < |between| ==> Quiet(between[i])
    requires LeavesEdge(After(run, root), now, After(run + [Stream(dt, now)] + between, root), now', j)
    ensures var edge, last := After(run + [Stream(dt, now)], root),
                              After(run + [Stream(dt, now)] + between + [Stream(dt', now')], root);
            JointMotion(last, j) == Motion(edge.target[j], 0.0, 0.0)
  {
    AfterTick(run, dt, now, root);
    AfterConcat(run + [Stream(dt, now)], between, root);
    AfterTick(run + [Stream(dt, now)] + between, dt', now', root);
    LeavingEdgeIsSeamless(After(run, root), dt, now, between, dt', now', j, root);
  }

  // ---- arming over runs ---------------------------------------------------------------------------

  function Sent(run: seq<Step>, k: nat, root: real -> real): Option<Packet>
    requires k < |run|
  {
    Next(After(run[..k], root), run[k], root).1
  }

  lemma AfterStep(run: seq<Step>, k: nat, root: real -> real)
    requires k < |run|
    ensures After(run[..k + 1], root) == Next(After(run[..k], root), run[k], root).0
  {
    assert run[..k + 1][..k] == run[..k];
  }

  /** Only an accepted press of Arm arms, and nothing is sent before. */
  lemma OnlyArmArms(b: Client, s: Step, root: real -> real)
    requires Safe(b) && !b.armed
    ensures Next(b, s, root).0.armed <==> s == PressArm && b.connected && b.bound && b.selected.Some?
    ensures Next(b, s, root).1 == None
  {
  }

  ghost predicate ArmedSince(run: seq<Step>, i: nat, k: nat, root: real -> real)
    requires i < k <= |run|
  {
    && run[i] == PressArm && CanArm(After(run[..i], root))
    && forall m {:trigger run[..m]} :: i < m <= k ==> After(run[..m], root).armed
  }

  lemma ArmedLonger(run: seq<Step>, i: nat, k: nat, root: real -> real)
    requires i < k < |run| && ArmedSince(run, i, k, root) && After(run[..k + 1], root).armed
    ensures ArmedSince(run, i, k + 1, root)
  {
  }

  lemma ArmedFresh(run: seq<Step>, k: nat, root: real -> real)
    requires k < |run| && !After(run[..k], root).armed && After(run[..k + 1], root).armed
    ensures ArmedSince(run, k, k + 1, root)
  {
    AfterStep(run, k, root);
    OnlyArmArms(After(run[..k], root), run[k], root);
  }

  lemma {:induction false} ArmedHasCause(run: seq<Step>, k: nat, root: real -> real)
    requires k <= |run| && After(run[..k], root).armed
    ensures exists i: nat :: i < k && ArmedSince(run, i, k, root)
    decreases k
  {
    if k > 0 {
      var p: nat := k - 1;
      if After(run[..p], root).armed {
        ArmedHasCause(run, p, root);
        var i: nat :| i < p && ArmedSince(run, i, p, root);
        ArmedLonger(run, i, p, root);
      } else {
        ArmedFresh(run, p, root);
      }
    }
  }

  /** A packet leaves only on a tick, under an arming that has lasted since Arm was pressed while
      connected and bound, to the rig now selected, with a frame no older than the timeout. */
  lemma PacketNeedsArming(run: seq<Step>, k: nat, root: real -> real)
    requires k < |run| && Sent(run, k, root).Some?
    ensures exists i: nat :: i < k && ArmedSince(run, i, k, root)
    ensures var b := After(run[..k], root);
            && run[k].Stream? && Alive(b, run[k].now)
            && b.connected && b.bound && b.selected == Some(Sent(run, k, root).value.rig)
            && After(run[..k + 1], root).armed
            && Sent(run, k, root).value.joints == After(run[..k + 1], root).target
  {
    AfterStep(run, k, root);
    ArmedHasCause(run, k, root);
  }

  /** However it was disarmed, nothing is sent before the next press of Arm. */
  lemma {:induction false} SilentUntilArmed(run: seq<Step>, i: nat, k: nat, root: real -> real)
    requires i <= k < |run| && !After(run[..i], root).armed
    requires forall m :: i <= m < k ==> run[m] != PressArm
    ensures Sent(run, k, root) == None && !After(run[..k], root).armed
    decreases k
  {
    if i < k {
      SilentUntilArmed(run, i, k - 1, root);
      AfterStep(run, k - 1, root);
      OnlyArmArms(After(run[..k - 1], root), run[k - 1], root);
    }
    OnlyArmArms(After(run[..k], root), run[k], root);
  }
}
