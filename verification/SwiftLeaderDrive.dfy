/**
 When the headset client drives: over every run, exactly when it is connected, armed, bound and to which
 rig, which frame it goes by, and hence exactly when it sends.
 */
module SwiftLeaderDrive {
  import opened Prelude
  import opened Latches
  import opened Clutch
  import opened SwiftLeader
  import opened SwiftLeaderRuns

  // ---- what each step does ----------------------------------------------------------------------

  /** A heartbeat answer that ends whatever drive there is. */
  predicate Ends(b: Client, order: LinkCommand, bound: bool) {
    order != NoCommand || (b.selected.Some? && !bound)
  }

  /** The frame is older than half a second when a tick would send by it. */
  predicate Expires(b: Client, now: real) {
    b.bound && b.selected.Some? && b.latest.Some? && now - b.latest.value.receivedAt > 0.5
  }

  predicate Arms(b: Client, s: Step) {
    s.PressArm? && b.connected && b.bound && b.selected.Some?
  }

  predicate Disarms(b: Client, s: Step) {
    match s
    case Stream(_, now) => Expires(b, now)
    case LinkReply(order, bound) => Ends(b, order, bound)
    case Connect => true
    case Leave => true
    case PressStop => true
    case LinkFailure => true
    case _ => false
  }

  predicate Selects(s: Step, rig: string) {
    s.LinkReply? && s.order == Drive(rig) && rig != ""
  }

  /** Only a stop from the hub, a heartbeat that finds the binding gone, the drive of another rig or a change of
      connection lets a rig go. */
  predicate Releases(s: Step) {
    match s
    case LinkReply(order, bound) =>
      (match order
       case Drive(rig) => rig != ""
       case Stop => true
       case NoCommand => !bound)
    case Connect => true
    case Leave => true
    case _ => false
  }

  predicate Binds(b: Client, s: Step) {
    s.LinkReply? && s.bound && match s.order
                               case Drive(rig) => rig != ""
                               case Stop => false
                               case NoCommand => b.selected.Some?
  }

  predicate Unbinds(s: Step) {
    s.LinkReply? || s.Connect? || s.Leave? || s.LinkFailure?
  }

  predicate Takes(b: Client, s: Step, sample: Sample) {
    b.connected && s == Publish(sample.command, sample.receivedAt)
  }

  predicate Supersedes(b: Client, s: Step) {
    match s
    case Publish(_, _) => b.connected
    case LinkReply(order, bound) => Ends(b, order, bound)
    case Connect => true
    case Leave => true
    case PressStop => true
    case LinkFailure => true
    case _ => false
  }

  lemma ArmedStep(b: Client, s: Step, root: real -> real)
    requires Safe(b)
    ensures Next(b, s, root).0.armed <==> Arms(b, s) || (b.armed && !Disarms(b, s))
  {
  }

  lemma SelectedStep(b: Client, s: Step, root: real -> real, rig: string)
    requires Safe(b)
    ensures Next(b, s, root).0.selected == Some(rig) <==> Selects(s, rig) || (b.selected == Some(rig) && !Releases(s))
  {
  }

  lemma BoundStep(b: Client, s: Step, root: real -> real)
    requires Safe(b)
    ensures Next(b, s, root).0.bound <==> Binds(b, s) || (b.bound && !Unbinds(s))
  {
  }

  lemma LatestStep(b: Client, s: Step, root: real -> real, sample: Sample)
    requires Safe(b)
    ensures Next(b, s, root).0.latest == Some(sample) <==>
              Takes(b, s, sample) || (b.latest == Some(sample) && !Supersedes(b, s))
  {
  }

  lemma ConnectedStep(b: Client, s: Step, root: real -> real)
    requires Safe(b)
    ensures Next(b, s, root).0.connected <==> s == Connect || (b.connected && s != Leave)
  {
  }

  // ---- over runs -----------------------------------------------------------------------------------

  /** The client before step `m`. */
  function Before(run: seq<Step>, m: nat, root: real -> real): (b: Client)
    requires m <= |run|
    ensures Safe(b)
  {
    After(run[..m], root)
  }

  function ConnectsAt(run: seq<Step>, root: real -> real): (at: seq<bool>)
    ensures |at| == |run|
  {
    seq(|run|, m requires 0 <= m < |run| => (run[m] == Connect))
  }

  function LeavesAt(run: seq<Step>, root: real -> real): (at: seq<bool>)
    ensures |at| == |run|
  {
    seq(|run|, m requires 0 <= m < |run| => (run[m] == Leave))
  }

  /** Connected: the operator connected and has not left since. */
  lemma ConnectedExactlyWhen(run: seq<Step>, root: real -> real, k: nat)
    requires k <= |run|
    ensures Before(run, k, root).connected <==> exists w: nat :: UpSince(ConnectsAt(run, root), LeavesAt(run, root), w, k)
  {
    var levels := seq(|run| + 1, m requires 0 <= m <= |run| => Before(run, m, root).connected);
    forall m: nat | m < |run|
      ensures levels[m + 1] == (ConnectsAt(run, root)[m] || (levels[m] && !LeavesAt(run, root)[m]))
    {
      AfterStep(run, m, root);
      ConnectedStep(Before(run, m, root), run[m], root);
    }
    FlagMeaning(levels, ConnectsAt(run, root), LeavesAt(run, root), k);
  }

  function ArmsAt(run: seq<Step>, root: real -> real): (at: seq<bool>)
    ensures |at| == |run|
  {
    seq(|run|, m requires 0 <= m < |run| => Arms(Before(run, m, root), run[m]))
  }

  function DisarmsAt(run: seq<Step>, root: real -> real): (at: seq<bool>)
    ensures |at| == |run|
  {
    seq(|run|, m requires 0 <= m < |run| => Disarms(Before(run, m, root), run[m]))
  }

  /** Armed: Arm was pressed while connected and bound to a rig, and none of the steps since ends a drive. */
  lemma ArmedExactlyWhen(run: seq<Step>, root: real -> real, k: nat)
    requires k <= |run|
    ensures Before(run, k, root).armed <==> exists w: nat :: UpSince(ArmsAt(run, root), DisarmsAt(run, root), w, k)
  {
    var levels := seq(|run| + 1, m requires 0 <= m <= |run| => Before(run, m, root).armed);
    forall m: nat | m < |run|
      ensures levels[m + 1] == (ArmsAt(run, root)[m] || (levels[m] && !DisarmsAt(run, root)[m]))
    {
      AfterStep(run, m, root);
      ArmedStep(Before(run, m, root), run[m], root);
    }
    FlagMeaning(levels, ArmsAt(run, root), DisarmsAt(run, root), k);
  }

  function SelectsAt(run: seq<Step>, root: real -> real, rig: string): (at: seq<bool>)
    ensures |at| == |run|
  {
    seq(|run|, m requires 0 <= m < |run| => Selects(run[m], rig))
  }

  function ReleasesAt(run: seq<Step>, root: real -> real, rig: string): (at: seq<bool>)
    ensures |at| == |run|
  {
    seq(|run|, m requires 0 <= m < |run| => Releases(run[m]))
  }

  /** Which rig: the one the last drive order named, unless it was let go since. */
  lemma SelectedExactlyWhen(run: seq<Step>, root: real -> real, rig: string, k: nat)
    requires k <= |run|
    ensures Before(run, k, root).selected == Some(rig) <==> exists w: nat :: UpSince(SelectsAt(run, root, rig), ReleasesAt(run, root, rig), w, k)
  {
    var levels := seq(|run| + 1, m requires 0 <= m <= |run| => Before(run, m, root).selected == Some(rig));
    forall m: nat | m < |run|
      ensures levels[m + 1] == (SelectsAt(run, root, rig)[m] || (levels[m] && !ReleasesAt(run, root, rig)[m]))
    {
      AfterStep(run, m, root);
      SelectedStep(Before(run, m, root), run[m], root, rig);
    }
    FlagMeaning(levels, SelectsAt(run, root, rig), ReleasesAt(run, root, rig), k);
  }

  function BindsAt(run: seq<Step>, root: real -> real): (at: seq<bool>)
    ensures |at| == |run|
  {
    seq(|run|, m requires 0 <= m < |run| => Binds(Before(run, m, root), run[m]))
  }

  function UnbindsAt(run: seq<Step>, root: real -> real): (at: seq<bool>)
    ensures |at| == |run|
  {
    seq(|run|, m requires 0 <= m < |run| => Unbinds(run[m]))
  }

  /** Bound: the last heartbeat answer said so, and nothing broke the link since. */
  lemma BoundExactlyWhen(run: seq<Step>, root: real -> real, k: nat)
    requires k <= |run|
    ensures Before(run, k, root).bound <==> exists w: nat :: UpSince(BindsAt(run, root), UnbindsAt(run, root), w, k)
  {
    var levels := seq(|run| + 1, m requires 0 <= m <= |run| => Before(run, m, root).bound);
    forall m: nat | m < |run|
      ensures levels[m + 1] == (BindsAt(run, root)[m] || (levels[m] && !UnbindsAt(run, root)[m]))
    {
      AfterStep(run, m, root);
      BoundStep(Before(run, m, root), run[m], root);
    }
    FlagMeaning(levels, BindsAt(run, root), UnbindsAt(run, root), k);
  }

  function TakesAt(run: seq<Step>, root: real -> real, sample: Sample): (at: seq<bool>)
    ensures |at| == |run|
  {
    seq(|run|, m requires 0 <= m < |run| => Takes(Before(run, m, root), run[m], sample))
  }

  function SupersedesAt(run: seq<Step>, root: real -> real, sample: Sample): (at: seq<bool>)
    ensures |at| == |run|
  {
    seq(|run|, m requires 0 <= m < |run| => Supersedes(Before(run, m, root), run[m]))
  }

  lemma LatestAt(run: seq<Step>, root: real -> real, sample: Sample, m: nat)
    requires m < |run|
    ensures Before(run, m + 1, root).latest == Some(sample) <==>
              Takes(Before(run, m, root), run[m], sample)
              || (Before(run, m, root).latest == Some(sample) && !Supersedes(Before(run, m, root), run[m]))
  {
    AfterStep(run, m, root);
    LatestStep(Before(run, m, root), run[m], root, sample);
  }

  /** Which frame: the last one published while connected, unless the end of the drive dropped it. */
  lemma LatestExactlyWhen(run: seq<Step>, root: real -> real, sample: Sample, k: nat)
    requires k <= |run|
    ensures Before(run, k, root).latest == Some(sample) <==> exists w: nat :: UpSince(TakesAt(run, root, sample), SupersedesAt(run, root, sample), w, k)
  {
    var levels := seq(|run| + 1, m requires 0 <= m <= |run| => Before(run, m, root).latest == Some(sample));
    forall m: nat | m < |run|
      ensures levels[m + 1] == (TakesAt(run, root, sample)[m] || (levels[m] && !SupersedesAt(run, root, sample)[m]))
    {
      LatestAt(run, root, sample, m);
    }
    FlagMeaning(levels, TakesAt(run, root, sample), SupersedesAt(run, root, sample), k);
  }

  // ---- telemetry ------------------------------------------------------------------------------------------

  /** What telemetry reports of this joint at each step, while a rig is selected. */
  function ReportsAt(run: seq<Step>, root: real -> real, j: Joint): (at: seq<Option<real>>)
    ensures |at| == |run|
  {
    seq(|run|, m requires 0 <= m < |run| => Report(Before(run, m, root), run[m], j))
  }

  function Report(b: Client, s: Step, j: Joint): Option<real> {
    if s.Telemetry? && b.selected.Some? && j in s.joints then Some(s.joints[j]) else None
  }

  lemma ActualStep(b: Client, s: Step, root: real -> real, j: Joint)
    requires Safe(b)
    ensures Next(b, s, root).0.actual[j] == if Report(b, s, j).Some? then Report(b, s, j).value else b.actual[j]
  {
  }

  lemma ActualAt(run: seq<Step>, root: real -> real, j: Joint, m: nat)
    requires m < |run|
    ensures var report := Report(Before(run, m, root), run[m], j);
            Before(run, m + 1, root).actual[j] == if report.Some? then report.value else Before(run, m, root).actual[j]
  {
    AfterStep(run, m, root);
    ActualStep(Before(run, m, root), run[m], root, j);
  }

  /** What the client takes for the arm's pose is, joint by joint, what was last reported of a selected rig, and
      before any report the rest pose. */
  lemma ActualIsLastReported(run: seq<Step>, k: nat, root: real -> real, j: Joint)
    requires k <= |run|
    ensures LastWritten(REST_POSE[j], ReportsAt(run, root, j), k, Before(run, k, root).actual[j])
  {
    var values := seq(|run| + 1, m requires 0 <= m <= |run| => Before(run, m, root).actual[j]);
    var writes := ReportsAt(run, root, j);
    forall m: nat | m < |run|
      ensures values[m + 1] == if writes[m].Some? then writes[m].value else values[m]
    {
      ActualAt(run, root, j, m);
    }
    VariableMeaning(values, writes, k);
  }

  /** An unarmed client's target goes with the telemetry it takes; an armed one's does not. */
  lemma TelemetryMovesTheIdleTarget(b: Client, joints: map<Joint, real>, root: real -> real)
    requires Safe(b) && b.selected.Some? && joints != map[]
    ensures var r := Next(b, Telemetry(joints), root).0; r.target == if b.armed then b.target else r.actual
  {
  }

  // ---- what is sent ----------------------------------------------------------------------------------------

  /** A tick sends exactly when the drive is armed, bound and aimed at a rig by a frame no older than half a
      second, and to that rig. */
  lemma SendsExactlyWhen(run: seq<Step>, k: nat, root: real -> real)
    requires k < |run|
    ensures var b := Before(run, k, root);
            && (Sent(run, k, root).Some? <==>
                  && run[k].Stream? && b.armed && b.bound && b.selected.Some? && b.latest.Some?
                  && run[k].now - b.latest.value.receivedAt <= 0.5)
            && (Sent(run, k, root).Some? ==> Some(Sent(run, k, root).value.rig) == b.selected)
  {
  }

  /** Steps under which an armed drive only holds. */
  predicate HoldsStill(b: Client, s: Step) {
    if s.Stream? then !Moves(b, s.now) else b.armed && Quiet(s)
  }

  ghost predicate StillRun(run: seq<Step>, i: nat, k: nat, root: real -> real) {
    i <= k <= |run| && forall m: nat :: i <= m < k ==> HoldsStill(Before(run, m, root), run[m])
  }

  lemma HoldStep(b: Client, s: Step, root: real -> real)
    requires Safe(b) && HoldsStill(b, s)
    ensures var (r, packet) := Next(b, s, root); r.target == b.target && (packet.Some? ==> packet.value.joints == b.target)
  {
  }

  lemma {:induction false} HoldingKeepsTheTarget(run: seq<Step>, i: nat, k: nat, root: real -> real)
    requires StillRun(run, i, k, root)
    ensures Before(run, k, root).target == Before(run, i, root).target
    decreases k
  {
    if i < k {
      var h: nat := k - 1;
      HoldingKeepsTheTarget(run, i, h, root);
      AfterStep(run, h, root);
      HoldStep(Before(run, h, root), run[h], root);
    }
  }

  /** Arming starts from where the arm is: until the first tick that moves, every packet after an accepted press
      carries the pose the rig had reported when Arm was pressed. */
  lemma ArmingStartsAtTelemetry(run: seq<Step>, i: nat, m: nat, root: real -> real)
    requires i < m < |run| && Arms(Before(run, i, root), run[i])
    requires StillRun(run, i + 1, m + 1, root) && Sent(run, m, root).Some?
    ensures Sent(run, m, root).value.joints == Before(run, i, root).actual
  {
    AfterStep(run, i, root);
    assert StillRun(run, i + 1, m, root);
    HoldingKeepsTheTarget(run, i + 1, m, root);
    HoldStep(Before(run, m, root), run[m], root);
  }

  // ---- the move to neutral -----------------------------------------------------------------------------------

  /** The operator asks for the calibrated neutral pose while armed. */
  predicate AsksNeutral(b: Client, s: Step) {
    s == RequestNeutral && b.armed
  }

  /** A live hand takes over, or telemetry has every body joint within a degree and a half of zero. */
  predicate NeutralOver(b: Client, now: real)
    requires b.latest.Some?
  {
    var age, c := now - b.latest.value.receivedAt, b.latest.value.command;
    || (age <= 0.12 && (c.armActive || c.gripperActive))
    || forall j :: 0 <= j < GRIPPER ==> -1.5 < b.actual[j] < 1.5
  }

  predicate DropsNeutral(b: Client, s: Step) {
    match s
    case Stream(_, now) => b.bound && b.selected.Some? && b.latest.Some? && (Expires(b, now) || NeutralOver(b, now))
    case LinkReply(order, bound) => Ends(b, order, bound)
    case PressArm => Arms(b, s)
    case Connect => true
    case Leave => true
    case PressStop => true
    case LinkFailure => true
    case _ => false
  }

  lemma NeutralStep(b: Client, s: Step, root: real -> real)
    requires Safe(b)
    ensures Next(b, s, root).0.neutral <==> AsksNeutral(b, s) || (b.neutral && !DropsNeutral(b, s))
  {
  }

  function AsksNeutralAt(run: seq<Step>, root: real -> real): (at: seq<bool>)
    ensures |at| == |run|
  {
    seq(|run|, m requires 0 <= m < |run| => AsksNeutral(Before(run, m, root), run[m]))
  }

  function DropsNeutralAt(run: seq<Step>, root: real -> real): (at: seq<bool>)
    ensures |at| == |run|
  {
    seq(|run|, m requires 0 <= m < |run| => DropsNeutral(Before(run, m, root), run[m]))
  }

  /** A move to neutral is on: asked for while armed, and since then neither reached, nor taken over by the hand, nor
      ended with the drive. */
  lemma NeutralExactlyWhen(run: seq<Step>, root: real -> real, k: nat)
    requires k <= |run|
    ensures Before(run, k, root).neutral <==> exists w: nat :: UpSince(AsksNeutralAt(run, root), DropsNeutralAt(run, root), w, k)
  {
    var levels := seq(|run| + 1, m requires 0 <= m <= |run| => Before(run, m, root).neutral);
    forall m: nat | m < |run|
      ensures levels[m + 1] == (AsksNeutralAt(run, root)[m] || (levels[m] && !DropsNeutralAt(run, root)[m]))
    {
      AfterStep(run, m, root);
      NeutralStep(Before(run, m, root), run[m], root);
    }
    FlagMeaning(levels, AsksNeutralAt(run, root), DropsNeutralAt(run, root), k);
  }

  /** It never drops what the gripper holds: while the arm goes home the gripper's target stays. */
  lemma NeutralKeepsTheGripper(b: Client, dt: Tick, now: real, root: real -> real)
    requires Safe(b) && Moves(b, now) && b.neutral && !NeutralOver(b, now) && Placed(b, GRIPPER)
    ensures JointMotion(NextInput(b, dt, now, root).0, GRIPPER) == Motion(b.target[GRIPPER], 0.0, 0.0)
  {
    TickMotion(b, dt, now, GRIPPER, root);
    NothingAskedNothingMoves(JointMotion(b, GRIPPER), b.actual[GRIPPER], dt, GRIPPER, root);
  }

  // ---- engaging and releasing ----------------------------------------------------------------------------------

  /** After a tick that sends with no move to neutral on, a clutch is engaged exactly when its control is active in
      a frame no older than 0.12 s; newly engaged, it starts at the hand's pose and the target. */
  lemma ClutchesFollowTheHand(b: Client, dt: Tick, now: real, j: Joint, root: real -> real)
    requires Safe(b) && Alive(b, now) && !b.neutral
    ensures var r, c := NextInput(b, dt, now, root).0, b.latest.value.command;
            var live := now - b.latest.value.receivedAt <= 0.12;
            && (r.armVirtual.Some? <==> live && c.armActive) && (r.gripVirtual.Some? <==> live && c.gripperActive)
            && (live && c.armActive && b.armVirtual.None? && j != GRIPPER && c.saturation[j] !in {-1, 1} ==>
                  r.armVirtual.value[j] == c.radians[j] && r.armPhysical.value[j] == b.target[j])
            && (live && c.gripperActive && b.gripVirtual.None? && c.saturation[GRIPPER] !in {-1, 1} ==>
                  r.gripVirtual.value == c.gripper && r.gripPhysical.value == b.target[GRIPPER])
  {
  }
}
