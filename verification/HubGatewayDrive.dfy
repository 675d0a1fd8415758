/**
 When the hub gateway drives: over every run, exactly when it is armed, bound and to which rig, which
 frame it goes by, and hence exactly when it sends.
 */
module HubGatewayDrive {
  import opened Prelude
  import opened Latches
  import opened Clutch
  import opened HubGateway
  import opened HubGatewayRuns

  // ---- what each step does ----------------------------------------------------------------------

  /** A heartbeat answer that ends whatever drive there is. */
  predicate Ends(b: Bridge, command: LinkCommand, bound: bool) {
    command != NoCommand || (b.selected.Some? && !bound)
  }

  /** The rig poll does not list the rig any more. */
  predicate Vanishes(b: Bridge, rigs: map<string, map<Joint, real>>) {
    b.selected.Some? && b.selected.value !in rigs
  }

  /** The frame is older than the timeout when a tick would send by it. */
  predicate Expires(b: Bridge, a: Args, now: real) {
    b.bound && b.selected.Some? && b.latest.Some? && now - b.latest.value.receivedAt > a.timeoutMs / 1000.0
  }

  predicate Arms(b: Bridge, s: Step) {
    s.PressArm? && b.bound && b.selected.Some?
  }

  predicate Disarms(b: Bridge, a: Args, s: Step) {
    match s
    case Stream(_, now) => Expires(b, a, now)
    case LinkReply(command, bound) => Ends(b, command, bound)
    case Telemetry(rigs) => Vanishes(b, rigs)
    case Halt => true
    case ControlError => true
    case InputError => true
    case _ => false
  }

  predicate Selects(s: Step, rig: string) {
    s.LinkReply? && s.command == Drive(rig) && rig != ""
  }

  /** Only a stop, a heartbeat that finds the binding gone, or the drive of another rig lets a rig go. */
  predicate Releases(s: Step) {
    match s
    case LinkReply(command, bound) =>
      (match command
       case Drive(rig) => rig != ""
       case Stop => true
       case NoCommand => !bound)
    case Halt => true
    case _ => false
  }

  predicate Binds(b: Bridge, s: Step) {
    s.LinkReply? && s.bound && match s.command
                               case Drive(rig) => rig != ""
                               case Stop => false
                               case NoCommand => b.selected.Some?
  }

  predicate Unbinds(b: Bridge, s: Step) {
    match s
    case LinkReply(_, _) => true
    case Telemetry(rigs) => Vanishes(b, rigs)
    case Halt => true
    case ControlError => true
    case _ => false
  }

  /** A frame within bounds: every angle at most two turns, the slider on its rail. */
  predicate Plausible(c: Command) {
    && (forall j :: 0 <= j < GRIPPER ==> -4.0 * PI <= c.radians[j] <= 4.0 * PI)
    && 0.0 <= c.gripper <= 1.0
  }

  predicate Accepts(b: Bridge, c: Command) {
    Plausible(c) && c.sequence > b.lastSequence
  }

  predicate Supersedes(b: Bridge, s: Step) {
    match s
    case Pair => true
    case Frame(c) => Accepts(b, c)
    case LinkReply(command, bound) => Ends(b, command, bound)
    case Telemetry(rigs) => Vanishes(b, rigs)
    case Halt => true
    case ControlError => true
    case _ => false
  }

  lemma ArmedStep(b: Bridge, a: Args, s: Step)
    requires Safe(b)
    ensures Next(b, a, s).0.armed <==> Arms(b, s) || (b.armed && !Disarms(b, a, s))
  {
  }

  lemma SelectedStep(b: Bridge, a: Args, s: Step, rig: string)
    requires Safe(b)
    ensures Next(b, a, s).0.selected == Some(rig) <==> Selects(s, rig) || (b.selected == Some(rig) && !Releases(s))
  {
  }

  lemma BoundStep(b: Bridge, a: Args, s: Step)
    requires Safe(b)
    ensures Next(b, a, s).0.bound <==> Binds(b, s) || (b.bound && !Unbinds(b, s))
  {
  }

  lemma LatestStep(b: Bridge, a: Args, s: Step, c: Command)
    requires Safe(b)
    ensures Next(b, a, s).0.latest == Some(c) <==>
              (s == Frame(c) && Accepts(b, c)) || (b.latest == Some(c) && !Supersedes(b, s))
  {
  }

  // ---- over runs -----------------------------------------------------------------------------------

  /** The bridge before step `m`. */
  function Before(a: Args, run: seq<Step>, m: nat): (b: Bridge)
    requires m <= |run|
    ensures Safe(b)
  {
    After(a, run[..m])
  }

  function ArmsAt(a: Args, run: seq<Step>): (at: seq<bool>)
    ensures |at| == |run|
  {
    seq(|run|, m requires 0 <= m < |run| => Arms(Before(a, run, m), run[m]))
  }

  function DisarmsAt(a: Args, run: seq<Step>): (at: seq<bool>)
    ensures |at| == |run|
  {
    seq(|run|, m requires 0 <= m < |run| => Disarms(Before(a, run, m), a, run[m]))
  }

  /** Armed: Arm was pressed on a bound rig, and none of the steps since ends a drive. */
  lemma ArmedExactlyWhen(a: Args, run: seq<Step>, k: nat)
    requires k <= |run|
    ensures Before(a, run, k).armed <==> exists w: nat :: UpSince(ArmsAt(a, run), DisarmsAt(a, run), w, k)
  {
    var levels := seq(|run| + 1, m requires 0 <= m <= |run| => Before(a, run, m).armed);
    forall m: nat | m < |run|
      ensures levels[m + 1] == (ArmsAt(a, run)[m] || (levels[m] && !DisarmsAt(a, run)[m]))
    {
      AfterStep(a, run, m);
      ArmedStep(Before(a, run, m), a, run[m]);
    }
    FlagMeaning(levels, ArmsAt(a, run), DisarmsAt(a, run), k);
  }

  function SelectsAt(a: Args, run: seq<Step>, rig: string): (at: seq<bool>)
    ensures |at| == |run|
  {
    seq(|run|, m requires 0 <= m < |run| => Selects(run[m], rig))
  }

  function ReleasesAt(a: Args, run: seq<Step>, rig: string): (at: seq<bool>)
    ensures |at| == |run|
  {
    seq(|run|, m requires 0 <= m < |run| => Releases(run[m]))
  }

  /** Which rig: the one the last drive order named, unless it was let go since. */
  lemma SelectedExactlyWhen(a: Args, run: seq<Step>, rig: string, k: nat)
    requires k <= |run|
    ensures Before(a, run, k).selected == Some(rig) <==> exists w: nat :: UpSince(SelectsAt(a, run, rig), ReleasesAt(a, run, rig), w, k)
  {
    var levels := seq(|run| + 1, m requires 0 <= m <= |run| => Before(a, run, m).selected == Some(rig));
    forall m: nat | m < |run|
      ensures levels[m + 1] == (SelectsAt(a, run, rig)[m] || (levels[m] && !ReleasesAt(a, run, rig)[m]))
    {
      AfterStep(a, run, m);
      SelectedStep(Before(a, run, m), a, run[m], rig);
    }
    FlagMeaning(levels, SelectsAt(a, run, rig), ReleasesAt(a, run, rig), k);
  }

  function BindsAt(a: Args, run: seq<Step>): (at: seq<bool>)
    ensures |at| == |run|
  {
    seq(|run|, m requires 0 <= m < |run| => Binds(Before(a, run, m), run[m]))
  }

  function UnbindsAt(a: Args, run: seq<Step>): (at: seq<bool>)
    ensures |at| == |run|
  {
    seq(|run|, m requires 0 <= m < |run| => Unbinds(Before(a, run, m), run[m]))
  }

  /** Bound: the last heartbeat answer that counts said so, and nothing broke the link since. */
  lemma BoundExactlyWhen(a: Args, run: seq<Step>, k: nat)
    requires k <= |run|
    ensures Before(a, run, k).bound <==> exists w: nat :: UpSince(BindsAt(a, run), UnbindsAt(a, run), w, k)
  {
    var levels := seq(|run| + 1, m requires 0 <= m <= |run| => Before(a, run, m).bound);
    forall m: nat | m < |run|
      ensures levels[m + 1] == (BindsAt(a, run)[m] || (levels[m] && !UnbindsAt(a, run)[m]))
    {
      AfterStep(a, run, m);
      BoundStep(Before(a, run, m), a, run[m]);
    }
    FlagMeaning(levels, BindsAt(a, run), UnbindsAt(a, run), k);
  }

  function TakesAt(a: Args, run: seq<Step>, c: Command): (at: seq<bool>)
    ensures |at| == |run|
  {
    seq(|run|, m requires 0 <= m < |run| => run[m] == Frame(c) && Accepts(Before(a, run, m), c))
  }

  function SupersedesAt(a: Args, run: seq<Step>, c: Command): (at: seq<bool>)
    ensures |at| == |run|
  {
    seq(|run|, m requires 0 <= m < |run| => Supersedes(Before(a, run, m), run[m]))
  }

  /** Which frame: the last one accepted, unless a new pairing or the end of the drive dropped it. */
  lemma LatestExactlyWhen(a: Args, run: seq<Step>, c: Command, k: nat)
    requires k <= |run|
    ensures Before(a, run, k).latest == Some(c) <==> exists w: nat :: UpSince(TakesAt(a, run, c), SupersedesAt(a, run, c), w, k)
  {
    var levels := seq(|run| + 1, m requires 0 <= m <= |run| => Before(a, run, m).latest == Some(c));
    forall m: nat | m < |run|
      ensures levels[m + 1] == (TakesAt(a, run, c)[m] || (levels[m] && !SupersedesAt(a, run, c)[m]))
    {
      AfterStep(a, run, m);
      LatestStep(Before(a, run, m), a, run[m], c);
    }
    FlagMeaning(levels, TakesAt(a, run, c), SupersedesAt(a, run, c), k);
  }

  // ---- which frames are accepted -----------------------------------------------------------------------

  /** A plausible frame at `w`, and no pairing since. */
  predicate SeenSincePairing(run: seq<Step>, w: nat, k: nat) {
    && w < k <= |run| && run[w].Frame? && Plausible(run[w].c)
    && forall m :: w < m < k ==> run[m] != Pair
  }

  lemma SequenceStep(b: Bridge, a: Args, s: Step)
    requires Safe(b)
    ensures Next(b, a, s).0.lastSequence ==
            if s == Pair then -1
            else if s.Frame? && Plausible(s.c) && s.c.sequence > b.lastSequence then s.c.sequence
            else b.lastSequence
  {
  }

  predicate NewerThan(run: seq<Step>, w: nat, c: Command)
    requires w < |run|
  {
    run[w].Frame? && run[w].c.sequence < c.sequence
  }

  ghost predicate NewerThanSeen(run: seq<Step>, c: Command, k: nat) {
    forall w: nat :: SeenSincePairing(run, w, k) ==> NewerThan(run, w, c)
  }

  lemma NewestNext(run: seq<Step>, c: Command, h: nat)
    requires h < |run|
    ensures NewerThanSeen(run, c, h + 1) <==>
              run[h] == Pair
              || (NewerThanSeen(run, c, h) && (run[h].Frame? && Plausible(run[h].c) ==> NewerThan(run, h, c)))
  {
    assert forall w: nat :: w < h ==> (SeenSincePairing(run, w, h + 1) <==> SeenSincePairing(run, w, h) && run[h] != Pair);
    assert SeenSincePairing(run, h, h + 1) <==> run[h].Frame? && Plausible(run[h].c);
  }

  /** A frame is accepted if and only if it is plausible and newer than every plausible one since the last
      pairing: nothing is replayed, and a lost frame holds nothing up. */
  lemma {:induction false} AcceptedExactlyWhenNewest(a: Args, run: seq<Step>, c: Command, k: nat)
    requires k <= |run|
    ensures Accepts(Before(a, run, k), c) <==>
              && Plausible(c) && c.sequence >= 0
              && NewerThanSeen(run, c, k)
    decreases k
  {
    if k > 0 {
      var h: nat := k - 1;
      AfterStep(a, run, h);
      SequenceStep(Before(a, run, h), a, run[h]);
      AcceptedExactlyWhenNewest(a, run, c, h);
      NewestNext(run, c, h);
    }
  }

  // ---- telemetry ------------------------------------------------------------------------------------------

  /** What the rig poll reports of this joint of the rig then driven, at each step. */
  function ReportsAt(a: Args, run: seq<Step>, j: Joint): (at: seq<Option<real>>)
    ensures |at| == |run|
  {
    seq(|run|, m requires 0 <= m < |run| => Report(Before(a, run, m), run[m], j))
  }

  function Report(b: Bridge, s: Step, j: Joint): Option<real> {
    if s.Telemetry? && b.selected.Some? && b.selected.value in s.rigs && j in s.rigs[b.selected.value]
    then Some(s.rigs[b.selected.value][j]) else None
  }

  lemma ActualStep(b: Bridge, a: Args, s: Step, j: Joint)
    requires Safe(b)
    ensures Next(b, a, s).0.actual[j] == if Report(b, s, j).Some? then Report(b, s, j).value else b.actual[j]
  {
  }

  /** What the gateway takes for the arm's pose is, joint by joint, what the driven rig last reported, and before
      any report the rest pose. */
  lemma ActualIsLastReported(a: Args, run: seq<Step>, k: nat, j: Joint)
    requires k <= |run|
    ensures LastWritten(REST_POSE[j], ReportsAt(a, run, j), k, Before(a, run, k).actual[j])
  {
    var values := seq(|run| + 1, m requires 0 <= m <= |run| => Before(a, run, m).actual[j]);
    var writes := ReportsAt(a, run, j);
    forall m: nat | m < |run|
      ensures values[m + 1] == if writes[m].Some? then writes[m].value else values[m]
    {
      AfterStep(a, run, m);
      ActualStep(Before(a, run, m), a, run[m], j);
    }
    VariableMeaning(values, writes, k);
  }

  // ---- what is sent ----------------------------------------------------------------------------------------

  /** A tick sends exactly when the drive is armed, bound and aimed at a rig by a frame within the timeout, and
      to that rig. */
  lemma SendsExactlyWhen(a: Args, run: seq<Step>, k: nat)
    requires k < |run|
    ensures var b := Before(a, run, k);
            && (Sent(a, run, k).Some? <==>
                  && run[k].Stream? && b.armed && b.bound && b.selected.Some? && b.latest.Some?
                  && run[k].now - b.latest.value.receivedAt <= a.timeoutMs / 1000.0)
            && (Sent(a, run, k).Some? ==> Some(Sent(a, run, k).value.rig) == b.selected)
  {
  }

  /** Arming starts from where the arm is: until the first tick that moves, every packet after an accepted press
      carries the pose the rig had reported when Arm was pressed. */
  lemma ArmingStartsAtTelemetry(a: Args, run: seq<Step>, i: nat, m: nat)
    requires i < m < |run| && Arms(Before(a, run, i), run[i])
    requires StillRun(a, run, i + 1, m + 1) && Sent(a, run, m).Some?
    ensures Sent(a, run, m).value.joints == Before(a, run, i).actual
  {
    AfterStep(a, run, i);
    HoldingResendsTheTarget(a, run, i + 1, m);
  }
}
