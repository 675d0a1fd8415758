/**
 When the local gateway drives: over every run, exactly when it is armed, which frame it goes by, and hence
 exactly when its worker acts.
 */
module LocalGatewayDrive {
  import opened Prelude
  import opened Latches
  import opened Clutch
  import opened LocalGateway
  import opened LocalGatewayRuns

  // ---- what each step does ----------------------------------------------------------------------

  predicate Arms(b: Bridge, s: Step) {
    s.PressArm? && b.ready && !b.faulted
  }

  /** With a clutch engaged, the frame is older than the timeout. */
  predicate Expires(b: Bridge, a: ValidArgs, now: real) {
    (b.armVirtual.Some? || b.gripVirtual.Some?)
    && b.latest.Some? && now - b.latest.value.receivedAt > a.timeoutMs / 1000.0
  }

  predicate Disarms(b: Bridge, a: ValidArgs, s: Step) {
    match s
    case PressStop => true
    case Leave => true
    case Fail => true
    case Compute(_, now) => Expires(b, a, now)
    case _ => false
  }

  /** A frame within bounds: every angle at most two turns, the slider on its rail. */
  predicate Plausible(c: Command) {
    && (forall j :: 0 <= j < GRIPPER ==> -4.0 * PI <= c.radians[j] <= 4.0 * PI)
    && 0.0 <= c.gripper <= 1.0
  }

  predicate Accepts(b: Bridge, c: Command) {
    Plausible(c) && c.sequence > b.lastSequence
  }

  predicate Supersedes(b: Bridge, s: Step) {
    s == Leave || (s.Frame? && Accepts(b, s.c))
  }

  lemma ArmedStep(w: World, a: ValidArgs, s: Step)
    requires Safe(w.b)
    ensures Next(w, a, s).b.armed <==> Arms(w.b, s) || (w.b.armed && !Disarms(w.b, a, s))
  {
  }

  lemma LatestStep(w: World, a: ValidArgs, s: Step, c: Command)
    requires Safe(w.b)
    ensures Next(w, a, s).b.latest == Some(c) <==>
              (s == Frame(c) && Accepts(w.b, c)) || (w.b.latest == Some(c) && !Supersedes(w.b, s))
  {
  }

  // ---- over runs -----------------------------------------------------------------------------------

  /** The gateway before step `m`. */
  function Before(a: ValidArgs, run: seq<Step>, m: nat): (w: World)
    requires m <= |run|
    ensures Inside(w)
  {
    After(a, run[..m])
  }

  lemma AfterStep(a: ValidArgs, run: seq<Step>, m: nat)
    requires m < |run|
    ensures Before(a, run, m + 1) == Next(Before(a, run, m), a, run[m])
  {
    assert run[..m + 1] == run[..m] + [run[m]];
    AfterOne(a, run[..m], run[m]);
  }

  function ArmsAt(a: ValidArgs, run: seq<Step>): (at: seq<bool>)
    ensures |at| == |run|
  {
    seq(|run|, m requires 0 <= m < |run| => Arms(Before(a, run, m).b, run[m]))
  }

  function DisarmsAt(a: ValidArgs, run: seq<Step>): (at: seq<bool>)
    ensures |at| == |run|
  {
    seq(|run|, m requires 0 <= m < |run| => Disarms(Before(a, run, m).b, a, run[m]))
  }

  /** Armed: Arm was pressed on a robot that is ready, and since then nobody stopped or left, the robot did not
      fail, and no frame expired under an engaged clutch. */
  lemma ArmedExactlyWhen(a: ValidArgs, run: seq<Step>, k: nat)
    requires k <= |run|
    ensures Before(a, run, k).b.armed <==> exists w: nat :: UpSince(ArmsAt(a, run), DisarmsAt(a, run), w, k)
  {
    var levels := seq(|run| + 1, m requires 0 <= m <= |run| => Before(a, run, m).b.armed);
    forall m: nat | m < |run|
      ensures levels[m + 1] == (ArmsAt(a, run)[m] || (levels[m] && !DisarmsAt(a, run)[m]))
    {
      AfterStep(a, run, m);
      ArmedStep(Before(a, run, m), a, run[m]);
    }
    FlagMeaning(levels, ArmsAt(a, run), DisarmsAt(a, run), k);
  }

  lemma ReadyStep(w: World, a: ValidArgs, s: Step)
    requires Safe(w.b)
    ensures var b := Next(w, a, s).b;
            && (b.ready <==> s == Ready || (w.b.ready && s != Fail))
            && (b.faulted <==> s == Fail || w.b.faulted)
  {
  }

  /** A fault is final: whatever follows, nothing arms the gateway again. */
  lemma {:induction false} FaultIsFinal(a: ValidArgs, run: seq<Step>, w: nat, k: nat)
    requires w < k <= |run| && run[w] == Fail
    ensures Before(a, run, k).b.faulted && !Before(a, run, k).b.armed
    decreases k
  {
    var h: nat := k - 1;
    if w < h {
      FaultIsFinal(a, run, w, h);
    }
    AfterStep(a, run, h);
    ReadyStep(Before(a, run, h), a, run[h]);
  }

  function TakesAt(a: ValidArgs, run: seq<Step>, c: Command): (at: seq<bool>)
    ensures |at| == |run|
  {
    seq(|run|, m requires 0 <= m < |run| => run[m] == Frame(c) && Accepts(Before(a, run, m).b, c))
  }

  function SupersedesAt(a: ValidArgs, run: seq<Step>): (at: seq<bool>)
    ensures |at| == |run|
  {
    seq(|run|, m requires 0 <= m < |run| => Supersedes(Before(a, run, m).b, run[m]))
  }

  /** Which frame: the last one accepted since the headset connected. */
  lemma LatestExactlyWhen(a: ValidArgs, run: seq<Step>, c: Command, k: nat)
    requires k <= |run|
    ensures Before(a, run, k).b.latest == Some(c) <==> exists w: nat :: UpSince(TakesAt(a, run, c), SupersedesAt(a, run), w, k)
  {
    var levels := seq(|run| + 1, m requires 0 <= m <= |run| => Before(a, run, m).b.latest == Some(c));
    forall m: nat | m < |run|
      ensures levels[m + 1] == (TakesAt(a, run, c)[m] || (levels[m] && !SupersedesAt(a, run)[m]))
    {
      AfterStep(a, run, m);
      LatestStep(Before(a, run, m), a, run[m], c);
    }
    FlagMeaning(levels, TakesAt(a, run, c), SupersedesAt(a, run), k);
  }

  // ---- which frames are accepted -----------------------------------------------------------------------

  /** A plausible frame at `w`, of the headset still connected. */
  predicate SeenSinceConnecting(run: seq<Step>, w: nat, k: nat) {
    && w < k <= |run| && run[w].Frame? && Plausible(run[w].c)
    && forall m :: w < m < k ==> run[m] != Leave
  }

  lemma SequenceStep(w: World, a: ValidArgs, s: Step)
    requires Safe(w.b)
    ensures Next(w, a, s).b.lastSequence ==
            if s == Leave then -1
            else if s.Frame? && Plausible(s.c) && s.c.sequence > w.b.lastSequence then s.c.sequence
            else w.b.lastSequence
  {
  }

  predicate NewerThan(run: seq<Step>, w: nat, c: Command)
    requires w < |run|
  {
    run[w].Frame? && run[w].c.sequence < c.sequence
  }

  ghost predicate NewerThanSeen(run: seq<Step>, c: Command, k: nat) {
    forall w: nat :: SeenSinceConnecting(run, w, k) ==> NewerThan(run, w, c)
  }

  lemma NewestNext(run: seq<Step>, c: Command, h: nat)
    requires h < |run|
    ensures NewerThanSeen(run, c, h + 1) <==>
              run[h] == Leave
              || (NewerThanSeen(run, c, h) && (run[h].Frame? && Plausible(run[h].c) ==> NewerThan(run, h, c)))
  {
    assert forall w: nat :: w < h ==> (SeenSinceConnecting(run, w, h + 1) <==> SeenSinceConnecting(run, w, h) && run[h] != Leave);
    assert SeenSinceConnecting(run, h, h + 1) <==> run[h].Frame? && Plausible(run[h].c);
  }

  /** A frame is accepted if and only if it is plausible and newer than every plausible one of this connection. */
  lemma {:induction false} AcceptedExactlyWhenNewest(a: ValidArgs, run: seq<Step>, c: Command, k: nat)
    requires k <= |run|
    ensures Accepts(Before(a, run, k).b, c) <==>
              && Plausible(c) && c.sequence >= 0
              && NewerThanSeen(run, c, k)
    decreases k
  {
    if k > 0 {
      var h: nat := k - 1;
      AfterStep(a, run, h);
      SequenceStep(Before(a, run, h), a, run[h]);
      AcceptedExactlyWhenNewest(a, run, c, h);
      NewestNext(run, c, h);
    }
  }

  // ---- what the worker does ---------------------------------------------------------------------------------

  /** The worker acts on a turn exactly when armed with a frame that asks for motion and has not expired; it then
      acts on the new target. */
  lemma ActsExactlyWhen(a: ValidArgs, run: seq<Step>, k: nat)
    requires k < |run| && run[k].Compute?
    ensures var b, r := Before(a, run, k).b, Before(a, run, k + 1);
            && (r.pending.Some? <==>
                  && b.armed && b.latest.Some? && !Expires(b, a, run[k].now)
                  && (b.latest.value.armActive || b.latest.value.gripperActive))
            && (r.pending.Some? ==> r.pending.value == r.b.target)
            && (r.pending.None? ==> r.b.target == b.target)
  {
    AfterStep(a, run, k);
  }

  /** Arming takes the measured pose for the target and engages nothing; after a turn of an armed worker with an
      unexpired frame a clutch is engaged exactly when its control is active, and newly engaged it starts at the
      hand's pose and the measured one. */
  lemma ClutchesFollowTheHand(a: ValidArgs, run: seq<Step>, k: nat, j: Joint)
    requires k < |run|
    ensures var b, r := Before(a, run, k).b, Before(a, run, k + 1).b;
            && (Arms(b, run[k]) ==> r.target == b.actual && r.armVirtual.None? && r.gripVirtual.None?)
            && (run[k].Compute? && b.armed && b.latest.Some? && !Expires(b, a, run[k].now) ==>
                  var c := b.latest.value;
                  && (r.armVirtual.Some? <==> c.armActive) && (r.gripVirtual.Some? <==> c.gripperActive)
                  && (c.armActive && b.armVirtual.None? && j != GRIPPER ==>
                        r.armVirtual.value[j] == c.radians[j] && r.armPhysical.value[j] == b.actual[j])
                  && (c.gripperActive && b.gripVirtual.None? ==>
                        r.gripVirtual.value == c.gripper && r.gripPhysical.value == b.actual[GRIPPER]))
  {
    AfterStep(a, run, k);
  }
}
