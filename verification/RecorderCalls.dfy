/**
 A record session in terms of the control calls themselves: what pressing keep, redo, finish or
 discard does to the take it interrupts and to the session, however the two threads interleave.
 */
module RecorderCalls {
  import opened Prelude
  import opened Latches
  import opened Recorder
  import opened RecorderRuns

  // ---- the writes of a call ---------------------------------------------------------------------

  /** Step `p` is the press that begins call number `call`. */
  predicate Begins(states: seq<State>, run: seq<Step>, p: nat, call: nat, action: Action) {
    p < |run| < |states| && run[p] == Press(action) && |states[p].calls| == call
  }

  /** How often call `call` was scheduled to write at the steps after `p` and before `k`. */
  function WriteCount(run: seq<Step>, p: nat, k: nat, call: nat): nat
    requires p < k <= |run|
    decreases k
  {
    if k == p + 1 then 0 else WriteCount(run, p, k - 1, call) + if run[k - 1] == Write(call) then 1 else 0
  }

  function Rest<T>(s: seq<T>, d: nat): seq<T> {
    if d < |s| then s[d..] else []
  }

  lemma RestOfRest<T>(s: seq<T>, d: nat)
    ensures Rest(Rest(s, d), 1) == Rest(s, d + 1)
  {
    if d + 1 < |s| {
      assert s[d..][1..] == s[d + 1..];
    }
  }

  lemma CallStep(n: int, s: State, step: Step, call: nat)
    requires call < |s.calls|
    ensures var r := Next(n, s, step);
            call < |r.calls| && r.calls[call] == if step == Write(call) then Rest(s.calls[call], 1) else s.calls[call]
  {
  }

  /** All but the first `d` writes of the call are left. */
  ghost predicate LeftOf(s: State, call: nat, action: Action, d: nat) {
    call < |s.calls| && s.calls[call] == Rest(Writes(action), d)
  }

  lemma LeftStep(n: int, s: State, step: Step, call: nat, action: Action, d: nat)
    requires LeftOf(s, call, action, d)
    ensures LeftOf(Next(n, s, step), call, action, d + if step == Write(call) then 1 else 0)
  {
    CallStep(n, s, step, call);
    RestOfRest(Writes(action), d);
  }

  lemma PressBegins(n: int, s: State, action: Action)
    ensures LeftOf(Next(n, s, Press(action)), |s.calls|, action, 0)
  {
  }

  /** What is left of a call is what it had not written yet. */
  lemma {:induction false} CallProgress(n: int, states: seq<State>, run: seq<Step>, p: nat, k: nat, call: nat, action: Action)
    requires Execution(n, states, run) && Begins(states, run, p, call, action) && p < k <= |run|
    ensures LeftOf(states[k], call, action, WriteCount(run, p, k, call))
    decreases k
  {
    var h: nat := k - 1;
    assert states[h + 1] == Next(n, states[h], run[h]);
    if p < h {
      CallProgress(n, states, run, p, h, call, action);
      LeftStep(n, states[h], run[h], call, action, WriteCount(run, p, h, call));
    } else {
      PressBegins(n, states[h], action);
    }
  }

  /** Every call was begun by a press. */
  lemma {:induction false} CallHasPress(n: int, states: seq<State>, run: seq<Step>, k: nat, call: nat)
    requires Execution(n, states, run) && k <= |run| && call < |states[k].calls|
    ensures exists p: nat, action :: p < k && Begins(states, run, p, call, action)
    decreases k
  {
    if k > 0 {
      var h: nat := k - 1;
      assert states[h + 1] == Next(n, states[h], run[h]);
      if call < |states[h].calls| {
        CallHasPress(n, states, run, h, call);
      } else {
        assert Begins(states, run, h, call, run[h].action);
      }
    }
  }

  /** Step `w` is write number `d`, counted from 0, of the call that the press of `action` at `p` began. */
  predicate NthWrite(states: seq<State>, run: seq<Step>, p: nat, w: nat, d: nat, action: Action) {
    && p < w < |run| < |states| && run[w].Write? && Begins(states, run, p, run[w].call, action)
    && WriteCount(run, p, w, run[w].call) == d
  }

  lemma NthWriteRaises(n: int, states: seq<State>, run: seq<Step>, p: nat, w: nat, d: nat, action: Action, f: Flag)
    requires Execution(n, states, run) && NthWrite(states, run, p, w, d, action)
    ensures WritesFlag(states, run, w, f) <==> d < |Writes(action)| && Writes(action)[d] == f
  {
    CallProgress(n, states, run, p, w, run[w].call, action);
  }

  lemma WriteHasPress(n: int, states: seq<State>, run: seq<Step>, w: nat, f: Flag) returns (p: nat, d: nat, action: Action)
    requires Execution(n, states, run) && w < |run| && WritesFlag(states, run, w, f)
    ensures NthWrite(states, run, p, w, d, action) && d < |Writes(action)| && Writes(action)[d] == f
  {
    var call := run[w].call;
    CallHasPress(n, states, run, w, call);
    p, action :| p < w && Begins(states, run, p, call, action);
    d := WriteCount(run, p, w, call);
    NthWriteRaises(n, states, run, p, w, d, action, f);
  }

  /** The first write of a redo or of a discard. */
  ghost predicate RedoWrite(states: seq<State>, run: seq<Step>, w: nat) {
    exists p: nat :: NthWrite(states, run, p, w, 0, Redo) || NthWrite(states, run, p, w, 0, Discard)
  }

  /** The first write of a finish or the second of a discard. */
  ghost predicate StopWrite(states: seq<State>, run: seq<Step>, w: nat) {
    exists p: nat :: NthWrite(states, run, p, w, 0, Finish) || NthWrite(states, run, p, w, 1, Discard)
  }

  /** The last write of any call. */
  ghost predicate ExitWrite(states: seq<State>, run: seq<Step>, w: nat) {
    exists p: nat :: || NthWrite(states, run, p, w, 0, Keep) || NthWrite(states, run, p, w, 1, Redo)
                     || NthWrite(states, run, p, w, 1, Finish) || NthWrite(states, run, p, w, 2, Discard)
  }

  /** What each write of each call raises: the early exit always comes last, behind what it is meant to
      bring about, so that a take cut short by a redo or discard is already marked. */
  lemma EachWriteRaises(n: int, states: seq<State>, run: seq<Step>, w: nat)
    requires Execution(n, states, run) && w < |run|
    ensures WritesFlag(states, run, w, Rerecord) <==> RedoWrite(states, run, w)
    ensures WritesFlag(states, run, w, StopRecording) <==> StopWrite(states, run, w)
    ensures WritesFlag(states, run, w, ExitEarly) <==> ExitWrite(states, run, w)
  {
    forall f | WritesFlag(states, run, w, f)
      ensures Raises(states, run, w, f)
    {
      FlagHasPress(n, states, run, w, f);
    }
    forall f | Raises(states, run, w, f)
      ensures WritesFlag(states, run, w, f)
    {
      PressHasFlag(n, states, run, w, f);
    }
    assert Raises(states, run, w, Rerecord) == RedoWrite(states, run, w);
    assert Raises(states, run, w, StopRecording) == StopWrite(states, run, w);
    assert Raises(states, run, w, ExitEarly) == ExitWrite(states, run, w);
  }

  ghost predicate Raises(states: seq<State>, run: seq<Step>, w: nat, f: Flag) {
    match f
    case Rerecord => RedoWrite(states, run, w)
    case StopRecording => StopWrite(states, run, w)
    case ExitEarly => ExitWrite(states, run, w)
  }

  lemma FlagHasPress(n: int, states: seq<State>, run: seq<Step>, w: nat, f: Flag)
    requires Execution(n, states, run) && w < |run| && WritesFlag(states, run, w, f)
    ensures Raises(states, run, w, f)
  {
    var p, d, action := WriteHasPress(n, states, run, w, f);
    assert d < 3;
  }

  lemma PressHasFlag(n: int, states: seq<State>, run: seq<Step>, w: nat, f: Flag)
    requires Execution(n, states, run) && w < |run| && Raises(states, run, w, f)
    ensures WritesFlag(states, run, w, f)
  {
    var p: nat, d: nat, action :| NthWrite(states, run, p, w, d, action) && d < |Writes(action)| && Writes(action)[d] == f;
    NthWriteRaises(n, states, run, p, w, d, action, f);
  }

  // ---- which takes are dropped --------------------------------------------------------------------------

  /** A take is dropped if and only if, since the last time a take was dropped, some redo or discard call made
      its first write. */
  lemma TakeIsDroppedExactlyWhenPressed(n: int, states: seq<State>, run: seq<Step>, c: nat)
    requires Execution(n, states, run) && c < |run| && run[c] == Advance && states[c].at == CheckRerecord
    ensures states[c + 1].at ==
            if exists w: nat :: w < c && RedoWrite(states, run, w) && forall m :: w < m < c ==> !ClearsRerecord(states, run, m)
            then ClearRerecord else Save
  {
    TakeIsRedoneExactlyWhen(n, states, run, c);
    forall w: nat | w < c
      ensures PendingSince(states, run, w, c)
              <==> RedoWrite(states, run, w) && forall m :: w < m < c ==> !ClearsRerecord(states, run, m)
    {
      EachWriteRaises(n, states, run, w);
    }
  }

  /** A call that has nothing left to write has made every one of its writes. */
  lemma {:induction false} WritesHappen(run: seq<Step>, p: nat, k: nat, call: nat, d: nat) returns (w: nat)
    requires p < k <= |run| && d < WriteCount(run, p, k, call)
    ensures p < w < k && run[w] == Write(call) && WriteCount(run, p, w, call) == d
    decreases k
  {
    if d < WriteCount(run, p, k - 1, call) {
      w := WritesHappen(run, p, k - 1, call, d);
    } else {
      w := k - 1;
    }
  }

  /** The early exit of a redo or a discard never comes before its mark: a take it cuts short is already
      going to be dropped. */
  lemma ExitComesAfterTheMark(n: int, states: seq<State>, run: seq<Step>, p: nat, x: nat, d: nat, action: Action)
    requires Execution(n, states, run) && NthWrite(states, run, p, x, d, action) && action in {Redo, Discard}
    requires WritesFlag(states, run, x, ExitEarly)
    ensures exists w: nat :: p < w < x && run[w] == run[x] && WritesFlag(states, run, w, Rerecord)
  {
    NthWriteRaises(n, states, run, p, x, d, action, ExitEarly);
    var w := WritesHappen(run, p, x, run[x].call, 0);
    NthWriteRaises(n, states, run, p, w, 0, action, Rerecord);
  }

  /** The call begun by the press at `p` is over at `k`. */
  predicate Finished(states: seq<State>, p: nat, k: nat) {
    p < k < |states| && |states[p].calls| < |states[k].calls| && states[k].calls[|states[p].calls|] == []
  }

  lemma FinishedWrote(n: int, states: seq<State>, run: seq<Step>, p: nat, k: nat, action: Action, d: nat) returns (w: nat)
    requires Execution(n, states, run) && p < k <= |run| && run[p] == Press(action) && Finished(states, p, k)
    requires d < |Writes(action)|
    ensures p < w < k && NthWrite(states, run, p, w, d, action) && WritesFlag(states, run, w, Writes(action)[d])
  {
    var call := |states[p].calls|;
    CallProgress(n, states, run, p, k, call, action);
    w := WritesHappen(run, p, k, call, d);
    NthWriteRaises(n, states, run, p, w, d, action, Writes(action)[d]);
  }

  /** From `p` to `k` the recorder is in one take, before its check. */
  ghost predicate WithinTake(states: seq<State>, p: nat, k: nat) {
    p <= k < |states| && forall m :: p <= m <= k ==> states[m].at in {Recording, CheckRerecord}
  }

  /** A take during which a redo or discard was pressed and finished writing never becomes an episode. */
  lemma PressedTakeIsNeverSaved(n: int, states: seq<State>, run: seq<Step>, p: nat, f: nat, k: nat)
    requires Execution(n, states, run) && p < f <= k <= |run| && run[p] in {Press(Redo), Press(Discard)}
    requires Finished(states, p, f) && WithinTake(states, p, f)
    ensures states[f].passes > 0 && states[f].passes - 1 !in states[k].origin
  {
    var w := FinishedWrote(n, states, run, p, f, run[p].action, 0);
    assert PendingSince(states, run, w, f) by {
      assert forall m :: w < m < f ==> states[m].at in {Recording, CheckRerecord};
    }
    DiscardedTakeIsNeverSaved(n, states, run, w, f, k);
  }

  // ---- how a discard ends the session ---------------------------------------------------------------------

  /** On the way out after a discard: both flags up until the take is dropped, the session over before any
      reset pass. */
  ghost predicate Discarding(s: State, passes: nat, episodes: seq<seq<int>>) {
    && s.events.stop && s.passes == passes && s.episodes == episodes
    && s.at in {Recording, CheckRerecord, ClearRerecord, ClearExitAgain, ClearBuffer, CheckDiscard, Done, Failed}
    && (s.at in {Recording, CheckRerecord} ==> s.events.rerecord)
  }

  lemma DiscardingStep(n: int, s: State, step: Step, passes: nat, episodes: seq<seq<int>>)
    requires Discarding(s, passes, episodes)
    ensures Discarding(Next(n, s, step), passes, episodes)
  {
  }

  lemma {:induction false} DiscardingRun(n: int, states: seq<State>, run: seq<Step>, f: nat, k: nat)
    requires Execution(n, states, run) && f <= k <= |run| && Discarding(states[f], states[f].passes, states[f].episodes)
    ensures Discarding(states[k], states[f].passes, states[f].episodes)
    decreases k
  {
    if f < k {
      DiscardingRun(n, states, run, f, k - 1);
      DiscardingStep(n, states[k - 1], run[k - 1], states[f].passes, states[f].episodes);
    }
  }

  /** A discard that finishes writing during a take ends the session there: nothing more is recorded or saved,
      and no reset pass is run. */
  lemma DiscardEndsTheSession(n: int, states: seq<State>, run: seq<Step>, p: nat, f: nat, k: nat)
    requires Execution(n, states, run) && p < f <= k <= |run| && run[p] == Press(Discard)
    requires Finished(states, p, f) && WithinTake(states, p, f)
    ensures states[k].at in {Recording, CheckRerecord, ClearRerecord, ClearExitAgain, ClearBuffer, CheckDiscard, Done, Failed}
    ensures states[k].passes == states[f].passes && states[k].episodes == states[f].episodes
  {
    var w := FinishedWrote(n, states, run, p, f, Discard, 0);
    assert PendingSince(states, run, w, f) by {
      assert forall m :: w < m < f ==> states[m].at in {Recording, CheckRerecord};
    }
    RerecordMeaning(n, states, run, f);
    var v := FinishedWrote(n, states, run, p, f, Discard, 1);
    AtMostOneMoreTake(n, states, run, v, f);
    DiscardingRun(n, states, run, f, k);
  }

  // ---- sessions in which some actions are never pressed --------------------------------------------------------

  ghost predicate Unpressed(run: seq<Step>, k: nat, actions: set<Action>) {
    forall m :: 0 <= m < k <= |run| && run[m].Press? ==> run[m].action !in actions
  }

  lemma OnlyPressedWrite(states: seq<State>, run: seq<Step>, k: nat, w: nat, actions: set<Action>)
    requires w < k <= |run| && Unpressed(run, k, actions)
    ensures forall p: nat, d: nat, action :: NthWrite(states, run, p, w, d, action) ==> action !in actions
  {
  }

  lemma {:induction false} NeverStopped(n: int, states: seq<State>, run: seq<Step>, k: nat)
    requires Execution(n, states, run) && k <= |run| && Unpressed(run, k, {Finish, Discard})
    ensures !states[k].events.stop && (states[k].at == Done ==> states[k].saved >= n)
    decreases k
  {
    if k > 0 {
      var h: nat := k - 1;
      NeverStopped(n, states, run, h);
      EachWriteRaises(n, states, run, h);
      OnlyPressedWrite(states, run, k, h, {Finish, Discard});
      assert states[h + 1] == Next(n, states[h], run[h]);
      StopChange(n, states[h], run[h]);
    }
  }

  lemma StopChange(n: int, s: State, step: Step)
    requires !s.events.stop && (s.at == Done ==> s.saved >= n)
    ensures var r := Next(n, s, step);
            && (r.events.stop <==> step.Write? && step.call < |s.calls| && s.calls[step.call] != [] && s.calls[step.call][0] == StopRecording)
            && (r.at == Done ==> s.at == Done || s.saved >= n)
            && (r.at == Done ==> r.saved >= n)
  {
  }

  /** Redo goes on: as long as nobody presses finish or discard, a dropped take is followed by a reset pass
      and another take, and the session ends only with all the episodes it was asked for. */
  lemma RedoGoesOn(n: int, states: seq<State>, run: seq<Step>, k: nat)
    requires Execution(n, states, run) && k < |run| && Unpressed(run, k + 1, {Finish, Discard})
    ensures run[k] == Advance && states[k].at == CheckDiscard ==> states[k + 1].at == ResetAfterRedo
    ensures run[k] == Advance && states[k].at == CheckStopAfterRedo ==> states[k + 1].at == Head
    ensures states[k + 1].at == Done ==> states[k + 1].saved >= n
  {
    NeverStopped(n, states, run, k);
    NeverStopped(n, states, run, k + 1);
    assert states[k + 1] == Next(n, states[k], run[k]);
  }

  /** Takes are saved as they are made: episode `i` is take `i`, and the newest take is saved or in progress. */
  ghost predicate AllSaved(s: State) {
    && !s.events.rerecord
    && (forall i :: 0 <= i < |s.origin| ==> s.origin[i] == i)
    && s.at !in {ClearRerecord, ClearExitAgain, ClearBuffer, CheckDiscard, ResetAfterRedo, CheckStopAfterRedo}
    && (s.at in {Recording, CheckRerecord, Save} ==> s.passes == |s.origin| + 1)
    && (s.at !in {Recording, CheckRerecord, Save, Failed} ==> s.passes == |s.origin|)
  }

  lemma AllSavedStep(n: int, s: State, step: Step)
    requires Sound(n, s) && AllSaved(s)
    requires !(step.Write? && step.call < |s.calls| && s.calls[step.call] != [] && s.calls[step.call][0] == Rerecord)
    ensures AllSaved(Next(n, s, step))
  {
  }

  /** Keep and finish never lose a take: as long as nobody presses redo or discard, every take that is
      checked is saved, in order. */
  lemma {:induction false} KeepAndFinishSaveEveryTake(n: int, states: seq<State>, run: seq<Step>, k: nat)
    requires Execution(n, states, run) && k <= |run| && Unpressed(run, k, {Redo, Discard})
    ensures AllSaved(states[k])
    decreases k
  {
    if k > 0 {
      var h: nat := k - 1;
      KeepAndFinishSaveEveryTake(n, states, run, h);
      AlwaysSound(n, states, run, h);
      EachWriteRaises(n, states, run, h);
      OnlyPressedWrite(states, run, k, h, {Redo, Discard});
      assert !WritesFlag(states, run, h, Rerecord);
      AllSavedStep(n, states[h], run[h]);
    }
  }

  /** On the way out after a finish: the take is checked, saved and counted, and no reset pass is run. */
  ghost predicate Finishing(s: State, passes: nat) {
    s.events.stop && s.passes == passes && s.at in {Recording, CheckRerecord, Save, Count, CheckFinish, Done, Failed}
  }

  lemma FinishingStep(n: int, s: State, step: Step, passes: nat)
    requires Finishing(s, passes) && AllSaved(s)
    ensures Finishing(Next(n, s, step), passes)
  {
  }

  lemma {:induction false} FinishingRun(n: int, states: seq<State>, run: seq<Step>, f: nat, k: nat)
    requires Execution(n, states, run) && f <= k <= |run| && Finishing(states[f], states[f].passes)
    requires Unpressed(run, k, {Redo, Discard})
    ensures Finishing(states[k], states[f].passes)
    decreases k
  {
    if f < k {
      FinishingRun(n, states, run, f, k - 1);
      KeepAndFinishSaveEveryTake(n, states, run, k - 1);
      FinishingStep(n, states[k - 1], run[k - 1], states[f].passes);
    }
  }

  /** A finish that finishes writing during a take, when nobody pressed redo or discard, ends the session with
      that take saved, and with no reset pass. */
  lemma FinishSavesAndEnds(n: int, states: seq<State>, run: seq<Step>, p: nat, f: nat, k: nat)
    requires Execution(n, states, run) && p < f <= k <= |run| && run[p] == Press(Finish)
    requires Finished(states, p, f) && WithinTake(states, p, f) && Unpressed(run, k, {Redo, Discard})
    ensures states[k].at in {Recording, CheckRerecord, Save, Count, CheckFinish, Done, Failed}
    ensures states[k].at == Done ==> states[f].passes > 0 && |states[k].origin| == states[f].passes
                                     && states[k].origin[states[f].passes - 1] == states[f].passes - 1
  {
    var w := FinishedWrote(n, states, run, p, f, Finish, 0);
    AtMostOneMoreTake(n, states, run, w, f);
    FinishingRun(n, states, run, f, k);
    KeepAndFinishSaveEveryTake(n, states, run, f);
    KeepAndFinishSaveEveryTake(n, states, run, k);
  }

  // ---- the early exit ------------------------------------------------------------------------------------------

  /** The recorder lowers the early exit before each recording pass, after a dropped take and before each reset,
      and `record_loop` may consume it. */
  predicate LowersExit(s: State, step: Step) {
    match step
    case Advance => s.at in {ClearExit, ClearExitAgain, ClearExitReset}
    case Return(clearExit) => clearExit && s.at in {Recording, ResetAfterRedo, Reset}
    case _ => false
  }

  predicate RaisesExit(s: State, step: Step) {
    step.Write? && step.call < |s.calls| && s.calls[step.call] != [] && s.calls[step.call][0] == ExitEarly
  }

  lemma ExitStep(n: int, s: State, step: Step)
    ensures Next(n, s, step).events.exitEarly <==> RaisesExit(s, step) || (s.events.exitEarly && !LowersExit(s, step))
  {
  }

  function LowersExitAt(states: seq<State>, run: seq<Step>): (at: seq<bool>)
    requires |states| == |run| + 1
    ensures |at| == |run|
  {
    seq(|run|, m requires 0 <= m < |run| => LowersExit(states[m], run[m]))
  }

  ghost function ExitWritesAt(states: seq<State>, run: seq<Step>): (at: seq<bool>)
    requires |states| == |run| + 1
    ensures |at| == |run|
  {
    seq(|run|, m requires 0 <= m < |run| => ExitWrite(states, run, m))
  }

  lemma ExitAt(n: int, states: seq<State>, run: seq<Step>, m: nat)
    requires Execution(n, states, run) && m < |run|
    ensures states[m + 1].events.exitEarly
            <==> ExitWrite(states, run, m) || (states[m].events.exitEarly && !LowersExit(states[m], run[m]))
  {
    assert states[m + 1] == Next(n, states[m], run[m]);
    ExitStep(n, states[m], run[m]);
    EachWriteRaises(n, states, run, m);
    assert WritesFlag(states, run, m, ExitEarly) == RaisesExit(states[m], run[m]);
  }

  /** The early exit is up exactly when some call made its last write and nothing lowered the flag since: an exit
      meant for one take never cuts short a later take or reset. */
  lemma ExitEarlyExactlyWhen(n: int, states: seq<State>, run: seq<Step>, k: nat)
    requires Execution(n, states, run) && k <= |run|
    ensures states[k].events.exitEarly
            <==> exists w: nat :: UpSince(ExitWritesAt(states, run), LowersExitAt(states, run), w, k)
  {
    var levels := seq(|states|, m requires 0 <= m < |states| => states[m].events.exitEarly);
    forall m: nat | m < |run|
      ensures levels[m + 1] == (ExitWritesAt(states, run)[m] || (levels[m] && !LowersExitAt(states, run)[m]))
    {
      ExitAt(n, states, run, m);
    }
    FlagMeaning(levels, ExitWritesAt(states, run), LowersExitAt(states, run), k);
  }
}
