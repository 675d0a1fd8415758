/** What a record session guarantees under every interleaving with the control thread. */
module RecorderRuns {
  import opened Prelude
  import opened Latches
  import opened Recorder

  // ---- bookkeeping ----------------------------------------------------------------------------

  /** Each recording pass starts on an empty buffer, so each saved episode is everything one
      pass recorded and nothing else; passes are saved in order and at most once; episodes are
      announced as 0, 1, 2, … and never exceed the number asked for. */
  lemma EpisodesAreWholePasses(n: int, states: seq<State>, run: seq<Step>)
    requires Execution(n, states, run)
    ensures var s := states[|run|];
            && (s.at in {Head, ClearExit} ==> s.buffer == [] && s.ep == s.saved + 1 == |s.episodes| + 1)
            && |s.origin| == |s.episodes|
            && (forall k :: 0 <= k < |s.episodes| ==>
                  s.origin[k] < |s.log| && s.episodes[k] == s.log[s.origin[k]])
            && (forall j, k :: 0 <= j < k < |s.episodes| ==> s.origin[j] < s.origin[k])
            && |s.announced| == s.saved && (forall i :: 0 <= i < s.saved ==> s.announced[i] == i)
            && s.saved <= (if n > 0 then n else 0)
  {
    AlwaysSound(n, states, run, |run|);
  }

  // ---- rerecord and discard -------------------------------------------------------------------

  /** Step `w` is a control call writing flag `f`. */
  predicate WritesFlag(states: seq<State>, run: seq<Step>, w: nat, f: Flag)
    requires w < |run| < |states|
  {
    var s := states[w];
    run[w].Write? && run[w].call < |s.calls| && s.calls[run[w].call] != [] && s.calls[run[w].call][0] == f
  }

  predicate ClearsRerecord(states: seq<State>, run: seq<Step>, w: nat)
    requires w < |run| < |states|
  {
    run[w].Advance? && states[w].at == ClearRerecord
  }

  /** A rerecord write at `w` that nothing before `k` has consumed. */
  ghost predicate PendingSince(states: seq<State>, run: seq<Step>, w: nat, k: nat)
    requires w < k <= |run| < |states|
  {
    && WritesFlag(states, run, w, Rerecord)
    && forall m :: w < m < k ==> !ClearsRerecord(states, run, m)
  }

  lemma RerecordChange(n: int, s: State, step: Step)
    ensures Next(n, s, step).events.rerecord <==>
              || (step.Write? && step.call < |s.calls| && s.calls[step.call] != []
                  && s.calls[step.call][0] == Rerecord)
              || (s.events.rerecord && !(step.Advance? && s.at == ClearRerecord))
  {
  }

  lemma {:induction false} PendingIsUp(n: int, states: seq<State>, run: seq<Step>, w: nat, k: nat)
    requires Execution(n, states, run) && w < k <= |run| && PendingSince(states, run, w, k)
    ensures states[k].events.rerecord
    decreases k
  {
    var h := k - 1;
    assert states[h + 1] == Next(n, states[h], run[h]);
    RerecordChange(n, states[h], run[h]);
    if w < h {
      assert !ClearsRerecord(states, run, h);
      assert PendingSince(states, run, w, h);
      PendingIsUp(n, states, run, w, h);
    }
  }

  function RerecordEffect(states: seq<State>, run: seq<Step>, i: nat): Effect<bool>
    requires i < |run| < |states|
  {
    if WritesFlag(states, run, i, Rerecord) then Put(Some(true))
    else if ClearsRerecord(states, run, i) then Put(None)
    else Hold
  }

  function RerecordLevel(s: State): Option<bool> {
    if s.events.rerecord then Some(true) else None
  }

  lemma UpIsPending(n: int, states: seq<State>, run: seq<Step>, k: nat)
    requires Execution(n, states, run) && k <= |run| && states[k].events.rerecord
    ensures exists w: nat :: w < k && PendingSince(states, run, w, k)
  {
    var levels := seq(|states|, i requires 0 <= i < |states| => RerecordLevel(states[i]));
    var effects := seq(|run|, i requires 0 <= i < |run| => RerecordEffect(states, run, i));
    forall i | 0 <= i < |run|
      ensures levels[i + 1] == if effects[i].Hold? then levels[i] else effects[i].value
    {
      assert states[i + 1] == Next(n, states[i], run[i]);
      RerecordChange(n, states[i], run[i]);
    }
    LatchMeaning(levels, effects, k, true);
    var w: nat :| LastPut(effects, w, k, true);
    assert effects[w] == RerecordEffect(states, run, w);
    forall m | w < m < k
      ensures !ClearsRerecord(states, run, m)
    {
      assert effects[m].Hold?;
      assert effects[m] == RerecordEffect(states, run, m);
    }
    assert PendingSince(states, run, w, k);
  }

  /** The flag is up exactly when some write of it has not been cleared since. */
  lemma RerecordMeaning(n: int, states: seq<State>, run: seq<Step>, k: nat)
    requires Execution(n, states, run) && k <= |run|
    ensures states[k].events.rerecord <==> exists w: nat :: w < k && PendingSince(states, run, w, k)
  {
    if states[k].events.rerecord {
      UpIsPending(n, states, run, k);
    }
    if w: nat :| w < k && PendingSince(states, run, w, k) {
      PendingIsUp(n, states, run, w, k);
    }
  }

  /** A take goes to the rerecord branch if and only if a rerecord or discard write precedes
      its check and was not consumed by an earlier take. */
  lemma TakeIsRedoneExactlyWhen(n: int, states: seq<State>, run: seq<Step>, c: nat)
    requires Execution(n, states, run) && c < |run| && run[c] == Advance && states[c].at == CheckRerecord
    ensures states[c + 1].at ==
            if exists w: nat :: w < c && PendingSince(states, run, w, c) then ClearRerecord else Save
  {
    RerecordMeaning(n, states, run, c);
  }

  /** Pass `p` is over or doomed: it can no longer become an episode. */
  ghost predicate Doomed(s: State, p: nat) {
    && p !in s.origin
    && p < s.passes
    && (p == s.passes - 1 && BufferLive(s.at) ==>
          && s.at != Save
          && (s.at in {Recording, CheckRerecord} ==> s.events.rerecord))
  }

  lemma DoomedStays(n: int, s: State, step: Step, p: nat)
    requires Sound(n, s) && Doomed(s, p)
    ensures Doomed(Next(n, s, step), p)
  {
  }

  lemma PendingDooms(n: int, states: seq<State>, run: seq<Step>, w: nat, m: nat)
    requires Execution(n, states, run) && w < m <= |run| && PendingSince(states, run, w, m)
    requires states[m].at in {Recording, CheckRerecord}
    ensures states[m].passes > 0
    ensures Doomed(states[m], states[m].passes - 1)
  {
    AlwaysSound(n, states, run, m);
    RerecordMeaning(n, states, run, m);
  }

  lemma {:induction false} DoomedForGood(n: int, states: seq<State>, run: seq<Step>, w: nat, k: nat, p: nat)
    requires Execution(n, states, run) && w <= k <= |run| && Doomed(states[w], p)
    ensures Doomed(states[k], p)
    decreases k
  {
    if w < k {
      DoomedForGood(n, states, run, w, k - 1, p);
      AlwaysSound(n, states, run, k - 1);
      DoomedStays(n, states[k - 1], run[k - 1], p);
    }
  }

  /** A take during which, at any moment before its check, a rerecord or discard write was not yet
      consumed, be it made then or left over from before, never appears among the saved
      episodes, whatever happens afterwards. */
  lemma DiscardedTakeIsNeverSaved(n: int, states: seq<State>, run: seq<Step>, w: nat, m: nat, k: nat)
    requires Execution(n, states, run) && w < m <= k <= |run| && PendingSince(states, run, w, m)
    requires states[m].at in {Recording, CheckRerecord}
    ensures states[m].passes > 0
    ensures states[m].passes - 1 !in states[k].origin
  {
    PendingDooms(n, states, run, w, m);
    DoomedForGood(n, states, run, m, k, states[m].passes - 1);
  }

  // ---- stopping -------------------------------------------------------------------------------

  /** Places from which a recording pass starts without another look at the stop flag. */
  predicate AboutToRecord(p: Place) {
    p in {Head, ClearExit}
  }

  function Starts(s: State): nat {
    s.passes + if AboutToRecord(s.at) then 1 else 0
  }

  lemma StopHolds(n: int, s: State, step: Step)
    requires s.events.stop
    ensures Next(n, s, step).events.stop
    ensures Starts(Next(n, s, step)) <= Starts(s)
  {
  }

  /** After the stop write at most one more recording pass starts, and only when the recorder had
      already passed its last stop check: it stands at the loop head or just below it. */
  lemma {:induction false} AtMostOneMoreTake(n: int, states: seq<State>, run: seq<Step>, w: nat, k: nat)
    requires Execution(n, states, run) && w < k <= |run| && WritesFlag(states, run, w, StopRecording)
    ensures var at := states[w];
            && states[k].events.stop
            && states[k].passes <= Starts(states[k])
            && Starts(states[k]) <= at.passes + if AboutToRecord(at.at) then 1 else 0
    decreases k
  {
    if w < k - 1 {
      AtMostOneMoreTake(n, states, run, w, k - 1);
      StopHolds(n, states[k - 1], run[k - 1]);
    }
  }

  /** The bound is attained: a finish pressed at the loop head is followed by a whole extra
      take, because clearing `exit_early` wipes out the early exit it asked for. */
  lemma FinishAtHeadRecordsOnce()
    ensures exists states: seq<State> ::
              var run := [Press(Finish), Write(0), Write(0), Advance, Advance];
              && Execution(1, states, run)
              && WritesFlag(states, run, 1, StopRecording) && WritesFlag(states, run, 2, ExitEarly)
              && states[5].at == Recording && states[5].passes == 1
              && states[5].events == Events(false, false, true)
  {
    var run := [Press(Finish), Write(0), Write(0), Advance, Advance];
    var s1 := Next(1, START, run[0]);
    var s2 := Next(1, s1, run[1]);
    var s3 := Next(1, s2, run[2]);
    var s4 := Next(1, s3, run[3]);
    var s5 := Next(1, s4, run[4]);
    var states := [START, s1, s2, s3, s4, s5];
    assert Execution(1, states, run);
    assert WritesFlag(states, run, 1, StopRecording) && WritesFlag(states, run, 2, ExitEarly);
  }
}
