/**
 A record session (apps/driver/recorder.py) and the control calls that steer it from another
 thread (`cmd_record_control` in apps/driver/driver.py).

 The two threads share three flags. Each flag access is atomic and anything may happen in
 between, so the session is a machine over its atomic operations; `Session.Run` below is the
 episode loop in its original shape, proved to be a run of that machine.
 */
module Recorder {
  import opened Prelude

  datatype Flag = ExitEarly | Rerecord | StopRecording
  datatype Action = Keep | Redo | Finish | Discard

  /** The order in which each control call writes its flags. */
  function Writes(action: Action): seq<Flag> {
    match action
    case Keep => [ExitEarly]
    case Redo => [Rerecord, ExitEarly]
    case Finish => [StopRecording, ExitEarly]
    case Discard => [Rerecord, StopRecording, ExitEarly]
  }

  datatype Events = Events(exitEarly: bool, rerecord: bool, stop: bool)

  const NO_EVENTS := Events(false, false, false)

  function Raised(e: Events, f: Flag): Events {
    match f
    case ExitEarly => e.(exitEarly := true)
    case Rerecord => e.(rerecord := true)
    case StopRecording => e.(stop := true)
  }

  /** The recorder thread's next operation. */
  datatype Place =
    | Head            // while saved < num_episodes
    | ClearExit       // events["exit_early"] = False
    | Recording       // inside record_loop, with the dataset
    | CheckRerecord
    | ClearRerecord
    | ClearExitAgain
    | ClearBuffer
    | CheckDiscard    // stop set together with rerecord
    | ResetAfterRedo  // inside record_loop, without the dataset
    | CheckStopAfterRedo
    | Save
    | Count           // saved += 1, episode_saved, ep += 1
    | CheckFinish
    | ClearExitReset
    | Reset           // inside record_loop, without the dataset
    | CheckStop
    | Done
    | Failed

  /** `passes`, `log` and `origin` are history: how many recording passes have started, what
      each one appended, and which pass each saved episode came from. */
  datatype State = State(at: Place, saved: int, ep: int, events: Events,
                         buffer: seq<int>, episodes: seq<seq<int>>, announced: seq<int>,
                         calls: seq<seq<Flag>>,
                         passes: nat, log: seq<seq<int>>, origin: seq<nat>)

  const START := State(Head, 0, 1, NO_EVENTS, [], [], [], [], 0, [], [])

  datatype Step =
    | Advance                    // the recorder's next operation, outside record_loop
    | Append(data: int)          // record_loop stores a frame
    | Return(clearExit: bool)    // record_loop returns; it may have consumed exit_early
    | Raise                      // anything inside the try block raises
    | Press(action: Action)      // a control call begins
    | Write(call: nat)           // a control call performs its next write

  function InLoop(p: Place): bool {
    p == Recording || p == ResetAfterRedo || p == Reset
  }

  /** Where control goes when `record_loop` returns. */
  function LoopExit(p: Place): Place {
    match p
    case Recording => CheckRerecord
    case ResetAfterRedo => CheckStopAfterRedo
    case _ => CheckStop
  }

  function AdvanceRecorder(n: int, s: State): State {
    match s.at
    case Head => s.(at := if s.saved < n then ClearExit else Done)
    case ClearExit =>
      s.(events := s.events.(exitEarly := false), at := Recording,
         passes := s.passes + 1, log := s.log + [[]])
    case CheckRerecord => s.(at := if s.events.rerecord then ClearRerecord else Save)
    case ClearRerecord => s.(events := s.events.(rerecord := false), at := ClearExitAgain)
    case ClearExitAgain => s.(events := s.events.(exitEarly := false), at := ClearBuffer)
    case ClearBuffer => s.(buffer := [], at := CheckDiscard)
    case CheckDiscard => s.(at := if s.events.stop then Done else ResetAfterRedo)
    case CheckStopAfterRedo => s.(at := if s.events.stop then Done else Head)
    case Save =>
      s.(episodes := s.episodes + [s.buffer], buffer := [], at := Count,
         origin := s.origin + [if s.passes > 0 then s.passes - 1 else 0])
    case Count =>
      s.(saved := s.saved + 1, announced := s.announced + [s.saved], ep := s.ep + 1, at := CheckFinish)
    case CheckFinish => s.(at := if s.events.stop || s.saved >= n then Done else ClearExitReset)
    case ClearExitReset => s.(events := s.events.(exitEarly := false), at := Reset)
    case CheckStop => s.(at := if s.events.stop then Done else Head)
    case _ => s
  }

  function Next(n: int, s: State, step: Step): State {
    match step
    case Advance => AdvanceRecorder(n, s)
    case Append(data) =>
      if s.at == Recording && s.passes == |s.log| && s.passes > 0 then
        s.(buffer := s.buffer + [data], log := s.log[s.passes - 1 := s.log[s.passes - 1] + [data]])
      else s
    case Return(clearExit) =>
      if !InLoop(s.at) then s
      else
        s.(events := if clearExit then s.events.(exitEarly := false) else s.events,
           at := LoopExit(s.at))
    case Raise => if s.at == Done then s else s.(at := Failed)
    case Press(action) => s.(calls := s.calls + [Writes(action)])
    case Write(call) =>
      if call < |s.calls| && s.calls[call] != [] then
        s.(events := Raised(s.events, s.calls[call][0]), calls := s.calls[call := s.calls[call][1..]])
      else s
  }

  // ---- the invariant ------------------------------------------------------------------------------

  /** Places where the buffer belongs to the pass in progress. */
  predicate BufferLive(p: Place) {
    p in {Recording, CheckRerecord, ClearRerecord, ClearExitAgain, ClearBuffer, Save}
  }

  /** Places reached only inside an iteration, before its episode is counted. */
  predicate InIteration(p: Place) {
    p in {ClearExit, Recording, CheckRerecord, ClearRerecord, ClearExitAgain, ClearBuffer,
          CheckDiscard, ResetAfterRedo, CheckStopAfterRedo, Save, Count}
  }

  ghost predicate Counted(n: int, s: State) {
    && s.ep == s.saved + 1 && s.saved >= 0
    && (s.saved <= n || s.saved == 0)
    && (InIteration(s.at) ==> s.saved < n)
    && |s.announced| == s.saved && (forall i :: 0 <= i < s.saved ==> s.announced[i] == i)
    && (s.at != Failed ==> |s.episodes| == s.saved + if s.at == Count then 1 else 0)
    && s.saved <= |s.episodes| <= s.saved + 1
  }

  ghost predicate Recorded(s: State) {
    && |s.log| == s.passes && |s.origin| == |s.episodes|
    && (forall k :: 0 <= k < |s.origin| ==> s.origin[k] < s.passes && s.episodes[k] == s.log[s.origin[k]])
    && (forall j, k :: 0 <= j < k < |s.origin| ==> s.origin[j] < s.origin[k])
    && (BufferLive(s.at) ==>
          && s.passes > 0 && s.buffer == s.log[s.passes - 1]
          && forall k :: 0 <= k < |s.origin| ==> s.origin[k] < s.passes - 1)
    && (!BufferLive(s.at) && s.at != Failed ==> s.buffer == [])
  }

  ghost predicate Sound(n: int, s: State) {
    Counted(n, s) && Recorded(s)
  }

  lemma StepCounts(n: int, s: State, step: Step)
    requires Sound(n, s)
    ensures Counted(n, Next(n, s, step))
  {
  }

  lemma AppendRecords(n: int, s: State, data: int)
    requires Sound(n, s)
    ensures Recorded(Next(n, s, Append(data)))
  {
  }

  lemma SaveRecords(n: int, s: State)
    requires Sound(n, s) && s.at == Save
    ensures Recorded(AdvanceRecorder(n, s))
  {
  }

  lemma AdvanceRecords(n: int, s: State)
    requires Sound(n, s) && s.at != Save
    ensures Recorded(AdvanceRecorder(n, s))
  {
  }

  lemma StepRecords(n: int, s: State, step: Step)
    requires Sound(n, s)
    ensures Recorded(Next(n, s, step))
  {
    match step {
      case Append(data) => AppendRecords(n, s, data);
      case Advance =>
        if s.at == Save {
          SaveRecords(n, s);
        } else {
          AdvanceRecords(n, s);
        }
      case _ =>
    }
  }

  /** An execution: `states` are the successive states of the steps in `run`. */
  ghost predicate Execution(n: int, states: seq<State>, run: seq<Step>) {
    && |states| == |run| + 1
    && states[0] == START
    && forall i {:trigger run[i]} :: 0 <= i < |run| ==> states[i + 1] == Next(n, states[i], run[i])
  }

  lemma {:induction false} AlwaysSound(n: int, states: seq<State>, run: seq<Step>, k: nat)
    requires Execution(n, states, run) && k <= |run|
    ensures Sound(n, states[k])
  {
    if k > 0 {
      AlwaysSound(n, states, run, k - 1);
      StepCounts(n, states[k - 1], run[k - 1]);
      StepRecords(n, states[k - 1], run[k - 1]);
    }
  }

  lemma ExtendExecution(n: int, states: seq<State>, run: seq<Step>, step: Step, next: State)
    requires Execution(n, states, run) && next == Next(n, states[|run|], step)
    ensures Execution(n, states + [next], run + [step])
  {
    forall i | 0 <= i < |run + [step]|
      ensures (states + [next])[i + 1] == Next(n, (states + [next])[i], (run + [step])[i])
    {
      if i < |run| {
        assert run[i] == (run + [step])[i];
      }
    }
  }

  // ---- the loop, in its own shape --------------------------------------------------------------

  /** What the other thread does before one of the recorder's operations, and how the library
      call made there behaves. */
  datatype Slot = Slot(control: seq<Step>, frames: seq<int>, clearExit: bool, raises: bool)

  class Session {
    const n: int
    var schedule: seq<Slot>
    var saved: int
    var ep: int
    var events: Events
    var buffer: seq<int>
    var episodes: seq<seq<int>>
    var announced: seq<int>
    var calls: seq<seq<Flag>>
    ghost var at: Place
    ghost var passes: nat
    ghost var log: seq<seq<int>>
    ghost var origin: seq<nat>
    ghost var run: seq<Step>
    ghost var states: seq<State>

    ghost function View(): State
      reads this
    {
      State(at, saved, ep, events, buffer, episodes, announced, calls, passes, log, origin)
    }

    ghost predicate Valid()
      reads this
    {
      Execution(n, states, run) && View() == states[|run|]
    }

    constructor (n: int, schedule: seq<Slot>)
      ensures Valid() && this.n == n && this.schedule == schedule && at == Head && run == []
    {
      this.n, this.schedule := n, schedule;
      saved, ep, events := 0, 1, NO_EVENTS;
      buffer, episodes, announced, calls := [], [], [], [];
      at, passes, log, origin, run, states := Head, 0, [], [], [], [START];
    }

    ghost method Log(step: Step)
      requires Execution(n, states, run) && View() == Next(n, states[|run|], step)
      modifies this`run, this`states
      ensures Valid() && run == old(run) + [step]
    {
      ExtendExecution(n, states, run, step, View());
      run, states := run + [step], states + [View()];
    }

    lemma NowSound()
      requires Valid()
      ensures Sound(n, View())
    {
      AlwaysSound(n, states, run, |run|);
    }

    /** Let the control thread run. The schedule may cut the session off anywhere. */
    method Interleave() returns (go: bool, slot: Slot)
      requires Valid()
      modifies this`schedule, this`events, this`calls, this`run, this`states
      ensures Valid()
      ensures !go ==> schedule == old(schedule) == []
      ensures go ==> old(schedule) != [] && schedule == old(schedule)[1..] && slot == old(schedule)[0]
    {
      if schedule == [] {
        return false, Slot([], [], false, false);
      }
      slot, schedule := schedule[0], schedule[1..];
      go := true;
      for i := 0 to |slot.control|
        invariant Valid()
        invariant schedule == old(schedule)[1..]
      {
        match slot.control[i] {
          case Press(action) =>
            calls := calls + [Writes(action)];
            Log(Press(action));
          case Write(call) =>
            if call < |calls| && calls[call] != [] {
              events := Raised(events, calls[call][0]);
              calls := calls[call := calls[call][1..]];
            }
            Log(Write(call));
          case _ =>
        }
      }
    }

    method Crash()
      requires Valid() && at != Done
      modifies this`at, this`run, this`states
      ensures Valid() && at == Failed
    {
      at := Failed;
      Log(Raise);
    }

    // One method per atomic operation; each first lets the control thread run, and answers
    // `go == false` when the schedule ends there or the operation raises.

    method ClearRerecordFlag() returns (go: bool)
      requires Valid() && at == Place.ClearRerecord
      modifies this
      ensures Valid() && |schedule| <= old(|schedule|)
      ensures go ==> at == ClearExitAgain && |schedule| < old(|schedule|)
    {
      var slot;
      go, slot := Interleave();
      if go {
        events := events.(rerecord := false);
        at := ClearExitAgain;
        Log(Advance);
      }
    }

    method ClearExitFlag() returns (go: bool)
      requires Valid() && at in {ClearExit, ClearExitAgain, ClearExitReset}
      modifies this
      ensures Valid() && |schedule| <= old(|schedule|)
      ensures go ==> |schedule| < old(|schedule|)
      ensures go ==> at == match old(at)
                           case ClearExit => Recording
                           case ClearExitAgain => Place.ClearBuffer
                           case _ => Reset
    {
      var slot;
      go, slot := Interleave();
      if go {
        events := events.(exitEarly := false);
        if at == ClearExit {
          at, passes, log := Recording, passes + 1, log + [[]];
        } else {
          at := if at == ClearExitAgain then Place.ClearBuffer else Reset;
        }
        Log(Advance);
      }
    }

    method ClearEpisodeBuffer() returns (go: bool)
      requires Valid() && at == Place.ClearBuffer
      modifies this
      ensures Valid() && |schedule| <= old(|schedule|)
      ensures go ==> at == CheckDiscard && |schedule| < old(|schedule|)
    {
      var slot;
      go, slot := Interleave();
      if go {
        buffer := [];
        at := CheckDiscard;
        Log(Advance);
      }
    }

    /** `if events.get("stop_recording"): break` */
    method PassStopCheck() returns (go: bool)
      requires Valid() && at in {CheckDiscard, CheckStopAfterRedo, CheckStop}
      modifies this
      ensures Valid() && |schedule| <= old(|schedule|)
      ensures go ==> |schedule| < old(|schedule|)
      ensures go ==> at == if old(at) == CheckDiscard then ResetAfterRedo else Head
    {
      var slot;
      go, slot := Interleave();
      if go {
        at := if events.stop then Done else if at == CheckDiscard then ResetAfterRedo else Head;
        Log(Advance);
        go := !events.stop;
      }
    }

    method SaveEpisode() returns (go: bool)
      requires Valid() && at == Save
      modifies this
      ensures Valid() && |schedule| <= old(|schedule|)
      ensures go ==> at == Count && |schedule| < old(|schedule|)
    {
      var slot;
      go, slot := Interleave();
      if go && slot.raises {
        Crash();
        go := false;
      } else if go {
        StoreTake();
      }
    }

    lemma TakeInProgress()
      requires Valid() && at == Save
      ensures passes > 0
    {
      NowSound();
    }

    method StoreTake()
      requires Valid() && at == Save
      modifies this`episodes, this`origin, this`buffer, this`at, this`run, this`states
      ensures Valid() && at == Count
    {
      TakeInProgress();
      episodes, origin, buffer := episodes + [buffer], origin + [passes - 1], [];
      at := Count;
      Log(Advance);
    }

    method CountEpisode() returns (go: bool)
      requires Valid() && at == Count
      modifies this
      ensures Valid() && |schedule| <= old(|schedule|)
      ensures go ==> at == CheckFinish && |schedule| < old(|schedule|)
    {
      var slot;
      go, slot := Interleave();
      if go {
        saved := saved + 1;
        announced := announced + [saved - 1];
        ep := ep + 1;
        at := CheckFinish;
        Log(Advance);
      }
    }

    method PassFinishCheck() returns (go: bool)
      requires Valid() && at == CheckFinish
      modifies this
      ensures Valid() && |schedule| <= old(|schedule|)
      ensures go ==> at == ClearExitReset && |schedule| < old(|schedule|)
    {
      var slot;
      go, slot := Interleave();
      if go {
        at := if events.stop || saved >= n then Done else ClearExitReset;
        Log(Advance);
        go := !(events.stop || saved >= n);
      }
    }

    method EnterIteration() returns (go: bool)
      requires Valid() && at == Head
      modifies this
      ensures Valid() && |schedule| <= old(|schedule|)
      ensures go ==> at == ClearExit && |schedule| < old(|schedule|)
    {
      var slot;
      go, slot := Interleave();
      if go {
        at := if saved < n then ClearExit else Done;
        Log(Advance);
        go := saved < n;
      }
    }

    method TestRerecord() returns (go: bool, redo: bool)
      requires Valid() && at == CheckRerecord
      modifies this
      ensures Valid() && |schedule| <= old(|schedule|)
      ensures go ==> at == (if redo then Place.ClearRerecord else Save) && |schedule| < old(|schedule|)
    {
      var slot;
      go, slot := Interleave();
      redo := events.rerecord;
      if go {
        at := if redo then Place.ClearRerecord else Save;
        Log(Advance);
      }
    }

    /** The library's loop: it stores frames while it has the dataset, may consume
        `exit_early`, and may raise. */
    method RecordLoop(withDataset: bool) returns (go: bool)
      requires Valid() && InLoop(at) && (withDataset <==> at == Recording)
      modifies this
      ensures Valid() && |schedule| <= old(|schedule|)
      ensures go ==> |schedule| < old(|schedule|)
      ensures go ==> at == LoopExit(old(at))
    {
      var slot;
      go, slot := Interleave();
      if !go {
        return;
      }
      if withDataset {
        StoreFrames(slot.frames);
      }
      if slot.raises {
        Crash();
        return false;
      }
      if slot.clearExit {
        events := events.(exitEarly := false);
      }
      at := LoopExit(at);
      Log(Return(slot.clearExit));
    }

    method StoreFrames(frames: seq<int>)
      requires Valid() && at == Recording
      modifies this`buffer, this`log, this`run, this`states
      ensures Valid()
    {
      for i := 0 to |frames|
        invariant Valid()
      {
        NowSound();
        buffer := buffer + [frames[i]];
        log := log[passes - 1 := log[passes - 1] + [frames[i]]];
        Log(Append(frames[i]));
      }
    }

    // ---- the control flow -------------------------------------------------------------------------

    /** `rerecord_episode` was seen: drop the take, and reset unless the session is over. */
    method DropTake() returns (again: bool)
      requires Valid() && at == Place.ClearRerecord
      modifies this
      ensures Valid() && |schedule| <= old(|schedule|)
      ensures again ==> at == Head && |schedule| < old(|schedule|)
    {
      var go := ClearRerecordFlag();
      if go { go := ClearExitFlag(); }
      if go { go := ClearEpisodeBuffer(); }
      if go { go := PassStopCheck(); }
      if go { go := SitOut(); }
      return go;
    }

    /** A reset pass, and the stop check behind it. */
    method SitOut() returns (again: bool)
      requires Valid() && at in {ResetAfterRedo, Reset}
      modifies this
      ensures Valid() && |schedule| <= old(|schedule|)
      ensures again ==> at == Head && |schedule| < old(|schedule|)
    {
      again := RecordLoop(false);
      if again { again := PassStopCheck(); }
    }

    /** Save the take and count it, unless that ends the session. */
    method Commit() returns (go: bool)
      requires Valid() && at == Save
      modifies this
      ensures Valid() && |schedule| <= old(|schedule|)
      ensures go ==> at == ClearExitReset && |schedule| < old(|schedule|)
    {
      go := SaveEpisode();
      if go { go := CountEpisode(); }
      if go { go := PassFinishCheck(); }
    }

    /** Keep the take, and reset unless the session is over. */
    method KeepTake() returns (again: bool)
      requires Valid() && at == Save
      modifies this
      ensures Valid() && |schedule| <= old(|schedule|)
      ensures again ==> at == Head && |schedule| < old(|schedule|)
    {
      again := Commit();
      if again { again := ClearExitFlag(); }
      if again { again := SitOut(); }
    }

    /** The episode loop. Every execution, under every interleaving, is a run of the machine. */
    method Run()
      requires Valid() && at == Head && run == []
      modifies this
      ensures Execution(n, states, run) && View() == states[|run|]
    {
      var again := true;
      while again
        invariant Valid() && (again ==> at == Head)
        decreases |schedule|, again
      {
        var redo := false;
        again := EnterIteration();
        if again { again := ClearExitFlag(); }
        if again { again := RecordLoop(true); }
        if again { again, redo := TestRerecord(); }
        if again && redo {
          again := DropTake();
        } else if again {
          again := KeepTake();
        }
      }
    }
  }
}
