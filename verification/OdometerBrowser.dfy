/**
 What a browser's packets leave on the odometer: it streams axes, not positions, and its gripper axis
 counts as a command only beyond a fifth of its range.
 */
module OdometerBrowser {
  import opened Prelude
  import opened Odometer

  predicate BrowserOnly(stream: seq<Input>) {
    forall i :: 0 <= i < |stream| ==> stream[i].axes.Some?
  }

  /** The packet commands its gripper that way. */
  predicate Grips(v: Vector, sign: int) {
    exists i :: 0 <= i < |v| && v[i].0 == "gripper" && if sign > 0 then v[i].1 > 0.2 else v[i].1 < -0.2
  }

  predicate Moves(v: Vector) {
    Grips(v, 1) || Grips(v, -1) || exists i :: 0 <= i < |v| && v[i].0 != "gripper" && v[i].1 != 0.0
  }

  /** The directions in which the gripper was commanded, in order. */
  function Directions(stream: seq<Input>): (signs: seq<int>)
    requires BrowserOnly(stream)
    ensures forall i :: 0 <= i < |signs| ==> signs[i] in {-1, 1}
  {
    if stream == [] then []
    else
      var v := stream[|stream| - 1].axes.value;
      Directions(stream[..|stream| - 1]) + if Grips(v, 1) then [1] else if Grips(v, -1) then [-1] else []
  }

  /** Where a direction differs from the one before. */
  function Reversals(signs: seq<int>): set<int> {
    set i | 0 <= i < |signs| && Reverses(signs, i)
  }

  predicate Reverses(signs: seq<int>, i: int)
    requires 0 <= i < |signs|
  {
    i > 0 && signs[i] != signs[i - 1]
  }

  function Working(stream: seq<Input>): set<int>
    requires BrowserOnly(stream)
  {
    set i | 0 <= i < |stream| && Moves(stream[i].axes.value)
  }

  lemma {:induction false} GripperAxisFound(v: seq<(string, real)>)
    requires Distinct(v)
    ensures forall i :: 0 <= i < |v| && v[i].0 == "gripper" ==> GripperAxis(v) == v[i].1
    ensures (forall i :: 0 <= i < |v| ==> v[i].0 != "gripper") ==> GripperAxis(v) == 0.0
  {
    if v != [] {
      GripperAxisFound(v[..|v| - 1]);
    }
  }

  /** The effort of a packet: nothing for the empty one, and every axis but the gripper adds its deflection. */
  lemma EffortAdds(v: seq<(string, real)>, name: string, x: real)
    ensures AxisEffort([]) == 0.0
    ensures AxisEffort(v + [(name, x)]) == AxisEffort(v) + if name == "gripper" then 0.0 else if x < 0.0 then -x else x
  {
    assert (v + [(name, x)])[..|v|] == v;
  }

  lemma {:induction false} EffortPositive(v: seq<(string, real)>)
    ensures AxisEffort(v) > 0.0 <==> exists i :: 0 <= i < |v| && v[i].0 != "gripper" && v[i].1 != 0.0
  {
    if v != [] {
      var front, n := v[..|v| - 1], |v| - 1;
      EffortPositive(front);
      assert forall i :: 0 <= i < n ==> front[i] == v[i];
      if v[n].0 != "gripper" && v[n].1 != 0.0 {
        assert AxisEffort(v) > 0.0;
      } else {
        assert AxisEffort(v) == AxisEffort(front);
      }
    }
  }

  lemma NoteBrowser(o: Odo, input: Input)
    requires input.axes.Some?
    ensures var v, r := input.axes.value, Note(o, input);
            var sign := if Grips(v, 1) then 1 else if Grips(v, -1) then -1 else 0;
            && r.packets == o.packets + (if Moves(v) then 1 else 0)
            && r.gripperSign == (if sign == 0 then o.gripperSign else sign)
            && r.gripperFlips == o.gripperFlips + if sign != 0 && o.gripperSign != 0 && o.gripperSign != sign then 1 else 0
  {
    var v := input.axes.value;
    GripperAxisFound(v);
    EffortPositive(v);
    assert Grips(v, 1) <==> GripperAxis(v) > 0.2;
    assert Grips(v, -1) <==> GripperAxis(v) < -0.2;
  }

  lemma ReversalsLast(signs: seq<int>, sign: int)
    ensures |Reversals(signs + [sign])|
            == |Reversals(signs)| + if signs != [] && signs[|signs| - 1] != sign then 1 else 0
  {
    var n := |signs|;
    assert forall i :: 0 <= i < n ==> Reverses(signs + [sign], i) == Reverses(signs, i);
    if signs != [] && signs[n - 1] != sign {
      assert Reversals(signs + [sign]) == Reversals(signs) + {n};
    } else {
      assert Reversals(signs + [sign]) == Reversals(signs);
    }
  }

  lemma WorkingLast(front: seq<Input>, last: Input)
    requires BrowserOnly(front) && last.axes.Some?
    ensures BrowserOnly(front + [last])
    ensures |Working(front + [last])| == |Working(front)| + if Moves(last.axes.value) then 1 else 0
  {
    var all, n := front + [last], |front|;
    assert forall i :: 0 <= i < n ==> all[i] == front[i];
    assert all[n] == last;
    assert Working(all) == Working(front) + if Moves(last.axes.value) then {n} else {};
  }

  /** What the odometer says of the gripper. */
  predicate Agrees(o: Odo, signs: seq<int>) {
    && o.gripperFlips == |Reversals(signs)|
    && o.gripperSign == if signs == [] then 0 else signs[|signs| - 1]
  }

  lemma AgreesLast(o: Odo, signs: seq<int>, input: Input)
    requires input.axes.Some? && Agrees(o, signs) && forall i :: 0 <= i < |signs| ==> signs[i] in {-1, 1}
    ensures var v := input.axes.value;
            Agrees(Note(o, input), signs + if Grips(v, 1) then [1] else if Grips(v, -1) then [-1] else [])
  {
    NoteBrowser(o, input);
    var v := input.axes.value;
    if Grips(v, 1) {
      ReversalsLast(signs, 1);
    } else if Grips(v, -1) {
      ReversalsLast(signs, -1);
    } else {
      assert signs + [] == signs;
    }
  }

  /** For every browser stream: a packet is counted exactly when it moves something, and the gripper flips
      are the reversals among the directions commanded. */
  lemma {:induction false} BrowserEvidence(stream: seq<Input>)
    requires BrowserOnly(stream)
    ensures var o, signs := NoteAll(stream), Directions(stream);
            o.packets == |Working(stream)| && Agrees(o, signs)
  {
    if stream != [] {
      var front, last := stream[..|stream| - 1], stream[|stream| - 1];
      assert stream == front + [last];
      assert forall i :: 0 <= i < |front| ==> front[i] == stream[i];
      WorkingLast(front, last);
      BrowserEvidence(front);
      NoteBrowser(NoteAll(front), last);
      AgreesLast(NoteAll(front), Directions(front), last);
    } else {
      assert Working(stream) == {} && Reversals(Directions(stream)) == {};
    }
  }
}
