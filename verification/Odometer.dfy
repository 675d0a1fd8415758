/**
 The input odometer of a rig (apps/web/src/hub/store.ts): monotone counters from which the
 market layer later judges whether an operator did real work.

 A leader arm streams absolute positions and jitters at rest, so each joint's travel is
 measured against a reference that moves only when the joint is a full band away from it.
 */
module Odometer {
  import opened Prelude

  const LEADER_BAND_DEG := 2.0
  const FLIP_DEG := 8.0

  /** The own properties of a JavaScript record, in enumeration order. */
  type Vector = v: seq<(string, real)> | Distinct(v) witness []

  predicate Distinct(v: seq<(string, real)>) {
    forall i, j :: 0 <= i < j < |v| ==> v[i].0 != v[j].0
  }

  function AsMap(v: seq<(string, real)>): (m: map<string, real>) {
    if v == [] then map[] else AsMap(v[..|v| - 1])[v[|v| - 1].0 := v[|v| - 1].1]
  }

  datatype Input = Input(axes: Option<Vector>, joints: Option<Vector>)

  datatype Odo = Odo(packets: nat, motion: real, gripperFlips: nat, gripperSign: int,
                     lastJoints: Option<map<string, real>>)

  const FRESH := Odo(0, 0.0, 0, 0, None)

  function Lower(c: char): char {
    if 'A' <= c <= 'Z' then (c as int - 'A' as int + 'a' as int) as char else c
  }

  predicate GripperAt(rest: string) {
    |rest| >= 7 && forall k :: 0 <= k < 7 ==> Lower(rest[k]) == "gripper"[k]
  }

  /** `name.toLowerCase().includes("gripper")` */
  predicate IsGripper(name: string) {
    exists i :: 0 <= i <= |name| && GripperAt(name[i..])
  }

  /** The seven letters, in either case, anywhere in the name. */
  predicate SpellsGripper(name: string, i: nat) {
    i + 7 <= |name| && forall k :: 0 <= k < 7 ==> name[i + k] == "gripper"[k] || name[i + k] == "GRIPPER"[k]
  }

  lemma LowerMeaning(c: char, k: nat)
    requires k < 7
    ensures Lower(c) == "gripper"[k] <==> c == "gripper"[k] || c == "GRIPPER"[k]
  {
    assert "gripper"[k] in {'g', 'r', 'i', 'p', 'e'};
    assert "GRIPPER"[k] as int + 32 == "gripper"[k] as int;
  }

  lemma GripperNames(name: string)
    ensures IsGripper(name) <==> exists i: nat :: SpellsGripper(name, i)
  {
    forall i: nat | i <= |name|
      ensures GripperAt(name[i..]) <==> SpellsGripper(name, i)
    {
      forall k: nat | k < 7 && i + 7 <= |name|
        ensures Lower(name[i..][k]) == "gripper"[k] <==> name[i + k] == "gripper"[k] || name[i + k] == "GRIPPER"[k]
      {
        LowerMeaning(name[i..][k], k);
      }
    }
  }

  /** What the loop over joints updates. `lost` says that `moved` is no number any more, and
      `moved` is then what it would have been. */
  datatype Walk = Walk(refs: map<string, real>, moved: real, lost: bool, flips: nat, sign: int)

  /** What looking up a name that was never set finds: nothing, or something inherited that an
      assignment covers, or the prototype, which no number replaces. */
  datatype Lookup = Absent | Covered | Fixed

  function Unset(name: string): Lookup {
    if name == PROTO then Fixed else if Inherited(name) then Covered else Absent
  }

  function Entry(w: Walk, name: string, pos: real): (r: Walk) {
    EntryOf(w, name, pos, Unset(name))
  }

  function EntryOf(w: Walk, name: string, pos: real, unset: Lookup): (r: Walk) {
    if name !in w.refs then
      match unset
      case Absent => w.(refs := w.refs[name := pos])
      case Covered => w.(refs := w.refs[name := pos], lost := true)
      case Fixed => w.(lost := true)
    else
      var delta := Abs(pos - w.refs[name]);
      if delta < LEADER_BAND_DEG then w
      else
        var sign := if pos > w.refs[name] then 1 else -1;
        var flips := IsGripper(name) && delta >= FLIP_DEG;
        Walk(w.refs[name := pos], w.moved + delta / 10.0, w.lost,
             if flips && w.sign != 0 && sign != w.sign then w.flips + 1 else w.flips,
             if flips then sign else w.sign)
  }

  function WalkAll(w: Walk, v: seq<(string, real)>): (r: Walk) {
    if v == [] then w
    else var front := WalkAll(w, v[..|v| - 1]); Entry(front, v[|v| - 1].0, v[|v| - 1].1)
  }

  /** Sum of the magnitudes of every axis except the gripper. */
  function AxisEffort(v: seq<(string, real)>): (r: real)
    ensures r >= 0.0
  {
    if v == [] then 0.0
    else AxisEffort(v[..|v| - 1]) + if v[|v| - 1].0 == "gripper" then 0.0 else Abs(v[|v| - 1].1)
  }

  /** The destructured `gripper = 0`. */
  function GripperAxis(v: seq<(string, real)>): real {
    if v == [] then 0.0
    else if v[|v| - 1].0 == "gripper" then v[|v| - 1].1
    else GripperAxis(v[..|v| - 1])
  }

  function Count(o: Odo, moved: real): Odo {
    if moved > 0.0 then o.(motion := o.motion + moved, packets := o.packets + 1) else o
  }

  function Note(o: Odo, input: Input): (r: Odo) {
    if input.axes.Some? then
      var g := GripperAxis(input.axes.value);
      var sign := if g > 0.2 then 1 else if g < -0.2 then -1 else 0;
      var moved := AxisEffort(input.axes.value);
      if sign == 0 then Count(o, moved)
      else
        var flips := if o.gripperSign != 0 && sign != o.gripperSign then o.gripperFlips + 1 else o.gripperFlips;
        Count(o.(gripperFlips := flips, gripperSign := sign), moved + Abs(g))
    else if input.joints.Some? then
      if o.lastJoints.None? then o.(lastJoints := Some(AsMap(input.joints.value)))
      else
        var w := WalkAll(Walk(o.lastJoints.value, 0.0, false, o.gripperFlips, o.gripperSign), input.joints.value);
        Count(Odo(o.packets, o.motion, w.flips, w.sign, Some(w.refs)), if w.lost then 0.0 else w.moved)
    else o
  }

  function NoteAll(stream: seq<Input>): (o: Odo) {
    if stream == [] then FRESH else Note(NoteAll(stream[..|stream| - 1]), stream[|stream| - 1])
  }

  class InputOdo {
    var packets: nat
    var motion: real
    var gripperFlips: nat
    var gripperSign: int
    var lastJoints: Option<map<string, real>>

    function View(): Odo
      reads this
    {
      Odo(packets, motion, gripperFlips, gripperSign, lastJoints)
    }

    constructor ()
      ensures View() == NoteAll([])
    {
      packets, motion, gripperFlips, gripperSign, lastJoints := 0, 0.0, 0, 0, None;
    }

    method NoteInputOdometer(input: Input)
      modifies this
      ensures View() == Note(old(View()), input)
    {
      var moved := 0.0;
      if input.axes.Some? {
        var gripper;
        moved, gripper := SumAxes(input.axes.value);
        var sign := if gripper > 0.2 then 1 else if gripper < -0.2 then -1 else 0;
        if sign != 0 {
          moved := moved + Abs(gripper);
          if gripperSign != 0 && sign != gripperSign {
            gripperFlips := gripperFlips + 1;
          }
          gripperSign := sign;
        }
      } else if input.joints.Some? {
        if lastJoints.None? {
          lastJoints := Some(AsMap(input.joints.value));
        } else {
          var lost;
          moved, lost := WalkJoints(input.joints.value);
          if lost {
            return;
          }
        }
      }
      if moved > 0.0 {
        motion := motion + moved;
        packets := packets + 1;
      }
    }

    method SumAxes(axes: Vector) returns (effort: real, gripper: real)
      ensures effort == AxisEffort(axes) && gripper == GripperAxis(axes)
    {
      effort, gripper := 0.0, 0.0;
      for i := 0 to |axes|
        invariant effort == AxisEffort(axes[..i]) && gripper == GripperAxis(axes[..i])
      {
        assert axes[..i + 1][..i] == axes[..i];
        if axes[i].0 == "gripper" {
          gripper := axes[i].1;
        } else {
          effort := effort + Abs(axes[i].1);
        }
      }
      assert axes[..|axes|] == axes;
    }

    ghost function Walking(moved: real, lost: bool): Walk
      reads this
      requires lastJoints.Some?
    {
      Walk(lastJoints.value, moved, lost, gripperFlips, gripperSign)
    }

    method WalkJoints(joints: Vector) returns (moved: real, lost: bool)
      requires lastJoints.Some?
      modifies this`lastJoints, this`gripperFlips, this`gripperSign
      ensures lastJoints.Some?
      ensures Walking(moved, lost) == WalkAll(old(Walking(0.0, false)), joints)
    {
      moved, lost := 0.0, false;
      for i := 0 to |joints|
        invariant lastJoints.Some?
        invariant Walking(moved, lost) == WalkAll(old(Walking(0.0, false)), joints[..i])
      {
        assert joints[..i + 1][..i] == joints[..i];
        moved, lost := WalkJoint(joints[i].0, joints[i].1, moved, lost);
      }
      assert joints[..|joints|] == joints;
    }

    /** One turn of the loop over joints. */
    method WalkJoint(name: string, pos: real, moved: real, lost: bool) returns (more: real, gone: bool)
      requires lastJoints.Some?
      modifies this`lastJoints, this`gripperFlips, this`gripperSign
      ensures lastJoints.Some?
      ensures Walking(more, gone) == Entry(old(Walking(moved, lost)), name, pos)
    {
      more, gone := moved, lost;
      if name !in lastJoints.value {
        if name != PROTO {
          lastJoints := Some(lastJoints.value[name := pos]);
        }
        gone := gone || Inherited(name);
        return;
      }
      var reference := lastJoints.value[name];
      var delta := Abs(pos - reference);
      if delta < LEADER_BAND_DEG {
        return;
      }
      more := more + delta / 10.0;
      if IsGripper(name) && delta >= FLIP_DEG {
        var sign := if pos > reference then 1 else -1;
        if gripperSign != 0 && sign != gripperSign {
          gripperFlips := gripperFlips + 1;
        }
        gripperSign := sign;
      }
      lastJoints := Some(lastJoints.value[name := pos]);
    }
  }

  // ---- one joint ----------------------------------------------------------------------

  /** The reference one joint is measured against, after all its positions so far. */
  function Ref(ps: seq<real>): (r: Option<real>)
    ensures r.None? <==> ps == []
  {
    if ps == [] then None
    else
      var before := Ref(ps[..|ps| - 1]);
      if before.Some? && Abs(ps[|ps| - 1] - before.value) < LEADER_BAND_DEG then before
      else Some(ps[|ps| - 1])
  }

  /** Degrees credited to one joint. */
  function Credit(ps: seq<real>): (r: real)
    ensures r >= 0.0
  {
    if ps == [] then 0.0
    else
      var front, last := ps[..|ps| - 1], ps[|ps| - 1];
      Credit(front) +
      if front == [] || Abs(last - Ref(front).value) < LEADER_BAND_DEG then 0.0
      else Abs(last - Ref(front).value)
  }

  function Path(ps: seq<real>): (r: real) {
    if |ps| < 2 then 0.0 else Path(ps[..|ps| - 1]) + Abs(ps[|ps| - 1] - ps[|ps| - 2])
  }

  /** Two-sided: never more than the joint really travelled, never short of where it got to
      by as much as the band. The credited part also leaves out the distance still pending. */
  lemma {:induction false} CreditBounds(ps: seq<real>)
    requires ps != []
    ensures Credit(ps) + Abs(ps[|ps| - 1] - Ref(ps).value) <= Path(ps)
    ensures Abs(ps[|ps| - 1] - Ref(ps).value) < LEADER_BAND_DEG
    ensures Abs(Ref(ps).value - ps[0]) <= Credit(ps)
    ensures Abs(ps[|ps| - 1] - ps[0]) - LEADER_BAND_DEG < Credit(ps) <= Path(ps)
  {
    if |ps| > 1 {
      var front := ps[..|ps| - 1];
      CreditBounds(front);
      assert front[|front| - 1] == ps[|ps| - 2];
    }
  }

  /** Jitter inside the band is worth nothing, however long it goes on. */
  lemma {:induction false} JitterIsFree(ps: seq<real>, still: seq<real>)
    requires ps != []
    requires forall p :: p in still ==> Abs(p - Ref(ps).value) < LEADER_BAND_DEG
    ensures Credit(ps + still) == Credit(ps) && Ref(ps + still) == Ref(ps)
  {
    if still == [] {
      assert ps + still == ps;
    } else {
      var front := still[..|still| - 1];
      assert forall p :: p in front ==> p in still;
      JitterIsFree(ps, front);
      assert (ps + still)[..|ps + still| - 1] == ps + front;
      assert still[|still| - 1] in still;
    }
  }

  // ---- the whole rig ------------------------------------------------------------------

  predicate Names(v: seq<(string, real)>, name: string) {
    exists i :: 0 <= i < |v| && v[i].0 == name
  }

  predicate IsJointPacket(input: Input) {
    input.axes.None? && input.joints.Some?
  }

  /** The first packet that reaches the joint branch; its copy has every name it brings. */
  function FirstJoints(stream: seq<Input>): Option<Vector> {
    if stream == [] then None
    else
      var before := FirstJoints(stream[..|stream| - 1]);
      if before.Some? then before
      else if IsJointPacket(stream[|stream| - 1]) then stream[|stream| - 1].joints
      else None
  }

  predicate OwnsProto(stream: seq<Input>) {
    FirstJoints(stream).Some? && Names(FirstJoints(stream).value, PROTO)
  }

  /** The entries a reference can be kept for: under the prototype's name only if the first
      packet brought it. */
  function Kept(v: seq<(string, real)>, proto: bool): (r: seq<(string, real)>) {
    if v == [] then []
    else
      Kept(v[..|v| - 1], proto) + if v[|v| - 1].0 == PROTO && !proto then [] else [v[|v| - 1]]
  }

  /** Every joint entry that is measured, in order. */
  function Entries(stream: seq<Input>): (v: seq<(string, real)>) {
    if stream == [] then []
    else
      var last := stream[|stream| - 1];
      Entries(stream[..|stream| - 1])
      + if IsJointPacket(last) then Kept(last.joints.value, OwnsProto(stream)) else []
  }

  /** The packet `v`, coming after `stream`, names something inherited for the first time: its
      motion is lost. The first packet is copied, and loses nothing. */
  predicate Loses(stream: seq<Input>, v: seq<(string, real)>) {
    FirstJoints(stream).Some? && exists i :: 0 <= i < |v| && Inherited(v[i].0) && !Names(Entries(stream), v[i].0)
  }

  /** Degrees credited to joints in packets whose motion was lost. */
  function LostCredit(stream: seq<Input>, names: seq<string>): (r: real) {
    if stream == [] then 0.0
    else
      var front, last := stream[..|stream| - 1], stream[|stream| - 1];
      LostCredit(front, names) +
      if IsJointPacket(last) && Loses(front, last.joints.value)
      then TotalCredit(Entries(stream), names) - TotalCredit(Entries(front), names) else 0.0
  }

  /** No packet after the first names something inherited that no earlier one named. */
  predicate Clean(stream: seq<Input>) {
    forall k :: 0 <= k < |stream| && IsJointPacket(stream[k]) ==> !Loses(stream[..k], stream[k].joints.value)
  }

  /** Motion contributed by browser axes. */
  function AxisMotion(stream: seq<Input>): (r: real) {
    if stream == [] then 0.0
    else
      var last := stream[|stream| - 1];
      AxisMotion(stream[..|stream| - 1]) +
      if last.axes.None? then 0.0
      else
        var g := GripperAxis(last.axes.value);
        AxisEffort(last.axes.value) + if g > 0.2 || g < -0.2 then Abs(g) else 0.0
  }

  function PositionsOf(v: seq<(string, real)>, name: string): (ps: seq<real>) {
    if v == [] then []
    else
      var front := PositionsOf(v[..|v| - 1], name);
      if v[|v| - 1].0 == name then front + [v[|v| - 1].1] else front
  }

  function TotalCredit(v: seq<(string, real)>, names: seq<string>): (r: real) {
    if names == [] then 0.0
    else TotalCredit(v, names[..|names| - 1]) + Credit(PositionsOf(v, names[|names| - 1]))
  }

  predicate NamesOf(v: seq<(string, real)>, names: seq<string>) {
    && (forall i, j :: 0 <= i < j < |names| ==> names[i] != names[j])
    && (forall i :: 0 <= i < |v| ==> v[i].0 in names)
  }

  lemma {:induction false} TotalCreditStep(v: seq<(string, real)>, e: (string, real), names: seq<string>)
    requires forall i, j :: 0 <= i < j < |names| ==> names[i] != names[j]
    ensures TotalCredit(v + [e], names) ==
            TotalCredit(v, names) +
            if e.0 in names then Credit(PositionsOf(v, e.0) + [e.1]) - Credit(PositionsOf(v, e.0)) else 0.0
  {
    assert (v + [e])[..|v|] == v;
    if names != [] {
      var front, last := names[..|names| - 1], names[|names| - 1];
      TotalCreditStep(v, e, front);
      assert names == front + [last];
    }
  }

  ghost predicate RefsAgree(refs: map<string, real>, v: seq<(string, real)>) {
    && (forall name :: name in refs <==> PositionsOf(v, name) != [])
    && (forall name :: name in refs ==> Some(refs[name]) == Ref(PositionsOf(v, name)))
  }

  /** The walk keeps one independent reference per joint and adds up their credits. */
  ghost predicate Measures(w: Walk, v: seq<(string, real)>, names: seq<string>, before: real) {
    RefsAgree(w.refs, v) && w.moved - before == TotalCredit(v, names) / 10.0
  }

  lemma {:induction false} WalkMeasures(w: Walk, seen: seq<(string, real)>, v: seq<(string, real)>,
                                        names: seq<string>, before: real, proto: bool)
    requires NamesOf(seen + Kept(v, proto), names) && Measures(w, seen, names, before)
    requires proto <==> PROTO in w.refs
    ensures Measures(WalkAll(w, v), seen + Kept(v, proto), names, before)
    ensures proto <==> PROTO in WalkAll(w, v).refs
  {
    if v == [] {
      assert seen + Kept(v, proto) == seen;
    } else {
      var front, last := v[..|v| - 1], v[|v| - 1];
      var before', after := seen + Kept(front, proto), seen + Kept(v, proto);
      NamesOfFront(seen, front, last, proto, names);
      WalkMeasures(w, seen, front, names, before, proto);
      if last.0 == PROTO && !proto {
        assert after == before';
      } else {
        assert after == before' + [last];
        assert after[|after| - 1] == last;
        EntryMeasures(WalkAll(w, front), before', last, names, before);
      }
    }
  }

  lemma NamesOfFront(seen: seq<(string, real)>, front: seq<(string, real)>, last: (string, real), proto: bool,
                     names: seq<string>)
    requires NamesOf(seen + Kept(front + [last], proto), names)
    ensures NamesOf(seen + Kept(front, proto), names)
  {
    assert (front + [last])[..|front|] == front;
    var whole, part := seen + Kept(front + [last], proto), seen + Kept(front, proto);
    assert forall i :: 0 <= i < |part| ==> part[i] == whole[i];
  }

  lemma PositionsStep(v: seq<(string, real)>, e: (string, real), name: string)
    ensures PositionsOf(v + [e], name) ==
            if name == e.0 then PositionsOf(v, name) + [e.1] else PositionsOf(v, name)
  {
    assert (v + [e])[..|v|] == v;
  }

  lemma JointStep(ps: seq<real>, pos: real)
    ensures ps != [] && Abs(pos - Ref(ps).value) < LEADER_BAND_DEG ==>
              Ref(ps + [pos]) == Ref(ps) && Credit(ps + [pos]) == Credit(ps)
    ensures ps != [] && Abs(pos - Ref(ps).value) >= LEADER_BAND_DEG ==>
              Ref(ps + [pos]) == Some(pos) && Credit(ps + [pos]) == Credit(ps) + Abs(pos - Ref(ps).value)
    ensures ps == [] ==> Ref(ps + [pos]) == Some(pos) && Credit(ps + [pos]) == Credit(ps)
  {
    assert (ps + [pos])[..|ps|] == ps;
  }

  /** One entry moves one reference, and pays exactly that joint's new credit. */
  lemma EntryPays(w: Walk, ps: seq<real>, name: string, pos: real, unset: Lookup)
    requires if name in w.refs then Ref(ps) == Some(w.refs[name]) else ps == [] && unset != Fixed
    ensures var r := EntryOf(w, name, pos, unset);
            && name in r.refs && Ref(ps + [pos]) == Some(r.refs[name])
            && r.refs == w.refs[name := r.refs[name]]
            && r.moved - w.moved == (Credit(ps + [pos]) - Credit(ps)) / 10.0
  {
    JointStep(ps, pos);
  }

  lemma EntryMeasures(w: Walk, v: seq<(string, real)>, e: (string, real), names: seq<string>, before: real)
    requires Measures(w, v, names, before) && e.0 in names && (e.0 == PROTO ==> PROTO in w.refs)
    requires forall i, j :: 0 <= i < j < |names| ==> names[i] != names[j]
    ensures Measures(Entry(w, e.0, e.1), v + [e], names, before)
  {
    TotalCreditStep(v, e, names);
    EntryPays(w, PositionsOf(v, e.0), e.0, e.1, Unset(e.0));
    EntryRefs(w.refs, v, e, Entry(w, e.0, e.1).refs);
  }

  lemma EntryRefs(refs: map<string, real>, v: seq<(string, real)>, e: (string, real), r: map<string, real>)
    requires RefsAgree(refs, v)
    requires e.0 in r && Ref(PositionsOf(v, e.0) + [e.1]) == Some(r[e.0])
    requires r == refs[e.0 := r[e.0]]
    ensures RefsAgree(r, v + [e])
  {
    forall name
      ensures PositionsOf(v + [e], name) ==
              if name == e.0 then PositionsOf(v, name) + [e.1] else PositionsOf(v, name)
    {
      PositionsStep(v, e, name);
    }
  }

  // ---- the first packet -----------------------------------------------------------------

  lemma {:induction false} PositionsNamed(v: seq<(string, real)>, name: string)
    ensures PositionsOf(v, name) != [] <==> Names(v, name)
  {
    if v != [] {
      var front := v[..|v| - 1];
      PositionsNamed(front, name);
      assert forall i :: 0 <= i < |front| ==> front[i] == v[i];
      assert v[|v| - 1].0 == name ==> Names(v, name);
    }
  }

  /** Copying a packet sets a reference for each of its names, and credits nothing. */
  lemma {:induction false} CopyAgrees(v: seq<(string, real)>)
    requires Distinct(v)
    ensures RefsAgree(AsMap(v), v)
    ensures forall name :: |PositionsOf(v, name)| <= 1
  {
    if v != [] {
      var front, last := v[..|v| - 1], v[|v| - 1];
      CopyAgrees(front);
      PositionsNamed(front, last.0);
      assert !Names(front, last.0);
      assert v == front + [last];
      EntryRefs(AsMap(front), front, last, AsMap(v));
      forall name
        ensures |PositionsOf(v, name)| <= 1
      {
        PositionsStep(front, last, name);
      }
    }
  }

  lemma {:induction false} SingleCredit(v: seq<(string, real)>, names: seq<string>)
    requires forall name :: |PositionsOf(v, name)| <= 1
    ensures TotalCredit(v, names) == 0.0
  {
    if names != [] {
      SingleCredit(v, names[..|names| - 1]);
      assert Credit(PositionsOf(v, names[|names| - 1])) == 0.0;
    }
  }

  lemma {:induction false} KeptAll(v: seq<(string, real)>, proto: bool)
    requires Names(v, PROTO) ==> proto
    ensures Kept(v, proto) == v
  {
    if v != [] {
      var front := v[..|v| - 1];
      assert forall i :: 0 <= i < |front| ==> front[i] == v[i];
      assert v[|v| - 1].0 == PROTO ==> Names(v, PROTO);
      KeptAll(front, proto);
    }
  }

  // ---- later packets ----------------------------------------------------------------------

  /** A packet is lost exactly when it looks up an inherited name nobody set before. */
  lemma {:induction false} WalkLoses(w: Walk, v: seq<(string, real)>)
    requires Distinct(v)
    ensures WalkAll(w, v).lost <==> w.lost || exists i :: 0 <= i < |v| && Inherited(v[i].0) && v[i].0 !in w.refs
    ensures forall name :: name in WalkAll(w, v).refs ==> name in w.refs || Names(v, name)
    ensures forall name :: name in w.refs ==> name in WalkAll(w, v).refs
  {
    if v != [] {
      var front, last := v[..|v| - 1], v[|v| - 1];
      assert forall i :: 0 <= i < |front| ==> front[i] == v[i];
      WalkLoses(w, front);
      assert !Names(front, last.0);
      WalkLosesLast(WalkAll(w, front), last.0, last.1);
      assert Names(v, last.0);
    }
  }

  lemma WalkLosesLast(w: Walk, name: string, pos: real)
    ensures Entry(w, name, pos).lost <==> w.lost || (Inherited(name) && name !in w.refs)
    ensures forall n :: n in Entry(w, name, pos).refs ==> n in w.refs || n == name
    ensures forall n :: n in w.refs ==> n in Entry(w, name, pos).refs
  {
    assert name == PROTO ==> Inherited(name);
  }

  function AsWalk(o: Odo, motion: real): Walk {
    Walk(if o.lastJoints.Some? then o.lastJoints.value else map[], motion, false, o.gripperFlips, o.gripperSign)
  }

  lemma {:induction false} WalkOffset(w: Walk, v: seq<(string, real)>, d: real)
    ensures WalkAll(w.(moved := w.moved + d), v) == WalkAll(w, v).(moved := WalkAll(w, v).moved + d)
    ensures WalkAll(w, v).moved >= w.moved
  {
    if v != [] {
      WalkOffset(w, v[..|v| - 1], d);
    }
  }

  /** What the odometer's references and motion are after a stream, in terms of the stream. */
  ghost predicate Accounts(o: Odo, stream: seq<Input>, names: seq<string>) {
    && RefsAgree(AsWalk(o, 0.0).refs, Entries(stream))
    && (o.lastJoints.None? <==> FirstJoints(stream).None?)
    && (o.lastJoints.None? ==> Entries(stream) == [])
    && (o.lastJoints.Some? ==> (PROTO in o.lastJoints.value <==> OwnsProto(stream)))
    && 10.0 * (o.motion - AxisMotion(stream)) == TotalCredit(Entries(stream), names) - LostCredit(stream, names)
  }

  lemma StreamFirst(stream: seq<Input>, input: Input, names: seq<string>)
    requires IsJointPacket(input) && FirstJoints(stream).None? && Entries(stream) == []
    ensures var whole := stream + [input];
            && FirstJoints(whole) == input.joints && Entries(whole) == input.joints.value
            && AxisMotion(whole) == AxisMotion(stream) && LostCredit(whole, names) == LostCredit(stream, names)
  {
    assert (stream + [input])[..|stream|] == stream;
    KeptAll(input.joints.value, Names(input.joints.value, PROTO));
  }

  lemma CopyOwns(v: Vector)
    ensures PROTO in AsMap(v) <==> Names(v, PROTO)
  {
    CopyAgrees(v);
    PositionsNamed(v, PROTO);
  }

  lemma FirstPacketAccounts(stream: seq<Input>, input: Input, names: seq<string>)
    requires IsJointPacket(input) && NamesOf(Entries(stream + [input]), names)
    requires Accounts(NoteAll(stream), stream, names) && FirstJoints(stream).None?
    ensures Accounts(Note(NoteAll(stream), input), stream + [input], names)
  {
    var v := input.joints.value;
    StreamFirst(stream, input, names);
    CopyAgrees(v);
    CopyOwns(v);
    SingleCredit(v, names);
    NoCredit(names);
  }

  /** The walk over a later packet: its references, its credit, and whether it is lost. */
  lemma LaterWalk(stream: seq<Input>, v: Vector, names: seq<string>)
    requires var o := NoteAll(stream); Accounts(o, stream, names) && o.lastJoints.Some?
    requires NamesOf(Entries(stream) + Kept(v, OwnsProto(stream)), names)
    ensures var w := WalkAll(AsWalk(NoteAll(stream), 0.0), v); var entries := Entries(stream) + Kept(v, OwnsProto(stream));
            && RefsAgree(w.refs, entries) && (PROTO in w.refs <==> OwnsProto(stream))
            && 10.0 * w.moved == TotalCredit(entries, names) - TotalCredit(Entries(stream), names)
            && w.moved >= 0.0
            && (w.lost <==> Loses(stream, v))
  {
    var o := NoteAll(stream);
    var paid := TotalCredit(Entries(stream), names) / 10.0;
    var w := AsWalk(o, 0.0);
    WalkMeasures(w, Entries(stream), v, names, -paid, OwnsProto(stream));
    WalkLoses(w, v);
    WalkOffset(w, v, 0.0);
    forall i | 0 <= i < |v|
      ensures v[i].0 in w.refs <==> Names(Entries(stream), v[i].0)
    {
      PositionsNamed(Entries(stream), v[i].0);
    }
  }

  lemma NoteLater(o: Odo, input: Input)
    requires IsJointPacket(input) && o.lastJoints.Some?
    ensures var w, r := WalkAll(AsWalk(o, 0.0), input.joints.value), Note(o, input);
            r.lastJoints == Some(w.refs) && (w.moved >= 0.0 ==> r.motion == o.motion + if w.lost then 0.0 else w.moved)
  {
  }

  lemma StreamLater(stream: seq<Input>, input: Input, names: seq<string>)
    requires IsJointPacket(input) && FirstJoints(stream).Some?
    ensures var whole := stream + [input]; var entries := Entries(stream) + Kept(input.joints.value, OwnsProto(stream));
            && FirstJoints(whole) == FirstJoints(stream) && (OwnsProto(whole) <==> OwnsProto(stream))
            && Entries(whole) == entries && AxisMotion(whole) == AxisMotion(stream)
            && LostCredit(whole, names) == LostCredit(stream, names) +
               if Loses(stream, input.joints.value)
               then TotalCredit(entries, names) - TotalCredit(Entries(stream), names) else 0.0
  {
    assert (stream + [input])[..|stream|] == stream;
  }

  lemma LaterPacketAccounts(stream: seq<Input>, input: Input, names: seq<string>)
    requires IsJointPacket(input) && NamesOf(Entries(stream + [input]), names)
    requires Accounts(NoteAll(stream), stream, names) && FirstJoints(stream).Some?
    ensures Accounts(Note(NoteAll(stream), input), stream + [input], names)
  {
    StreamLater(stream, input, names);
    LaterWalk(stream, input.joints.value, names);
    NoteLater(NoteAll(stream), input);
  }

  lemma StreamOther(stream: seq<Input>, input: Input, names: seq<string>)
    requires !IsJointPacket(input)
    ensures var whole := stream + [input];
            && FirstJoints(whole) == FirstJoints(stream) && Entries(whole) == Entries(stream)
            && LostCredit(whole, names) == LostCredit(stream, names)
  {
    assert (stream + [input])[..|stream|] == stream;
  }

  lemma NoteOther(stream: seq<Input>, input: Input)
    requires !IsJointPacket(input)
    ensures var o, r := NoteAll(stream), Note(NoteAll(stream), input);
            && r.lastJoints == o.lastJoints
            && r.motion - AxisMotion(stream + [input]) == o.motion - AxisMotion(stream)
  {
    assert (stream + [input])[..|stream|] == stream;
  }

  lemma OtherPacketAccounts(stream: seq<Input>, input: Input, names: seq<string>)
    requires !IsJointPacket(input) && Accounts(NoteAll(stream), stream, names)
    ensures Accounts(Note(NoteAll(stream), input), stream + [input], names)
  {
    StreamOther(stream, input, names);
    NoteOther(stream, input);
  }

  /** For every stream: ten times the odometer's motion is, joint by joint, exactly the credit
      defined above, plus what the browser axes contributed, less the credit of the packets
      that looked up an inherited name. */
  lemma {:induction false} MotionDecomposes(stream: seq<Input>, names: seq<string>)
    requires NamesOf(Entries(stream), names)
    ensures Accounts(NoteAll(stream), stream, names)
  {
    if stream == [] {
      NoCredit(names);
    } else {
      var front, last := stream[..|stream| - 1], stream[|stream| - 1];
      assert stream == front + [last];
      assert forall i :: 0 <= i < |Entries(front)| ==> Entries(front)[i] == Entries(stream)[i];
      MotionDecomposes(front, names);
      if !IsJointPacket(last) {
        OtherPacketAccounts(front, last, names);
      } else if FirstJoints(front).None? {
        FirstPacketAccounts(front, last, names);
      } else {
        LaterPacketAccounts(front, last, names);
      }
    }
  }

  lemma {:induction false} NoCredit(names: seq<string>)
    ensures TotalCredit([], names) == 0.0
  {
    if names != [] {
      NoCredit(names[..|names| - 1]);
    }
  }

  lemma CleanFront(stream: seq<Input>, last: Input)
    requires Clean(stream + [last])
    ensures Clean(stream)
    ensures IsJointPacket(last) ==> !Loses(stream, last.joints.value)
  {
    var whole := stream + [last];
    assert whole[..|stream|] == stream && whole[|stream|] == last;
    forall k | 0 <= k < |stream| && IsJointPacket(stream[k])
      ensures !Loses(stream[..k], stream[k].joints.value)
    {
      assert whole[k] == stream[k] && whole[..k] == stream[..k];
    }
  }

  lemma {:induction false} CleanLosesNothing(stream: seq<Input>, names: seq<string>)
    requires Clean(stream)
    ensures LostCredit(stream, names) == 0.0
  {
    if stream != [] {
      var front, last := stream[..|stream| - 1], stream[|stream| - 1];
      assert stream == front + [last];
      CleanFront(front, last);
      CleanLosesNothing(front, names);
    }
  }

  /** In a clean stream nothing is lost. */
  lemma CleanMotionDecomposes(stream: seq<Input>, names: seq<string>)
    requires NamesOf(Entries(stream), names) && Clean(stream)
    ensures 10.0 * (NoteAll(stream).motion - AxisMotion(stream)) == TotalCredit(Entries(stream), names)
  {
    MotionDecomposes(stream, names);
    CleanLosesNothing(stream, names);
  }

  /** What packet `k` would have been paid, were it not lost. */
  function Gain(stream: seq<Input>, k: nat, names: seq<string>): real
    requires k < |stream|
  {
    TotalCredit(Entries(stream[..k + 1]), names) - TotalCredit(Entries(stream[..k]), names)
  }

  /** Every packet that looks up an inherited name carries no motion anyway. */
  predicate LosesNothing(stream: seq<Input>, names: seq<string>) {
    forall k :: 0 <= k < |stream| && IsJointPacket(stream[k]) && Loses(stream[..k], stream[k].joints.value) ==>
      Gain(stream, k, names) == 0.0
  }

  lemma LosesNothingFront(front: seq<Input>, last: Input, names: seq<string>)
    ensures var gain := TotalCredit(Entries(front + [last]), names) - TotalCredit(Entries(front), names);
            LosesNothing(front + [last], names) <==>
            LosesNothing(front, names)
            && (IsJointPacket(last) && Loses(front, last.joints.value) ==> gain == 0.0)
  {
    var whole := front + [last];
    assert whole[..|front|] == front && whole[..|front| + 1] == whole && whole[|front|] == last;
    forall k | 0 <= k < |front|
      ensures whole[k] == front[k] && whole[..k] == front[..k] && Gain(whole, k, names) == Gain(front, k, names)
    {
      assert whole[..k + 1] == front[..k + 1];
    }
  }

  lemma {:induction false} LostExactlyWhen(stream: seq<Input>, names: seq<string>)
    requires NamesOf(Entries(stream), names)
    ensures LostCredit(stream, names) >= 0.0
    ensures LostCredit(stream, names) == 0.0 <==> LosesNothing(stream, names)
  {
    if stream != [] {
      var front, last := stream[..|stream| - 1], stream[|stream| - 1];
      assert stream == front + [last];
      assert forall i :: 0 <= i < |Entries(front)| ==> Entries(front)[i] == Entries(stream)[i];
      LostExactlyWhen(front, names);
      LosesNothingFront(front, last, names);
      if IsJointPacket(last) && Loses(front, last.joints.value) {
        MotionDecomposes(front, names);
        LaterWalk(front, last.joints.value, names);
      }
    }
  }

  /** The odometer pays every joint's credit in full if and only if no packet that moved a joint
      looked up an inherited name; otherwise it pays less. */
  lemma MotionIsWholeExactlyWhen(stream: seq<Input>, names: seq<string>)
    requires NamesOf(Entries(stream), names)
    ensures 10.0 * (NoteAll(stream).motion - AxisMotion(stream)) <= TotalCredit(Entries(stream), names)
    ensures 10.0 * (NoteAll(stream).motion - AxisMotion(stream)) == TotalCredit(Entries(stream), names)
            <==> LosesNothing(stream, names)
  {
    MotionDecomposes(stream, names);
    LostExactlyWhen(stream, names);
  }

  /** A packet's motion is lost exactly when it names something inherited for the first time and
      would have been credited anything: then neither motion nor count moves. Any other packet
      adds its credit in full. */
  lemma PacketLostExactlyWhen(stream: seq<Input>, v: Vector, names: seq<string>)
    requires FirstJoints(stream).Some?
    requires var all := Entries(stream) + Kept(v, OwnsProto(stream)); NamesOf(all, names)
    ensures var o, r := NoteAll(stream), NoteAll(stream + [Input(None, Some(v))]);
            var due := (TotalCredit(Entries(stream) + Kept(v, OwnsProto(stream)), names)
                        - TotalCredit(Entries(stream), names)) / 10.0;
            && due >= 0.0
            && r.motion == (if Loses(stream, v) then o.motion else o.motion + due)
            && r.packets == o.packets + (if due > 0.0 && !Loses(stream, v) then 1 else 0)
  {
    var input := Input(None, Some(v));
    var all := Entries(stream) + Kept(v, OwnsProto(stream));
    assert (stream + [input])[..|stream|] == stream;
    assert forall i :: 0 <= i < |Entries(stream)| ==> Entries(stream)[i] == all[i];
    MotionDecomposes(stream, names);
    LaterWalk(stream, v, names);
  }

  // ---- packets and flips are evidence too ----------------------------------------------

  ghost predicate LeaderOnly(stream: seq<Input>) {
    forall i :: 0 <= i < |stream| ==> stream[i].axes.None?
  }

  lemma {:induction false} WalkPays(w: Walk, v: seq<(string, real)>)
    ensures var r := WalkAll(w, v);
            && (r.moved == w.moved || r.moved - w.moved >= 0.2)
            && FLIP_DEG * (r.flips - w.flips) as real <= 10.0 * (r.moved - w.moved)
            && r.flips >= w.flips
  {
    if v != [] {
      WalkPays(w, v[..|v| - 1]);
    }
  }

  /** A leader is never counted for packets without moving. */
  lemma {:induction false} PacketsAreMotion(stream: seq<Input>)
    requires LeaderOnly(stream)
    ensures NoteAll(stream).packets as real <= 5.0 * NoteAll(stream).motion
  {
    if stream != [] {
      var front, last := stream[..|stream| - 1], stream[|stream| - 1];
      PacketsAreMotion(front);
      var o := NoteAll(front);
      if last.joints.Some? && o.lastJoints.Some? {
        WalkPays(AsWalk(o, 0.0), last.joints.value);
      }
    }
  }

  /** One later packet pays for its flips, by motion or by credit that is lost. */
  lemma PacketPaysFlips(stream: seq<Input>, input: Input, names: seq<string>)
    requires IsJointPacket(input) && FirstJoints(stream).Some? && NamesOf(Entries(stream + [input]), names)
    requires Accounts(NoteAll(stream), stream, names)
    ensures var o, r := NoteAll(stream), Note(NoteAll(stream), input);
            FLIP_DEG * (r.gripperFlips - o.gripperFlips) as real
            <= 10.0 * (r.motion - o.motion) + LostCredit(stream + [input], names) - LostCredit(stream, names)
  {
    assert (stream + [input])[..|stream|] == stream;
    LaterWalk(stream, input.joints.value, names);
    WalkPays(AsWalk(NoteAll(stream), 0.0), input.joints.value);
  }

  /** Gripper flips are paid for, by motion or by credit that was lost. */
  lemma {:induction false} FlipsArePaid(stream: seq<Input>, names: seq<string>)
    requires LeaderOnly(stream) && NamesOf(Entries(stream), names)
    ensures FLIP_DEG * NoteAll(stream).gripperFlips as real <= 10.0 * NoteAll(stream).motion + LostCredit(stream, names)
  {
    if stream != [] {
      var front, last := stream[..|stream| - 1], stream[|stream| - 1];
      assert stream == front + [last];
      assert forall i :: 0 <= i < |Entries(front)| ==> Entries(front)[i] == Entries(stream)[i];
      FlipsArePaid(front, names);
      MotionDecomposes(front, names);
      if last.joints.Some? && FirstJoints(front).Some? {
        PacketPaysFlips(front, last, names);
      } else {
        assert NoteAll(stream) == Note(NoteAll(front), last);
        assert LostCredit(stream, names) == LostCredit(front, names);
      }
    }
  }

  /** A leader can neither be counted for packets nor, in a clean stream, for gripper flips
      without moving. */
  lemma LeaderEvidenceIsMotion(stream: seq<Input>)
    requires LeaderOnly(stream)
    ensures var o := NoteAll(stream);
            && o.packets as real <= 5.0 * o.motion
            && (Clean(stream) ==> FLIP_DEG * o.gripperFlips as real <= 10.0 * o.motion)
  {
    PacketsAreMotion(stream);
    if Clean(stream) {
      var names := AllNames(Entries(stream));
      FlipsArePaid(stream, names);
      CleanLosesNothing(stream, names);
    }
  }

  lemma {:induction false} AllNames(v: seq<(string, real)>) returns (names: seq<string>)
    ensures NamesOf(v, names)
  {
    names := [];
    if v != [] {
      var front := v[..|v| - 1];
      names := AllNames(front);
      assert forall i :: 0 <= i < |front| ==> front[i] == v[i];
      if v[|v| - 1].0 !in names {
        names := names + [v[|v| - 1].0];
      }
    }
  }

  // ---- inherited names, concretely --------------------------------------------------------

  /** One packet of a gripper swing that also names `other`. */
  function Swing(pos: real, other: string): Input
    requires other != "gripper"
  {
    Input(None, Some([("gripper", pos), (other, 0.0)]))
  }

  lemma GripperIsGripper()
    ensures IsGripper("gripper")
  {
    assert "gripper"[0..] == "gripper";
    assert GripperAt("gripper"[0..]);
  }

  /** A swing of at least 8 degrees whose packet looks up an inherited name: the references and
      the sign move on, a flip is counted, and neither motion nor the packet is. */
  lemma LostSwing(o: Odo, pos: real, other: string)
    requires other != "gripper" && Inherited(other)
    requires o.lastJoints.Some? && "gripper" in o.lastJoints.value && other !in o.lastJoints.value
    requires Abs(pos - o.lastJoints.value["gripper"]) >= FLIP_DEG
    ensures var r := Note(o, Swing(pos, other)); var sign := if pos > o.lastJoints.value["gripper"] then 1 else -1;
            && r.motion == o.motion && r.packets == o.packets
            && r.gripperFlips == o.gripperFlips + (if o.gripperSign != 0 && sign != o.gripperSign then 1 else 0)
            && r.gripperSign == sign
            && r.lastJoints.Some? && "gripper" in r.lastJoints.value && r.lastJoints.value["gripper"] == pos
            && r.lastJoints.value.Keys <= o.lastJoints.value.Keys + {other}
            && (other == PROTO ==> other !in r.lastJoints.value)
  {
    GripperIsGripper();
    var v := Swing(pos, other).joints.value;
    var w := AsWalk(o, 0.0);
    assert v[..1] == [("gripper", pos)] && v[..1][..0] == [];
    assert WalkAll(w, v[..1]) == EntryOf(w, "gripper", pos, Unset("gripper"));
    assert WalkAll(w, v) == EntryOf(WalkAll(w, v[..1]), other, 0.0, Unset(other));
  }

  const SWINGS: seq<Input> := [Input(None, Some([("gripper", 0.0)])), Swing(50.0, "constructor"), Swing(0.0, "toString")]

  lemma SwingsNoted()
    ensures NoteAll(SWINGS) == Note(Note(Note(FRESH, SWINGS[0]), SWINGS[1]), SWINGS[2])
  {
    NoteOneMore([], SWINGS[0]);
    NoteOneMore([SWINGS[0]], SWINGS[1]);
    NoteOneMore([SWINGS[0], SWINGS[1]], SWINGS[2]);
    assert [] + [SWINGS[0]] == [SWINGS[0]] && [SWINGS[0]] + [SWINGS[1]] == [SWINGS[0], SWINGS[1]];
    assert [SWINGS[0], SWINGS[1]] + [SWINGS[2]] == SWINGS;
  }

  lemma NoteOneMore(stream: seq<Input>, input: Input)
    ensures NoteAll(stream + [input]) == Note(NoteAll(stream), input)
  {
    assert (stream + [input])[..|stream|] == stream;
  }

  /** Both results fail without their condition: three packets of a leader end with a gripper flip,
      no motion and no packet counted. */
  lemma InheritedNamesLoseMotion()
    ensures LeaderOnly(SWINGS) && !Clean(SWINGS)
    ensures var o := NoteAll(SWINGS);
            && o.gripperFlips == 1 && o.motion == 0.0 && o.packets == 0
            && FLIP_DEG * o.gripperFlips as real > 10.0 * o.motion
  {
    SwingsNoted();
    FirstSwing();
    LostSwing(Note(FRESH, SWINGS[0]), 50.0, "constructor");
    LostSwing(Note(Note(FRESH, SWINGS[0]), SWINGS[1]), 0.0, "toString");
    LeaderEvidenceIsMotion(SWINGS);
  }

  lemma FirstSwing()
    ensures Note(FRESH, Input(None, Some([("gripper", 0.0)]))) == FRESH.(lastJoints := Some(map["gripper" := 0.0]))
  {
    var v: seq<(string, real)> := [("gripper", 0.0)];
    assert v[..0] == [] && AsMap(v[..0]) == map[];
    assert AsMap(v) == map["gripper" := 0.0];
  }

  /** Packets that name the prototype do this without end: any number of flips, and no motion. */
  lemma {:induction false} FlipsWithoutEnd(n: nat) returns (stream: seq<Input>)
    ensures LeaderOnly(stream)
    ensures var o := NoteAll(stream);
            && o.gripperFlips == n && o.motion == 0.0 && o.packets == 0 && o.gripperSign in {-1, 1}
            && o.lastJoints.Some? && "gripper" in o.lastJoints.value && PROTO !in o.lastJoints.value
            && o.lastJoints.value["gripper"] == if o.gripperSign == 1 then 50.0 else 0.0
  {
    var before, input;
    if n == 0 {
      var first := Input(None, Some([("gripper", 0.0)]));
      FirstSwing();
      assert [first][..0] == [] && NoteAll([first]) == Note(FRESH, first);
      before, input := [first], Swing(50.0, PROTO);
      LostSwing(NoteAll(before), 50.0, PROTO);
    } else {
      before := FlipsWithoutEnd(n - 1);
      var pos := if NoteAll(before).gripperSign == 1 then 0.0 else 50.0;
      input := Swing(pos, PROTO);
      LostSwing(NoteAll(before), pos, PROTO);
    }
    stream := before + [input];
    assert stream[..|before|] == before;
  }

  ghost predicate Still(o: Odo, v: seq<(string, real)>) {
    && o.lastJoints.Some?
    && forall e :: e in v ==> e.0 in o.lastJoints.value && Abs(e.1 - o.lastJoints.value[e.0]) < LEADER_BAND_DEG
  }

  lemma {:induction false} StillWalk(w: Walk, v: seq<(string, real)>)
    requires forall e :: e in v ==> e.0 in w.refs && Abs(e.1 - w.refs[e.0]) < LEADER_BAND_DEG
    ensures WalkAll(w, v) == w
  {
    if v != [] {
      StillWalk(w, v[..|v| - 1]);
      assert v[|v| - 1] in v;
    }
  }

  /** A leader resting on the desk leaves the whole odometer as it was, for any number of
      packets. */
  lemma {:induction false} StillnessLeavesNoTrace(stream: seq<Input>, still: seq<Input>)
    requires LeaderOnly(still)
    requires forall i :: 0 <= i < |still| && still[i].joints.Some? ==> Still(NoteAll(stream), still[i].joints.value)
    ensures NoteAll(stream + still) == NoteAll(stream)
  {
    if still == [] {
      assert stream + still == stream;
    } else {
      var front, last := still[..|still| - 1], still[|still| - 1];
      StillnessLeavesNoTrace(stream, front);
      assert (stream + still)[..|stream + still| - 1] == stream + front;
      if last.joints.Some? {
        StillWalk(AsWalk(NoteAll(stream), 0.0), last.joints.value);
      }
    }
  }
}
