/**
 The online counter of gripper direction reversals (apps/web/src/market/sampler.ts).

 The counter keeps three numbers and sees each position once. It is measured here against
 an offline definition: the longest chain of alternating swings, each at least one
 hysteresis band wide, that the whole stream contains.
 */
module GripperTracker {
  import opened Prelude

  const BAND := 8.0

  datatype Tracker = Tracker(extreme: Option<real>, direction: int, reversals: nat)

  const START := Tracker(None, 0, 0)

  /** What one position does to the tracker. */
  function Track(t: Tracker, pos: real): (r: Tracker) {
    if t.extreme.None? then t.(extreme := Some(pos))
    else
      var delta := pos - t.extreme.value;
      if Abs(delta) >= BAND then
        var direction := if delta > 0.0 then 1 else -1;
        Tracker(Some(pos), direction,
                if t.direction != 0 && direction != t.direction then t.reversals + 1 else t.reversals)
      else if (if t.direction == 1 then pos > t.extreme.value else pos < t.extreme.value) then
        t.(extreme := Some(pos))
      else t
  }

  function TrackAll(ps: seq<real>): (t: Tracker)
    ensures t.extreme.None? <==> ps == []
    ensures t.direction in {-1, 0, 1}
    ensures t.direction == 0 ==> t.reversals == 0
  {
    if ps == [] then START else Track(TrackAll(ps[..|ps| - 1]), ps[|ps| - 1])
  }

  /** The fields that `trackJointGripper` updates in place. */
  class JointGripper {
    var extreme: Option<real>
    var direction: int
    var reversals: nat

    function View(): Tracker
      reads this
    {
      Tracker(extreme, direction, reversals)
    }

    constructor ()
      ensures View() == TrackAll([])
    {
      extreme, direction, reversals := None, 0, 0;
    }

    method TrackJointGripper(pos: real)
      modifies this
      ensures View() == Track(old(View()), pos)
    {
      if extreme.None? {
        extreme := Some(pos);
        return;
      }
      var delta := pos - extreme.value;
      if Abs(delta) >= BAND {
        var next := if delta > 0.0 then 1 else -1;
        if direction != 0 && next != direction {
          reversals := reversals + 1;
        }
        direction := next;
        extreme := Some(pos);
      } else if (if direction == 1 then pos > extreme.value else pos < extreme.value) {
        extreme := Some(pos);
      }
    }

    /** Feeding a whole stream, one call per sample. */
    method TrackStream(ps: seq<real>)
      requires View() == TrackAll([])
      modifies this
      ensures View() == TrackAll(ps)
    {
      for i := 0 to |ps|
        invariant View() == TrackAll(ps[..i])
      {
        TrackJointGripper(ps[i]);
        assert ps[..i + 1][..i] == ps[..i];
      }
      assert ps[..|ps|] == ps;
    }
  }

  // ---- the offline definition ---------------------------------------------------------

  function Signed(up: bool, x: real): real {
    if up then x else -x
  }

  ghost predicate Swing(ps: seq<real>, i: nat, j: nat, up: bool)
    requires i < |ps| && j < |ps|
  {
    Signed(up, ps[j] - ps[i]) >= BAND
  }

  /** `c` lists increasing indices; consecutive ones are a swing apart, swings alternate,
      and the last one goes `up`. The chain makes `|c| - 1` swings. */
  ghost predicate Chain(ps: seq<real>, c: seq<nat>, up: bool)
    decreases |c|
  {
    && c != []
    && c[|c| - 1] < |ps|
    && (|c| > 1 ==>
          && c[|c| - 2] < c[|c| - 1]
          && Swing(ps, c[|c| - 2], c[|c| - 1], up)
          && Chain(ps, c[..|c| - 1], !up))
  }

  /** Swings credited by the tracker: reversals, and one more once a direction is set. */
  function Credited(t: Tracker): nat {
    t.reversals + if t.direction == 0 then 0 else 1
  }

  /** How many positions arrive before the tracker first sets a direction. */
  function LeadIn(ps: seq<real>): (k: nat)
    ensures k <= |ps|
    ensures TrackAll(ps[..k]).direction == 0
    ensures k < |ps| ==> TrackAll(ps[..k + 1]).direction != 0
    ensures TrackAll(ps).direction == 0 <==> k == |ps|
  {
    if TrackAll(ps).direction == 0 then
      assert ps[..|ps|] == ps;
      |ps|
    else
      var front := ps[..|ps| - 1];
      var k := LeadIn(front);
      assert front[..k] == ps[..k];
      assert k < |front| ==> front[..k + 1] == ps[..k + 1];
      assert k == |front| ==> ps[..k + 1] == ps;
      k
  }

  ghost predicate Wide(ps: seq<real>) {
    exists i: nat, j: nat :: i < |ps| && j < |ps| && ps[i] - ps[j] >= BAND
  }

  /** The one swing the tracker can miss: before it has a direction it follows the minimum,
      so a slow fall of a whole band leaves no trace unless the first direction set is down. */
  ghost predicate MissesOne(ps: seq<real>) {
    var k := LeadIn(ps);
    Wide(ps[..k]) && !(k < |ps| && TrackAll(ps[..k + 1]).direction == -1)
  }

  ghost function Longest(ps: seq<real>): int {
    Credited(TrackAll(ps)) + if MissesOne(ps) then 1 else 0
  }

  // ---- chains and one more position ---------------------------------------------------

  lemma {:induction false} ChainGrows(ps: seq<real>, pos: real, c: seq<nat>, up: bool)
    requires Chain(ps, c, up)
    ensures Chain(ps + [pos], c, up)
    decreases |c|
  {
    if |c| > 1 {
      ChainBelow(ps, c, up);
      ChainGrows(ps, pos, c[..|c| - 1], !up);
    }
  }

  lemma {:induction false} ChainShrinks(ps: seq<real>, pos: real, c: seq<nat>, up: bool)
    requires Chain(ps + [pos], c, up) && c[|c| - 1] < |ps|
    ensures Chain(ps, c, up)
    decreases |c|
  {
    if |c| > 1 {
      ChainShrinks(ps, pos, c[..|c| - 1], !up);
    }
  }

  lemma ChainBelow(ps: seq<real>, c: seq<nat>, up: bool)
    requires Chain(ps, c, up)
    ensures |c| > 1 ==> c[|c| - 2] < |ps|
  {
  }

  /** Upper bounds the tracker's state certifies: chains ending in the tracked direction make
      at most `e + 1` swings, the others at most `e`, and the long ones end inside `extreme`. */
  ghost predicate Certified(ps: seq<real>, e: int, up: bool, extreme: real) {
    && (forall c :: Chain(ps, c, up) ==> |c| - 1 <= e + 1)
    && (forall c :: Chain(ps, c, !up) && |c| > 1 ==> |c| - 1 <= e)
    && (forall c :: Chain(ps, c, up) && |c| - 1 >= e ==> Signed(up, extreme - ps[c[|c| - 1]]) >= 0.0)
  }

  /** A chain of the longer stream either is an old chain or ends at the new position. */
  lemma NewChain(ps: seq<real>, pos: real, c: seq<nat>, up: bool)
    requires Chain(ps + [pos], c, up)
    ensures c[|c| - 1] < |ps| ==> Chain(ps, c, up)
    ensures c[|c| - 1] == |ps| && |c| > 1 ==> Chain(ps, c[..|c| - 1], !up)
    ensures c[|c| - 1] == |ps| && |c| == 2 ==> Chain(ps, c[..1], up)
    ensures c[|c| - 1] == |ps| && |c| > 1 ==>
              Signed(up, pos - ps[c[..|c| - 1][|c| - 2]]) >= BAND
  {
    if c[|c| - 1] < |ps| {
      ChainShrinks(ps, pos, c, up);
    } else if |c| > 1 {
      ChainShrinks(ps, pos, c[..|c| - 1], !up);
    }
  }

  lemma Continue(ps: seq<real>, pos: real, e: int, up: bool, extreme: real, extreme': real)
    requires Certified(ps, e, up, extreme) && e >= 0
    requires Signed(up, extreme - pos) < BAND
    requires extreme' == if Signed(up, pos - extreme) > 0.0 then pos else extreme
    ensures Certified(ps + [pos], e, up, extreme')
  {
    forall c | Chain(ps + [pos], c, up)
      ensures |c| - 1 <= e + 1
      ensures Signed(up, extreme' - (ps + [pos])[c[|c| - 1]]) >= 0.0 || |c| - 1 < e
    {
      NewChain(ps, pos, c, up);
      if c[|c| - 1] == |ps| && |c| > 2 {
        assert Chain(ps, c[..|c| - 1], !up) && |c[..|c| - 1]| > 1;
      }
    }
    forall c | Chain(ps + [pos], c, !up) && |c| > 1
      ensures |c| - 1 <= e
    {
      NewChain(ps, pos, c, !up);
    }
  }

  lemma Turn(ps: seq<real>, pos: real, e: int, up: bool, extreme: real)
    requires Certified(ps, e, up, extreme) && e >= 0
    requires Signed(up, extreme - pos) >= BAND
    ensures Certified(ps + [pos], e + 1, !up, pos)
  {
    forall c | Chain(ps + [pos], c, !up)
      ensures |c| - 1 <= e + 2
      ensures |c| - 1 >= e + 1 ==> Signed(!up, pos - (ps + [pos])[c[|c| - 1]]) >= 0.0
    {
      NewChain(ps, pos, c, !up);
    }
    forall c | Chain(ps + [pos], c, up) && |c| > 1
      ensures |c| - 1 <= e + 1
    {
      NewChain(ps, pos, c, up);
      if c[|c| - 1] == |ps| && |c| > 2 {
        assert Chain(ps, c[..|c| - 1], !up) && |c[..|c| - 1]| > 1;
      }
    }
  }

  // ---- the lead-in --------------------------------------------------------------------

  /** Before a direction is set the extreme is the minimum and nothing has risen a band. */
  lemma {:induction false} LeadInFacts(ps: seq<real>) returns (m: nat)
    requires ps != [] && TrackAll(ps).direction == 0
    ensures m < |ps| && ps[m] == TrackAll(ps).extreme.value
    ensures forall i: nat :: i < |ps| ==> ps[m] <= ps[i]
    ensures forall i: nat, j: nat :: i < j < |ps| ==> ps[j] - ps[i] < BAND
  {
    if |ps| == 1 {
      m := 0;
    } else {
      var front := ps[..|ps| - 1];
      m := LeadInFacts(front);
      if ps[|ps| - 1] < ps[m] {
        m := |ps| - 1;
      }
    }
  }

  /** In a stream with no rise of a band, every chain is a point or a single fall. */
  lemma NoRiseChains(ps: seq<real>, c: seq<nat>, up: bool)
    requires forall i: nat, j: nat :: i < j < |ps| ==> ps[j] - ps[i] < BAND
    requires Chain(ps, c, up)
    ensures |c| <= 2
    ensures |c| == 2 ==> !up && Wide(ps)
  {
    if |c| > 1 {
      assert Swing(ps, c[|c| - 2], c[|c| - 1], up);
    }
  }

  lemma CertifyLeadIn(ps: seq<real>)
    requires ps != [] && TrackAll(ps).direction == 0
    ensures Certified(ps, if Wide(ps) then 0 else -1, false, TrackAll(ps).extreme.value)
  {
    var m := LeadInFacts(ps);
    forall c, up | Chain(ps, c, up)
      ensures |c| <= 2 && (|c| == 2 ==> !up && Wide(ps))
    {
      NoRiseChains(ps, c, up);
    }
  }

  lemma CertifyFirst(ps: seq<real>, pos: real)
    requires ps != [] && TrackAll(ps).direction == 0
    requires Abs(pos - TrackAll(ps).extreme.value) >= BAND
    ensures var up := pos > TrackAll(ps).extreme.value;
            Certified(ps + [pos], if up && Wide(ps) then 1 else 0, up, pos)
  {
    var m := LeadInFacts(ps);
    var up := pos > ps[m];
    if up && Wide(ps) {
      CertifyLeadIn(ps);
      Turn(ps, pos, 0, false, ps[m]);
    } else {
      forall c, u | Chain(ps + [pos], c, u)
        ensures |c| == 1 || (|c| == 2 && u == up)
      {
        FirstChains(ps, pos, m, c, u);
      }
      forall i: nat | i < |ps|
        ensures Signed(up, pos - ps[i]) >= 0.0
      {
        assert ps[i] - ps[m] >= BAND ==> Wide(ps);
      }
    }
  }

  lemma FirstChains(ps: seq<real>, pos: real, m: nat, c: seq<nat>, u: bool)
    requires m < |ps| && forall i: nat :: i < |ps| ==> ps[m] <= ps[i]
    requires forall i: nat, j: nat :: i < j < |ps| ==> ps[j] - ps[i] < BAND
    requires Abs(pos - ps[m]) >= BAND
    requires pos > ps[m] ==> !Wide(ps)
    requires Chain(ps + [pos], c, u)
    ensures |c| == 1 || (|c| == 2 && u == (pos > ps[m]))
  {
    NewChain(ps, pos, c, u);
    if c[|c| - 1] < |ps| {
      NoRiseChains(ps, c, u);
    } else if |c| > 1 {
      var d := c[..|c| - 1];
      NoRiseChains(ps, d, !u);
      var last := d[|d| - 1];
      assert last < |ps|;
      assert ps[last] - ps[m] >= BAND ==> Wide(ps);
    }
  }

  // ---- the main theorem ---------------------------------------------------------------

  /** The excess over the credited swings, less one: what `Certified` is stated with. */
  ghost function Level(ps: seq<real>): int {
    Longest(ps) - 1
  }

  lemma FrontOf(ps: seq<real>) returns (front: seq<real>, pos: real)
    requires ps != []
    ensures front == ps[..|ps| - 1] && pos == ps[|ps| - 1] && ps == front + [pos]
    ensures TrackAll(ps) == Track(TrackAll(front), pos)
  {
    front, pos := ps[..|ps| - 1], ps[|ps| - 1];
  }

  /** A first direction fixes whether a swing was missed, for good. */
  lemma MissesOneStep(ps: seq<real>)
    requires |ps| > 1
    ensures var front := ps[..|ps| - 1];
            TrackAll(front).direction != 0 ==> (MissesOne(ps) <==> MissesOne(front))
    ensures TrackAll(ps).direction == 0 ==> (MissesOne(ps) <==> Wide(ps))
    ensures var front := ps[..|ps| - 1];
            TrackAll(front).direction == 0 && TrackAll(ps).direction != 0
            ==> (MissesOne(ps) <==> Wide(front) && TrackAll(ps).direction == 1)
  {
    var front := ps[..|ps| - 1];
    var k := LeadIn(ps);
    assert ps[..|ps|] == ps && front[..|front|] == front;
    if TrackAll(ps).direction != 0 {
      assert k == LeadIn(front);
      assert front[..k] == ps[..k];
      if k < |front| {
        assert front[..k + 1] == ps[..k + 1];
      } else {
        assert ps[..k + 1] == ps;
      }
    }
  }

  /** Once a direction is set, one position either keeps it, advancing the extreme, or turns. */
  lemma TrackStep(t: Tracker, pos: real)
    requires t.direction in {-1, 1} && t.extreme.Some?
    ensures var up := t.direction == 1; var r := Track(t, pos); var e := t.extreme.value;
            if Signed(up, e - pos) >= BAND
            then r == Tracker(Some(pos), -t.direction, t.reversals + 1)
            else r == t.(extreme := Some(if Signed(up, pos - e) > 0.0 then pos else e))
  {
  }

  lemma CertifyStep(front: seq<real>, pos: real, e: nat, t: Tracker)
    requires t.direction in {-1, 1} && t.extreme.Some?
    requires Certified(front, e, t.direction == 1, t.extreme.value)
    ensures var r := Track(t, pos);
            Certified(front + [pos], e + r.reversals - t.reversals, r.direction == 1, r.extreme.value)
  {
    var up := t.direction == 1;
    TrackStep(t, pos);
    if Signed(up, t.extreme.value - pos) >= BAND {
      Turn(front, pos, e, up, t.extreme.value);
    } else {
      Continue(front, pos, e, up, t.extreme.value, Track(t, pos).extreme.value);
    }
  }

  lemma CertifyNext(ps: seq<real>, front: seq<real>, pos: real)
    requires |ps| > 1 && front == ps[..|ps| - 1] && ps == front + [pos]
    requires TrackAll(front).direction != 0 && TrackAll(ps) == Track(TrackAll(front), pos)
    requires var t := TrackAll(front); Certified(front, Level(front), t.direction == 1, t.extreme.value)
    ensures var t := TrackAll(ps); Certified(ps, Level(ps), t.direction == 1, t.extreme.value)
  {
    MissesOneStep(ps);
    TrackStep(TrackAll(front), pos);
    CertifyStep(front, pos, Level(front), TrackAll(front));
  }

  lemma {:induction false} Certify(ps: seq<real>)
    requires ps != []
    ensures var t := TrackAll(ps);
            Certified(ps, Level(ps), t.direction == 1, t.extreme.value)
  {
    if TrackAll(ps).direction == 0 {
      CertifyLeadIn(ps);
      assert ps[..|ps|] == ps;
    } else {
      var front, pos := FrontOf(ps);
      assert |front| > 0;
      MissesOneStep(ps);
      if TrackAll(front).direction == 0 {
        CertifyFirst(front, pos);
      } else {
        Certify(front);
        CertifyNext(ps, front, pos);
      }
    }
  }

  /** A chain of `n` swings in direction `up` that ends at a position equal to `extreme`. */
  ghost predicate Attained(ps: seq<real>, n: int, up: bool, extreme: real) {
    exists c :: Chain(ps, c, up) && |c| - 1 == n && ps[c[|c| - 1]] == extreme
  }

  lemma AttainStep(front: seq<real>, pos: real, n: nat)
    requires front != [] && TrackAll(front).direction != 0 && n > 0
    requires Attained(front, n, TrackAll(front).direction == 1, TrackAll(front).extreme.value)
    ensures var t := Track(TrackAll(front), pos);
            Attained(front + [pos], n + t.reversals - TrackAll(front).reversals,
                     t.direction == 1, t.extreme.value)
  {
    var before := TrackAll(front);
    var t := Track(before, pos);
    var up := before.direction == 1;
    TrackStep(before, pos);
    var d: seq<nat> :| Chain(front, d, up) && |d| - 1 == n && front[d[|d| - 1]] == before.extreme.value;
    ChainGrows(front, pos, d, up);
    if Signed(up, before.extreme.value - pos) >= BAND {
      var c := d + [|front|];
      assert c[..|c| - 1] == d;
      assert Chain(front + [pos], c, !up);
    } else if t.extreme != before.extreme {
      var c := d[..n] + [|front|];
      assert c[..n] == d[..n];
      assert Swing(front + [pos], d[n - 1], |front|, up);
      assert Chain(front + [pos], c, up);
    } else {
      assert Chain(front + [pos], d, up);
    }
  }

  lemma AttainFirst(ps: seq<real>, pos: real)
    requires ps != [] && TrackAll(ps).direction == 0
    requires Abs(pos - TrackAll(ps).extreme.value) >= BAND
    ensures var up := pos > TrackAll(ps).extreme.value;
            Attained(ps + [pos], if up && Wide(ps) then 2 else 1, up, pos)
  {
    var up := pos > TrackAll(ps).extreme.value;
    var d := LeadInWitness(ps);
    ChainGrows(ps, pos, d, false);
    var c := if up then d + [|ps|] else [d[|d| - 1], |ps|];
    assert c[..|c| - 1] == if up then d else [d[|d| - 1]];
    assert Swing(ps + [pos], c[|c| - 2], c[|c| - 1], up);
    assert Chain(ps + [pos], c, up);
  }

  /** The matching lower bound: a chain of `Longest` swings that ends at the extreme. */
  lemma {:induction false} Attain(ps: seq<real>)
    requires ps != []
    ensures var t := TrackAll(ps);
            Attained(ps, Longest(ps), t.direction == 1, t.extreme.value)
  {
    if TrackAll(ps).direction == 0 {
      assert ps[..|ps|] == ps;
      var c := LeadInWitness(ps);
    } else {
      var front, pos := FrontOf(ps);
      MissesOneStep(ps);
      if TrackAll(front).direction == 0 {
        AttainFirst(front, pos);
      } else {
        Attain(front);
        AttainStep(front, pos, Longest(front));
        TrackStep(TrackAll(front), pos);
      }
    }
  }

  lemma LeadInWitness(ps: seq<real>) returns (c: seq<nat>)
    requires ps != [] && TrackAll(ps).direction == 0
    ensures Chain(ps, c, false)
    ensures |c| - 1 == if Wide(ps) then 1 else 0
    ensures ps[c[|c| - 1]] == TrackAll(ps).extreme.value
  {
    var m := LeadInFacts(ps);
    if Wide(ps) {
      var i: nat, j: nat :| i < |ps| && j < |ps| && ps[i] - ps[j] >= BAND;
      assert ps[i] - ps[m] >= BAND;
      c := [i, m];
      assert c[..1] == [i];
    } else {
      c := [m];
    }
  }

  /** The online count is the offline optimum, short by exactly the one swing that
      `MissesOne` describes; in particular it is within one of it. */
  lemma CreditIsLongestChain(ps: seq<real>)
    requires ps != []
    ensures exists c, up :: Chain(ps, c, up) && |c| - 1 == Longest(ps)
    ensures forall c, up :: Chain(ps, c, up) ==> |c| - 1 <= Longest(ps)
    ensures Credited(TrackAll(ps)) <= Longest(ps) <= Credited(TrackAll(ps)) + 1
    ensures Longest(ps) == Credited(TrackAll(ps)) + 1 <==> MissesOne(ps)
  {
    Attain(ps);
    Certify(ps);
  }

  /** The missed swing, concretely: a fall from 8 through 4 to 0 is a swing of a whole band, and the
      tracker credits nothing. */
  lemma SlowFallIsMissed()
    ensures Credited(TrackAll([8.0, 4.0, 0.0])) == 0 && MissesOne([8.0, 4.0, 0.0]) && Longest([8.0, 4.0, 0.0]) == 1
  {
    var ps := [8.0, 4.0, 0.0];
    assert ps[..2] == [8.0, 4.0] && ps[..2][..1] == [8.0] && ps[..2][..1][..0] == [];
    assert TrackAll([8.0]) == Tracker(Some(8.0), 0, 0) by {
      assert [8.0][..0] == [];
    }
    assert TrackAll([8.0, 4.0]) == Tracker(Some(4.0), 0, 0) by {
      assert [8.0, 4.0][..1] == [8.0];
    }
    assert TrackAll(ps) == Tracker(Some(0.0), 0, 0);
    assert ps[..LeadIn(ps)] == ps;
    assert ps[0] - ps[2] >= BAND;
  }

  // ---- what a reversal costs ----------------------------------------------------------

  function Travel(ps: seq<real>): (r: real)
    ensures r >= 0.0
  {
    if |ps| < 2 then 0.0 else Travel(ps[..|ps| - 1]) + Abs(ps[|ps| - 1] - ps[|ps| - 2])
  }

  lemma {:induction false} TravelBetween(ps: seq<real>, i: nat, j: nat)
    requires i <= j < |ps|
    ensures Travel(ps[..j + 1]) >= Travel(ps[..i + 1]) + Abs(ps[j] - ps[i])
    decreases j
  {
    if i < j {
      TravelBetween(ps, i, j - 1);
      assert ps[..j + 1][..j] == ps[..j];
    }
  }

  lemma {:induction false} SwingsCostTravel(ps: seq<real>, c: seq<nat>, up: bool)
    requires Chain(ps, c, up)
    ensures BAND * (|c| - 1) as real <= Travel(ps[..c[|c| - 1] + 1])
    decreases |c|
  {
    if |c| > 1 {
      SwingsCostTravel(ps, c[..|c| - 1], !up);
      TravelBetween(ps, c[|c| - 2], c[|c| - 1]);
    }
  }

  lemma ChainCostsTravel(ps: seq<real>, n: int, up: bool, extreme: real)
    requires Attained(ps, n, up, extreme)
    ensures BAND * n as real <= Travel(ps)
  {
    var c: seq<nat> :| Chain(ps, c, up) && |c| - 1 == n && ps[c[|c| - 1]] == extreme;
    SwingsCostTravel(ps, c, up);
    TravelBetween(ps, c[|c| - 1], |ps| - 1);
    assert ps[..|ps|] == ps;
  }

  /** Every reversal stands for a full band of real travel: shaking inside the band, for
      however long, is never credited. */
  lemma ReversalsCostTravel(ps: seq<real>)
    requires ps != []
    ensures BAND * TrackAll(ps).reversals as real <= BAND * Longest(ps) as real <= Travel(ps)
  {
    var t := TrackAll(ps);
    Attain(ps);
    ChainCostsTravel(ps, Longest(ps), t.direction == 1, t.extreme.value);
  }
}
