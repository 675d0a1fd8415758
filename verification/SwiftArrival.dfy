/**
 Where the headset's trajectory goes: every joint, from any capped motion, reaches a goal that is
 held, and stays there. The proof follows a joint through three stages. While it still accelerates
 away, its acceleration rises; then its speed towards the goal rises; and from the moment it is as
 fast as the requested speed it stays so, and comes down the braking curve to the goal.
 */
module SwiftArrival {
  import opened Prelude
  import opened RealMath
  import opened Clutch
  import opened SwiftLeader
  import opened SwiftLeaderRuns

  /** What stays the same while a goal is held. */
  datatype Course = Course(goal: real, anchor: real, dt: Tick, j: Joint, root: real -> real)

  function Toward(m: Motion, s: Course): Motion {
    Guard(Travel(m, s.goal, s.dt, s.j, s.root), s.anchor, s.j)
  }

  ghost predicate Lawful(s: Course) {
    Abs(s.goal - s.anchor) <= Lead(s.j) && IsSquareRoot(s.root)
  }

  ghost predicate Below(m: Motion, s: Course) {
    m.position < s.goal && Abs(m.position - s.anchor) <= Lead(s.j) && Capped(m, s.j)
  }

  predicate Arrived(m: Motion, s: Course) {
    m == Motion(s.goal, 0.0, 0.0)
  }

  function Stopping(error: real, j: Joint, root: real -> real): real {
    root(2.0 * MaxAcceleration(j) * Abs(error))
  }

  /** How fast a joint below its goal should be. */
  function Wished(m: Motion, s: Course): real {
    Min(MaxSpeed(s.j), Stopping(s.goal - m.position, s.j, s.root))
  }

  // ---- one tick below the goal -----------------------------------------------------------------

  /** The jerk-limited acceleration in terms of the unlimited one. */
  ghost predicate Chosen(a: real, wanted: real, next: real, cap: real, jerk: real) {
    next == a + Clamp(-jerk, jerk, Clamp(-cap, cap, wanted) - a)
  }

  /** A tick below the goal: `a` and `v` are the next acceleration and speed before any stop. */
  ghost predicate Ticked(m: Motion, s: Course, wanted: real, a: real, v: real) {
    && Times(wanted, s.dt) == Wished(m, s) - m.velocity
    && Chosen(m.acceleration, wanted, a, MaxAcceleration(s.j), MaxJerk(s.j) * s.dt)
    && v == Clamp(-MaxSpeed(s.j), MaxSpeed(s.j), m.velocity + Times(a, s.dt))
  }

  /** Where it leads: to the goal, a step further, or to rest at the edge of the window. */
  ghost predicate Moved(m: Motion, s: Course, a: real, v: real, r: Motion) {
    || Arrived(r, s)
    || (Below(r, s) && r == Motion(m.position + Times(v, s.dt), v, a))
    || (Below(r, s) && v < 0.0 && r.velocity == 0.0 && r.acceleration == 0.0)
  }

  lemma OneTick(m: Motion, s: Course) returns (wanted: real, a: real, v: real)
    requires Lawful(s) && Below(m, s)
    ensures Ticked(m, s, wanted, a, v) && Moved(m, s, a, v, Toward(m, s))
  {
    wanted, a := Chooses(m, s);
    v := Clamp(-MaxSpeed(s.j), MaxSpeed(s.j), m.velocity + Times(a, s.dt));
    Outcome(m, s, a, v);
  }

  lemma Chooses(m: Motion, s: Course) returns (wanted: real, a: real)
    requires Below(m, s)
    ensures a == NextAcceleration(m, s.goal - m.position, s.dt, s.j, s.root) && Abs(a) <= MaxAcceleration(s.j)
    ensures Times(wanted, s.dt) == Wished(m, s) - m.velocity
    ensures Chosen(m.acceleration, wanted, a, MaxAcceleration(s.j), MaxJerk(s.j) * s.dt)
  {
    var error := s.goal - m.position;
    a := NextAcceleration(m, error, s.dt, s.j, s.root);
    AccelerationBounds(m, error, s.dt, s.j, s.root);
    wanted := Unlimited(m, error, s.dt, s.j, s.root);
    assert RequestedVelocity(error, s.j, s.root) == Wished(m, s);
  }

  lemma Unlimited(m: Motion, error: real, dt: Tick, j: Joint, root: real -> real) returns (wanted: real)
    ensures Times(wanted, dt) == RequestedVelocity(error, j, root) - m.velocity
    ensures Chosen(m.acceleration, wanted, NextAcceleration(m, error, dt, j, root), MaxAcceleration(j), MaxJerk(j) * dt)
  {
    var change := RequestedVelocity(error, j, root) - m.velocity;
    wanted := change / dt;
    DivTimes(change, dt);
  }

  lemma Outcome(m: Motion, s: Course, a: real, v: real)
    requires Lawful(s) && Below(m, s) && Abs(a) <= MaxAcceleration(s.j)
    requires a == NextAcceleration(m, s.goal - m.position, s.dt, s.j, s.root)
    requires v == Clamp(-MaxSpeed(s.j), MaxSpeed(s.j), m.velocity + Times(a, s.dt))
    ensures Moved(m, s, a, v, Toward(m, s))
  {
    MulSign(v, s.dt);
    Steps(m, s, a, v, m.position + Times(v, s.dt));
  }

  /** The stop and the telemetry guard, for any position stepped to. */
  lemma Steps(m: Motion, s: Course, a: real, v: real, stepped: real)
    requires Abs(s.goal - s.anchor) <= Lead(s.j) && Below(m, s) && Abs(a) <= MaxAcceleration(s.j) && Abs(v) <= MaxSpeed(s.j)
    requires v < 0.0 ==> stepped < m.position
    requires v >= 0.0 ==> stepped >= m.position
    ensures var stop := Abs(stepped - m.position) >= Abs(s.goal - m.position);
            var r := Guard(if stop then Motion(s.goal, 0.0, 0.0) else Motion(stepped, v, a), s.anchor, s.j);
            || Arrived(r, s)
            || (Below(r, s) && r == Motion(stepped, v, a))
            || (Below(r, s) && v < 0.0 && r.velocity == 0.0 && r.acceleration == 0.0)
  {
  }

  lemma MulSign(v: real, dt: real)
    requires dt > 0.0
    ensures v < 0.0 ==> Times(v, dt) < 0.0
    ensures v >= 0.0 ==> Times(v, dt) >= 0.0
  {
    if v < 0.0 {
      MulLt(v, 0.0, dt);
      MulUnits(dt);
    }
  }

  // ---- how the speed answers --------------------------------------------------------------------

  /** One tick of speed and acceleration towards the speed `r`, as plain numbers. */
  ghost predicate Answers(v: real, a: real, r: real, wanted: real, a': real, v': real,
                          cap: real, most: real, jerk: real, dt: real) {
    && dt > 0.0 && jerk > 0.0 && most > 0.0 && Abs(v) <= cap && Abs(a) <= most && 0.0 <= r <= cap
    && Times(wanted, dt) == r - v
    && Chosen(a, wanted, a', most, jerk)
    && v' == Clamp(-cap, cap, v + Times(a', dt))
  }

  /** A joint that is fast enough stays fast enough, and brakes only when it is too fast. */
  lemma StaysFast(v: real, a: real, r: real, wanted: real, a': real, v': real,
                  cap: real, most: real, jerk: real, dt: real)
    requires Answers(v, a, r, wanted, a', v', cap, most, jerk, dt)
    requires if a < 0.0 then v >= r + Times(most, dt) else v >= r
    ensures v' >= r && (a' < 0.0 ==> r < v)
  {
    MulUnits(dt);
    MulPositive(most, dt);
    MulCancel(wanted, 0.0, dt);
    if a < 0.0 {
      MulLe(-most, a', dt);
      MulSub(0.0, most, dt);
    } else {
      MulLe(wanted, a', dt);
    }
    if v == r {
      MulCancel(0.0, wanted, dt);
    }
  }

  /** A joint that is too slow and does not accelerate away gains speed, or is fast enough. */
  lemma GainsSpeed(v: real, a: real, r: real, wanted: real, a': real, v': real,
                   cap: real, most: real, jerk: real, dt: real)
    requires Answers(v, a, r, wanted, a', v', cap, most, jerk, dt)
    requires a >= 0.0 && v < r
    ensures a' >= 0.0 && (v' >= r || v' >= v + Times(Min(most, jerk), dt))
  {
    MulUnits(dt);
    MulCancel(0.0, wanted, dt);
    if a' >= wanted {
      MulLe(wanted, a', dt);
    } else {
      MulLe(Min(most, jerk), a', dt);
    }
  }

  /** A joint that accelerates away accelerates less, or is fast enough. */
  lemma Recovers(v: real, a: real, r: real, wanted: real, a': real, v': real,
                 cap: real, most: real, jerk: real, dt: real)
    requires Answers(v, a, r, wanted, a', v', cap, most, jerk, dt)
    requires a < 0.0
    ensures a' >= 0.0 || a' == a + jerk || (v' >= r && r < v)
  {
    if a' < 0.0 && a' != a + jerk {
      MulUnits(dt);
      MulLe(wanted, a', dt);
      MulLt(wanted, 0.0, dt);
    }
  }

  // ---- the braking curve -------------------------------------------------------------------------

  lemma RootOrder(x: real, y: real, root: real -> real)
    requires IsSquareRoot(root) && 0.0 <= x <= y
    ensures root(x) <= root(y)
  {
    if root(x) > root(y) {
      MulLt(root(y), root(x), root(x));
      MulLe(root(y), root(x), root(y));
    }
  }

  /** Squares: x below `low` when its square is below that of `low`. */
  lemma SquareOrder(x: real, low: real)
    requires Times(x, x) <= Times(low, low) && low >= 0.0
    ensures x <= low
  {
    if x > low {
      MulLe(low, x, low);
      MulLt(low, x, x);
    }
  }

  lemma HalfSquare(x: real, w: real)
    requires x >= 0.0 && w > 0.0 && Times(x, x) >= 2.0 * Times(w, x)
    ensures x == 0.0 || x >= 2.0 * w
  {
    if 0.0 < x < 2.0 * w {
      MulLt(x, 2.0 * w, x);
      MulAdd(w, w, x);
    }
  }

  /** Going at the stopping speed or faster for one tick lowers the stopping speed by what the
      acceleration cap allows in a tick. */
  lemma Brakes(e: real, next: real, v: real, most: real, dt: real, root: real -> real)
    requires IsSquareRoot(root) && most > 0.0 && dt > 0.0
    requires e > 0.0 && next > 0.0 && next == e - Times(v, dt) && v >= root(2.0 * most * e)
    ensures root(2.0 * most * next) <= root(2.0 * most * e) - Times(most, dt)
  {
    var x, y, w := root(2.0 * most * e), root(2.0 * most * next), Times(most, dt);
    MulPositive(most, dt);
    MulPositive(most, next);
    MulPositive(most, e);
    MulSub(e, Times(v, dt), most);
    MulAssociates(most, dt, v);
    MulSwap(v, dt);
    assert Times(x, x) == 2.0 * Times(most, e) && Times(y, y) == 2.0 * Times(most, next) by {
      assert 2.0 * most * e == 2.0 * Times(most, e);
      assert 2.0 * most * next == 2.0 * Times(most, next);
    }
    MulLe(x, v, w);
    assert Times(y, y) <= Times(x, x) - 2.0 * Times(w, x);
    MulNonneg(y, y);
    HalfSquare(x, w);
    MulSub(x, w, x - w);
    MulSub(x, w, x);
    MulSub(x, w, w);
    MulSwap(x, w);
    MulNonneg(w, w);
    assert x != 0.0;
    SquareOrder(y, x - w);
  }

  // ---- the chase ---------------------------------------------------------------------------------

  /** Fast enough, with a tick of braking in reserve while braking. */
  ghost predicate Chasing(m: Motion, s: Course) {
    && Below(m, s)
    && m.velocity >= Wished(m, s) + if m.acceleration < 0.0 then Times(MaxAcceleration(s.j), s.dt) else 0.0
  }

  lemma TickAnswers(m: Motion, s: Course) returns (wanted: real, a: real, v: real)
    requires Lawful(s) && Below(m, s)
    ensures Answers(m.velocity, m.acceleration, Wished(m, s), wanted, a, v,
                    MaxSpeed(s.j), MaxAcceleration(s.j), MaxJerk(s.j) * s.dt, s.dt)
    ensures Moved(m, s, a, v, Toward(m, s))
  {
    wanted, a, v := OneTick(m, s);
    WishedBounds(m, s);
    MulPositive(MaxJerk(s.j), s.dt);
    assert Times(MaxJerk(s.j), s.dt) == MaxJerk(s.j) * s.dt;
  }

  lemma WishedBounds(m: Motion, s: Course)
    requires Lawful(s)
    ensures 0.0 <= Wished(m, s) <= MaxSpeed(s.j)
  {
  }

  /** What one tick at the wished speed or above leaves to do. */
  lemma TickBrakes(m: Motion, s: Course, v: real, r: Motion)
    requires Lawful(s) && Below(m, s) && Below(r, s) && v >= Wished(m, s) && r.position == m.position + Times(v, s.dt)
    ensures Wished(r, s) <= Wished(m, s)
    ensures Wished(m, s) < MaxSpeed(s.j) ==> Wished(r, s) <= Wished(m, s) - Times(MaxAcceleration(s.j), s.dt)
  {
    WishedBounds(m, s);
    MulNonneg(v, s.dt);
    Curve(s.goal - m.position, s.goal - r.position, v, MaxSpeed(s.j), MaxAcceleration(s.j), s.dt, s.root);
  }

  lemma Curve(e: real, next: real, v: real, cap: real, most: real, dt: real, root: real -> real)
    requires IsSquareRoot(root) && most > 0.0 && dt > 0.0 && 0.0 < next <= e && next == e - Times(v, dt)
    requires v >= Min(cap, root(2.0 * most * e))
    ensures Min(cap, root(2.0 * most * next)) <= Min(cap, root(2.0 * most * e))
    ensures Min(cap, root(2.0 * most * e)) < cap
            ==> Min(cap, root(2.0 * most * next)) <= Min(cap, root(2.0 * most * e)) - Times(most, dt)
  {
    MulLe(next, e, 2.0 * most);
    MulNonneg(2.0 * most, next);
    assert Times(2.0 * most, next) == 2.0 * most * next && Times(2.0 * most, e) == 2.0 * most * e;
    RootOrder(2.0 * most * next, 2.0 * most * e, root);
    if Min(cap, root(2.0 * most * e)) < cap {
      Brakes(e, next, v, most, dt, root);
    }
  }

  lemma FastEnough(m: Motion, s: Course, a: real, v: real)
    requires Lawful(s) && Below(m, s) && Moved(m, s, a, v, Toward(m, s))
    requires v >= Wished(m, s) && (a < 0.0 ==> Wished(m, s) < MaxSpeed(s.j))
    ensures var r := Toward(m, s);
            Arrived(r, s) || (Chasing(r, s) && r.position == m.position + Times(v, s.dt) && r.velocity == v)
  {
    var r := Toward(m, s);
    WishedBounds(m, s);
    if !Arrived(r, s) {
      TickBrakes(m, s, v, r);
    }
  }

  /** A chasing joint arrives or keeps chasing, at the wished speed or above. */
  lemma ChaseTick(m: Motion, s: Course)
    requires Lawful(s) && Chasing(m, s)
    ensures var r := Toward(m, s);
            || Arrived(r, s)
            || (Chasing(r, s) && r.velocity >= Wished(m, s) && r.position == m.position + Times(r.velocity, s.dt))
  {
    var wanted, a, v := TickAnswers(m, s);
    StaysFast(m.velocity, m.acceleration, Wished(m, s), wanted, a, v,
              MaxSpeed(s.j), MaxAcceleration(s.j), MaxJerk(s.j) * s.dt, s.dt);
    FastEnough(m, s, a, v);
  }

  // ---- the stages, in seconds ----------------------------------------------------------------------

  /** `n` ticks towards the goal. */
  function Pursue(m: Motion, s: Course, n: nat): Motion
    decreases n
  {
    if n == 0 then m else Pursue(Toward(m, s), s, n - 1)
  }

  lemma {:induction false} StaysArrived(m: Motion, s: Course, n: nat)
    requires Lawful(s) && Arrived(m, s)
    ensures Arrived(Pursue(m, s, n), s)
    decreases n
  {
    if n > 0 {
      StaysArrived(Toward(m, s), s, n - 1);
    }
  }

  /** The goal is at most `cruise` seconds away at full speed, and the wished speed can be braked
      away in `brake` seconds. */
  ghost predicate Left(m: Motion, s: Course, cruise: real, brake: real) {
    && s.goal - m.position <= Times(MaxSpeed(s.j), cruise)
    && Wished(m, s) <= Times(MaxAcceleration(s.j), brake)
  }

  lemma ChaseTickCounts(m: Motion, s: Course, cruise: real, brake: real) returns (cruise': real, brake': real)
    requires Lawful(s) && Chasing(m, s) && Left(m, s, cruise, brake)
    ensures Arrived(Toward(m, s), s) || (Chasing(Toward(m, s), s) && Left(Toward(m, s), s, cruise', brake'))
    ensures cruise' + brake' == cruise + brake - s.dt
  {
    ChaseTick(m, s);
    var r := Toward(m, s);
    if Wished(m, s) < MaxSpeed(s.j) {
      cruise', brake' := cruise, brake - s.dt;
    } else {
      cruise', brake' := cruise - s.dt, brake;
    }
    WishedBounds(m, s);
    MulSub(brake, s.dt, MaxAcceleration(s.j));
    MulSub(cruise, s.dt, MaxSpeed(s.j));
    if !Arrived(r, s) {
      TickBrakes(m, s, r.velocity, r);
      MulLe(Wished(m, s), r.velocity, s.dt);
      MulNonneg(Wished(m, s), s.dt);
    }
  }

  lemma TickTime(n: nat, dt: real)
    requires n > 0
    ensures Times((n - 1) as real, dt) == Times(n as real, dt) - dt
  {
    MulSub(n as real, 1.0, dt);
    MulUnits(dt);
  }

  lemma {:induction false} ChaseArrives(m: Motion, s: Course, cruise: real, brake: real, n: nat)
    requires Lawful(s) && Chasing(m, s) && Left(m, s, cruise, brake)
    requires cruise + brake <= Times(n as real, s.dt)
    ensures Arrived(Pursue(m, s, n), s)
    decreases n
  {
    MulUnits(MaxSpeed(s.j));
    MulUnits(MaxAcceleration(s.j));
    MulUnits(s.dt);
    WishedBounds(m, s);
    MulCancel(0.0, cruise, MaxSpeed(s.j));
    MulCancel(0.0, brake, MaxAcceleration(s.j));
    var cruise', brake' := ChaseTickCounts(m, s, cruise, brake);
    TickTime(n, s.dt);
    if Arrived(Toward(m, s), s) {
      StaysArrived(Toward(m, s), s, n - 1);
    } else {
      ChaseArrives(Toward(m, s), s, cruise', brake', n - 1);
    }
  }

  /** The acceleration a joint gains in a tick from which it catches up with the wished speed. */
  function Gain(s: Course): (r: real)
    ensures r > 0.0
  {
    Min(MaxAcceleration(s.j), MaxJerk(s.j) * s.dt)
  }

  /** Seconds after which a chase is over, wherever in its window it starts. */
  function ChaseTime(j: Joint): (r: real)
    ensures r > 0.0
  {
    2.0 * Lead(j) / MaxSpeed(j) + MaxSpeed(j) / MaxAcceleration(j)
  }

  lemma ChaseLeft(m: Motion, s: Course)
    requires Lawful(s) && Below(m, s)
    ensures Left(m, s, 2.0 * Lead(s.j) / MaxSpeed(s.j), MaxSpeed(s.j) / MaxAcceleration(s.j))
  {
    WishedBounds(m, s);
    DivTimes(2.0 * Lead(s.j), MaxSpeed(s.j));
    DivTimes(MaxSpeed(s.j), MaxAcceleration(s.j));
  }

  lemma ChaseArrivesInTime(m: Motion, s: Course, n: nat)
    requires Lawful(s) && Chasing(m, s) && ChaseTime(s.j) <= Times(n as real, s.dt)
    ensures Arrived(Pursue(m, s, n), s)
  {
    ChaseLeft(m, s);
    ChaseArrives(m, s, 2.0 * Lead(s.j) / MaxSpeed(s.j), MaxSpeed(s.j) / MaxAcceleration(s.j), n);
  }

  /** `t` seconds of gaining speed are enough to reach full speed. */
  ghost predicate Pushing(m: Motion, s: Course, t: real) {
    Below(m, s) && m.acceleration >= 0.0 && MaxSpeed(s.j) - m.velocity <= Times(Gain(s), t)
  }

  lemma PushTick(m: Motion, s: Course, t: real)
    requires Lawful(s) && Pushing(m, s, t) && m.velocity < Wished(m, s)
    ensures var r := Toward(m, s); Arrived(r, s) || Chasing(r, s) || Pushing(r, s, t - s.dt)
  {
    var wanted, a, v := TickAnswers(m, s);
    Gains(m, s, wanted, a, v);
    if v >= Wished(m, s) {
      FastEnough(m, s, a, v);
    } else {
      PushGains(m, s, t, a, v);
    }
  }

  lemma Gains(m: Motion, s: Course, wanted: real, a: real, v: real)
    requires m.acceleration >= 0.0 && m.velocity < Wished(m, s)
    requires Answers(m.velocity, m.acceleration, Wished(m, s), wanted, a, v,
                     MaxSpeed(s.j), MaxAcceleration(s.j), MaxJerk(s.j) * s.dt, s.dt)
    ensures a >= 0.0 && (v >= Wished(m, s) || v >= m.velocity + Times(Gain(s), s.dt))
  {
    GainsSpeed(m.velocity, m.acceleration, Wished(m, s), wanted, a, v,
               MaxSpeed(s.j), MaxAcceleration(s.j), MaxJerk(s.j) * s.dt, s.dt);
  }

  lemma PushGains(m: Motion, s: Course, t: real, a: real, v: real)
    requires Pushing(m, s, t) && Moved(m, s, a, v, Toward(m, s))
    requires a >= 0.0 && v >= m.velocity + Times(Gain(s), s.dt)
    ensures var r := Toward(m, s); Arrived(r, s) || Pushing(r, s, t - s.dt)
  {
    var gain := Gain(s);
    MulSub(t, s.dt, gain);
  }

  lemma {:induction false} PushArrives(m: Motion, s: Course, t: real, n: nat)
    requires Lawful(s) && Pushing(m, s, t) && t + s.dt + ChaseTime(s.j) <= Times(n as real, s.dt)
    ensures Arrived(Pursue(m, s, n), s)
    decreases n
  {
    MulUnits(s.dt);
    MulUnits(Gain(s));
    MulCancel(0.0, t, Gain(s));
    if m.velocity >= Wished(m, s) {
      ChaseArrivesInTime(m, s, n);
    } else {
      PushTick(m, s, t);
      TickTime(n, s.dt);
      var r := Toward(m, s);
      if Arrived(r, s) {
        StaysArrived(r, s, n - 1);
      } else if Chasing(r, s) {
        ChaseArrivesInTime(r, s, n - 1);
      } else {
        PushArrives(r, s, t - s.dt, n - 1);
      }
    }
  }

  /** Seconds after which a joint that no longer accelerates away has arrived. */
  function PushTime(s: Course): real {
    2.0 * MaxSpeed(s.j) / Gain(s) + s.dt + ChaseTime(s.j)
  }

  lemma PushArrivesInTime(m: Motion, s: Course, n: nat)
    requires Lawful(s) && Below(m, s) && m.acceleration >= 0.0 && PushTime(s) <= Times(n as real, s.dt)
    ensures Arrived(Pursue(m, s, n), s)
  {
    DivTimes(2.0 * MaxSpeed(s.j), Gain(s));
    PushArrives(m, s, 2.0 * MaxSpeed(s.j) / Gain(s), n);
  }

  /** `t` seconds of jerk are enough to stop accelerating away. */
  ghost predicate Recovering(m: Motion, s: Course, t: real) {
    Below(m, s) && m.acceleration < 0.0 && -m.acceleration <= Times(MaxJerk(s.j), t)
  }

  lemma RecoverTick(m: Motion, s: Course, t: real)
    requires Lawful(s) && Recovering(m, s, t)
    ensures var r := Toward(m, s);
            || Arrived(r, s) || Chasing(r, s)
            || (Below(r, s) && r.acceleration >= 0.0)
            || Recovering(r, s, t - s.dt)
  {
    var wanted, a, v := TickAnswers(m, s);
    Recovers(m.velocity, m.acceleration, Wished(m, s), wanted, a, v,
             MaxSpeed(s.j), MaxAcceleration(s.j), MaxJerk(s.j) * s.dt, s.dt);
    MulSub(t, s.dt, MaxJerk(s.j));
    assert Times(MaxJerk(s.j), s.dt) == MaxJerk(s.j) * s.dt;
    if a < 0.0 && v >= Wished(m, s) && Wished(m, s) < m.velocity {
      FastEnough(m, s, a, v);
    }
  }

  lemma {:induction false} RecoveryArrives(m: Motion, s: Course, t: real, n: nat)
    requires Lawful(s) && Recovering(m, s, t) && t + s.dt + PushTime(s) <= Times(n as real, s.dt)
    ensures Arrived(Pursue(m, s, n), s)
    decreases n
  {
    MulUnits(s.dt);
    MulUnits(MaxJerk(s.j));
    MulCancel(0.0, t, MaxJerk(s.j));
    PushTakesTime(s);
    TickTime(n, s.dt);
    RecoverTick(m, s, t);
    var r := Toward(m, s);
    if Arrived(r, s) {
      StaysArrived(r, s, n - 1);
    } else if Chasing(r, s) {
      ChaseArrivesInTime(r, s, n - 1);
    } else if r.acceleration >= 0.0 {
      PushArrivesInTime(r, s, n - 1);
    } else {
      RecoveryArrives(r, s, t - s.dt, n - 1);
    }
  }

  lemma PushTakesTime(s: Course)
    ensures PushTime(s) >= s.dt + ChaseTime(s.j)
  {
    DivLe(0.0, 2.0 * MaxSpeed(s.j), Gain(s));
  }

  /** Seconds after which any capped motion inside the window has arrived. */
  function SettlingTime(dt: Tick, j: Joint): real {
    MaxAcceleration(j) / MaxJerk(j) + dt
    + (2.0 * MaxSpeed(j) / Min(MaxAcceleration(j), MaxJerk(j) * dt) + dt)
    + (2.0 * Lead(j) / MaxSpeed(j) + MaxSpeed(j) / MaxAcceleration(j))
  }

  lemma ArrivesFromBelow(m: Motion, s: Course, n: nat)
    requires Lawful(s) && Below(m, s) && SettlingTime(s.dt, s.j) <= Times(n as real, s.dt)
    ensures Arrived(Pursue(m, s, n), s)
  {
    var t := MaxAcceleration(s.j) / MaxJerk(s.j);
    assert SettlingTime(s.dt, s.j) == t + s.dt + PushTime(s);
    DivTimes(MaxAcceleration(s.j), MaxJerk(s.j));
    if m.acceleration < 0.0 {
      RecoveryArrives(m, s, t, n);
    } else {
      PushArrivesInTime(m, s, n);
    }
  }

  // ---- from above ------------------------------------------------------------------------------------

  function Mirror(m: Motion): Motion {
    Motion(-m.position, -m.velocity, -m.acceleration)
  }

  function Mirrored(s: Course): Course {
    s.(goal := -s.goal, anchor := -s.anchor)
  }

  lemma MirrorClamp(x: real, y: real)
    requires x >= 0.0
    ensures Clamp(-x, x, -y) == -Clamp(-x, x, y)
  {
  }

  lemma MirrorRequest(error: real, v: real, dt: Tick, j: Joint, root: real -> real)
    ensures RequestedVelocity(-error, j, root) == -RequestedVelocity(error, j, root)
    ensures (RequestedVelocity(-error, j, root) + v) / dt == -((RequestedVelocity(error, j, root) - v) / dt)
  {
    assert Abs(-error) == Abs(error);
    var x := RequestedVelocity(error, j, root) - v;
    assert (-x) / dt == -(x / dt);
  }

  lemma MirrorAcceleration(m: Motion, error: real, dt: Tick, j: Joint, root: real -> real)
    ensures NextAcceleration(Mirror(m), -error, dt, j, root) == -NextAcceleration(m, error, dt, j, root)
  {
    MirrorRequest(error, m.velocity, dt, j, root);
    var wanted := (RequestedVelocity(error, j, root) - m.velocity) / dt;
    var step := MaxJerk(j) * dt;
    MirrorClamp(MaxAcceleration(j), wanted);
    MirrorClamp(step, Clamp(-MaxAcceleration(j), MaxAcceleration(j), wanted) - m.acceleration);
  }

  lemma MirrorTravel(m: Motion, s: Course)
    ensures Travel(Mirror(m), -s.goal, s.dt, s.j, s.root) == Mirror(Travel(m, s.goal, s.dt, s.j, s.root))
  {
    var error := s.goal - m.position;
    MirrorAcceleration(m, error, s.dt, s.j, s.root);
    var a := NextAcceleration(m, error, s.dt, s.j, s.root);
    MulSub(0.0, a, s.dt);
    MulUnits(s.dt);
    MirrorClamp(MaxSpeed(s.j), m.velocity + Times(a, s.dt));
    var v := Clamp(-MaxSpeed(s.j), MaxSpeed(s.j), m.velocity + Times(a, s.dt));
    MulSub(0.0, v, s.dt);
  }

  lemma MirrorGuard(m: Motion, anchor: real, j: Joint)
    ensures Guard(Mirror(m), -anchor, j) == Mirror(Guard(m, anchor, j))
  {
  }

  lemma {:induction false} MirrorPursuit(m: Motion, s: Course, n: nat)
    ensures Pursue(Mirror(m), Mirrored(s), n) == Mirror(Pursue(m, s, n))
    decreases n
  {
    if n > 0 {
      MirrorTravel(m, s);
      MirrorGuard(Travel(m, s.goal, s.dt, s.j, s.root), s.anchor, s.j);
      MirrorPursuit(Toward(m, s), s, n - 1);
    }
  }

  lemma ArrivesInWindow(m: Motion, s: Course, n: nat)
    requires Lawful(s) && Capped(m, s.j) && Abs(m.position - s.anchor) <= Lead(s.j)
    requires SettlingTime(s.dt, s.j) <= Times(n as real, s.dt) && n > 0
    ensures Arrived(Pursue(m, s, n), s)
  {
    if m.position < s.goal {
      ArrivesFromBelow(m, s, n);
    } else if m.position > s.goal {
      MirrorPursuit(m, s, n);
      ArrivesFromBelow(Mirror(m), Mirrored(s), n);
    } else {
      StaysArrived(Toward(m, s), s, n - 1);
    }
  }

  // ---- ticks of the client -----------------------------------------------------------------------------

  /** `n` ticks of one joint towards a wanted position, with unchanged telemetry. */
  function Ticks(m: Motion, wanted: real, anchor: real, dt: Tick, j: Joint, root: real -> real, n: nat): Motion
    decreases n
  {
    if n == 0 then m
    else Advance(Ticks(m, wanted, anchor, dt, j, root, n - 1), wanted, anchor, dt, j, root)
  }

  lemma {:induction false} PursueLast(m: Motion, s: Course, n: nat)
    ensures Pursue(m, s, n + 1) == Toward(Pursue(m, s, n), s)
    decreases n
  {
    if n > 0 {
      PursueLast(Toward(m, s), s, n - 1);
    }
  }

  lemma {:induction false} TicksPursue(m: Motion, wanted: real, anchor: real, dt: Tick, j: Joint, root: real -> real, n: nat)
    ensures Ticks(m, wanted, anchor, dt, j, root, n)
            == Pursue(m, Course(Clamp(Low(j), High(j), wanted), anchor, dt, j, root), n)
    decreases n
  {
    if n > 0 {
      TicksPursue(m, wanted, anchor, dt, j, root, n - 1);
      PursueLast(m, Course(Clamp(Low(j), High(j), wanted), anchor, dt, j, root), n - 1);
    }
  }

  /** A held goal is reached: whatever the joint was doing, within the settling time and one tick it
      is at the goal, at rest, and stays there. */
  lemma HeldGoalIsReached(m: Motion, wanted: real, anchor: real, dt: Tick, j: Joint, root: real -> real, n: nat)
    requires IsSquareRoot(root) && Capped(m, j)
    requires Abs(Clamp(Low(j), High(j), wanted) - anchor) <= Lead(j)
    requires Times(n as real, dt) >= SettlingTime(dt, j) + dt
    ensures Ticks(m, wanted, anchor, dt, j, root, n) == Motion(Clamp(Low(j), High(j), wanted), 0.0, 0.0)
  {
    var s := Course(Clamp(Low(j), High(j), wanted), anchor, dt, j, root);
    TicksPursue(m, wanted, anchor, dt, j, root, n);
    SettlingTakesTime(dt, j);
    MulUnits(dt);
    TickTime(n, dt);
    AdvanceBounds(m, wanted, anchor, dt, j, root);
    ArrivesInWindow(Toward(m, s), s, n - 1);
  }

  lemma SettlingTakesTime(dt: Tick, j: Joint)
    ensures SettlingTime(dt, j) > 0.0
  {
    DivLe(0.0, 2.0 * MaxSpeed(j), Min(MaxAcceleration(j), MaxJerk(j) * dt));
  }

  /** A joint at rest sets out towards its goal with the first tick, and does not pass it. */
  lemma SetsOutTowardsGoal(position: real, wanted: real, anchor: real, dt: Tick, j: Joint, root: real -> real)
    requires IsSquareRoot(root) && Abs(position - anchor) <= Lead(j)
    requires Abs(Clamp(Low(j), High(j), wanted) - anchor) <= Lead(j)
    ensures var goal, r := Clamp(Low(j), High(j), wanted), Advance(Motion(position, 0.0, 0.0), wanted, anchor, dt, j, root);
            && (position < goal ==> position < r.position <= goal)
            && (position > goal ==> position > r.position >= goal)
  {
    var m, s := Motion(position, 0.0, 0.0), Course(Clamp(Low(j), High(j), wanted), anchor, dt, j, root);
    if position < s.goal {
      SetsOutFromBelow(m, s);
    } else if position > s.goal {
      MirrorTravel(m, s);
      MirrorGuard(Travel(m, s.goal, dt, j, root), anchor, j);
      SetsOutFromBelow(Mirror(m), Mirrored(s));
    }
  }

  lemma WishedIsPositive(m: Motion, s: Course)
    requires Lawful(s) && m.position < s.goal
    ensures Wished(m, s) > 0.0
  {
    var x := 2.0 * MaxAcceleration(s.j) * Abs(s.goal - m.position);
    MulUnits(s.root(x));
  }

  lemma SetsOutFromBelow(m: Motion, s: Course)
    requires Lawful(s) && Below(m, s) && m.velocity == 0.0 && m.acceleration == 0.0
    ensures m.position < Toward(m, s).position <= s.goal
  {
    var wanted, a, v := TickAnswers(m, s);
    WishedIsPositive(m, s);
    GainsSpeed(m.velocity, m.acceleration, Wished(m, s), wanted, a, v,
               MaxSpeed(s.j), MaxAcceleration(s.j), MaxJerk(s.j) * s.dt, s.dt);
    MulPositive(Gain(s), s.dt);
    MulPositive(v, s.dt);
  }

  // ---- a held hand over runs ---------------------------------------------------------------------------

  /** What one joint is asked to do: keep the angle or the slider at `at`, its clutch engaged with the
      hand at `hand` and the arm at `arm`; or go home to calibrated neutral. */
  datatype Aim = Angle(hand: real, arm: real, at: real) | Slider(hand: real, arm: real, at: real) | Home

  ghost predicate Clutches(b: Client, j: Joint, aim: Aim) {
    match aim
    case Angle(hand, arm, _) =>
      j != GRIPPER && b.armVirtual.Some? && b.armPhysical.Some? && b.armVirtual.value[j] == hand && b.armPhysical.value[j] == arm
    case Slider(hand, arm, _) => j == GRIPPER && b.gripVirtual == Some(hand) && b.gripPhysical == Some(arm)
    case Home => j != GRIPPER
  }

  ghost predicate Asks(b: Client, c: Command, j: Joint, aim: Aim) {
    match aim
    case Angle(_, _, at) => c.armActive && !AtEdge(c, j) && c.radians[j] == at
    case Slider(_, _, at) => c.gripperActive && !AtEdge(c, j) && c.gripper == at
    case Home => b.neutral && !c.armActive && !c.gripperActive
  }

  /** Where that is: the arm's angle when the clutch engaged, plus the hand's turn since, in degrees and
      mirrored for the shoulder pan; the slider's share of the rest of its rail; or zero. */
  ghost predicate Aims(aim: Aim, j: Joint, wanted: real) {
    match aim
    case Angle(hand, arm, at) =>
      Times(wanted - arm, PI) == (if j == 0 then -180.0 else 180.0) * SwiftWrappedDelta(at, hand)
    case Slider(hand, arm, at) => wanted == EndpointClutched(at, hand, arm, 0.0, 100.0, 1)
    case Home => wanted == 0.0
  }

  lemma FollowsHand(arm: real, j: Joint, turn: real, wanted: real)
    requires Times(wanted - arm, PI) == (if j == 0 then -180.0 else 180.0) * turn
    ensures Follow(arm, Direction(j), turn) == wanted
  {
    var r := Follow(arm, Direction(j), turn);
    assert Times(Direction(j), turn) == if j == 0 then -turn else turn;
    assert Times(r - arm, PI) == (if j == 0 then -180.0 else 180.0) * turn;
    MulCancel(wanted - arm, r - arm, PI);
    MulCancel(r - arm, wanted - arm, PI);
  }

  lemma AimIsDesired(b: Client, c: Command, dt: Tick, j: Joint, aim: Aim, wanted: real)
    requires Paired(b) && Clutches(b, j, aim) && Asks(b, c, j, aim) && Aims(aim, j, wanted)
    ensures Desired(b, c, dt, j) == wanted
  {
    match aim {
      case Angle(hand, arm, at) => FollowsHand(arm, j, SwiftWrappedDelta(at, hand), wanted);
      case Slider(_, _, _) =>
      case Home =>
    }
  }

  lemma TickKeepsClutch(b: Client, dt: Tick, now: real, j: Joint, aim: Aim, root: real -> real)
    requires Safe(b) && Moves(b, now) && Clutches(b, j, aim) && Asks(b, Current(b, now), j, aim)
    ensures Clutches(NextInput(b, dt, now, root).0, j, aim) && NextInput(b, dt, now, root).0.actual == b.actual
  {
  }

  /** Nothing but ticks of one length that ask for the aim, frames, confirming heartbeats, and
      telemetry that leaves this joint where it is. */
  ghost predicate HoldsStep(b: Client, s: Step, j: Joint, aim: Aim, dt: Tick) {
    if s.Stream? then s.dt == dt && Moves(b, s.now) && Asks(b, Current(b, s.now), j, aim)
    else b.armed && Quiet(s) && (s.Telemetry? && j in s.joints ==> s.joints[j] == b.actual[j])
  }

  ghost predicate Holding(b: Client, steps: seq<Step>, j: Joint, aim: Aim, dt: Tick, root: real -> real)
    requires Safe(b)
  {
    steps != [] ==>
      var front := steps[..|steps| - 1];
      Holding(b, front, j, aim, dt, root) && HoldsStep(From(b, front, root), steps[|steps| - 1], j, aim, dt)
  }

  function TickCount(steps: seq<Step>): nat {
    if steps == [] then 0 else TickCount(steps[..|steps| - 1]) + if steps[|steps| - 1].Stream? then 1 else 0
  }

  /** `r` is what `n` ticks make of this joint, starting from `b`. */
  ghost predicate Followed(b: Client, r: Client, j: Joint, aim: Aim, wanted: real, dt: Tick, root: real -> real, n: nat) {
    && Clutches(r, j, aim) && r.actual[j] == b.actual[j]
    && JointMotion(r, j) == Ticks(JointMotion(b, j), wanted, b.actual[j], dt, j, root, n)
  }

  lemma HoldingStep(b: Client, s: Step, j: Joint, aim: Aim, wanted: real, dt: Tick, root: real -> real)
    requires Safe(b) && HoldsStep(b, s, j, aim, dt) && Clutches(b, j, aim) && Aims(aim, j, wanted)
    ensures var r := Next(b, s, root).0;
            && Clutches(r, j, aim) && r.actual[j] == b.actual[j]
            && JointMotion(r, j) == if s.Stream? then Advance(JointMotion(b, j), wanted, b.actual[j], dt, j, root)
                                    else JointMotion(b, j)
  {
    if s.Stream? {
      TickKeepsClutch(b, dt, s.now, j, aim, root);
      TickMotion(b, dt, s.now, j, root);
      AimIsDesired(b, Current(b, s.now), dt, j, aim, wanted);
    } else {
      QuietStep(b, s, root);
    }
  }

  lemma FollowedStep(b: Client, m: Client, s: Step, j: Joint, aim: Aim, wanted: real, dt: Tick, root: real -> real, n: nat)
    requires Safe(m) && Followed(b, m, j, aim, wanted, dt, root, n) && HoldsStep(m, s, j, aim, dt) && Aims(aim, j, wanted)
    ensures Followed(b, Next(m, s, root).0, j, aim, wanted, dt, root, n + if s.Stream? then 1 else 0)
  {
    HoldingStep(m, s, j, aim, wanted, dt, root);
  }

  lemma {:induction false} HoldingTicks(b: Client, steps: seq<Step>, j: Joint, aim: Aim, wanted: real, dt: Tick, root: real -> real)
    requires Safe(b) && Holding(b, steps, j, aim, dt, root) && Clutches(b, j, aim) && Aims(aim, j, wanted)
    ensures Followed(b, From(b, steps, root), j, aim, wanted, dt, root, TickCount(steps))
  {
    if steps != [] {
      var front, last := steps[..|steps| - 1], steps[|steps| - 1];
      HoldingTicks(b, front, j, aim, wanted, dt, root);
      FollowedStep(b, From(b, front, root), last, j, aim, wanted, dt, root, TickCount(front));
    }
  }

  /** An operator who holds still gets there: with the clutch engaged, the frames asking for one pose
      and telemetry still, the joint is at that pose, at rest, from the stated number of ticks on. */
  lemma HeldHandIsReached(b: Client, steps: seq<Step>, j: Joint, aim: Aim, wanted: real, dt: Tick, root: real -> real)
    requires IsSquareRoot(root) && Safe(b) && Holding(b, steps, j, aim, dt, root)
    requires Clutches(b, j, aim) && Aims(aim, j, wanted)
    requires Abs(Clamp(Low(j), High(j), wanted) - b.actual[j]) <= Lead(j)
    requires Times(TickCount(steps) as real, dt) >= SettlingTime(dt, j) + dt
    ensures JointMotion(From(b, steps, root), j) == Motion(Clamp(Low(j), High(j), wanted), 0.0, 0.0)
  {
    HoldingTicks(b, steps, j, aim, wanted, dt, root);
    HeldGoalIsReached(JointMotion(b, j), wanted, b.actual[j], dt, j, root, TickCount(steps));
  }

  function EdgeStep(j: Joint, dt: Tick): real { (if j == GRIPPER then 30.0 else 25.0) * dt }

  /** There is room for a whole step of edge continuation on that side. */
  predicate Room(b: Client, j: Joint, side: int, step: real) {
    if side == 1 then b.target[j] + step <= Min(High(j), b.actual[j] + Lead(j))
    else b.target[j] - step >= Max(Low(j), b.actual[j] - Lead(j))
  }

  /** A control held past the edge of the virtual arm pushes a resting joint on in the direction it is
      held, and by no more than the edge rate allows. */
  lemma EdgePushesOn(b: Client, dt: Tick, now: real, j: Joint, root: real -> real)
    requires IsSquareRoot(root) && Safe(b) && Moves(b, now) && AtEdge(Current(b, now), j)
    requires b.velocity[j] == 0.0 && b.acceleration[j] == 0.0 && Placed(b, j)
    requires Room(b, j, Current(b, now).saturation[j], EdgeStep(j, dt))
    ensures var side := Current(b, now).saturation[j];
            var moved := NextInput(b, dt, now, root).0.target[j] - b.target[j];
            0.0 < (if side == 1 then moved else -moved) <= EdgeStep(j, dt)
  {
    var c := Current(b, now);
    var wanted := Desired(b, c, dt, j);
    EdgeDesired(b, c, dt, j);
    TickMotion(b, dt, now, j, root);
    MulPositive(if j == GRIPPER then 30.0 else 25.0, dt);
    PushesOn(b.target[j], wanted, b.actual[j], c.saturation[j], EdgeStep(j, dt), dt, j, root);
  }

  lemma PushesOn(target: real, wanted: real, actual: real, side: int, step: real, dt: Tick, j: Joint, root: real -> real)
    requires IsSquareRoot(root) && side in {-1, 1} && step > 0.0
    requires Low(j) <= target <= High(j) && Abs(target - actual) <= Lead(j)
    requires wanted == target + if side == 1 then step else -step
    requires if side == 1 then wanted <= Min(High(j), actual + Lead(j)) else wanted >= Max(Low(j), actual - Lead(j))
    ensures var moved := Advance(Motion(target, 0.0, 0.0), wanted, actual, dt, j, root).position - target;
            0.0 < (if side == 1 then moved else -moved) <= step
  {
    assert Clamp(Low(j), High(j), wanted) == wanted;
    SetsOutTowardsGoal(target, wanted, actual, dt, j, root);
  }

  lemma EdgeDesired(b: Client, c: Command, dt: Tick, j: Joint)
    requires Paired(b) && AtEdge(c, j)
    ensures Desired(b, c, dt, j) == b.target[j] + if c.saturation[j] == 1 then EdgeStep(j, dt) else -EdgeStep(j, dt)
  {
    CreepMeaning(b.target[j], c.saturation[j], if j == GRIPPER then 30.0 else 25.0, dt);
  }

  lemma CreepMeaning(target: real, side: int, rate: real, dt: Tick)
    requires side in {-1, 1}
    ensures Creep(target, side, rate, dt) == target + if side == 1 then rate * dt else -(rate * dt)
  {
    MulUnits(rate);
    MulSub(0.0, 1.0, rate);
  }
}
