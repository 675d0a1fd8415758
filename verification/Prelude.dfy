/** Small vocabulary shared by every module: options and real arithmetic. */
module Prelude {

  datatype Option<+T> = None | Some(value: T)

  /** The names every JavaScript object inherits: looking one up on a plain object finds
      something even where it was never set. */
  const INHERITED: set<string> := {
    "constructor", "toString", "toLocaleString", "valueOf", "hasOwnProperty", "isPrototypeOf",
    "propertyIsEnumerable", "__proto__", "__defineGetter__", "__defineSetter__",
    "__lookupGetter__", "__lookupSetter__"
  }

  predicate Inherited(name: string) {
    name in INHERITED
  }

  /** The one inherited name that assigning a number does not make the object's own. */
  const PROTO := "__proto__"

  function Abs(x: real): (r: real) {
    if x < 0.0 then -x else x
  }

  function Min(x: real, y: real): (r: real) {
    if x < y then x else y
  }

  function Max(x: real, y: real): (r: real) {
    if x < y then y else x
  }

  /** `min(high, max(low, x))`, the order in which every clamp of the program is written. */
  function Clamp(low: real, high: real, x: real): (r: real) {
    Min(high, Max(low, x))
  }
}

/** Products and quotients of reals, one step at a time. The solver loses linear facts about
    products written out in place, so they are kept behind a name. */
module RealMath {

  function Times(a: real, b: real): real {
    a * b
  }

  lemma MulNonneg(a: real, b: real)
    requires a >= 0.0 && b >= 0.0
    ensures Times(a, b) >= 0.0
  {
  }

  lemma MulAdd(a: real, b: real, c: real)
    ensures Times(a + b, c) == Times(a, c) + Times(b, c)
    ensures Times(c, a + b) == Times(c, a) + Times(c, b)
  {
  }

  lemma MulSub(a: real, b: real, c: real)
    ensures Times(a - b, c) == Times(a, c) - Times(b, c)
    ensures Times(c, a - b) == Times(c, a) - Times(c, b)
  {
  }

  lemma MulUnits(a: real)
    ensures Times(1.0, a) == Times(a, 1.0) == a && Times(0.0, a) == Times(a, 0.0) == 0.0
  {
  }

  lemma MulSwap(a: real, b: real)
    ensures Times(a, b) == Times(b, a)
  {
  }

  lemma MulAssociates(a: real, b: real, c: real)
    ensures Times(a, Times(b, c)) == Times(Times(a, b), c)
  {
  }

  lemma MulLe(a: real, b: real, c: real)
    requires a <= b && c >= 0.0
    ensures Times(a, c) <= Times(b, c) && Times(c, a) <= Times(c, b)
  {
    MulNonneg(b - a, c);
    MulSub(b, a, c);
    MulSwap(a, c);
    MulSwap(b, c);
  }

  lemma MulLt(a: real, b: real, c: real)
    requires a < b && c > 0.0
    ensures Times(a, c) < Times(b, c) && Times(c, a) < Times(c, b)
  {
    MulPositive(b - a, c);
    MulSub(b, a, c);
    MulSwap(a, c);
    MulSwap(b, c);
  }

  lemma MulCancel(a: real, b: real, c: real)
    requires c > 0.0
    ensures Times(a, c) <= Times(b, c) ==> a <= b
    ensures Times(a, c) < Times(b, c) ==> a < b
  {
    if a > b {
      MulLt(b, a, c);
    }
  }

  lemma MulPositive(a: real, b: real)
    requires a > 0.0 && b > 0.0
    ensures Times(a, b) > 0.0
  {
  }

  lemma DivTimes(a: real, d: real)
    requires d != 0.0
    ensures Times(a / d, d) == Times(d, a / d) == a
  {
  }

  lemma DivRange(r: real, m: real)
    requires 0.0 <= r <= m && m > 0.0
    ensures 0.0 <= r / m <= 1.0
    ensures r < m ==> r / m < 1.0
  {
  }

  lemma DivLe(a: real, b: real, d: real)
    requires a <= b && d > 0.0
    ensures a / d <= b / d
  {
  }
}

/** A variable that steps either leave alone or overwrite: what it holds is what the last
    overwriting step put there. */
module Latches {
  import opened Prelude

  datatype Effect<T> = Hold | Put(value: Option<T>)

  predicate Follows<T(==)>(levels: seq<Option<T>>, effects: seq<Effect<T>>) {
    && |levels| == |effects| + 1 && levels[0] == None
    && forall i :: 0 <= i < |effects| ==> levels[i + 1] == if effects[i].Hold? then levels[i] else effects[i].value
  }

  /** Step `w` put `x` there and nothing before `k` has overwritten it. */
  predicate LastPut<T(==)>(effects: seq<Effect<T>>, w: nat, k: nat, x: T) {
    && w < k <= |effects| && effects[w] == Put(Some(x))
    && forall m :: w < m < k ==> effects[m].Hold?
  }

  lemma {:induction false} LatchMeaning<T>(levels: seq<Option<T>>, effects: seq<Effect<T>>, k: nat, x: T)
    requires Follows(levels, effects) && k <= |effects|
    ensures levels[k] == Some(x) <==> exists w: nat :: LastPut(effects, w, k, x)
    decreases k
  {
    if k > 0 {
      var h: nat := k - 1;
      LatchMeaning(levels, effects, h, x);
      assert levels[h + 1] == if effects[h].Hold? then levels[h] else effects[h].value;
      if w: nat :| LastPut(effects, w, h, x) && effects[h].Hold? {
        assert LastPut(effects, w, k, x);
      }
      if w: nat :| LastPut(effects, w, k, x) && w < h {
        assert LastPut(effects, w, h, x);
      }
      assert effects[h] == Put(Some(x)) ==> LastPut(effects, h, k, x);
    }
  }

  /** Step `w` raised a flag that no later step before `k` lowered. */
  predicate UpSince(raises: seq<bool>, lowers: seq<bool>, w: nat, k: nat) {
    w < k <= |raises| == |lowers| && raises[w] && forall m :: w < m < k ==> !lowers[m]
  }

  predicate Flag(levels: seq<bool>, raises: seq<bool>, lowers: seq<bool>) {
    && |levels| == |raises| + 1 == |lowers| + 1 && !levels[0]
    && forall i :: 0 <= i < |raises| ==> levels[i + 1] == (raises[i] || (levels[i] && !lowers[i]))
  }

  lemma {:induction false} FlagMeaning(levels: seq<bool>, raises: seq<bool>, lowers: seq<bool>, k: nat)
    requires Flag(levels, raises, lowers) && k <= |raises|
    ensures levels[k] <==> exists w: nat :: UpSince(raises, lowers, w, k)
    decreases k
  {
    if k > 0 {
      var h: nat := k - 1;
      FlagMeaning(levels, raises, lowers, h);
      assert levels[h + 1] == (raises[h] || (levels[h] && !lowers[h]));
      if w: nat :| UpSince(raises, lowers, w, h) && !lowers[h] {
        assert UpSince(raises, lowers, w, k);
      }
      if w: nat :| UpSince(raises, lowers, w, k) && w < h {
        assert UpSince(raises, lowers, w, h);
      }
      assert raises[h] ==> UpSince(raises, lowers, h, k);
    }
  }

  /** `x` is the last value written before `k`, or, if there is none, the initial one. */
  predicate LastWritten<T(==)>(initial: T, writes: seq<Option<T>>, k: nat, x: T)
    requires k <= |writes|
  {
    if forall m :: 0 <= m < k ==> writes[m].None? then x == initial
    else exists w: nat :: w < k && writes[w] == Some(x) && forall m :: w < m < k ==> writes[m].None?
  }

  lemma {:induction false} VariableMeaning<T>(values: seq<T>, writes: seq<Option<T>>, k: nat)
    requires |values| == |writes| + 1 && k <= |writes|
    requires forall i :: 0 <= i < |writes| ==> values[i + 1] == if writes[i].Some? then writes[i].value else values[i]
    ensures LastWritten(values[0], writes, k, values[k])
    decreases k
  {
    if k > 0 {
      var h: nat := k - 1;
      VariableMeaning(values, writes, h);
      assert values[h + 1] == if writes[h].Some? then writes[h].value else values[h];
    }
  }
}
