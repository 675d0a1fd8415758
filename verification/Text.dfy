/** Strings as the program has them: sequences of 16-bit code units. */
module Text {
  import opened Prelude

  type unit = u: int | 0 <= u < 0x1_0000
  type byte = b: int | 0 <= b < 0x100

  /** A literal of the program; all of them are ASCII. */
  function U(s: string): (t: seq<unit>)
    requires forall i :: 0 <= i < |s| ==> s[i] as int < 0x80
    ensures |t| == |s| && forall i :: 0 <= i < |s| ==> t[i] == s[i] as int
  {
    seq(|s|, i requires 0 <= i < |s| => s[i] as int)
  }

  predicate Ascii(t: seq<unit>) {
    forall i :: 0 <= i < |t| ==> t[i] < 0x80
  }

  predicate Free(t: seq<unit>, separator: unit) {
    forall i :: 0 <= i < |t| ==> t[i] != separator
  }

  // ---- split and join ---------------------------------------------------------------------------

  /** `t.split(separator)` */
  function Split(t: seq<unit>, separator: unit): (parts: seq<seq<unit>>)
    ensures |parts| > 0
  {
    if t == [] then [[]]
    else
      var rest := Split(t[1..], separator);
      if t[0] == separator then [[]] + rest else [[t[0]] + rest[0]] + rest[1..]
  }

  /** `parts.join(separator)` */
  function Join(parts: seq<seq<unit>>, separator: unit): seq<unit> {
    if parts == [] then []
    else if |parts| == 1 then parts[0]
    else parts[0] + [separator] + Join(parts[1..], separator)
  }

  lemma {:induction false} SplitFirst(head: seq<unit>, separator: unit, rest: seq<unit>)
    requires Free(head, separator)
    ensures Split(head + [separator] + rest, separator) == [head] + Split(rest, separator)
  {
    var t := head + [separator] + rest;
    if head == [] {
      assert t[1..] == rest;
    } else {
      assert t[1..] == head[1..] + [separator] + rest;
      SplitFirst(head[1..], separator, rest);
      assert [head[0]] + head[1..] == head;
    }
  }

  lemma {:induction false} SplitNone(t: seq<unit>, separator: unit)
    requires Free(t, separator)
    ensures Split(t, separator) == [t]
  {
    if t != [] {
      SplitNone(t[1..], separator);
      assert [t[0]] + t[1..] == t;
    }
  }

  lemma {:induction false} SplitJoin(parts: seq<seq<unit>>, separator: unit)
    requires parts != [] && forall i :: 0 <= i < |parts| ==> Free(parts[i], separator)
    ensures Split(Join(parts, separator), separator) == parts
  {
    if |parts| == 1 {
      SplitNone(parts[0], separator);
    } else {
      SplitJoin(parts[1..], separator);
      SplitFirst(parts[0], separator, Join(parts[1..], separator));
    }
  }

  lemma {:induction false} JoinSplit(t: seq<unit>, separator: unit)
    ensures Join(Split(t, separator), separator) == t
    ensures forall i :: 0 <= i < |Split(t, separator)| ==> Free(Split(t, separator)[i], separator)
  {
    if t != [] {
      JoinSplit(t[1..], separator);
      var rest, parts := Split(t[1..], separator), Split(t, separator);
      if t[0] == separator {
        assert parts[1..] == rest;
      } else {
        assert parts[1..] == rest[1..];
      }
    }
  }

  /** The last piece can be taken off again. */
  lemma {:induction false} SplitLast(t: seq<unit>, separator: unit, last: seq<unit>)
    requires Free(last, separator)
    ensures Split(t + [separator] + last, separator) == Split(t, separator) + [last]
  {
    if t == [] {
      SplitNone(last, separator);
      assert ([] + [separator] + last)[1..] == last;
    } else {
      assert (t + [separator] + last)[1..] == t[1..] + [separator] + last;
      SplitLast(t[1..], separator, last);
    }
  }

  lemma {:induction false} JoinLast(parts: seq<seq<unit>>, separator: unit)
    requires |parts| > 1
    ensures var n := |parts| - 1; Join(parts, separator) == Join(parts[..n], separator) + [separator] + parts[n]
  {
    var n := |parts| - 1;
    if n > 1 {
      JoinLast(parts[1..], separator);
      assert parts[1..][..n - 1] == parts[..n][1..];
      assert parts[0] + [separator] + (Join(parts[1..][..n - 1], separator) + [separator] + parts[n])
        == (parts[0] + [separator] + Join(parts[..n][1..], separator)) + [separator] + parts[n];
    } else {
      assert parts[1..] == [parts[1]] && parts[..1] == [parts[0]];
    }
  }

  // ---- trim and the first "=" -------------------------------------------------------------------

  /** What `trim` removes: the white space and line terminators of the language. */
  predicate White(u: unit) {
    u in {0x9, 0xA, 0xB, 0xC, 0xD, 0x20, 0xA0, 0x1680, 0x2028, 0x2029, 0x202F, 0x205F, 0x3000, 0xFEFF}
    || 0x2000 <= u <= 0x200A
  }

  function TrimStart(t: seq<unit>): seq<unit> {
    if t != [] && White(t[0]) then TrimStart(t[1..]) else t
  }

  function TrimEnd(t: seq<unit>): seq<unit> {
    if t != [] && White(t[|t| - 1]) then TrimEnd(t[..|t| - 1]) else t
  }

  function Trim(t: seq<unit>): seq<unit> {
    TrimEnd(TrimStart(t))
  }

  lemma {:induction false} TrimPadded(before: seq<unit>, t: seq<unit>, after: seq<unit>)
    requires forall i :: 0 <= i < |before| ==> White(before[i])
    requires forall i :: 0 <= i < |after| ==> White(after[i])
    requires t != [] && !White(t[0]) && !White(t[|t| - 1])
    ensures Trim(before + t + after) == t
  {
    if before != [] {
      assert (before + t + after)[1..] == before[1..] + t + after;
      TrimPadded(before[1..], t, after);
    } else {
      assert before + t + after == t + after;
      TrimTail(t, after);
    }
  }

  lemma {:induction false} TrimTail(t: seq<unit>, after: seq<unit>)
    requires forall i :: 0 <= i < |after| ==> White(after[i])
    requires t != [] && !White(t[|t| - 1])
    ensures TrimEnd(t + after) == t
  {
    if after != [] {
      assert (t + after)[..|t + after| - 1] == t + after[..|after| - 1];
      TrimTail(t, after[..|after| - 1]);
    } else {
      assert t + after == t;
    }
  }

  const EQUALS: unit := 0x3D

  /** `const [k, ...rest] = t.split("=")`, and `rest.join("=")`. */
  function KeyOf(t: seq<unit>): seq<unit> {
    Split(t, EQUALS)[0]
  }

  function ValueOf(t: seq<unit>): seq<unit> {
    Join(Split(t, EQUALS)[1..], EQUALS)
  }

  lemma KeyAndValue(key: seq<unit>, value: seq<unit>)
    requires Free(key, EQUALS)
    ensures KeyOf(key + [EQUALS] + value) == key && ValueOf(key + [EQUALS] + value) == value
  {
    SplitFirst(key, EQUALS, value);
    JoinSplit(value, EQUALS);
    assert ([key] + Split(value, EQUALS))[1..] == Split(value, EQUALS);
  }

  // ---- decimal numbers ----------------------------------------------------------------------------

  predicate IsDigit(u: unit) {
    0x30 <= u <= 0x39
  }

  function DigitOf(u: unit): nat
    requires IsDigit(u)
  {
    u as int - 0x30
  }

  predicate AllDigits(t: seq<unit>) {
    t != [] && forall i :: 0 <= i < |t| ==> IsDigit(t[i])
  }

  /** How a template prints a whole number. */
  function Decimal(n: nat): (t: seq<unit>)
    ensures AllDigits(t)
  {
    if n < 10 then [0x30 + n] else Decimal(n / 10) + [0x30 + n % 10]
  }

  function Digits(t: seq<unit>): (n: nat)
    requires forall i :: 0 <= i < |t| ==> IsDigit(t[i])
  {
    if t == [] then 0 else Digits(t[..|t| - 1]) * 10 + DigitOf(t[|t| - 1])
  }

  lemma {:induction false} DecimalRoundTrip(n: nat)
    ensures Digits(Decimal(n)) == n
  {
    if n >= 10 {
      DecimalRoundTrip(n / 10);
      assert Decimal(n)[..|Decimal(n)| - 1] == Decimal(n / 10);
    } else {
      assert Digits([]) == 0;
      assert Decimal(n)[..0] == [];
    }
  }
}
