/** Rounding to four decimals, half to even, as Python's `round(x, 4)` does it in exact arithmetic. */
module Rounding {
  function HalfEven(x: real): int {
    var f := x.Floor;
    var d := x - f as real;
    if d < 0.5 || (d == 0.5 && f % 2 == 0) then f else f + 1
  }

  function Round4(x: real): real {
    HalfEven(x * 10000.0) as real / 10000.0
  }

  /** A value with at most four decimals. */
  ghost predicate OnGrid(x: real) {
    (x * 10000.0).Floor as real == x * 10000.0
  }

  function Abs(x: real): real {
    if x < 0.0 then -x else x
  }

  /** The value rounds to at most `k` ten-thousandths: it lies below the half-step above `k`, or on it with `k` even. */
  ghost predicate RoundsToAtMost(x: real, k: int) {
    x * 10000.0 < k as real + 0.5 || (x * 10000.0 == k as real + 0.5 && k % 2 == 0)
  }

  lemma HalfStepDecides(x: real, k: int)
    ensures HalfEven(x * 10000.0) <= k <==> RoundsToAtMost(x, k)
  {
    var y := x * 10000.0;
    if y.Floor != k {
      assert y.Floor < k ==> y < k as real;
    }
  }

  /** No half-step of the rounding separates the two values. */
  ghost predicate NoHalfStepBetween(x: real, y: real) {
    forall k: int :: RoundsToAtMost(x, k) <==> RoundsToAtMost(y, k)
  }

  /** Two values round to the same figure if and only if no half-step separates them. */
  lemma SameFigureIff(x: real, y: real)
    ensures Round4(x) == Round4(y) <==> NoHalfStepBetween(x, y)
  {
    var h, l := HalfEven(x * 10000.0), HalfEven(y * 10000.0);
    forall k: int ensures (h <= k <==> RoundsToAtMost(x, k)) && (l <= k <==> RoundsToAtMost(y, k)) {
      HalfStepDecides(x, k);
      HalfStepDecides(y, k);
    }
    if NoHalfStepBetween(x, y) {
      assert RoundsToAtMost(x, h) && RoundsToAtMost(y, l);
    }
    FiguresDiffer(h, l);
  }

  lemma FiguresDiffer(h: int, l: int)
    ensures h as real / 10000.0 == l as real / 10000.0 <==> h == l
  {
  }

  /** A value of three decimals is a value of four. */
  ghost predicate OnThousandths(x: real) {
    (x * 1000.0).Floor as real == x * 1000.0
  }

  lemma ThousandthsAreOnGrid(x: real)
    requires OnThousandths(x)
    ensures OnGrid(x)
  {
    var k := (x * 1000.0).Floor;
    assert x * 10000.0 == (10 * k) as real;
    assert ((10 * k) as real).Floor == 10 * k;
  }

  lemma Round4Near(x: real)
    ensures Abs(Round4(x) - x) <= 0.00005
  {
  }

  lemma Round4OnGrid(x: real)
    ensures OnGrid(Round4(x))
  {
    var k := HalfEven(x * 10000.0);
    assert Round4(x) * 10000.0 == k as real;
    assert (k as real).Floor == k;
  }

  lemma Round4Monotone(x: real, y: real)
    requires x <= y
    ensures Round4(x) <= Round4(y)
  {
    var a, b := x * 10000.0, y * 10000.0;
    assert a.Floor <= b.Floor;
  }

  lemma Round4Keeps(x: real)
    requires OnGrid(x)
    ensures Round4(x) == x
  {
  }

  lemma GridSum(x: real, y: real)
    requires OnGrid(x) && OnGrid(y)
    ensures OnGrid(x + y)
  {
    var j, k := (x * 10000.0).Floor, (y * 10000.0).Floor;
    assert (x + y) * 10000.0 == (j + k) as real;
  }

  /** Grid values less than two steps apart are at most one step apart. */
  lemma GridGap(x: real, y: real)
    requires OnGrid(x) && OnGrid(y) && Abs(x - y) < 0.0002
    ensures Abs(x - y) <= 0.0001
  {
    var j, k := (x * 10000.0).Floor, (y * 10000.0).Floor;
    assert (x - y) * 10000.0 == (j - k) as real;
    assert -2 < j - k < 2;
  }
}
