/** Kotlin's rounding and clamping on `Float`, over the reals. */
module Numeric {
  import opened Data

  /** `k` is an integer nearest to `v`, and the even one when `v` lies
      halfway between two integers. */
  predicate NearestEven(k: int, v: real) {
    && -0.5 <= k as real - v <= 0.5
    && (k as real - v == 0.5 || k as real - v == -0.5 ==> k % 2 == 0)
  }

  /** At most one integer is nearest with ties to even. */
  lemma NearestEvenUnique(k1: int, k2: int, v: real)
    requires NearestEven(k1, v) && NearestEven(k2, v)
    ensures k1 == k2
  {
  }

  /** `kotlin.math.round`: the nearest integer, ties to the even one. */
  function RoundHalfEven(v: real): (r: int)
    ensures NearestEven(r, v)
  {
    var f := v.Floor;
    var d := v - f as real;
    if d < 0.5 then f
    else if d > 0.5 then f + 1
    else if f % 2 == 0 then f
    else f + 1
  }

  /** An integral value rounds to itself. */
  lemma RoundHalfEvenOfInt(k: int)
    ensures RoundHalfEven(k as real) == k
  {
  }

  /** `Float.roundToInt()`: the nearest integer, ties towards positive infinity,
      saturating at the bounds of `Int`. */
  function RoundToInt(v: real): (r: Int32)
    ensures MinInt32 as real <= v <= MaxInt32 as real ==> -0.5 < r as real - v <= 0.5
    ensures v > MaxInt32 as real ==> r == MaxInt32
    ensures v < MinInt32 as real ==> r == MinInt32
  {
    if v > MaxInt32 as real then MaxInt32
    else if v < MinInt32 as real then MinInt32
    else
      (v + 0.5).Floor
  }

  /** A whole number of `Int` range rounds to itself. */
  lemma RoundToIntOfInt(k: Int32)
    ensures RoundToInt(k as real) == k
  {
    assert (k as real + 0.5).Floor == k;
  }

  /** `r` is a whole number of tenths, the one nearest to `v`, and an even
      number of tenths when `v` lies halfway between two. */
  predicate IsRound1(r: real, v: real) {
    && (r * 10.0).Floor as real == r * 10.0
    && NearestEven((r * 10.0).Floor, v * 10.0)
  }

  /** `round(v * 10) / 10`: one decimal place, ties to even. */
  function Round1(v: real): (r: real)
    ensures IsRound1(r, v)
    ensures -0.05 <= r - v <= 0.05
  {
    RoundHalfEven(v * 10.0) as real / 10.0
  }

  /** `IsRound1` pins the value: it holds of `Round1(v)` and nothing else. */
  lemma Round1Unique(r: real, v: real)
    requires IsRound1(r, v)
    ensures r == Round1(v)
  {
    var q := Round1(v);
    NearestEvenUnique((r * 10.0).Floor, (q * 10.0).Floor, v * 10.0);
  }

  /** Grid snapping: the nearest multiple of `step` (ties to the even
      multiple), or `v` itself when the step is not positive. */
  function Snap(v: real, step: real): (r: real)
    ensures step <= 0.0 ==> r == v
    ensures step > 0.0 ==> OnGrid(r, v, step)
    ensures step > 0.0 ==> -step / 2.0 <= r - v <= step / 2.0
  {
    if step > 0.0 then
      var k := RoundHalfEven(v / step);
      SnapNear(v, step, k);
      MulDiv(k as real, step);
      assert k as real * step / step == k as real;
      assert (k as real).Floor == k;
      k as real * step
    else v
  }

  /** `r` is a whole multiple of `step`, the one nearest to `v`, and an even
      multiple when `v` lies halfway between two. */
  predicate OnGrid(r: real, v: real, step: real)
    requires step > 0.0
  {
    && (r / step).Floor as real * step == r
    && NearestEven((r / step).Floor, v / step)
  }

  /** `OnGrid` pins the value: it holds of `Snap(v, step)` and nothing else. */
  lemma SnapUnique(r: real, v: real, step: real)
    requires step > 0.0 && OnGrid(r, v, step)
    ensures r == Snap(v, step)
  {
    var q := Snap(v, step);
    NearestEvenUnique((r / step).Floor, (q / step).Floor, v / step);
  }

  lemma SnapNear(v: real, step: real, k: int)
    requires step > 0.0
    requires -0.5 <= k as real - v / step <= 0.5
    ensures -step / 2.0 <= k as real * step - v <= step / 2.0
  {
    var q := v / step;
    var d := k as real - q;
    assert v == q * step;
    assert k as real * step - v == d * step;
    MulMonotone(-0.5, d, step);
    MulMonotone(d, 0.5, step);
  }

  lemma MulMonotone(a: real, b: real, c: real)
    requires a <= b && c > 0.0
    ensures a * c <= b * c
  {
    assert b * c - a * c == (b - a) * c;
  }

  lemma MulDiv(a: real, c: real)
    requires c != 0.0
    ensures (a * c) / c == a
  {
  }

  /** Snapping a value already on the grid leaves it there. */
  lemma {:induction false} SnapIdempotent(v: real, step: real)
    ensures Snap(Snap(v, step), step) == Snap(v, step)
  {
    if step > 0.0 {
      var k := RoundHalfEven(v / step);
      assert Snap(v, step) == k as real * step;
      SnapOfMultiple(k, step);
    }
  }

  /** A multiple of the step snaps to itself. */
  lemma SnapOfMultiple(k: int, step: real)
    requires step > 0.0
    ensures Snap(k as real * step, step) == k as real * step
  {
    var w := k as real * step;
    MulDiv(k as real, step);
    RoundHalfEvenOfInt(k);
    assert RoundHalfEven(w / step) == k;
  }

  /** `coerceIn(lo, hi)` with `lo <= hi`: the bound a value crosses, or the
      value itself when it lies in the range. */
  function CoerceIn(v: real, lo: real, hi: real): (r: real)
    requires lo <= hi
    ensures lo <= r <= hi
    ensures lo <= v <= hi ==> r == v
    ensures v < lo ==> r == lo
    ensures v > hi ==> r == hi
  {
    if v < lo then lo else if v > hi then hi else v
  }

  /** `Int.coerceIn(lo, hi)` with `lo <= hi`, clamping as CoerceIn does. */
  function CoerceInInt(v: int, lo: int, hi: int): (r: int)
    requires lo <= hi
    ensures lo <= r <= hi
    ensures lo <= v <= hi ==> r == v
    ensures v < lo ==> r == lo
    ensures v > hi ==> r == hi
  {
    if v < lo then lo else if v > hi then hi else v
  }

  /** `coerceAtLeast(lo)`. */
  function CoerceAtLeast(v: real, lo: real): (r: real)
    ensures r >= lo && r >= v
    ensures r == v || r == lo
  {
    if v < lo then lo else v
  }
}
