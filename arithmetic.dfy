/**
 * Integer and real arithmetic shared by both copies of the zone and session
 * code: Swift's round-half-away-from-zero applied to a whole-percent product,
 * Swift's truncating `Int(Double)` conversion of a quotient, and sums/means.
 */
module Arithmetic {

  /** Rounds `x / 100` to the nearest integer, halfway cases away from zero
      (Swift's `.rounded()` and `round()`). */
  function RoundHundredths(x: int): (r: int)
    ensures 100 * r - 50 <= x <= 100 * r + 50
    ensures x >= 0 ==> x < 100 * r + 50
    ensures x <= 0 ==> 100 * r - 50 < x
  {
    if x >= 0 then (x + 50) / 100 else -((-x + 50) / 100)
  }

  /** Rounding to the nearest hundredth preserves order. */
  lemma RoundHundredthsMonotonic(x: int, y: int)
    requires x <= y
    ensures RoundHundredths(x) <= RoundHundredths(y)
  {
  }

  /** A whole multiple of 100 rounds to itself divided by 100. */
  lemma RoundHundredthsExact(k: int)
    ensures RoundHundredths(100 * k) == k
  {
  }

  /** `a / n` truncated toward zero, as Swift's `Int(Double(a) / Double(n))`
      computes it (Dafny's own `/` floors for a positive divisor). */
  function TruncDiv(a: int, n: int): (r: int)
    requires n > 0
    ensures a >= 0 ==> 0 <= r && r * n <= a < r * n + n
    ensures a < 0 ==> r <= 0 && r * n - n < a <= r * n
  {
    if a >= 0 then
      DivBounds(a, n);
      a / n
    else
      DivBounds(-a, n);
      assert (-((-a) / n)) * n == -(((-a) / n) * n);
      -((-a) / n)
  }

  /** Dafny's `/` on a non-negative dividend brackets it between consecutive
      multiples of the divisor. */
  lemma DivBounds(a: int, n: int)
    requires a >= 0 && n > 0
    ensures 0 <= a / n && (a / n) * n <= a < (a / n) * n + n
  {
    assert a == (a / n) * n + a % n;
  }

  function Sum(xs: seq<int>): int
  {
    if xs == [] then 0 else Sum(xs[..|xs| - 1]) + xs[|xs| - 1]
  }

  function SumReal(xs: seq<real>): real
  {
    if xs == [] then 0.0 else SumReal(xs[..|xs| - 1]) + xs[|xs| - 1]
  }

  /** Every element within `[lo, hi]` bounds the sum by `lo * n` and `hi * n`. */
  lemma {:induction false} SumBounds(xs: seq<int>, lo: int, hi: int)
    requires forall i :: 0 <= i < |xs| ==> lo <= xs[i] <= hi
    ensures lo * |xs| <= Sum(xs) <= hi * |xs|
  {
    if xs != [] {
      var init := xs[..|xs| - 1];
      SumBounds(init, lo, hi);
      assert lo * |xs| == lo * |init| + lo;
      assert hi * |xs| == hi * |init| + hi;
    }
  }

  /** The real-valued counterpart of SumBounds. */
  lemma {:induction false} SumRealBounds(xs: seq<real>, lo: real, hi: real)
    requires forall i :: 0 <= i < |xs| ==> lo <= xs[i] <= hi
    ensures lo * |xs| as real <= SumReal(xs) <= hi * |xs| as real
  {
    if xs != [] {
      var init := xs[..|xs| - 1];
      SumRealBounds(init, lo, hi);
      assert lo * |xs| as real == lo * |init| as real + lo;
      assert hi * |xs| as real == hi * |init| as real + hi;
    }
  }

  /** Arithmetic mean of a non-empty sequence of reals. */
  function MeanReal(xs: seq<real>): (m: real)
    requires |xs| > 0
    ensures m * |xs| as real == SumReal(xs)
  {
    SumReal(xs) / |xs| as real
  }

  /** The mean lies between any lower and upper bound of the elements. */
  lemma MeanRealBounds(xs: seq<real>, lo: real, hi: real)
    requires |xs| > 0
    requires forall i :: 0 <= i < |xs| ==> lo <= xs[i] <= hi
    ensures lo <= MeanReal(xs) <= hi
  {
    SumRealBounds(xs, lo, hi);
    var n := |xs| as real;
    var m := MeanReal(xs);
    assert (m - lo) * n == SumReal(xs) - lo * n;
    assert (hi - m) * n == hi * n - SumReal(xs);
  }

  /** Every element at least `lo` puts the sum at least `lo * n`. */
  lemma {:induction false} SumRealAtLeast(xs: seq<real>, lo: real)
    requires forall i :: 0 <= i < |xs| ==> lo <= xs[i]
    ensures lo * |xs| as real <= SumReal(xs)
  {
    if xs != [] {
      var init := xs[..|xs| - 1];
      SumRealAtLeast(init, lo);
      assert lo * |xs| as real == lo * |init| as real + lo;
    }
  }

  /** The mean is at least any lower bound of the elements. */
  lemma MeanRealAtLeast(xs: seq<real>, lo: real)
    requires |xs| > 0
    requires forall i :: 0 <= i < |xs| ==> lo <= xs[i]
    ensures lo <= MeanReal(xs)
  {
    SumRealAtLeast(xs, lo);
    var n := |xs| as real;
    assert (MeanReal(xs) - lo) * n == SumReal(xs) - lo * n;
  }

  /** Truncated mean of a non-empty sequence of integers, Swift's
      `Int(Double(sum) / Double(count))`. */
  function TruncatedMean(xs: seq<int>): (m: int)
    requires |xs| > 0
    ensures Sum(xs) >= 0 ==> m * |xs| <= Sum(xs) < m * |xs| + |xs|
    ensures Sum(xs) < 0 ==> m * |xs| - |xs| < Sum(xs) <= m * |xs|
  {
    TruncDiv(Sum(xs), |xs|)
  }

  /** The truncated mean lies between any integer bounds of the elements. */
  lemma TruncatedMeanBounds(xs: seq<int>, lo: int, hi: int)
    requires |xs| > 0
    requires forall i :: 0 <= i < |xs| ==> lo <= xs[i] <= hi
    ensures lo <= TruncatedMean(xs) <= hi
  {
    SumBounds(xs, lo, hi);
    QuotientBounds(Sum(xs), |xs|, TruncatedMean(xs), lo, hi);
  }

  /** A truncated quotient of `s` by `n` inherits bounds `lo * n <= s <= hi * n`. */
  lemma QuotientBounds(s: int, n: int, m: int, lo: int, hi: int)
    requires n > 0 && lo * n <= s <= hi * n
    requires s >= 0 ==> m * n <= s < m * n + n
    requires s < 0 ==> m * n - n < s <= m * n
    ensures lo <= m <= hi
  {
    if s >= 0 {
      assert (m + 1) * n == m * n + n;
      assert (hi + 1) * n == hi * n + n;
      MultiplyCancel(lo, m + 1, n);
      MultiplyCancel(m, hi + 1, n);
    } else {
      assert (lo - 1) * n == lo * n - n;
      assert (m - 1) * n == m * n - n;
      MultiplyCancel(lo - 1, m, n);
      MultiplyCancel(m - 1, hi, n);
    }
  }

  /** Cancelling a positive factor from a strict inequality. */
  lemma MultiplyCancel(a: int, b: int, n: int)
    requires n > 0 && a * n < b * n
    ensures a < b
  {
    assert (b - a) * n == b * n - a * n;
  }
}
