/**
 * Descriptive statistics over one series of trial outcomes: the reductions
 * behind `calculateStats` (frontend/src/pages/Reports/utils/calculateStats.ts)
 * and the per-configuration figures of the genetic-algorithm sweep.
 *
 * Values are exact reals. `Math.sqrt` is a routine of the JavaScript runtime,
 * so it enters as a parameter `sqrt` that is only required to be a square root.
 */
module Stats {

  /** `values.reduce((sum, val) => sum + val, 0)`: a left fold of `+` from 0. */
  function Sum(s: seq<real>): real
  {
    if |s| == 0 then 0.0 else Sum(s[..|s| - 1]) + s[|s| - 1]
  }

  // Facts of real arithmetic that the solver does not find unaided.

  lemma MulStrict(a: real, b: real, c: real)
    requires c > 0.0 && a < b
    ensures a * c < b * c
  {
  }

  lemma SquareNonNegative(a: real)
    ensures a * a >= 0.0
  {
    if a < 0.0 {
      MulStrict(a, 0.0, -a);
      assert a * -a < 0.0 * -a;
    }
  }

  lemma SquareLess(x: real, y: real)
    requires 0.0 <= x < y
    ensures x * x < y * y
  {
    var d := y - x;
    assert y * y == x * x + 2.0 * x * d + d * d;
    MulStrict(0.0, d, d);
    assert 0.0 * d == 0.0;
    assert d * d > 0.0;
    assert x * d >= 0.0;
  }

  /** A non-negative real is determined by its square. */
  lemma SquareRootUnique(x: real, y: real)
    requires x >= 0.0 && y >= 0.0 && x * x == y * y
    ensures x == y
  {
    if x < y { SquareLess(x, y); }
    if y < x { SquareLess(y, x); }
  }

  lemma DivBounds(a: real, n: real, lo: real, hi: real)
    requires n > 0.0 && n * lo <= a <= n * hi
    ensures lo <= a / n <= hi
  {
    var q := a / n;
    assert q * n == a;
    if q < lo { MulStrict(q, lo, n); }
    if q > hi { MulStrict(hi, q, n); }
  }

  /** `x` added `n` times: keeps products of two variables out of the lemmas about series. */
  function Times(n: nat, x: real): real
  {
    if n == 0 then 0.0 else Times(n - 1, x) + x
  }

  lemma {:induction false} TimesIsProduct(n: nat, x: real)
    ensures Times(n, x) == n as real * x
  {
    if n > 0 {
      TimesIsProduct(n - 1, x);
      assert ((n - 1) as real + 1.0) * x == (n - 1) as real * x + x;
    }
  }

  lemma MeanOfBounded(a: real, n: nat, lo: real, hi: real)
    requires n > 0 && Times(n, lo) <= a <= Times(n, hi)
    ensures lo <= a / n as real <= hi
  {
    TimesIsProduct(n, lo);
    TimesIsProduct(n, hi);
    DivBounds(a, n as real, lo, hi);
  }

  /** `Math.min(...values)` of a non-empty series: an element that no element undercuts. */
  function MinOf(s: seq<real>): (m: real)
    requires |s| > 0
    ensures m in s
    ensures forall i :: 0 <= i < |s| ==> m <= s[i]
  {
    if |s| == 1 then s[0]
    else
      var rest := MinOf(s[..|s| - 1]);
      if s[|s| - 1] < rest then s[|s| - 1] else rest
  }

  /** `Math.max(...values)` of a non-empty series: an element that no element exceeds. */
  function MaxOf(s: seq<real>): (m: real)
    requires |s| > 0
    ensures m in s
    ensures forall i :: 0 <= i < |s| ==> s[i] <= m
  {
    if |s| == 1 then s[0]
    else
      var rest := MaxOf(s[..|s| - 1]);
      if s[|s| - 1] > rest then s[|s| - 1] else rest
  }

  /** The arithmetic mean `sum / length`. */
  function Mean(s: seq<real>): real
    requires |s| > 0
  {
    Sum(s) / |s| as real
  }

  /** `Σ (x - m)²` over the series, folded from the left like the source's `reduce`. */
  function SquaredDeviations(s: seq<real>, m: real): (d: real)
    ensures d >= 0.0
  {
    if |s| == 0 then 0.0
    else
      SquareNonNegative(s[|s| - 1] - m);
      SquaredDeviations(s[..|s| - 1], m) + (s[|s| - 1] - m) * (s[|s| - 1] - m)
  }

  /** The population variance: squared deviations from the mean divided by the count (not count - 1). */
  function Variance(s: seq<real>): real
    requires |s| > 0
  {
    SquaredDeviations(s, Mean(s)) / |s| as real
  }

  /** What `Math.sqrt` promises on the non-negative reals. */
  ghost predicate IsSqrt(sqrt: real -> real)
  {
    forall x :: 0.0 <= x ==> 0.0 <= sqrt(x) && sqrt(x) * sqrt(x) == x
  }

  lemma SqrtOf(sqrt: real -> real, x: real)
    requires IsSqrt(sqrt) && 0.0 <= x
    ensures 0.0 <= sqrt(x) && sqrt(x) * sqrt(x) == x
  {
  }

  /** The object `{ min, max, avg, std }` returned by `calculateStats`. */
  datatype StatResult = StatResult(min: real, max: real, avg: real, std: real)

  lemma {:induction false} SumBounds(s: seq<real>, lo: real, hi: real)
    requires forall i :: 0 <= i < |s| ==> lo <= s[i] <= hi
    ensures Times(|s|, lo) <= Sum(s) <= Times(|s|, hi)
  {
    if |s| > 0 {
      SumBounds(s[..|s| - 1], lo, hi);
    }
  }

  /** The mean of a non-empty series lies between its smallest and its largest element. */
  lemma MeanBetween(s: seq<real>)
    requires |s| > 0
    ensures MinOf(s) <= Mean(s) <= MaxOf(s)
  {
    SumBounds(s, MinOf(s), MaxOf(s));
    MeanOfBounded(Sum(s), |s|, MinOf(s), MaxOf(s));
  }

  lemma VarianceNonNegative(s: seq<real>)
    requires |s| > 0
    ensures Variance(s) >= 0.0
  {
  }

  /**
   * calculateStats: all zeros for an empty series; otherwise min and max are
   * elements bounding every element, avg is sum / length and lies between them,
   * and std is the non-negative square root of the population variance.
   */
  function CalculateStats(values: seq<real>, sqrt: real -> real): (r: StatResult)
    requires IsSqrt(sqrt)
    ensures |values| == 0 ==> r == StatResult(0.0, 0.0, 0.0, 0.0)
    ensures |values| > 0 ==> r.min in values && r.max in values
    ensures |values| > 0 ==> forall x :: x in values ==> r.min <= x <= r.max
    ensures |values| > 0 ==> r.avg == Sum(values) / |values| as real
    ensures |values| > 0 ==> r.min <= r.avg <= r.max
    ensures |values| > 0 ==> r.std >= 0.0 && r.std * r.std == Variance(values)
  {
    if |values| == 0 then StatResult(0.0, 0.0, 0.0, 0.0)
    else
      MeanBetween(values);
      VarianceNonNegative(values);
      StatResult(MinOf(values), MaxOf(values), Mean(values), sqrt(Variance(values)))
  }

  lemma {:induction false} SumConstant(s: seq<real>, c: real)
    requires forall i :: 0 <= i < |s| ==> s[i] == c
    ensures Sum(s) == Times(|s|, c)
  {
    if |s| > 0 {
      SumConstant(s[..|s| - 1], c);
    }
  }

  lemma {:induction false} SquaredDeviationsConstant(s: seq<real>, c: real)
    requires forall i :: 0 <= i < |s| ==> s[i] == c
    ensures SquaredDeviations(s, c) == 0.0
  {
    if |s| > 0 {
      SquaredDeviationsConstant(s[..|s| - 1], c);
    }
  }

  /** A constant non-empty series has min = max = avg = that constant and std = 0. */
  lemma ConstantSeriesStats(s: seq<real>, c: real, sqrt: real -> real)
    requires IsSqrt(sqrt)
    requires |s| > 0 && forall i :: 0 <= i < |s| ==> s[i] == c
    ensures CalculateStats(s, sqrt) == StatResult(c, c, c, 0.0)
  {
    SumConstant(s, c);
    MeanOfBounded(Sum(s), |s|, c, c);
    SquaredDeviationsConstant(s, c);
    var r := CalculateStats(s, sqrt);
    assert r.std * r.std == 0.0 * 0.0;
    SquareRootUnique(r.std, 0.0);
  }

  lemma SumSnoc(s: seq<real>, x: real)
    ensures Sum(s + [x]) == Sum(s) + x
  {
    assert (s + [x])[..|s|] == s;
  }

  lemma SquaredDeviationsSnoc(s: seq<real>, x: real, m: real)
    ensures SquaredDeviations(s + [x], m) == SquaredDeviations(s, m) + (x - m) * (x - m)
  {
    assert (s + [x])[..|s|] == s;
  }

  /** A series whose population variance is `d * d`, with `d >= 0`, has standard deviation `d`. */
  lemma StdOfVariance(values: seq<real>, sqrt: real -> real, d: real)
    requires IsSqrt(sqrt) && |values| > 0 && d >= 0.0 && Variance(values) == d * d
    ensures CalculateStats(values, sqrt).avg == Mean(values)
    ensures CalculateStats(values, sqrt).std == d
  {
    var r := CalculateStats(values, sqrt);
    SquareRootUnique(r.std, d);
  }

  /** The textbook series 2, 4, 4, 4, 5, 5, 7, 9 has mean 5 and population standard deviation 2. */
  lemma TextbookExample(sqrt: real -> real)
    requires IsSqrt(sqrt)
    ensures CalculateStats([2.0, 4.0, 4.0, 4.0, 5.0, 5.0, 7.0, 9.0], sqrt).avg == 5.0
    ensures CalculateStats([2.0, 4.0, 4.0, 4.0, 5.0, 5.0, 7.0, 9.0], sqrt).std == 2.0
  {
    var series := [2.0, 4.0, 4.0, 4.0, 5.0, 5.0, 7.0, 9.0];
    var prefix: seq<real> := [];
    var k := 0;
    while k < 8
      invariant 0 <= k <= 8 && prefix == series[..k]
      invariant Sum(prefix) == [0.0, 2.0, 6.0, 10.0, 14.0, 19.0, 24.0, 31.0, 40.0][k]
      invariant SquaredDeviations(prefix, 5.0) == [0.0, 9.0, 10.0, 11.0, 12.0, 12.0, 12.0, 16.0, 32.0][k]
    {
      SumSnoc(prefix, series[k]);
      SquaredDeviationsSnoc(prefix, series[k], 5.0);
      prefix := prefix + [series[k]];
      k := k + 1;
    }
    assert prefix == series;
    assert Mean(series) == 5.0;
    StdOfVariance(series, sqrt, 2.0);
  }
}
