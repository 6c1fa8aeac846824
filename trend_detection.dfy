/**
 * Trend detection: an ordinary least-squares line through a component's recent values
 * against their positions 0..n-1, classified by the sign of its slope.
 */
module TrendDetection {
  import opened Snapshots

  /** Fewer prior snapshots than this give no trend. */
  const MIN_TREND_POINTS: nat := 5

  datatype Direction = Increasing | Decreasing | Stable

  /**
   * The reported percent change. The code divides by the mean without a guard, so a
   * zero mean gives 0/0 (NaN) when the slope is zero and an infinite change otherwise.
   */
  datatype Change = Percent(value: real) | Infinite | NotANumber

  datatype TrendResult = TrendResult(direction: Direction, change: Change)

  function Abs(x: real): real
  {
    if x < 0.0 then -x else x
  }

  /** `historyList.map(s => s[field])` */
  function Values(hist: seq<Snapshot>, f: Field): seq<real>
  {
    seq(|hist|, i requires 0 <= i < |hist| => FieldValue(hist[i], f))
  }

  /** Σx over the indices 0..n-1. */
  function SumX(n: nat): real
  {
    if n == 0 then 0.0 else SumX(n - 1) + (n - 1) as real
  }

  /** Σx² over the indices 0..n-1. */
  function SumX2(n: nat): real
  {
    if n == 0 then 0.0 else SumX2(n - 1) + ((n - 1) * (n - 1)) as real
  }

  /** Σx·y, each value weighted by its index. */
  function SumXY(v: seq<real>): real
  {
    if v == [] then 0.0 else SumXY(v[..|v| - 1]) + (|v| - 1) as real * v[|v| - 1]
  }

  /** n·Σxy − Σx·Σy, the numerator of the least-squares slope. */
  function Covariance(v: seq<real>): real
  {
    |v| as real * SumXY(v) - SumX(|v|) * Sum(v)
  }

  /** n·Σx² − (Σx)², the denominator of the least-squares slope. */
  function Spread(n: nat): real
  {
    n as real * SumX2(n) - SumX(n) * SumX(n)
  }

  lemma {:induction false} SumXClosed(n: nat)
    ensures 2.0 * SumX(n) == n as real * (n as real - 1.0)
  {
    if n > 0 {
      SumXClosed(n - 1);
    }
  }

  lemma {:induction false} SumX2Closed(n: nat)
    ensures 6.0 * SumX2(n) == (n as real - 1.0) * n as real * (2.0 * n as real - 1.0)
  {
    if n > 0 {
      SumX2Closed(n - 1);
      var m := (n - 1) as real;
      assert ((n - 1) * (n - 1)) as real == m * m;
    }
  }

  /** For the indices 0..n-1 the slope denominator is n²(n²−1)/12, positive from two points on. */
  lemma SpreadClosed(n: nat)
    ensures 12.0 * Spread(n) == n as real * n as real * (n as real * n as real - 1.0)
    ensures n >= 2 ==> Spread(n) > 0.0
  {
    SumXClosed(n);
    SumX2Closed(n);
    SpreadAlgebra(n as real, SumX(n), SumX2(n));
    if n >= 2 {
      QuarticPositive(n as real);
    }
  }

  lemma SpreadAlgebra(N: real, a: real, b: real)
    requires 2.0 * a == N * (N - 1.0)
    requires 6.0 * b == (N - 1.0) * N * (2.0 * N - 1.0)
    ensures 12.0 * (N * b - a * a) == N * N * (N * N - 1.0)
  {
    calc {
      12.0 * (N * b - a * a);
      2.0 * N * (6.0 * b) - 3.0 * (2.0 * a) * (2.0 * a);
      2.0 * N * ((N - 1.0) * N * (2.0 * N - 1.0)) - 3.0 * (N * (N - 1.0)) * (N * (N - 1.0));
      N * N * (N - 1.0) * (2.0 * (2.0 * N - 1.0) - 3.0 * (N - 1.0));
      N * N * (N - 1.0) * (N + 1.0);
      N * N * (N * N - 1.0);
    }
  }

  lemma QuarticPositive(N: real)
    requires N >= 2.0
    ensures N * N * (N * N - 1.0) > 0.0
  {
    var q := N * N;
    assert q >= 2.0 * N >= 4.0;
    ProductPositive(q, q - 1.0);
  }

  lemma ProductPositive(x: real, y: real)
    requires x > 0.0 && y > 0.0
    ensures x * y > 0.0
  {
  }

  /** The least-squares slope of the values against their indices. */
  function Slope(v: seq<real>): (r: real)
    requires |v| >= 2
    ensures r > 0.0 <==> Covariance(v) > 0.0
    ensures r < 0.0 <==> Covariance(v) < 0.0
  {
    SpreadClosed(|v|);
    SignOfQuotient(Covariance(v), Spread(|v|));
    Covariance(v) / Spread(|v|)
  }

  lemma SignOfQuotient(a: real, d: real)
    requires d > 0.0
    ensures a / d > 0.0 <==> a > 0.0
    ensures a / d < 0.0 <==> a < 0.0
    ensures a / d == 0.0 <==> a == 0.0
  {
    assert (a / d) * d == a;
  }

  /** `detectTrend(historyList, field)` */
  function DetectTrend(hist: seq<Snapshot>, f: Field): (r: TrendResult)
    ensures |hist| < MIN_TREND_POINTS ==> r == TrendResult(Stable, Percent(0.0))
    ensures |hist| >= MIN_TREND_POINTS ==>
              (r.direction == Increasing <==> Covariance(Values(hist, f)) > 0.0) &&
              (r.direction == Decreasing <==> Covariance(Values(hist, f)) < 0.0) &&
              (r.direction == Stable <==> Covariance(Values(hist, f)) == 0.0)
    ensures r.change.Percent? ==> r.change.value >= 0.0
    ensures r.change.NotANumber? ==> r.direction == Stable
    ensures r.change.Infinite? ==> r.direction != Stable
  {
    if |hist| < MIN_TREND_POINTS then TrendResult(Stable, Percent(0.0))
    else
      var v := Values(hist, f);
      var n := |v| as real;
      var slope := Slope(v);
      var mean := Sum(v) / n;
      var direction := if slope > 0.0 then Increasing else if slope < 0.0 then Decreasing else Stable;
      var change :=
        if mean != 0.0 then Percent(Abs(slope * n / mean * 100.0))
        else if slope == 0.0 then NotANumber
        else Infinite;
      TrendResult(direction, change)
  }

  /** Σ over i < |v| of (n − i)·(y − v[i]): what appending y adds to the covariance. */
  function Gap(v: seq<real>, y: real, n: real): real
  {
    if v == [] then 0.0 else Gap(v[..|v| - 1], y, n) + (n - (|v| - 1) as real) * (y - v[|v| - 1])
  }

  lemma {:induction false} GapClosed(v: seq<real>, y: real, n: real)
    ensures Gap(v, y, n) == (n * |v| as real - SumX(|v|)) * y - n * Sum(v) + SumXY(v)
  {
    if v != [] {
      var w, x := v[..|v| - 1], v[|v| - 1];
      var k := |v| as real;
      assert (|v| - 1) as real == k - 1.0 == |w| as real;
      GapClosed(w, y, n);
      GapAlgebra(Gap(w, y, n), SumX(|w|), Sum(w), SumXY(w),
                 Gap(v, y, n), SumX(|v|), Sum(v), SumXY(v), n, k, y, x);
    }
  }

  /** The induction step of GapClosed, as plain algebra over the sums before and after. */
  lemma GapAlgebra(g: real, sx: real, sy: real, sxy: real,
                   g': real, sx': real, sy': real, sxy': real,
                   n: real, k: real, y: real, x: real)
    requires g == (n * (k - 1.0) - sx) * y - n * sy + sxy
    requires g' == g + (n - (k - 1.0)) * (y - x)
    requires sx' == sx + (k - 1.0) && sy' == sy + x && sxy' == sxy + (k - 1.0) * x
    ensures g' == (n * k - sx') * y - n * sy' + sxy'
  {
  }

  lemma {:induction false} GapPositive(v: seq<real>, y: real, n: real)
    requires |v| >= 1 && n >= |v| as real
    requires forall i :: 0 <= i < |v| ==> v[i] < y
    ensures Gap(v, y, n) > 0.0
  {
    var w, x := v[..|v| - 1], v[|v| - 1];
    assert forall i :: 0 <= i < |w| ==> w[i] == v[i];
    if |w| >= 1 {
      GapPositive(w, y, n);
    }
    var a, b := n - (|v| - 1) as real, y - x;
    assert a > 0.0 && b > 0.0;
    assert a * b > 0.0;
  }

  /** Dropping the last value y of v removes Gap(w, y, |w|) from the covariance numerator. */
  lemma CovarianceStep(v: seq<real>)
    requires |v| >= 1
    ensures var w := v[..|v| - 1];
      Covariance(v) == Covariance(w) + Gap(w, v[|v| - 1], |w| as real)
  {
    var w := v[..|v| - 1];
    CovarianceRaw(v);
    GapClosed(w, v[|v| - 1], |w| as real);
  }

  /** Covariance(v) minus Covariance of its prefix, before regrouping into Gap's closed form. */
  lemma CovarianceRaw(v: seq<real>)
    requires |v| >= 1
    ensures var w, y := v[..|v| - 1], v[|v| - 1]; var n := |w| as real;
      Covariance(v) == Covariance(w) + ((n * n - SumX(|w|)) * y - n * Sum(w) + SumXY(w))
  {
    var w, y := v[..|v| - 1], v[|v| - 1];
    var n, m := |w| as real, |v| as real;
    assert (|v| - 1) as real == n;
    CovarianceAlgebra(n, m, SumXY(w), SumX(|w|), Sum(w), SumXY(v), SumX(|v|), Sum(v),
                      Covariance(w), Covariance(v), y);
  }

  /** The covariance numerator before and after appending y, as plain algebra. */
  lemma CovarianceAlgebra(n: real, m: real, sxy: real, sx: real, sy: real,
                          sxy': real, sx': real, sy': real,
                          cov: real, cov': real, y: real)
    requires sxy' == sxy + n * y && sx' == sx + n && sy' == sy + y
    requires cov == n * sxy - sx * sy
    requires m == n + 1.0 && cov' == m * sxy' - sx' * sy'
    ensures cov' == cov + ((n * n - sx) * y - n * sy + sxy)
  {
  }

  /** Strictly increasing values have a positive covariance numerator. */
  lemma {:induction false} IncreasingCovariancePositive(v: seq<real>)
    requires |v| >= 2
    requires forall i, j :: 0 <= i < j < |v| ==> v[i] < v[j]
    ensures Covariance(v) > 0.0
  {
    var w, y := v[..|v| - 1], v[|v| - 1];
    assert forall i :: 0 <= i < |w| ==> w[i] == v[i] && w[i] < y;
    CovarianceStep(v);
    GapPositive(w, y, |w| as real);
    if |w| >= 2 {
      IncreasingCovariancePositive(w);
    } else {
      assert w[..0] == [];
      assert SumXY(w) == 0.0 && SumX(1) == 0.0;
    }
  }

  lemma {:induction false} SumNonNegative(v: seq<real>)
    requires forall i :: 0 <= i < |v| ==> v[i] >= 0.0
    ensures Sum(v) >= 0.0
    ensures v != [] ==> Sum(v) >= v[|v| - 1]
  {
    if v != [] {
      var w := v[..|v| - 1];
      assert forall i :: 0 <= i < |w| ==> w[i] == v[i];
      SumNonNegative(w);
    }
  }

  /**
   * A strictly increasing history of non-negative values, long enough for a trend,
   * is reported as increasing with a positive finite percent change.
   */
  lemma IncreasingSeriesTrendsUp(hist: seq<Snapshot>, f: Field)
    requires |hist| >= MIN_TREND_POINTS
    requires forall i :: 0 <= i < |hist| ==> FieldValue(hist[i], f) >= 0.0
    requires forall i, j :: 0 <= i < j < |hist| ==> FieldValue(hist[i], f) < FieldValue(hist[j], f)
    ensures DetectTrend(hist, f).direction == Increasing
    ensures DetectTrend(hist, f).change.Percent? && DetectTrend(hist, f).change.value > 0.0
  {
    var v := Values(hist, f);
    IncreasingCovariancePositive(v);
    SumNonNegative(v);
    assert v[|v| - 1] > v[0] >= 0.0;
    var n := |v| as real;
    QuotientPositive(Sum(v), n);
    PercentPositive(Slope(v), n, Sum(v) / n);
  }

  lemma QuotientPositive(x: real, d: real)
    requires x > 0.0 && d > 0.0
    ensures x / d > 0.0
  {
  }

  /** A positive slope over a positive mean gives a positive percent change. */
  lemma PercentPositive(slope: real, n: real, mean: real)
    requires slope > 0.0 && n > 0.0 && mean > 0.0
    ensures slope * n / mean * 100.0 > 0.0
  {
    ProductPositive(slope, n);
    QuotientPositive(slope * n, mean);
  }

  lemma {:induction false} ConstantSums(v: seq<real>, c: real)
    requires forall i :: 0 <= i < |v| ==> v[i] == c
    ensures Sum(v) == c * |v| as real
    ensures SumXY(v) == c * SumX(|v|)
  {
    if v != [] {
      var w := v[..|v| - 1];
      assert forall i :: 0 <= i < |w| ==> w[i] == v[i];
      ConstantSums(w, c);
    }
  }

  /**
   * A constant history is stable. Its change is 0 when the constant is non-zero; for an
   * all-zero history the code computes 0/0, so the change is NaN.
   */
  lemma ConstantSeriesIsStable(hist: seq<Snapshot>, f: Field, c: real)
    requires |hist| >= MIN_TREND_POINTS
    requires forall i :: 0 <= i < |hist| ==> FieldValue(hist[i], f) == c
    ensures DetectTrend(hist, f).direction == Stable
    ensures DetectTrend(hist, f).change == if c != 0.0 then Percent(0.0) else NotANumber
  {
    var v := Values(hist, f);
    ConstantSums(v, c);
    var n := |v| as real;
    ConstantAlgebra(n, SumX(|v|), Sum(v), SumXY(v), c);
    assert Covariance(v) == 0.0;
    assert Slope(v) == 0.0;
    MeanOfConstant(Sum(v), n, c);
  }

  lemma ConstantAlgebra(n: real, sx: real, sy: real, sxy: real, c: real)
    requires sy == c * n && sxy == c * sx
    ensures n * sxy - sx * sy == 0.0
  {
  }

  lemma MeanOfConstant(sy: real, n: real, c: real)
    requires n > 0.0 && sy == c * n
    ensures sy / n == c
    ensures c != 0.0 ==> Abs(0.0 * n / c * 100.0) == 0.0
  {
  }
}
