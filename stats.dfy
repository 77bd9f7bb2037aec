/**
 * Column statistics over exact reals, as pandas computes them on a price
 * column with the missing values already skipped: minimum, maximum, mean,
 * median and linear-interpolation quantiles. An empty column gives NaN.
 */
module Stats {

  /** A pandas float result: NaN for an aggregate over no values. */
  datatype Num = NaN | Real(r: real)

  predicate Ascending(s: seq<real>)
  {
    forall i, j :: 0 <= i <= j < |s| ==> s[i] <= s[j]
  }

  function InsertAscending(s: seq<real>, x: real): (r: seq<real>)
    requires Ascending(s)
    ensures Ascending(r)
    ensures multiset(r) == multiset(s) + multiset{x}
    decreases |s|
  {
    if s == [] then [x]
    else if x <= s[0] then
      ConsAscending(x, s);
      [x] + s
    else
      var rest := InsertAscending(s[1..], x);
      assert s == [s[0]] + s[1..];
      forall i | 0 <= i < |rest| ensures s[0] <= rest[i] {
        assert rest[i] in multiset(rest);
      }
      ConsAscending(s[0], rest);
      [s[0]] + rest
  }

  /** A value no larger than every element of an ascending sequence can lead it. */
  lemma ConsAscending(h: real, t: seq<real>)
    requires Ascending(t)
    requires forall i :: 0 <= i < |t| ==> h <= t[i]
    ensures Ascending([h] + t)
  {
    var r := [h] + t;
    assert forall i :: 1 <= i < |r| ==> r[i] == t[i - 1];
  }

  /** The values of `s` in ascending order. */
  function SortAscending(s: seq<real>): (r: seq<real>)
    ensures Ascending(r)
    ensures multiset(r) == multiset(s)
    ensures |r| == |s|
    decreases |s|
  {
    if s == [] then []
    else
      assert s == s[..|s| - 1] + [s[|s| - 1]];
      var r := InsertAscending(SortAscending(s[..|s| - 1]), s[|s| - 1]);
      assert |multiset(r)| == |multiset(s)|;
      r
  }

  function MinOf(s: seq<real>): (m: real)
    requires s != []
    ensures m in s
    ensures forall i :: 0 <= i < |s| ==> m <= s[i]
    decreases |s|
  {
    if |s| == 1 then s[0]
    else
      var m := MinOf(s[1..]);
      assert forall i :: 1 <= i < |s| ==> s[i] == s[1..][i - 1];
      if s[0] <= m then s[0] else m
  }

  function MaxOf(s: seq<real>): (m: real)
    requires s != []
    ensures m in s
    ensures forall i :: 0 <= i < |s| ==> s[i] <= m
    decreases |s|
  {
    if |s| == 1 then s[0]
    else
      var m := MaxOf(s[1..]);
      assert forall i :: 1 <= i < |s| ==> s[i] == s[1..][i - 1];
      if s[0] >= m then s[0] else m
  }

  /** Minimum of a column; NaN when it is empty. */
  function Minimum(s: seq<real>): (r: Num)
    ensures r.Real? <==> s != []
    ensures r.Real? ==> r.r in s && forall i :: 0 <= i < |s| ==> r.r <= s[i]
  {
    if s == [] then NaN else Real(MinOf(s))
  }

  /** Maximum of a column; NaN when it is empty. */
  function Maximum(s: seq<real>): (r: Num)
    ensures r.Real? <==> s != []
    ensures r.Real? ==> r.r in s && forall i :: 0 <= i < |s| ==> s[i] <= r.r
  {
    if s == [] then NaN else Real(MaxOf(s))
  }

  lemma SortedElementBounds(s: seq<real>, k: int)
    requires 0 <= k < |s|
    ensures MinOf(s) <= SortAscending(s)[k] <= MaxOf(s)
  {
    var a := SortAscending(s);
    assert a[k] in multiset(a);
    assert a[k] in s;
  }

  /**
   * `k * (n - 1)` for a quarter count `k` in 0..4, spelled out case by case:
   * the quantile levels the pipeline reads are all multiples of a quarter.
   */
  function QuarterSteps(n: nat, k: int): (m: int)
    requires n > 0 && 0 <= k <= 4
    ensures 0 <= m <= 4 * (n - 1)
  {
    if k == 0 then 0
    else if k == 1 then n - 1
    else if k == 2 then 2 * (n - 1)
    else if k == 3 then 3 * (n - 1)
    else 4 * (n - 1)
  }

  /**
   * The position `(n - 1) * k / 4` the interpolation of the `k / 4` quantile
   * reads, as a whole index and a remainder counted in quarters.
   */
  function QuantilePosition(n: nat, k: int): (p: (int, int))
    requires n > 0 && 0 <= k <= 4
    ensures 0 <= p.0 <= n - 1
    ensures 0 <= p.1 < 4
    ensures p.0 == n - 1 ==> p.1 == 0
    ensures 4 * p.0 + p.1 == QuarterSteps(n, k)
  {
    var m := QuarterSteps(n, k);
    (m / 4, m % 4)
  }

  /** Linear interpolation `a + (b - a) * r / 4` between two ascending values. */
  function Lerp(a: real, b: real, r: int): (v: real)
    requires a <= b && 0 <= r < 4
    ensures a <= v <= b
  {
    if r == 0 then a
    else if r == 1 then (3.0 * a + b) / 4.0
    else if r == 2 then (a + b) / 2.0
    else (a + 3.0 * b) / 4.0
  }

  /**
   * The value at a quarter position of an ascending sequence: the element at
   * the whole index, moved towards the next one by the remaining quarters.
   */
  function Interpolate(a: seq<real>, p: (int, int)): (v: real)
    requires Ascending(a)
    requires 0 <= p.0 < |a| && 0 <= p.1 < 4 && (p.0 == |a| - 1 ==> p.1 == 0)
    ensures a[p.0] <= v
    ensures p.0 + 1 < |a| ==> v <= a[p.0 + 1]
    ensures p.0 + 1 == |a| ==> v == a[p.0]
  {
    if p.0 + 1 < |a| then Lerp(a[p.0], a[p.0 + 1], p.1) else a[p.0]
  }

  /** Interpolation reads further along an ascending sequence for a later position. */
  lemma InterpolateMonotone(a: seq<real>, p1: (int, int), p2: (int, int))
    requires Ascending(a)
    requires 0 <= p1.0 < |a| && 0 <= p1.1 < 4 && (p1.0 == |a| - 1 ==> p1.1 == 0)
    requires 0 <= p2.0 < |a| && 0 <= p2.1 < 4 && (p2.0 == |a| - 1 ==> p2.1 == 0)
    requires 4 * p1.0 + p1.1 <= 4 * p2.0 + p2.1
    ensures Interpolate(a, p1) <= Interpolate(a, p2)
  {
    if p1.0 < p2.0 {
      assert a[p1.0 + 1] <= a[p2.0];
    } else if p1.0 + 1 < |a| {
      LerpMonotone(a[p1.0], a[p1.0 + 1], p1.1, p2.1);
    }
  }

  /**
   * pandas `quantile(k / 4)` with the default linear interpolation (the
   * pipeline reads `quantile(0.25)` and `quantile(0.75)`); NaN on an empty
   * column.
   */
  function Quantile(s: seq<real>, k: int): (r: Num)
    requires 0 <= k <= 4
    ensures r.Real? <==> s != []
    ensures r.Real? ==> MinOf(s) <= r.r <= MaxOf(s)
  {
    if s == [] then NaN
    else
      var a := SortAscending(s);
      var p := QuantilePosition(|s|, k);
      SortedElementBounds(s, p.0);
      SortedElementBounds(s, if p.0 + 1 < |s| then p.0 + 1 else p.0);
      Real(Interpolate(a, p))
  }

  /** pandas `median()`: the middle value, or the mean of the two middle values. */
  function Median(s: seq<real>): (r: Num)
    ensures r.Real? <==> s != []
  {
    if s == [] then NaN
    else
      var a := SortAscending(s);
      var n := |a|;
      if n % 2 == 1 then Real(a[n / 2]) else Real((a[n / 2 - 1] + a[n / 2]) / 2.0)
  }

  /** The median is the 0.5 quantile, so it lies between the smallest and the largest value. */
  lemma MedianIsHalfQuantile(s: seq<real>)
    ensures Median(s) == Quantile(s, 2)
    ensures s != [] ==> MinOf(s) <= Median(s).r <= MaxOf(s)
  {
    if s != [] {
      var a := SortAscending(s);
      var n := |s|;
      var p := QuantilePosition(n, 2);
      if n % 2 == 1 {
        assert p.0 == n / 2 && p.1 == 0;
        assert Quantile(s, 2) == Real(Interpolate(a, p));
      } else {
        assert p.0 == n / 2 - 1 && p.1 == 2;
        assert Interpolate(a, p) == Lerp(a[n / 2 - 1], a[n / 2], 2);
        assert Quantile(s, 2) == Real(Interpolate(a, p));
      }
    }
  }

  /** Quantiles grow with their level; in particular Q1 <= Q3, so the interquartile range is never negative. */
  lemma QuantileMonotone(s: seq<real>, k1: int, k2: int)
    requires 0 <= k1 <= k2 <= 4
    requires s != []
    ensures Quantile(s, k1).r <= Quantile(s, k2).r
  {
    var a := SortAscending(s);
    var p1 := QuantilePosition(|s|, k1);
    var p2 := QuantilePosition(|s|, k2);
    assert QuarterSteps(|s|, k1) <= QuarterSteps(|s|, k2);
    InterpolateMonotone(a, p1, p2);
    assert Quantile(s, k1) == Real(Interpolate(a, p1));
    assert Quantile(s, k2) == Real(Interpolate(a, p2));
  }

  lemma LerpMonotone(a: real, b: real, r1: int, r2: int)
    requires a <= b && 0 <= r1 <= r2 < 4
    ensures Lerp(a, b, r1) <= Lerp(a, b, r2)
  {
  }

  function Sum(s: seq<real>): real
    decreases |s|
  {
    if s == [] then 0.0 else s[0] + Sum(s[1..])
  }

  /** pandas `mean()`; NaN on an empty column. */
  function Mean(s: seq<real>): (r: Num)
    ensures r.Real? <==> s != []
  {
    if s == [] then NaN else Real(Sum(s) / |s| as real)
  }

  lemma {:induction false} SumBounds(s: seq<real>, lo: real, hi: real)
    requires forall i :: 0 <= i < |s| ==> lo <= s[i] <= hi
    ensures |s| as real * lo <= Sum(s) <= |s| as real * hi
    decreases |s|
  {
    if s != [] {
      SumBounds(s[1..], lo, hi);
    }
  }

  /** The mean lies between the smallest and the largest value. */
  lemma MeanBounds(s: seq<real>)
    requires s != []
    ensures MinOf(s) <= Mean(s).r <= MaxOf(s)
  {
    var lo, hi := MinOf(s), MaxOf(s);
    AverageBetween(s, lo, hi);
  }

  lemma AverageBetween(s: seq<real>, lo: real, hi: real)
    requires s != []
    requires forall i :: 0 <= i < |s| ==> lo <= s[i] <= hi
    ensures lo <= Mean(s).r <= hi
  {
    var n := |s| as real;
    var total := Sum(s);
    SumBounds(s, lo, hi);
    DivBetween(total, n, lo, hi);
  }

  lemma DivBetween(total: real, n: real, lo: real, hi: real)
    requires n > 0.0 && n * lo <= total <= n * hi
    ensures lo <= total / n <= hi
  {
    var q := total / n;
    assert n * q == total;
    assert n * (q - lo) == total - n * lo;
    assert n * (hi - q) == n * hi - total;
    PositiveFactor(n, q - lo);
    PositiveFactor(n, hi - q);
  }

  /** A product with a positive factor is non-negative only when the other factor is. */
  lemma PositiveFactor(n: real, x: real)
    requires n > 0.0 && n * x >= 0.0
    ensures x >= 0.0
  {
  }
}
