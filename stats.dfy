/**
 * The column statistics the diagnostic checks take from pandas, over real-valued
 * readings. pandas answers NaN where a statistic is undefined (a sample standard
 * deviation of fewer than two readings, the mean, maximum or minimum of an empty
 * column), and every comparison with NaN is false; the predicates below that
 * compare a statistic with a threshold are therefore false in those cases.
 */
module Stats {

  function Sum(xs: seq<real>): real
  {
    if xs == [] then 0.0 else xs[0] + Sum(xs[1..])
  }

  function Mean(xs: seq<real>): real
    requires |xs| > 0
  {
    Sum(xs) / (|xs| as real)
  }

  /** Sum of the squared deviations of the readings from `m`. */
  function SumSquaredDeviations(xs: seq<real>, m: real): (r: real)
    ensures r >= 0.0
  {
    if xs == [] then 0.0
    else
      var d := xs[0] - m;
      assert d * d >= 0.0;
      d * d + SumSquaredDeviations(xs[1..], m)
  }

  /** Sample variance (pandas' `std` uses one degree of freedom, ddof=1). */
  function SampleVariance(xs: seq<real>): (v: real)
    requires |xs| >= 2
    ensures v >= 0.0
  {
    SumSquaredDeviations(xs, Mean(xs)) / ((|xs| - 1) as real)
  }

  /** `s` is the sample standard deviation of `xs`. */
  ghost predicate IsStd(xs: seq<real>, s: real)
  {
    |xs| >= 2 && s >= 0.0 && s * s == SampleVariance(xs)
  }

  function Max(xs: seq<real>): (m: real)
    requires |xs| > 0
    ensures m in xs
    ensures forall i :: 0 <= i < |xs| ==> xs[i] <= m
  {
    if |xs| == 1 then xs[0]
    else
      var rest := Max(xs[1..]);
      assert forall i :: 1 <= i < |xs| ==> xs[i] == xs[1..][i - 1];
      if xs[0] >= rest then xs[0] else rest
  }

  function Min(xs: seq<real>): (m: real)
    requires |xs| > 0
    ensures m in xs
    ensures forall i :: 0 <= i < |xs| ==> m <= xs[i]
  {
    if |xs| == 1 then xs[0]
    else
      var rest := Min(xs[1..]);
      assert forall i :: 1 <= i < |xs| ==> xs[i] == xs[1..][i - 1];
      if xs[0] <= rest then xs[0] else rest
  }

  /** `std(xs) > t`, compared without a square root; false (NaN) below two readings. */
  predicate StdAbove(xs: seq<real>, t: real)
    ensures |xs| < 2 ==> !StdAbove(xs, t)
  {
    |xs| >= 2 && SampleVariance(xs) > t * t
  }

  /** `std(xs) < t`, compared without a square root; false (NaN) below two readings. */
  predicate StdBelow(xs: seq<real>, t: real)
    ensures |xs| < 2 ==> !StdBelow(xs, t)
  {
    |xs| >= 2 && SampleVariance(xs) < t * t
  }

  /** `mean(xs) > t`; false (NaN) on an empty column. */
  predicate MeanAbove(xs: seq<real>, t: real)
    ensures |xs| == 0 ==> !MeanAbove(xs, t)
  {
    |xs| > 0 && Mean(xs) > t
  }

  /** `max(xs) - min(xs) > t`; false (NaN) on an empty column. */
  predicate RangeAbove(xs: seq<real>, t: real)
    ensures |xs| == 0 ==> !RangeAbove(xs, t)
  {
    |xs| > 0 && Max(xs) - Min(xs) > t
  }

  /** The mean exceeds `t` exactly when the sum exceeds `t` times the number of readings. */
  lemma MeanAgainstSum(xs: seq<real>, t: real)
    requires |xs| > 0
    ensures Mean(xs) > t <==> Sum(xs) > t * (|xs| as real)
  {
    var n := |xs| as real;
    assert Mean(xs) * n == Sum(xs);
  }

  lemma SquareMonotone(a: real, b: real)
    requires 0.0 <= a < b
    ensures a * a < b * b
  {
    assert a * (b - a) >= 0.0;
    assert b * (b - a) > 0.0;
  }

  /** Comparing the variance with the squared threshold is comparing the standard deviation with the threshold. */
  lemma StdComparison(xs: seq<real>, s: real, t: real)
    requires IsStd(xs, s) && t >= 0.0
    ensures StdAbove(xs, t) <==> s > t
    ensures StdBelow(xs, t) <==> s < t
  {
    if s > t {
      SquareMonotone(t, s);
    } else if s < t {
      SquareMonotone(s, t);
    }
  }

  lemma {:induction false} SumAtLeast(xs: seq<real>, lo: real)
    requires forall i :: 0 <= i < |xs| ==> lo <= xs[i]
    ensures (|xs| as real) * lo <= Sum(xs)
  {
    if xs != [] {
      assert forall i :: 0 <= i < |xs| - 1 ==> xs[1..][i] == xs[i + 1];
      SumAtLeast(xs[1..], lo);
    }
  }

  lemma {:induction false} SumAtMost(xs: seq<real>, hi: real)
    requires forall i :: 0 <= i < |xs| ==> xs[i] <= hi
    ensures Sum(xs) <= (|xs| as real) * hi
  {
    if xs != [] {
      assert forall i :: 0 <= i < |xs| - 1 ==> xs[1..][i] == xs[i + 1];
      SumAtMost(xs[1..], hi);
    }
  }

  /** A lower bound on every reading bounds the mean. */
  lemma MeanAtLeast(xs: seq<real>, lo: real)
    requires |xs| > 0
    requires forall i :: 0 <= i < |xs| ==> lo <= xs[i]
    ensures lo <= Mean(xs)
  {
    var n, sum := |xs| as real, Sum(xs);
    SumAtLeast(xs, lo);
    assert (sum / n) * n == sum;
  }

  /** An upper bound on every reading bounds the mean. */
  lemma MeanAtMost(xs: seq<real>, hi: real)
    requires |xs| > 0
    requires forall i :: 0 <= i < |xs| ==> xs[i] <= hi
    ensures Mean(xs) <= hi
  {
    var n, sum := |xs| as real, Sum(xs);
    SumAtMost(xs, hi);
    assert (sum / n) * n == sum;
  }

  /** The mean lies between the smallest and the largest reading. */
  lemma MeanBetweenMinMax(xs: seq<real>)
    requires |xs| > 0
    ensures Min(xs) <= Mean(xs) <= Max(xs)
  {
    MeanAtLeast(xs, Min(xs));
    MeanAtMost(xs, Max(xs));
  }

  lemma {:induction false} SumConstant(xs: seq<real>, c: real)
    requires forall i :: 0 <= i < |xs| ==> xs[i] == c
    ensures Sum(xs) == (|xs| as real) * c
  {
    if xs != [] {
      assert forall i :: 0 <= i < |xs| - 1 ==> xs[1..][i] == xs[i + 1];
      SumConstant(xs[1..], c);
    }
  }

  lemma {:induction false} SquaredDeviationsFromConstant(xs: seq<real>, c: real)
    requires forall i :: 0 <= i < |xs| ==> xs[i] == c
    ensures SumSquaredDeviations(xs, c) == 0.0
  {
    if xs != [] {
      assert forall i :: 0 <= i < |xs| - 1 ==> xs[1..][i] == xs[i + 1];
      SquaredDeviationsFromConstant(xs[1..], c);
    }
  }

  /** A column of equal readings has sample variance 0, whatever the common value. */
  lemma ConstantVariance(xs: seq<real>, c: real)
    requires |xs| >= 2
    requires forall i :: 0 <= i < |xs| ==> xs[i] == c
    ensures SampleVariance(xs) == 0.0
  {
    SumConstant(xs, c);
    assert Mean(xs) == c;
    SquaredDeviationsFromConstant(xs, c);
  }

  /** The range exceeds `t` exactly when some two readings differ by more than `t`. */
  lemma RangeAboveWitness(xs: seq<real>, t: real)
    ensures RangeAbove(xs, t) <==>
      exists i, j :: 0 <= i < |xs| && 0 <= j < |xs| && xs[i] - xs[j] > t
  {
    if RangeAbove(xs, t) {
      var i :| 0 <= i < |xs| && xs[i] == Max(xs);
      var j :| 0 <= j < |xs| && xs[j] == Min(xs);
      assert xs[i] - xs[j] > t;
    }
  }
}
