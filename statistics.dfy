/**
 * The summary statistics the engine takes over the day's prices: the mean (as
 * numpy's `mean`), the population standard deviation (as numpy's `std`, characterised
 * by its square) and the 75th percentile with linear interpolation between order
 * statistics (numpy's default `percentile`).
 */
module PriceStatistics {

  function Sum(xs: seq<real>): real
  {
    if xs == [] then 0.0 else Sum(xs[..|xs| - 1]) + xs[|xs| - 1]
  }

  function Mean(xs: seq<real>): real
    requires |xs| > 0
  {
    Sum(xs) / (|xs| as real)
  }

  /** The squared distance of each element from `m`. */
  function SquaredDeviations(xs: seq<real>, m: real): (ds: seq<real>)
    ensures |ds| == |xs|
    ensures forall i :: 0 <= i < |xs| ==> ds[i] == (xs[i] - m) * (xs[i] - m)
  {
    if xs == [] then [] else SquaredDeviations(xs[..|xs| - 1], m) + [(xs[|xs| - 1] - m) * (xs[|xs| - 1] - m)]
  }

  /** Population variance: the mean squared deviation from the mean. */
  function Variance(xs: seq<real>): real
    requires |xs| > 0
  {
    Mean(SquaredDeviations(xs, Mean(xs)))
  }

  /** `std` is the population standard deviation of `xs`: the non-negative root of the variance. */
  predicate IsPopulationStd(std: real, xs: seq<real>)
    requires |xs| > 0
  {
    std >= 0.0 && std * std == Variance(xs)
  }

  predicate Sorted(xs: seq<real>)
  {
    forall i, j :: 0 <= i <= j < |xs| ==> xs[i] <= xs[j]
  }

  /**
   * The 75th percentile of an ascending sequence, interpolating linearly between the
   * order statistics around the virtual index 0.75 * (n - 1).
   */
  function Percentile75(sorted: seq<real>): real
    requires |sorted| > 0
  {
    var k := (3 * (|sorted| - 1)) / 4;
    var fraction := ((3 * (|sorted| - 1)) % 4) as real / 4.0;
    if k + 1 < |sorted| then sorted[k] + fraction * (sorted[k + 1] - sorted[k]) else sorted[k]
  }

  // ---------------------------------------------------------------------------
  // Lemmas
  // ---------------------------------------------------------------------------

  lemma {:induction false} SumConstant(xs: seq<real>, c: real)
    requires forall i :: 0 <= i < |xs| ==> xs[i] == c
    ensures Sum(xs) == |xs| as real * c
  {
    if xs != [] {
      SumConstant(xs[..|xs| - 1], c);
    }
  }

  lemma {:induction false} SumNonNegative(xs: seq<real>)
    requires forall i :: 0 <= i < |xs| ==> xs[i] >= 0.0
    ensures Sum(xs) >= 0.0
  {
    if xs != [] {
      SumNonNegative(xs[..|xs| - 1]);
    }
  }

  /** With no negative element, the sum is at least any one element. */
  lemma {:induction false} SumAtLeastElement(xs: seq<real>, k: int)
    requires 0 <= k < |xs|
    requires forall i :: 0 <= i < |xs| ==> xs[i] >= 0.0
    ensures Sum(xs) >= xs[k]
  {
    var init := xs[..|xs| - 1];
    if k == |xs| - 1 {
      SumNonNegative(init);
    } else {
      SumAtLeastElement(init, k);
    }
  }

  /** The mean of a constant sequence is that constant. */
  lemma MeanConstant(xs: seq<real>, c: real)
    requires |xs| > 0
    requires forall i :: 0 <= i < |xs| ==> xs[i] == c
    ensures Mean(xs) == c
  {
    SumConstant(xs, c);
  }

  /** A constant sequence has zero variance. */
  lemma VarianceOfConstant(xs: seq<real>, c: real)
    requires |xs| > 0
    requires forall i :: 0 <= i < |xs| ==> xs[i] == c
    ensures Variance(xs) == 0.0
  {
    MeanConstant(xs, c);
    var ds := SquaredDeviations(xs, c);
    assert forall i :: 0 <= i < |ds| ==> ds[i] == 0.0;
    SumConstant(ds, 0.0);
  }

  /** So the standard deviation of a constant sequence is zero. */
  lemma ConstantStdIsZero(xs: seq<real>, c: real, std: real)
    requires |xs| > 0
    requires forall i :: 0 <= i < |xs| ==> xs[i] == c
    requires IsPopulationStd(std, xs)
    ensures std == 0.0
  {
    VarianceOfConstant(xs, c);
    if std > 0.0 {
      ProductPositive(std, std, Variance(xs));
    }
  }

  lemma ProductPositive(x: real, y: real, p: real)
    requires p == x * y && x > 0.0 && y > 0.0
    ensures p > 0.0
  {
  }

  lemma ScaleAtMostOne(f: real, d: real)
    requires 0.0 <= f <= 1.0 && d >= 0.0
    ensures 0.0 <= f * d <= d
  {
  }

  /** A mean over non-negative values is positive once one of them is. */
  lemma MeanPositive(xs: seq<real>, k: int)
    requires 0 <= k < |xs|
    requires forall i :: 0 <= i < |xs| ==> xs[i] >= 0.0
    requires xs[k] > 0.0
    ensures Mean(xs) > 0.0
  {
    SumAtLeastElement(xs, k);
  }

  lemma MeanNonNegative(xs: seq<real>)
    requires |xs| > 0
    requires forall i :: 0 <= i < |xs| ==> xs[i] >= 0.0
    ensures Mean(xs) >= 0.0
  {
    SumNonNegative(xs);
  }

  /** The percentile lies between the two order statistics it interpolates, so within the range. */
  lemma PercentileWithinRange(sorted: seq<real>)
    requires |sorted| > 0 && Sorted(sorted)
    ensures sorted[(3 * (|sorted| - 1)) / 4] <= Percentile75(sorted)
    ensures sorted[0] <= Percentile75(sorted) <= sorted[|sorted| - 1]
  {
    var k := (3 * (|sorted| - 1)) / 4;
    var fraction := ((3 * (|sorted| - 1)) % 4) as real / 4.0;
    assert 0.0 <= fraction < 1.0;
    var last := |sorted| - 1;
    assert sorted[0] <= sorted[k] <= sorted[last];
    if k + 1 < |sorted| {
      var gap := sorted[k + 1] - sorted[k];
      assert 0.0 <= gap && sorted[k + 1] <= sorted[last];
      ScaleAtMostOne(fraction, gap);
      assert Percentile75(sorted) == sorted[k] + fraction * gap;
    }
  }

  /** Any ordering of values that are all `c` has `c` as its percentile. */
  lemma PercentileOfConstant(sorted: seq<real>, xs: seq<real>, c: real)
    requires |sorted| > 0 && multiset(sorted) == multiset(xs)
    requires forall i :: 0 <= i < |xs| ==> xs[i] == c
    ensures forall i :: 0 <= i < |sorted| ==> sorted[i] == c
    ensures Percentile75(sorted) == c
  {
    forall i | 0 <= i < |sorted|
      ensures sorted[i] == c
    {
      assert sorted[i] in multiset(sorted);
      assert sorted[i] in multiset(xs);
      var j :| 0 <= j < |xs| && xs[j] == sorted[i];
    }
  }
}
