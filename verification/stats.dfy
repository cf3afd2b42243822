/**
 * Population statistics as numpy computes them (`np.mean`, `np.std` with
 * `ddof = 0`). A standard deviation is carried as its square, the variance,
 * so that no square root is needed: for `sigma >= 0`, `sigma > L` holds
 * exactly when `Exceeds(Deviation(sigma * sigma), L)` does (lemma
 * ExceedsIsStdGreater).
 */
module Stats {
  import opened Signal

  /** `np.mean` of a non-empty array. */
  function Mean(s: seq<real>): (m: real)
    requires |s| > 0
    ensures m * |s| as real == Sum(s)
  {
    Sum(s) / |s| as real
  }

  /** The sum of the squared distances of the samples from `m`. */
  function SquaredDeviations(s: seq<real>, m: real): (r: real)
    ensures r >= 0.0
  {
    if s == [] then 0.0
    else
      SquareNonNegative(s[0] - m);
      (s[0] - m) * (s[0] - m) + SquaredDeviations(s[1..], m)
  }

  lemma ProductPositive(a: real, b: real)
    requires a > 0.0 && b > 0.0
    ensures a * b > 0.0
  {
  }

  lemma SquareNonNegative(x: real)
    ensures x * x >= 0.0
  {
    if x < 0.0 {
      assert x * x == (-x) * (-x);
    }
  }

  /** The population variance: the mean squared distance from the mean. */
  function Variance(s: seq<real>): (v: real)
    requires |s| > 0
    ensures v >= 0.0
    ensures v * |s| as real == SquaredDeviations(s, Mean(s))
  {
    SquaredDeviations(s, Mean(s)) / |s| as real
  }

  /**
   * A population standard deviation, represented by its square.  `NaN` is
   * what numpy returns (with a warning, not an exception) for an empty array.
   */
  datatype Deviation = NaN | Deviation(variance: real)

  /** `np.std(s)` */
  function Std(s: seq<real>): (d: Deviation)
    ensures d.NaN? <==> |s| == 0
    ensures d.Deviation? ==> d.variance >= 0.0
  {
    if |s| == 0 then NaN else Deviation(Variance(s))
  }

  /**
   * `std > limit`. Every comparison with NaN is false; a standard deviation
   * is never negative, so it exceeds every negative limit.
   */
  predicate Exceeds(d: Deviation, limit: real)
    ensures Exceeds(d, limit) ==> d.Deviation?
  {
    match d
    case NaN => false
    case Deviation(v) => if limit < 0.0 then true else v > limit * limit
  }

  /** `Exceeds` on a variance is `>` on the standard deviation it squares. */
  lemma ExceedsIsStdGreater(sigma: real, limit: real)
    requires sigma >= 0.0
    ensures Exceeds(Deviation(sigma * sigma), limit) <==> sigma > limit
  {
    if limit >= 0.0 {
      if sigma > limit {
        assert sigma * sigma - limit * limit == (sigma - limit) * (sigma + limit);
        ProductPositive(sigma - limit, sigma + limit);
      } else {
        assert limit * limit - sigma * sigma == (limit - sigma) * (limit + sigma);
        assert (limit - sigma) * (limit + sigma) >= 0.0;
      }
    }
  }

  lemma MeanShift(s: seq<real>, c: real)
    requires |s| > 0
    ensures Mean(Shift(s, c)) == Mean(s) + c
  {
    SumShift(s, c);
    var n := |s| as real;
    assert Mean(Shift(s, c)) * n == (Mean(s) + c) * n;
  }

  lemma {:induction false} SquaredDeviationsShift(s: seq<real>, m: real, c: real)
    ensures SquaredDeviations(Shift(s, c), m + c) == SquaredDeviations(s, m)
  {
    if s != [] {
      assert Shift(s, c)[1..] == Shift(s[1..], c);
      SquaredDeviationsShift(s[1..], m, c);
    }
  }

  /** Adding a constant to every sample leaves the spread unchanged. */
  lemma VarianceShift(s: seq<real>, c: real)
    requires |s| > 0
    ensures Variance(Shift(s, c)) == Variance(s)
  {
    MeanShift(s, c);
    SquaredDeviationsShift(s, Mean(s), c);
  }

  lemma MeanNegate(s: seq<real>)
    requires |s| > 0
    ensures Mean(Scale(-1.0, s)) == -Mean(s)
  {
    SumScale(-1.0, s);
    var n := |s| as real;
    assert Mean(Scale(-1.0, s)) * n == -Mean(s) * n;
  }

  lemma {:induction false} SquaredDeviationsNegate(s: seq<real>, m: real)
    ensures SquaredDeviations(Scale(-1.0, s), -m) == SquaredDeviations(s, m)
  {
    if s != [] {
      assert Scale(-1.0, s)[1..] == Scale(-1.0, s[1..]);
      SquaredDeviationsNegate(s[1..], m);
    }
  }

  /** Negating every sample leaves the spread unchanged. */
  lemma VarianceNegate(s: seq<real>)
    requires |s| > 0
    ensures Variance(Scale(-1.0, s)) == Variance(s)
  {
    MeanNegate(s);
    SquaredDeviationsNegate(s, Mean(s));
  }

  lemma {:induction false} SquaredDeviationsConstant(s: seq<real>, c: real)
    requires forall i :: 0 <= i < |s| ==> s[i] == c
    ensures SquaredDeviations(s, c) == 0.0
  {
    if s != [] {
      SquaredDeviationsConstant(s[1..], c);
    }
  }

  /** A constant array has itself as mean and no spread. */
  lemma VarianceConstant(s: seq<real>, c: real)
    requires |s| > 0
    requires forall i :: 0 <= i < |s| ==> s[i] == c
    ensures Mean(s) == c && Variance(s) == 0.0
  {
    SumConstant(s, c);
    var n := |s| as real;
    assert Mean(s) * n == c * n;
    SquaredDeviationsConstant(s, c);
  }
}
