/**
 * The instability score of field_stability_audit.py: the population
 * standard deviation of a wave's first differences, and the flag
 * "score above tolerance".
 */
module FieldStabilityAudit {
  import opened Signal
  import opened Stats

  /** The default `tolerance` of `check_stability`. */
  const DEFAULT_TOLERANCE: real := 0.05

  /**
   * `check_stability`: returns (flag, score). With fewer than two samples
   * there are no differences, the score is NaN and the flag is false.
   */
  function CheckStability(wave: seq<real>, tolerance: real): (r: (bool, Deviation))
    ensures r.1.NaN? <==> |wave| < 2
    ensures r.1.Deviation? ==> r.1.variance >= 0.0
    ensures r.0 ==> r.1.Deviation?
  {
    var delta := Diff(wave);
    var instabilityScore := Std(delta);
    (Exceeds(instabilityScore, tolerance), instabilityScore)
  }

  /**
   * The flag is "score above tolerance": when the standard deviation of the
   * differences is `score` (its variance `score * score`), the flag is set
   * exactly when `score > tolerance`.
   */
  lemma FlagIsScoreAboveTolerance(wave: seq<real>, tolerance: real, score: real)
    requires score >= 0.0 && CheckStability(wave, tolerance).1 == Deviation(score * score)
    ensures CheckStability(wave, tolerance).0 <==> score > tolerance
  {
    ExceedsIsStdGreater(score, tolerance);
  }

  /**
   * A wave whose first differences are all equal (a constant or a linear
   * ramp) scores 0 and is stable for every tolerance >= 0.
   */
  lemma EvenStepsAreStable(wave: seq<real>, step: real, tolerance: real)
    requires |wave| >= 2 && tolerance >= 0.0
    requires forall k :: 0 <= k < |wave| - 1 ==> wave[k + 1] - wave[k] == step
    ensures CheckStability(wave, tolerance) == (false, Deviation(0.0))
  {
    VarianceConstant(Diff(wave), step);
  }

  /** A linear ramp `a + b * k` is stable for every tolerance >= 0. */
  lemma RampIsStable(wave: seq<real>, a: real, b: real, tolerance: real)
    requires |wave| >= 2 && tolerance >= 0.0
    requires forall k :: 0 <= k < |wave| ==> wave[k] == a + b * k as real
    ensures CheckStability(wave, tolerance) == (false, Deviation(0.0))
  {
    forall k | 0 <= k < |wave| - 1 ensures wave[k + 1] - wave[k] == b {
      assert wave[k + 1] - wave[k] == b * (k + 1) as real - b * k as real;
    }
    EvenStepsAreStable(wave, b, tolerance);
  }

  /** Adding one constant to every sample changes neither score nor flag. */
  lemma OffsetInvariant(wave: seq<real>, c: real, tolerance: real)
    ensures CheckStability(Shift(wave, c), tolerance) == CheckStability(wave, tolerance)
  {
    assert Diff(Shift(wave, c)) == Diff(wave);
  }

  /** Negating the wave changes neither score nor flag. */
  lemma NegationInvariant(wave: seq<real>, tolerance: real)
    ensures CheckStability(Scale(-1.0, wave), tolerance) == CheckStability(wave, tolerance)
  {
    var d := Diff(wave);
    assert Diff(Scale(-1.0, wave)) == Scale(-1.0, d);
    if |d| > 0 {
      VarianceNegate(d);
    }
  }

  /** The score is never negative, so a negative tolerance flags every wave that has a score. */
  lemma NegativeToleranceFlags(wave: seq<real>, tolerance: real)
    requires |wave| >= 2 && tolerance < 0.0
    ensures CheckStability(wave, tolerance).0
  {
  }
}
