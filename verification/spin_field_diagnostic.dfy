/**
 * The spin-field diagnostic of spin_field_diagnostic.py. What it calls the
 * "variance" is in fact the population standard deviation of the first
 * differences: the same score as the stability audit, with another default
 * threshold.
 */
module SpinFieldDiagnostic {
  import opened Signal
  import opened Stats
  import FieldStabilityAudit

  /** The default `threshold` of `detect_instability`. */
  const DEFAULT_THRESHOLD: real := 0.04

  /** `detect_instability`: returns (flag, score). */
  function DetectInstability(spinWave: seq<real>, threshold: real): (r: (bool, Deviation))
    ensures r.1.NaN? <==> |spinWave| < 2
    ensures r.1.Deviation? ==> r.1.variance >= 0.0
  {
    var delta := Diff(spinWave);
    var variance := Std(delta);
    (Exceeds(variance, threshold), variance)
  }

  /** The diagnostic and the stability audit agree on every wave and limit. */
  lemma AgreesWithStabilityAudit(spinWave: seq<real>, threshold: real)
    ensures DetectInstability(spinWave, threshold) == FieldStabilityAudit.CheckStability(spinWave, threshold)
  {
  }

  /** A linear ramp `a + b * k` scores 0 and is stable for every threshold >= 0. */
  lemma RampIsStable(spinWave: seq<real>, a: real, b: real, threshold: real)
    requires |spinWave| >= 2 && threshold >= 0.0
    requires forall k :: 0 <= k < |spinWave| ==> spinWave[k] == a + b * k as real
    ensures DetectInstability(spinWave, threshold) == (false, Deviation(0.0))
  {
    FieldStabilityAudit.RampIsStable(spinWave, a, b, threshold);
  }

  /** Moving every sample by one constant leaves the result unchanged. */
  lemma OffsetInvariant(spinWave: seq<real>, c: real, threshold: real)
    ensures DetectInstability(Shift(spinWave, c), threshold) == DetectInstability(spinWave, threshold)
  {
    FieldStabilityAudit.OffsetInvariant(spinWave, c, threshold);
  }

  /**
   * At their default limits the diagnostic (0.04) is the stricter of the two
   * checks: every wave the stability audit flags at 0.05 is flagged here too.
   */
  lemma DefaultThresholdIsStricter(spinWave: seq<real>)
    requires FieldStabilityAudit.CheckStability(spinWave, FieldStabilityAudit.DEFAULT_TOLERANCE).0
    ensures DetectInstability(spinWave, DEFAULT_THRESHOLD).0
  {
    var v := DetectInstability(spinWave, DEFAULT_THRESHOLD).1.variance;
    assert v > FieldStabilityAudit.DEFAULT_TOLERANCE * FieldStabilityAudit.DEFAULT_TOLERANCE;
  }
}
