/**
 * The surface taper of harmonic_field_lithography.py: a signal multiplied
 * sample by sample with a linear ramp that runs from 1 down (or up) to a
 * spatial factor.
 */
module HarmonicFieldLithography {
  import opened Signal

  /** The default `spatial_factor` of `apply_surface_modulation`. */
  const DEFAULT_SPATIAL_FACTOR: real := 0.4

  /** The step between neighbouring multipliers of an `n`-point ramp from 1 to `spatialFactor`. */
  function RampStep(n: nat, spatialFactor: real): real
    requires n >= 2
  {
    (spatialFactor - 1.0) / (n - 1) as real
  }

  /**
   * `np.linspace(1, spatial_factor, n)`: `n` evenly spaced multipliers from 1
   * to `spatial_factor`, both ends included; a single point is just 1.
   */
  function ModCurve(n: nat, spatialFactor: real): (curve: seq<real>)
    ensures |curve| == n
    ensures n >= 1 ==> curve[0] == 1.0
    ensures n >= 2 ==> curve[n - 1] == spatialFactor
  {
    if n < 2 then seq(n, k requires 0 <= k < n => 1.0)
    else
      var step := RampStep(n, spatialFactor);
      LastStep(n, spatialFactor);
      seq(n, k requires 0 <= k < n => 1.0 + k as real * step)
  }

  /** `n - 1` steps lead from 1 to the spatial factor. */
  lemma LastStep(n: nat, spatialFactor: real)
    requires n >= 2
    ensures 1.0 + (n - 1) as real * RampStep(n, spatialFactor) == spatialFactor
  {
  }

  /** `apply_surface_modulation`: the signal times the ramp. */
  function ApplySurfaceModulation(signal: seq<real>, spatialFactor: real): (out: seq<real>)
    ensures |out| == |signal|
    ensures |signal| >= 1 ==> out[0] == signal[0]
    ensures |signal| >= 2 ==> out[|signal| - 1] == signal[|signal| - 1] * spatialFactor
  {
    Mul(signal, ModCurve(|signal|, spatialFactor))
  }

  /** The ramp is linear: neighbouring multipliers differ by one fixed step. */
  lemma RampIsLinear(n: nat, spatialFactor: real, k: nat)
    requires n >= 2 && k + 1 < n
    ensures ModCurve(n, spatialFactor)[k + 1] - ModCurve(n, spatialFactor)[k] == RampStep(n, spatialFactor)
  {
    var step := RampStep(n, spatialFactor);
    assert (k + 1) as real * step == k as real * step + step;
  }

  /** A factor of 1 or fewer than two samples leave the signal unchanged. */
  lemma FlatRampIsIdentity(signal: seq<real>, spatialFactor: real)
    requires spatialFactor == 1.0 || |signal| < 2
    ensures ApplySurfaceModulation(signal, spatialFactor) == signal
  {
    var curve := ModCurve(|signal|, spatialFactor);
    forall k | 0 <= k < |signal| ensures curve[k] == 1.0 {
      if |signal| >= 2 {
        assert RampStep(|signal|, spatialFactor) == 0.0;
      }
    }
  }

  /** For a factor of at most 1 every multiplier lies between the factor and 1. */
  lemma RampBounds(n: nat, spatialFactor: real, k: nat)
    requires spatialFactor <= 1.0 && k < n
    ensures spatialFactor <= ModCurve(n, spatialFactor)[k] <= 1.0
  {
    if n >= 2 {
      var step := RampStep(n, spatialFactor);
      assert step <= 0.0;
      StepsBetween(k, n - 1, step);
      LastStep(n, spatialFactor);
    }
  }

  lemma StepsBetween(k: nat, m: nat, step: real)
    requires k <= m && step <= 0.0
    ensures m as real * step <= k as real * step <= 0.0
  {
    assert m as real * step - k as real * step == (m - k) as real * step;
  }

  /** With a factor in [0, 1] the taper only attenuates: no sample grows in magnitude. */
  lemma TaperAttenuates(signal: seq<real>, spatialFactor: real, k: nat)
    requires 0.0 <= spatialFactor <= 1.0 && k < |signal|
    ensures Abs(ApplySurfaceModulation(signal, spatialFactor)[k]) <= Abs(signal[k])
  {
    var m := ModCurve(|signal|, spatialFactor)[k];
    RampBounds(|signal|, spatialFactor, k);
    ShrinkingFactor(signal[k], m);
  }

  lemma ShrinkingFactor(x: real, m: real)
    requires 0.0 <= m <= 1.0
    ensures Abs(x * m) <= Abs(x)
  {
    if x < 0.0 {
      assert x * m >= x;
    } else {
      assert x * m <= x;
    }
  }

  /** With the default factor the last sample keeps 40 percent of its value. */
  lemma DefaultTaperEnd(signal: seq<real>)
    requires |signal| >= 2
    ensures ApplySurfaceModulation(signal, DEFAULT_SPATIAL_FACTOR)[|signal| - 1] == 0.4 * signal[|signal| - 1]
  {
  }
}
