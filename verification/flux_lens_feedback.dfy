/**
 * The flux-lens curvature evaluation of flux_lens_feedback.py: the mean and
 * spread of a ring of flux readings, and the compensation that flattens the
 * ring to its mean.
 */
module FluxLensFeedback {
  import opened Wrappers
  import opened Signal
  import opened Stats

  /**
   * `compute_field_symmetry`: (mean, standard deviation). Both are NaN for an
   * empty ring; the mean is then `None`.
   */
  function ComputeFieldSymmetry(fluxValues: seq<real>): (r: (Option<real>, Deviation))
    ensures r.0.None? <==> |fluxValues| == 0
    ensures r.1.NaN? <==> |fluxValues| == 0
    ensures r.0.Some? ==> r.0.value * |fluxValues| as real == Sum(fluxValues)
    ensures r.0.Some? ==> r.1.variance * |fluxValues| as real == SquaredDeviations(fluxValues, r.0.value)
  {
    if |fluxValues| == 0 then (None, Std(fluxValues))
    else
      var meanVal := Mean(fluxValues);
      var deviation := Std(fluxValues);
      (Some(meanVal), deviation)
  }

  /**
   * `generate_compensation_vector`: `-1 * (flux - mean)`, one entry per
   * reading (an empty ring gives an empty vector).
   */
  function GenerateCompensationVector(fluxValues: seq<real>): (comp: seq<real>)
    ensures |comp| == |fluxValues|
    ensures |fluxValues| > 0 ==> forall i :: 0 <= i < |comp| ==> comp[i] == Mean(fluxValues) - fluxValues[i]
  {
    if |fluxValues| == 0 then []
    else
      var meanVal := Mean(fluxValues);
      var delta := Shift(fluxValues, -meanVal);
      Scale(-1.0, delta)
  }

  /** The compensation entries cancel out. */
  lemma CompensationSumsToZero(fluxValues: seq<real>)
    ensures Sum(GenerateCompensationVector(fluxValues)) == 0.0
  {
    if |fluxValues| > 0 {
      var m := Mean(fluxValues);
      SumShift(fluxValues, -m);
      SumScale(-1.0, Shift(fluxValues, -m));
    }
  }

  /** Applying the compensation brings every reading to the mean. */
  lemma CompensationFlattens(fluxValues: seq<real>, i: int)
    requires 0 <= i < |fluxValues|
    ensures fluxValues[i] + GenerateCompensationVector(fluxValues)[i] == Mean(fluxValues)
  {
  }

  /** A uniform ring needs no compensation and has no spread. */
  lemma UniformRingNeedsNothing(fluxValues: seq<real>, c: real)
    requires |fluxValues| > 0
    requires forall i :: 0 <= i < |fluxValues| ==> fluxValues[i] == c
    ensures forall i :: 0 <= i < |fluxValues| ==> GenerateCompensationVector(fluxValues)[i] == 0.0
    ensures ComputeFieldSymmetry(fluxValues) == (Some(c), Deviation(0.0))
  {
    VarianceConstant(fluxValues, c);
  }

  /** A common offset on every reading changes neither the compensation nor the spread. */
  lemma OffsetInvariant(fluxValues: seq<real>, c: real)
    ensures GenerateCompensationVector(Shift(fluxValues, c)) == GenerateCompensationVector(fluxValues)
    ensures ComputeFieldSymmetry(Shift(fluxValues, c)).1 == ComputeFieldSymmetry(fluxValues).1
  {
    if |fluxValues| > 0 {
      MeanShift(fluxValues, c);
      VarianceShift(fluxValues, c);
    }
  }
}
