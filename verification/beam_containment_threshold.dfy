/**
 * The beam containment interlock of beam_containment_threshold.py: four
 * independent limit checks (peak amplitude, spread of amplitudes, phase
 * spread, coherence floor) combined with a logical OR into one
 * "shutdown recommended" decision.
 */
module BeamContainmentThreshold {
  import opened Wrappers
  import opened Signal
  import opened Stats

  const MAX_FIELD_AMPLITUDE: real := 1.25
  /** The limit on the population standard deviation of the amplitudes. */
  const NODE_VARIANCE_LIMIT: real := 0.12
  const COHERENCE_THRESHOLD: real := 0.85
  /** The limit on the largest absolute phase difference: `0.6 * np.pi`. */
  const PHASE_LIMIT: real := 0.6 * PI

  /** `np.max` of a zero-size array raises; these say which array it was. */
  datatype Error = EmptyAmplitudes | EmptyPhaseDiff

  /** `np.max(np.abs(s))` */
  function MaxAbs(s: seq<real>): (m: real)
    requires |s| > 0
    ensures forall i :: 0 <= i < |s| ==> Abs(s[i]) <= m
    ensures exists i :: 0 <= i < |s| && Abs(s[i]) == m
  {
    if |s| == 1 then Abs(s[0])
    else
      var rest := MaxAbs(s[1..]);
      if Abs(s[0]) >= rest then Abs(s[0]) else rest
  }

  /** Some amplitude is above the peak limit. */
  predicate AmplitudeFails(amplitudes: seq<real>)
    ensures |amplitudes| > 0 ==> (AmplitudeFails(amplitudes) <==> MaxAbs(amplitudes) > MAX_FIELD_AMPLITUDE)
  {
    exists i :: 0 <= i < |amplitudes| && Abs(amplitudes[i]) > MAX_FIELD_AMPLITUDE
  }

  /** The amplitudes' population standard deviation is above its limit. */
  predicate SpreadFails(amplitudes: seq<real>)
    ensures SpreadFails(amplitudes) ==> |amplitudes| > 0
  {
    Exceeds(Std(amplitudes), NODE_VARIANCE_LIMIT)
  }

  /** Some phase difference is above the phase limit in absolute value. */
  predicate PhaseFails(phaseDiff: seq<real>)
    ensures |phaseDiff| > 0 ==> (PhaseFails(phaseDiff) <==> MaxAbs(phaseDiff) > PHASE_LIMIT)
  {
    exists j :: 0 <= j < |phaseDiff| && Abs(phaseDiff[j]) > PHASE_LIMIT
  }

  predicate CoherenceFails(coherence: real)
  {
    coherence < COHERENCE_THRESHOLD
  }

  /**
   * `calculate_stability`: true when containment must be given up. All four
   * checks are evaluated before they are combined, so an empty array raises
   * whatever the other inputs are; amplitudes are reduced first.
   */
  function CalculateStability(amplitudes: seq<real>, phaseDiff: seq<real>, coherence: real): (r: Result<bool, Error>)
    ensures r == Err(EmptyAmplitudes) <==> |amplitudes| == 0
    ensures r == Err(EmptyPhaseDiff) <==> |amplitudes| > 0 && |phaseDiff| == 0
    ensures r.Ok? ==>
      (r.value <==> AmplitudeFails(amplitudes) || SpreadFails(amplitudes)
                    || PhaseFails(phaseDiff) || CoherenceFails(coherence))
  {
    if |amplitudes| == 0 then Err(EmptyAmplitudes)
    else
      var ampMax := MaxAbs(amplitudes);
      var ampFail := ampMax > MAX_FIELD_AMPLITUDE;
      var varFail := Exceeds(Std(amplitudes), NODE_VARIANCE_LIMIT);
      if |phaseDiff| == 0 then Err(EmptyPhaseDiff)
      else
        var phaseFail := MaxAbs(phaseDiff) > 0.6 * PI;
        var coherenceFail := coherence < COHERENCE_THRESHOLD;
        Ok(ampFail || varFail || phaseFail || coherenceFail)
  }

  /** Coherence below the floor trips the interlock whatever the other readings. */
  lemma LowCoherenceTrips(amplitudes: seq<real>, phaseDiff: seq<real>, coherence: real)
    requires |amplitudes| > 0 && |phaseDiff| > 0
    requires coherence < COHERENCE_THRESHOLD
    ensures CalculateStability(amplitudes, phaseDiff, coherence) == Ok(true)
  {
  }

  /** One node above the peak limit trips the interlock; healthy nodes cannot average it away. */
  lemma SingleHotNodeTrips(amplitudes: seq<real>, phaseDiff: seq<real>, coherence: real, i: int)
    requires |phaseDiff| > 0
    requires 0 <= i < |amplitudes| && Abs(amplitudes[i]) > MAX_FIELD_AMPLITUDE
    ensures CalculateStability(amplitudes, phaseDiff, coherence) == Ok(true)
  {
  }

  /**
   * The limits are strict: readings exactly at every limit (peak amplitude
   * 1.25, standard deviation `sigma` = 0.12, phase spread 0.6 pi, coherence
   * 0.85) do not trip the interlock.
   */
  lemma ReadingsAtLimitsPass(amplitudes: seq<real>, phaseDiff: seq<real>, coherence: real, sigma: real)
    requires |amplitudes| > 0 && |phaseDiff| > 0
    requires MaxAbs(amplitudes) == MAX_FIELD_AMPLITUDE
    requires sigma >= 0.0 && Variance(amplitudes) == sigma * sigma && sigma == NODE_VARIANCE_LIMIT
    requires MaxAbs(phaseDiff) == PHASE_LIMIT
    requires coherence == COHERENCE_THRESHOLD
    ensures CalculateStability(amplitudes, phaseDiff, coherence) == Ok(false)
  {
    ExceedsIsStdGreater(sigma, NODE_VARIANCE_LIMIT);
  }

  /** A trip at some coherence is a trip at every lower coherence. */
  lemma TripMonotoneInCoherence(amplitudes: seq<real>, phaseDiff: seq<real>, coherence: real, lower: real)
    requires lower <= coherence
    requires CalculateStability(amplitudes, phaseDiff, coherence) == Ok(true)
    ensures CalculateStability(amplitudes, phaseDiff, lower) == Ok(true)
  {
  }

  /** The amplitudes of `simulate_test_case`. */
  const TEST_AMPLITUDES: seq<real> := [1.1, 1.15, 1.17]
  /** The phase differences of `simulate_test_case`. */
  const TEST_PHASE_DIFF: seq<real> := [0.1 * PI, 0.2 * PI, 0.4 * PI]
  const TEST_COHERENCE: real := 0.81

  /**
   * `simulate_test_case`: the amplitude, spread and phase checks pass, and
   * the coherence check alone reports the failure.
   */
  lemma TestCaseTripsOnCoherenceAlone()
    ensures !AmplitudeFails(TEST_AMPLITUDES)
    ensures !SpreadFails(TEST_AMPLITUDES)
    ensures !PhaseFails(TEST_PHASE_DIFF)
    ensures CoherenceFails(TEST_COHERENCE)
    ensures CalculateStability(TEST_AMPLITUDES, TEST_PHASE_DIFF, TEST_COHERENCE) == Ok(true)
  {
    var a := TEST_AMPLITUDES;
    assert Sum(a) == 3.42 by {
      assert a[1..][1..][1..] == [];
    }
    assert Mean(a) == 1.14;
    assert SquaredDeviations(a, 1.14) == 0.0026 by {
      assert a[1..][1..][1..] == [];
    }
    assert Variance(a) * 3.0 == 0.0026;
  }
}
