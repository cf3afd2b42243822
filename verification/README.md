# IX-AntiGrav-Forge: a verified model of the signal and interlock core

IX-AntiGrav-Forge is a set of Python/numpy scripts for a harmonic field
array. Its core has three parts:

- **Monitoring.** It scores signals and decides shutdowns: the beam containment interlock, the field stability audit, the spin-field diagnostic and the flux-lens symmetry check.
- **Correction.** It computes corrections: the vector force equaliser, the flux-lens compensation vector and the PID lift controller.
- **Waveform shaping.** It transforms or builds waveforms: the energy recirculation echo, the 3-6-9 loop reinforcement, the lithography surface taper, and the phase grids of the inertial dampening matrix and the EM cloak.

This project models each of those scripts as one Dafny module and proves what
the scripts promise about their outputs. Shared building blocks live in three
modules:

- `Signal`: elementwise arithmetic on sampled signals, `np.roll`, `np.diff`, the half-open time base of `np.linspace(..., endpoint=False)`, sampled sines.
- `Stats`: numpy's population mean and standard deviation.
- `Wrappers`: `Option` and `Result`.

Floats are modelled as reals. The sine is a parameter `sin: real -> real`, so
the grid properties hold for whatever sine the pulses are built from. A
standard deviation is carried as its square (`Stats.Deviation`), and
`Stats.ExceedsIsStdGreater` turns comparisons on it back into comparisons on
the deviation itself. numpy's behaviour on empty arrays is modelled as
follows:

- `np.max` raises, which becomes an `Err` result.
- `np.std` and `np.mean` give NaN, which becomes `Deviation.NaN` and `None`.
- 1-D arrays whose lengths differ and are both ≠ 1 fail to broadcast, which becomes `Err(ShapeMismatch)`. A length-1 array is repeated to the other's length.

The scripts keep no state between calls. The interlock decision is a pure
function of the current readings, with no latched shutdown. The PID integral
accumulates without any bound.

## Model

| member | source | states |
|---|---|---|
| BeamContainmentThreshold.MaxAbs | src/beam_containment_threshold.py:35 | the result bounds every absolute amplitude and is attained by one of them |
| BeamContainmentThreshold.AmplitudeFails | src/beam_containment_threshold.py:35-36 | some amplitude is above 1.25 in absolute value; for a non-empty array this is exactly `np.max(np.abs(a)) > 1.25` |
| BeamContainmentThreshold.SpreadFails | src/beam_containment_threshold.py:37 | the population std of the amplitudes is above 0.12; an empty array (NaN) never fails it |
| BeamContainmentThreshold.PhaseFails | src/beam_containment_threshold.py:38 | some phase difference is above 0.6 pi in absolute value; for a non-empty array this is exactly the max-abs comparison |
| BeamContainmentThreshold.CoherenceFails | src/beam_containment_threshold.py:39 | definition (no ensures): coherence strictly below 0.85 |
| BeamContainmentThreshold.CalculateStability | src/beam_containment_threshold.py:34-41 | an empty amplitude array, and otherwise an empty phase array, is an error (np.max raises); otherwise the result is true exactly when some amplitude exceeds 1.25, or the population std exceeds 0.12, or some phase exceeds 0.6 pi in absolute value, or coherence is below 0.85 |
| BeamContainmentThreshold.LowCoherenceTrips | src/beam_containment_threshold.py:39-41 | coherence below the floor recommends shutdown whatever the other readings |
| BeamContainmentThreshold.SingleHotNodeTrips | src/beam_containment_threshold.py:35-41 | one node above the peak limit recommends shutdown, however healthy the rest |
| BeamContainmentThreshold.ReadingsAtLimitsPass | src/beam_containment_threshold.py:30-41 | the limits are strict: readings exactly at every limit do not trip |
| BeamContainmentThreshold.TripMonotoneInCoherence | src/beam_containment_threshold.py:39-41 | a trip at one coherence is a trip at every lower coherence |
| BeamContainmentThreshold.TestCaseTripsOnCoherenceAlone | src/beam_containment_threshold.py:45-49 | on the script's test readings the amplitude, spread and phase checks pass, and the coherence check alone trips the interlock |
| DynamicLiftFeedback.Step | src/dynamic_lift_feedback.py:39-46 | one loop pass: the new error is the setpoint minus the noisy reading of the last output, error_sum grows by exactly that error, and the output moves by 0.01 times the PID control |
| DynamicLiftFeedback.Run | src/dynamic_lift_feedback.py:35-46 | definition (no ensures): the registers after steps 1..i; its contract is stated by DynamicLiftFeedback.RunRegisters |
| DynamicLiftFeedback.StepError | src/dynamic_lift_feedback.py:39-40 | definition (no ensures): the error of step i, the setpoint minus the previous output and the noise term |
| DynamicLiftFeedback.Response | src/dynamic_lift_feedback.py:33-46 | one output per time sample, and the first output is 0 |
| DynamicLiftFeedback.SimulateLiftFeedback | src/dynamic_lift_feedback.py:32-48 | the loop fills a new array whose contents are exactly the PID recurrence's response to the noise draws |
| DynamicLiftFeedback.RunRegisters | src/dynamic_lift_feedback.py:35-46 | after step i, error_sum is the plain (unclamped) sum of the errors of steps 1..i, and prev_error is the error of step i (0 before the first step) |
| DynamicLiftFeedback.ControlLaw | src/dynamic_lift_feedback.py:39-45 | each output is the previous output plus 0.01 times (2.0 error + 0.5 accumulated error + 1.2 error change) |
| DynamicLiftFeedback.SteadyStateHoldsOutput | src/dynamic_lift_feedback.py:39-46 | when every reading equals the setpoint, the control is 0 and the registers stay at their initial values |
| DynamicLiftFeedback.ShortRunIsZero | src/dynamic_lift_feedback.py:33-38 | with at most one sample the loop does not run and the output is all zeros |
| DynamicLiftFeedback.RunIsCausal | src/dynamic_lift_feedback.py:38-46 | the registers after step i depend only on the noise draws up to i |
| DynamicLiftFeedback.ResponseIsCausal | src/dynamic_lift_feedback.py:38-46 | a prefix of the noise yields the same prefix of the output |
| FieldStabilityAudit.CheckStability | src/field_stability_audit.py:40-43 | the score is NaN exactly for fewer than two samples and otherwise is a non-negative spread; a raised flag implies a real score |
| FieldStabilityAudit.FlagIsScoreAboveTolerance | src/field_stability_audit.py:42-43 | the flag is set exactly when the std of the differences exceeds the tolerance |
| FieldStabilityAudit.EvenStepsAreStable | src/field_stability_audit.py:40-43 | equal first differences score 0 and are never flagged at a non-negative tolerance |
| FieldStabilityAudit.RampIsStable | src/field_stability_audit.py:40-43 | a linear ramp a + b k scores 0 and is stable |
| FieldStabilityAudit.OffsetInvariant | src/field_stability_audit.py:40-43 | a constant offset changes neither flag nor score |
| FieldStabilityAudit.NegationInvariant | src/field_stability_audit.py:40-43 | negating the wave changes neither flag nor score |
| FieldStabilityAudit.NegativeToleranceFlags | src/field_stability_audit.py:42-43 | a negative tolerance flags every wave that has a score |
| SpinFieldDiagnostic.DetectInstability | src/spin_field_diagnostic.py:40-43 | the score ("variance", in fact the std of the differences) is NaN exactly for fewer than two samples and is otherwise non-negative |
| SpinFieldDiagnostic.AgreesWithStabilityAudit | src/spin_field_diagnostic.py:40-43 | the diagnostic is the stability audit's check: both agree on every wave and limit |
| SpinFieldDiagnostic.RampIsStable | src/spin_field_diagnostic.py:40-43 | a linear ramp scores 0 and is not flagged |
| SpinFieldDiagnostic.OffsetInvariant | src/spin_field_diagnostic.py:40-43 | a constant offset changes neither flag nor score |
| SpinFieldDiagnostic.DefaultThresholdIsStricter | src/spin_field_diagnostic.py:40 | at the default limits (0.04 here, 0.05 in the audit), every wave the audit flags is also flagged by the diagnostic |
| VectorForceEqualizer.CalculateVectorBalance | src/vector_force_equalizer.py:31-36 | three corrections that sum to zero and bring every force to the same value |
| VectorForceEqualizer.ApplyCorrections | src/vector_force_equalizer.py:38-39 | elementwise addition under numpy broadcasting of 1-D arrays: equal lengths add entry by entry, a length-1 array is repeated, and any other pair is an error |
| VectorForceEqualizer.EqualizesToAverage | src/vector_force_equalizer.py:31-39 | after correction every component equals the average force |
| VectorForceEqualizer.PreservesTotal | src/vector_force_equalizer.py:31-39 | equalisation keeps the total force |
| VectorForceEqualizer.BalancedNeedsNoCorrection | src/vector_force_equalizer.py:31-36 | equal forces get zero corrections |
| VectorForceEqualizer.BalanceIsIdempotent | src/vector_force_equalizer.py:31-39 | balancing corrected forces again gives zero corrections |
| FluxLensFeedback.ComputeFieldSymmetry | src/flux_lens_feedback.py:36-39 | mean and spread are both NaN exactly for an empty ring; otherwise the mean times n is the total and the variance times n is the sum of squared deviations from it |
| FluxLensFeedback.GenerateCompensationVector | src/flux_lens_feedback.py:41-44 | one entry per reading, each equal to the mean minus the reading |
| FluxLensFeedback.CompensationSumsToZero | src/flux_lens_feedback.py:41-44 | the compensation entries cancel out |
| FluxLensFeedback.CompensationFlattens | src/flux_lens_feedback.py:41-44 | applying the compensation brings every reading to the mean |
| FluxLensFeedback.UniformRingNeedsNothing | src/flux_lens_feedback.py:36-44 | a uniform ring has zero compensation, the uniform value as mean and no spread |
| FluxLensFeedback.OffsetInvariant | src/flux_lens_feedback.py:36-44 | a common offset changes neither the compensation nor the spread |
| EnergyRecirculationNode.QuarterDelay | src/energy_recirculation_node.py:41 | the delay len // 4 never exceeds the length and is 0 below four samples |
| EnergyRecirculationNode.SimulateEnergyReturn | src/energy_recirculation_node.py:39-42 | the output has the wave's length |
| EnergyRecirculationNode.ReturnAt | src/energy_recirculation_node.py:40-42 | output sample i is wave[i] plus gain times the leaked sample a quarter-length earlier, circularly |
| EnergyRecirculationNode.ReturnIsEcho | src/energy_recirculation_node.py:40-42 | decay, delay and gain together are one circular echo of the wave, weighted by decay times gain |
| EnergyRecirculationNode.ReturnScalesSum | src/energy_recirculation_node.py:39-42 | the output total is the total of the wave scaled by 1 + decay gain: the delayed copy is a rearrangement |
| EnergyRecirculationNode.DefaultReturnSum | src/energy_recirculation_node.py:31-42 | with DECAY 0.15 and REINFORCE_GAIN 0.25 the total grows by exactly 3.75 percent |
| EnergyRecirculationNode.NoReturnIsIdentity | src/energy_recirculation_node.py:39-42 | zero decay or zero gain returns the wave unchanged |
| EnergyRecirculationNode.ShortWaveIsScaled | src/energy_recirculation_node.py:39-42 | below four samples the delay is 0 and the wave is scaled by 1 + decay gain |
| EnergyRecirculationNode.ReturnIsLinear | src/energy_recirculation_node.py:39-42 | the return path maps sums of waves to sums and scaled waves to scaled outputs |
| EnergyRecirculationNode.ZeroWaveIsZero | src/energy_recirculation_node.py:39-42 | a silent wave stays silent |
| TeslaLoopModulator.SixthDelay | src/tesla_loop_modulator.py:44 | the delay len // 6 never exceeds the length and is 0 below six samples |
| TeslaLoopModulator.ReinforceSignal | src/tesla_loop_modulator.py:39-45 | the output has the signal's length |
| TeslaLoopModulator.ReinforceAt | src/tesla_loop_modulator.py:44-45 | output sample i is signal[i] plus gain times the sample a sixth-length earlier, circularly |
| TeslaLoopModulator.ReinforceScalesSum | src/tesla_loop_modulator.py:44-45 | the output total is the total of the signal scaled by 1 + gain |
| TeslaLoopModulator.DefaultGainSum | src/tesla_loop_modulator.py:39-45 | with the default gain 0.2 the total grows by exactly a fifth |
| TeslaLoopModulator.ZeroGainIsIdentity | src/tesla_loop_modulator.py:44-45 | zero gain returns the signal unchanged |
| TeslaLoopModulator.ShortSignalIsScaled | src/tesla_loop_modulator.py:44-45 | below six samples the delay is 0 and the signal is scaled by 1 + gain |
| TeslaLoopModulator.ReinforceIsLinear | src/tesla_loop_modulator.py:44-45 | the modulator is linear in the signal |
| HarmonicFieldLithography.ModCurve | src/harmonic_field_lithography.py:54 | n multipliers, the first 1 and (for n >= 2) the last exactly spatial_factor |
| HarmonicFieldLithography.ApplySurfaceModulation | src/harmonic_field_lithography.py:49-55 | same length as the signal, first sample unchanged, last sample scaled by spatial_factor |
| HarmonicFieldLithography.RampIsLinear | src/harmonic_field_lithography.py:54 | neighbouring multipliers differ by the fixed step (spatial_factor - 1) / (n - 1) |
| HarmonicFieldLithography.FlatRampIsIdentity | src/harmonic_field_lithography.py:54-55 | a factor of 1, or fewer than two samples, leaves the signal unchanged |
| HarmonicFieldLithography.RampBounds | src/harmonic_field_lithography.py:54 | for a factor at most 1, every multiplier lies between the factor and 1 |
| HarmonicFieldLithography.TaperAttenuates | src/harmonic_field_lithography.py:54-55 | for a factor in [0, 1], no sample grows in magnitude |
| HarmonicFieldLithography.DefaultTaperEnd | src/harmonic_field_lithography.py:49-55 | with the default factor the last sample keeps 40 percent of its value |
| InertialDampeningMatrix.Cell | src/inertial_dampening_matrix.py:43-44 | each pulse has one value per time sample |
| InertialDampeningMatrix.DampeningMatrix | src/inertial_dampening_matrix.py:36-48 | grid_size rows of grid_size pulses, each with one value per time sample (no rows for a non-positive size) |
| InertialDampeningMatrix.GenerateDampeningMatrix | src/inertial_dampening_matrix.py:36-48 | the nested loops build exactly the checkerboard matrix over the half-open time base, which is returned alongside |
| InertialDampeningMatrix.ParityPhase | src/inertial_dampening_matrix.py:43 | definition (no ensures): `phase_shift * ((i + j) % 2)`; its values are stated by InertialDampeningMatrix.ParityPhaseValues |
| InertialDampeningMatrix.ParityPhaseValues | src/inertial_dampening_matrix.py:43 | the phase is 0 for even i + j and phase_shift for odd, and takes no third value |
| InertialDampeningMatrix.NeighboursAlternate | src/inertial_dampening_matrix.py:43 | horizontal and vertical neighbours take the other phase of the pair |
| InertialDampeningMatrix.SameParitySamePulse | src/inertial_dampening_matrix.py:43-44 | cells whose index sums have the same parity carry identical pulses |
| InertialDampeningMatrix.Symmetric | src/inertial_dampening_matrix.py:43-44 | the matrix is symmetric |
| InertialDampeningMatrix.CornerIsUnshifted | src/inertial_dampening_matrix.py:43-44 | the corner pulse is the unshifted tone |
| InertialDampeningMatrix.NeighboursCancel | src/inertial_dampening_matrix.py:30-44 | with PHASE_NULL = pi and a sine that flips sign over half a turn, a pulse and its neighbour sum to zero |
| InertialDampeningMatrix.PlottedPulsesCoincide | src/inertial_dampening_matrix.py:54-56 | in the script's own run (grid 8, PHASE_NULL), the plotted centre pulse (4, 4) and edge pulse (0, 0) are the same signal |
| EmCloakFieldMatrix.Manhattan | src/em_cloak_field_matrix.py:48 | the distance from the centre cell `(g // 2, g // 2)` is 0 exactly at that cell |
| EmCloakFieldMatrix.DistancePhase | src/em_cloak_field_matrix.py:48 | distance 0 gives phase 0, and distance g gives twice the offset |
| EmCloakFieldMatrix.RadialPhase | src/em_cloak_field_matrix.py:48 | definition (no ensures): the phase of cell (i, j), stated by CentreIsUnshifted, PhaseGrowsOutward and EvenCornerPhase |
| EmCloakFieldMatrix.CloakCell | src/em_cloak_field_matrix.py:48-49 | each cell signal has one value per time sample |
| EmCloakFieldMatrix.CloakGrid | src/em_cloak_field_matrix.py:40-53 | grid_size rows of grid_size signals, each with one value per time sample |
| EmCloakFieldMatrix.GenerateCloakGrid | src/em_cloak_field_matrix.py:40-53 | the nested loops build exactly the radial-phase grid over the half-open time base, which is returned alongside |
| EmCloakFieldMatrix.CentreIsUnshifted | src/em_cloak_field_matrix.py:48-49 | the centre cell has phase 0 and carries the bare tone |
| EmCloakFieldMatrix.Symmetric | src/em_cloak_field_matrix.py:48-49 | the grid is symmetric |
| EmCloakFieldMatrix.EqualDistanceSameSignal | src/em_cloak_field_matrix.py:48-49 | cells at the same Manhattan distance from the centre carry identical signals |
| EmCloakFieldMatrix.PhaseGrowsOutward | src/em_cloak_field_matrix.py:47-48 | with a non-negative offset the phase is non-negative and never decreases away from the centre |
| EmCloakFieldMatrix.DistancePhaseMonotone | src/em_cloak_field_matrix.py:48 | the phase is monotone in the distance |
| EmCloakFieldMatrix.EvenCornerPhase | src/em_cloak_field_matrix.py:48 | on an even grid the corner's phase is twice the offset |
| EmCloakFieldMatrix.UnitAmplitude | src/em_cloak_field_matrix.py:32-49 | with AMPLITUDE 1 each cell is the bare tone at its radial phase |
| EmCloakFieldMatrix.PlottedCornerOpposesCentre | src/em_cloak_field_matrix.py:60-65 | in the script's own run (grid 6, 90-degree offset), the plotted corner has phase pi and the centre phase 0 |
| Signal.Scale | src/energy_recirculation_node.py:40 | numpy's `array * scalar`: same length, each sample multiplied by the constant |
| Signal.Add | src/energy_recirculation_node.py:42 | numpy's `a + b` on equal shapes: same length, sums entry by entry |
| Signal.Mul | src/harmonic_field_lithography.py:55 | numpy's `a * b` on equal shapes: same length, products entry by entry |
| Signal.Shift | src/flux_lens_feedback.py:43 | numpy's `array - scalar` or `array + scalar`: same length, every sample moved by the constant |
| Signal.TimeBase | src/inertial_dampening_matrix.py:37 | one time instant per sample |
| Signal.TimeBaseIncreases | src/inertial_dampening_matrix.py:37 | for a positive duration the instants start at 0, stay in [0, duration) and strictly increase (endpoint excluded) |
| Signal.Tone | src/inertial_dampening_matrix.py:44 | sample k is sin(2 pi freq t[k] + phase) |
| Signal.Diff | src/field_stability_audit.py:41 | one entry fewer than the wave (none for an empty wave), each the difference of neighbours |
| Signal.Roll | src/tesla_loop_modulator.py:44 | np.roll keeps the length |
| Signal.RollAt | src/tesla_loop_modulator.py:44 | rolled sample i is the input at RollSource(n, k, i) |
| Signal.RollSourceIsMod | src/tesla_loop_modulator.py:44 | RollSource(n, k, i) is (i - k) mod n, numpy's circular shift |
| Signal.SumRoll | src/tesla_loop_modulator.py:44 | a circular shift keeps the total |
| Signal.Echo | src/tesla_loop_modulator.py:44-45 | a signal plus a weighted circular echo keeps the length |
| Signal.EchoAt | src/tesla_loop_modulator.py:44-45 | echo sample i is s[i] + c s[RollSource(n, k, i)] |
| Signal.SumEcho | src/tesla_loop_modulator.py:44-45 | the echo's total is that of the signal scaled by 1 + c |
| Signal.EchoZeroWeight | src/tesla_loop_modulator.py:44-45 | weight 0 is the identity |
| Signal.EchoNoDelay | src/tesla_loop_modulator.py:44-45 | delay 0 scales the signal by 1 + c |
| Signal.EchoAdditive | src/tesla_loop_modulator.py:44-45 | the echo of a sum is the sum of the echoes |
| Signal.EchoHomogeneous | src/tesla_loop_modulator.py:44-45 | the echo of a scaled signal is the scaled echo |
| Stats.Mean | src/flux_lens_feedback.py:37 | the mean times the count is the total |
| Stats.Variance | src/flux_lens_feedback.py:38 | non-negative; times the count it is the sum of squared deviations from the mean |
| Stats.Std | src/flux_lens_feedback.py:38 | NaN exactly for an empty array, otherwise a non-negative variance |
| Stats.Exceeds | src/field_stability_audit.py:43 | `std > limit` on the carried variance; NaN never exceeds |
| Stats.ExceedsIsStdGreater | src/beam_containment_threshold.py:37 | comparing the carried variance with a limit is comparing the std with it |
| Stats.VarianceShift | src/flux_lens_feedback.py:37-38 | a constant offset leaves the spread unchanged |
| Stats.VarianceNegate | src/field_stability_audit.py:42 | negation leaves the spread unchanged |
| Stats.VarianceConstant | src/flux_lens_feedback.py:37-38 | a constant array has itself as mean and zero spread |

## Left out

- Waveform synthesis is not modelled: `generate_harmonic_pattern`, `generate_369_loop`, `generate_primary_wave`, `generate_drifting_wave`, `generate_spin_field` and the flux-ring mock `read_flux_ring`. These only produce the inputs that the modelled functions take for any sequence.
- Plotting, printing and the `__main__` blocks are I/O.
- Floating-point rounding is not modelled: reals stand for float64. NaN appears only where numpy produces it from an empty array; infinities are not modelled.
- `np.sin` is a parameter. π is np.pi's printed value, 3.141592653589793, taken as an exact real.
- GenerateDampeningMatrix, GenerateCloakGrid: take the sample count `int(sample_rate * duration)` as an input rather than computing it with float truncation. `np.array` of the nested lists is kept as nested sequences.
- SimulateLiftFeedback: the draws of `np.random.randn()` are an input sequence with one entry per sample. The time vector `t` is not returned, since only its length matters.
- Signal.Roll: covers shifts 0..n only, which are the only ones `len // 4` and `len // 6` produce.
- FieldStabilityAudit.CheckStability: carries the square of the returned score (the variance), not the std itself. The same applies to SpinFieldDiagnostic.DetectInstability and FluxLensFeedback.ComputeFieldSymmetry. Stats.ExceedsIsStdGreater and FieldStabilityAudit.FlagIsScoreAboveTolerance relate the two.
- EnergyRecirculationNode.ReturnScalesSum: states the total as that of the wave scaled by `1 + decay * gain`. Signal.SumScale turns it into the factor times the wave's total. The same applies to TeslaLoopModulator.ReinforceScalesSum.
- Not modelled because not part of the scripts modelled here: the band filter, self-sync correction and inertia-cancel core, and the 2-D map scripts of the repository.
