/**
 * The closed-loop lift controller of dynamic_lift_feedback.py: a discrete
 * PID recurrence whose output is integrated once more, step by step, into a
 * preallocated array. The sensor noise that the source draws from
 * `np.random.randn()` is an input: `noise[i]` is the draw of step `i`, and
 * the noise sequence has one entry per time sample (`noise[0]` is never
 * drawn, since the loop starts at step 1).
 */
module DynamicLiftFeedback {
  import opened Signal

  const SETPOINT: real := 1.0
  const GAIN_P: real := 2.0
  const GAIN_D: real := 1.2
  const GAIN_I: real := 0.5
  /** The scale of the simulated sensor noise. */
  const NOISE_SCALE: real := 0.02
  /** The integration step from control signal to output. */
  const STEP_SIZE: real := 0.01

  /** The loop's registers after a step: the last output written, `error_sum`, `prev_error`. */
  datatype ControllerState = ControllerState(output: real, errorSum: real, prevError: real)

  /** Before the loop: `output[0]` of `np.zeros_like(t)`, `error_sum = 0`, `prev_error = 0`. */
  const INITIAL: ControllerState := ControllerState(0.0, 0.0, 0.0)

  /** One pass of the loop body with the noise draw `n`. */
  function Step(s: ControllerState, n: real): (s': ControllerState)
    ensures s'.prevError == SETPOINT - (s.output + NOISE_SCALE * n)
    ensures s'.errorSum == s.errorSum + s'.prevError
    ensures s'.output - s.output
         == STEP_SIZE * (GAIN_P * s'.prevError + GAIN_I * s'.errorSum + GAIN_D * (s'.prevError - s.prevError))
  {
    var measured := s.output + NOISE_SCALE * n;
    var error := SETPOINT - measured;
    var errorSum := s.errorSum + error;
    var dError := error - s.prevError;
    var control := GAIN_P * error + GAIN_I * errorSum + GAIN_D * dError;
    ControllerState(s.output + STEP_SIZE * control, errorSum, error)
  }

  /** The registers after steps `1..i` have run. */
  function Run(noise: seq<real>, i: nat): ControllerState
    requires i < |noise|
  {
    if i == 0 then INITIAL else Step(Run(noise, i - 1), noise[i])
  }

  /** The output array the loop produces: entry `i` is written by step `i`. */
  function Response(noise: seq<real>): (output: seq<real>)
    ensures |output| == |noise|
    ensures |noise| > 0 ==> output[0] == 0.0
  {
    seq(|noise|, i requires 0 <= i < |noise| => Run(noise, i).output)
  }

  /** The error of step `i`: setpoint minus the noisy reading of the previous output. */
  function StepError(noise: seq<real>, i: nat): real
    requires 1 <= i < |noise|
  {
    SETPOINT - (Response(noise)[i - 1] + NOISE_SCALE * noise[i])
  }

  /** The errors of steps `1..i`, in order. */
  function Errors(noise: seq<real>, i: nat): (e: seq<real>)
    requires i < |noise|
    ensures |e| == i
  {
    if i == 0 then [] else Errors(noise, i - 1) + [StepError(noise, i)]
  }

  /**
   * `simulate_lift_feedback`: the loop over steps `1..n-1`, writing only
   * `output[i]` at step `i`.
   */
  method SimulateLiftFeedback(noise: seq<real>) returns (output: array<real>)
    ensures fresh(output)
    ensures output[..] == Response(noise)
  {
    output := new real[|noise|](_ => 0.0);
    var errorSum := 0.0;
    var prevError := 0.0;
    var i := 1;
    while i < |noise|
      invariant 1 <= i && (|noise| > 0 ==> i <= |noise|)
      invariant forall k :: 0 <= k < i && k < |noise| ==> output[k] == Run(noise, k).output
      invariant forall k :: i <= k < |noise| ==> output[k] == 0.0
      invariant i <= |noise| ==> errorSum == Run(noise, i - 1).errorSum && prevError == Run(noise, i - 1).prevError
    {
      var measured := output[i - 1] + NOISE_SCALE * noise[i];
      var error := SETPOINT - measured;
      errorSum := errorSum + error;
      var dError := error - prevError;
      var control := GAIN_P * error + GAIN_I * errorSum + GAIN_D * dError;
      output[i] := output[i - 1] + STEP_SIZE * control;
      prevError := error;
      i := i + 1;
    }
  }

  /**
   * The registers after step `i`: `error_sum` is the plain sum of the
   * errors of steps `1..i` (there is no clamp), and `prev_error` is the
   * error of step `i` (0 before the first step).
   */
  lemma {:induction false} RunRegisters(noise: seq<real>, i: nat)
    requires i < |noise|
    ensures Run(noise, i).errorSum == Sum(Errors(noise, i))
    ensures Run(noise, i).prevError == if i == 0 then 0.0 else StepError(noise, i)
  {
    if i > 0 {
      RunRegisters(noise, i - 1);
      SumConcat(Errors(noise, i - 1), [StepError(noise, i)]);
    }
  }

  /**
   * The control law of step `i`: the output moves by `0.01 * control`, where
   * `control = 2.0 * error + 0.5 * (sum of errors so far) + 1.2 * (error - previous error)`.
   */
  lemma ControlLaw(noise: seq<real>, i: nat)
    requires 1 <= i < |noise|
    ensures var error := StepError(noise, i);
            var previous := if i == 1 then 0.0 else StepError(noise, i - 1);
            Response(noise)[i] == Response(noise)[i - 1]
              + STEP_SIZE * (GAIN_P * error + GAIN_I * Sum(Errors(noise, i)) + GAIN_D * (error - previous))
  {
    RunRegisters(noise, i);
    RunRegisters(noise, i - 1);
  }

  /**
   * Steady state: when every reading equals the setpoint (the previous
   * output plus a noise term of exactly 1.0), the control is 0 at every
   * step and the output stays at its initial 0.
   */
  lemma {:induction false} SteadyStateHoldsOutput(noise: seq<real>, i: nat)
    requires i < |noise|
    requires forall k :: 1 <= k < |noise| ==> NOISE_SCALE * noise[k] == SETPOINT
    ensures Run(noise, i) == INITIAL
  {
    if i > 0 {
      SteadyStateHoldsOutput(noise, i - 1);
    }
  }

  /** With at most one sample the loop never runs and the output is all zeros. */
  lemma ShortRunIsZero(noise: seq<real>)
    requires |noise| <= 1
    ensures forall k :: 0 <= k < |noise| ==> Response(noise)[k] == 0.0
  {
  }

  /**
   * Causality: the first `k` outputs depend only on the first `k` noise
   * draws, so later steps never change an earlier entry.
   */
  lemma {:induction false} RunIsCausal(noise: seq<real>, k: nat, i: nat)
    requires i < k <= |noise|
    ensures Run(noise[..k], i) == Run(noise, i)
  {
    if i > 0 {
      RunIsCausal(noise, k, i - 1);
    }
  }

  lemma ResponseIsCausal(noise: seq<real>, k: nat)
    requires k <= |noise|
    ensures Response(noise[..k]) == Response(noise)[..k]
  {
    forall i | 0 <= i < k ensures Response(noise[..k])[i] == Response(noise)[i] {
      RunIsCausal(noise, k, i);
    }
  }
}
