/**
 * The reinforcement loop of tesla_loop_modulator.py: the signal delayed by a
 * sixth of its length with a circular shift, scaled by a gain and added back
 * onto itself.
 */
module TeslaLoopModulator {
  import opened Signal

  /** The default `gain` of `reinforce_signal`. */
  const DEFAULT_GAIN: real := 0.2

  /** The delay of the echo: a sixth of the signal's length, rounded down (`len // 6`). */
  function SixthDelay(n: nat): (k: nat)
    ensures k <= n
    ensures n < 6 ==> k == 0
  {
    n / 6
  }

  /** `reinforce_signal`: the signal plus `gain` times itself circularly delayed by a sixth of its length. */
  function ReinforceSignal(signal: seq<real>, gain: real): (out: seq<real>)
    ensures |out| == |signal|
  {
    Echo(signal, gain, SixthDelay(|signal|))
  }

  /** Sample `i` of the output: the signal plus `gain` times the sample a sixth-length earlier, circularly. */
  lemma ReinforceAt(signal: seq<real>, gain: real, i: nat)
    requires i < |signal|
    ensures ReinforceSignal(signal, gain)[i]
         == signal[i] + gain * signal[RollSource(|signal|, SixthDelay(|signal|), i)]
  {
    EchoAt(signal, gain, SixthDelay(|signal|), i);
  }

  /** The echo is a rearrangement of the signal, so the total is that of the signal scaled by `1 + gain`. */
  lemma ReinforceScalesSum(signal: seq<real>, gain: real)
    ensures Sum(ReinforceSignal(signal, gain)) == Sum(Scale(1.0 + gain, signal))
  {
    SumEcho(signal, gain, SixthDelay(|signal|));
  }

  /** With the default gain the total grows by a fifth. */
  lemma DefaultGainSum(signal: seq<real>)
    ensures Sum(ReinforceSignal(signal, DEFAULT_GAIN)) == 1.2 * Sum(signal)
  {
    ReinforceScalesSum(signal, DEFAULT_GAIN);
    SumScaleBy(1.0 + DEFAULT_GAIN, 1.2, signal);
  }

  /** Zero gain is the identity. */
  lemma ZeroGainIsIdentity(signal: seq<real>)
    ensures ReinforceSignal(signal, 0.0) == signal
  {
    EchoZeroWeight(signal, SixthDelay(|signal|));
  }

  /** Fewer than six samples: the delay is 0 and the signal is scaled by `1 + gain`. */
  lemma ShortSignalIsScaled(signal: seq<real>, gain: real)
    requires |signal| < 6
    ensures ReinforceSignal(signal, gain) == Scale(1.0 + gain, signal)
  {
    EchoNoDelay(signal, gain);
  }

  /** The modulator is linear in the signal. */
  lemma ReinforceIsLinear(a: seq<real>, b: seq<real>, x: real, gain: real)
    requires |a| == |b|
    ensures ReinforceSignal(Add(a, b), gain) == Add(ReinforceSignal(a, gain), ReinforceSignal(b, gain))
    ensures ReinforceSignal(Scale(x, a), gain) == Scale(x, ReinforceSignal(a, gain))
  {
    EchoAdditive(a, b, gain, SixthDelay(|a|));
    EchoHomogeneous(a, x, gain, SixthDelay(|a|));
  }
}
