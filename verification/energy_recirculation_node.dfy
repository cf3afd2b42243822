/**
 * The energy return path of energy_recirculation_node.py: the wave is
 * attenuated by a decay factor, delayed by a quarter of its length with a
 * circular shift, scaled by a gain and added back onto itself.
 */
module EnergyRecirculationNode {
  import opened Signal

  const DECAY: real := 0.15
  const REINFORCE_GAIN: real := 0.25

  /** The delay of the returned energy: a quarter of the wave's length, rounded down (`len // 4`). */
  function QuarterDelay(n: nat): (k: nat)
    ensures k <= n
    ensures n < 4 ==> k == 0
  {
    n / 4
  }

  /**
   * `simulate_energy_return`: the leaked part `decay * wave`, circularly
   * delayed by a quarter of the wave's length and scaled by `gain`, is
   * added back onto the wave.
   */
  function SimulateEnergyReturn(wave: seq<real>, decay: real, gain: real): (out: seq<real>)
    ensures |out| == |wave|
  {
    var leaked := Scale(decay, wave);
    var recycled := Scale(gain, Roll(leaked, QuarterDelay(|leaked|)));
    Add(wave, recycled)
  }

  /** Sample `i` of the output: the wave plus `gain` times the leaked sample a quarter-length earlier, circularly. */
  lemma ReturnAt(wave: seq<real>, decay: real, gain: real, i: nat)
    requires i < |wave|
    ensures SimulateEnergyReturn(wave, decay, gain)[i]
         == wave[i] + gain * (decay * wave[RollSource(|wave|, QuarterDelay(|wave|), i)])
  {
    var k := QuarterDelay(|wave|);
    var j := RollSource(|wave|, k, i);
    var leaked := Scale(decay, wave);
    var delayed := Roll(leaked, k);
    RollAt(leaked, k, i);
    assert leaked[j] == decay * wave[j];
    assert Scale(gain, delayed)[i] == gain * delayed[i];
    MulEqual(gain, delayed[i], decay * wave[j]);
  }

  lemma MulEqual(g: real, x: real, y: real)
    requires x == y
    ensures g * x == g * y
  {
  }

  /**
   * Decaying, delaying and re-amplifying is one echo of the wave itself,
   * delayed by a quarter of its length and weighted by `decay * gain`.
   */
  lemma ReturnIsEcho(wave: seq<real>, decay: real, gain: real)
    ensures SimulateEnergyReturn(wave, decay, gain) == Echo(wave, decay * gain, QuarterDelay(|wave|))
  {
    var k := QuarterDelay(|wave|);
    ScaleRoll(gain, Scale(decay, wave), k);
    ScaleScale(gain, decay, wave);
    ScaleRoll(decay * gain, wave, k);
  }

  /** The delayed copy is a rearrangement of the wave, so the total is that of the wave scaled by `1 + decay * gain`. */
  lemma ReturnScalesSum(wave: seq<real>, decay: real, gain: real)
    ensures Sum(SimulateEnergyReturn(wave, decay, gain)) == Sum(Scale(1.0 + decay * gain, wave))
  {
    ReturnIsEcho(wave, decay, gain);
    SumEcho(wave, decay * gain, QuarterDelay(|wave|));
  }

  /** With the default decay and gain the total grows by 3.75 percent. */
  lemma DefaultReturnSum(wave: seq<real>)
    ensures Sum(SimulateEnergyReturn(wave, DECAY, REINFORCE_GAIN)) == 1.0375 * Sum(wave)
  {
    ReturnScalesSum(wave, DECAY, REINFORCE_GAIN);
    SumScaleBy(1.0 + DECAY * REINFORCE_GAIN, 1.0375, wave);
  }

  /** No decay or no gain: nothing is returned and the wave passes unchanged. */
  lemma NoReturnIsIdentity(wave: seq<real>, decay: real, gain: real)
    requires decay == 0.0 || gain == 0.0
    ensures SimulateEnergyReturn(wave, decay, gain) == wave
  {
    var out := SimulateEnergyReturn(wave, decay, gain);
    forall i | 0 <= i < |wave| ensures out[i] == wave[i] {
      ReturnAt(wave, decay, gain, i);
      ZeroFactor(gain, decay, wave[RollSource(|wave|, QuarterDelay(|wave|), i)]);
    }
  }

  lemma ZeroFactor(g: real, d: real, x: real)
    requires g == 0.0 || d == 0.0
    ensures g * (d * x) == 0.0
  {
  }

  /** Fewer than four samples: the delay is 0 and the wave is scaled by `1 + decay * gain`. */
  lemma ShortWaveIsScaled(wave: seq<real>, decay: real, gain: real)
    requires |wave| < 4
    ensures SimulateEnergyReturn(wave, decay, gain) == Scale(1.0 + decay * gain, wave)
  {
    ReturnIsEcho(wave, decay, gain);
    EchoNoDelay(wave, decay * gain);
  }

  /** The return path is linear in the wave: it maps sums to sums and scalings to scalings. */
  lemma ReturnIsLinear(a: seq<real>, b: seq<real>, x: real, decay: real, gain: real)
    requires |a| == |b|
    ensures SimulateEnergyReturn(Add(a, b), decay, gain)
         == Add(SimulateEnergyReturn(a, decay, gain), SimulateEnergyReturn(b, decay, gain))
    ensures SimulateEnergyReturn(Scale(x, a), decay, gain) == Scale(x, SimulateEnergyReturn(a, decay, gain))
  {
    ReturnIsEcho(Add(a, b), decay, gain);
    ReturnIsEcho(a, decay, gain);
    ReturnIsEcho(b, decay, gain);
    ReturnIsEcho(Scale(x, a), decay, gain);
    EchoAdditive(a, b, decay * gain, QuarterDelay(|a|));
    EchoHomogeneous(a, x, decay * gain, QuarterDelay(|a|));
  }

  /** A silent wave stays silent. */
  lemma ZeroWaveIsZero(wave: seq<real>, decay: real, gain: real)
    requires forall i :: 0 <= i < |wave| ==> wave[i] == 0.0
    ensures forall i :: 0 <= i < |wave| ==> SimulateEnergyReturn(wave, decay, gain)[i] == 0.0
  {
    forall i | 0 <= i < |wave| ensures SimulateEnergyReturn(wave, decay, gain)[i] == 0.0 {
      ReturnAt(wave, decay, gain, i);
    }
  }
}
