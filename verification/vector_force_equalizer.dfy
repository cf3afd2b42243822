/**
 * The force equaliser of vector_force_equalizer.py: corrections that bring
 * three axis forces to their average, and their application to a force
 * vector.
 */
module VectorForceEqualizer {
  import opened Wrappers
  import opened Signal

  /** numpy refuses to add arrays whose shapes do not broadcast. */
  datatype Error = ShapeMismatch

  /** `calculate_vector_balance`: `[avg - x, avg - y, avg - z]` with `avg` the mean force. */
  function CalculateVectorBalance(x: real, y: real, z: real): (c: seq<real>)
    ensures |c| == 3
    ensures c[0] + c[1] + c[2] == 0.0
    ensures x + c[0] == y + c[1] == z + c[2]
  {
    var avg := (x + y + z) / 3.0;
    var cx := avg - x;
    var cy := avg - y;
    var cz := avg - z;
    [cx, cy, cz]
  }

  /**
   * `apply_corrections`: `np.array(forces) + corrections` under numpy's
   * broadcasting of one-dimensional arrays. Arrays of one length add
   * entry by entry; an array of length 1 is repeated to the other's length;
   * any other pair raises.
   */
  function ApplyCorrections(forces: seq<real>, corrections: seq<real>): (r: Result<seq<real>, Error>)
    ensures r.Ok? <==> |forces| == |corrections| || |forces| == 1 || |corrections| == 1
    ensures r.Ok? && |forces| == |corrections| ==>
      |r.value| == |forces| && forall i :: 0 <= i < |forces| ==> r.value[i] == forces[i] + corrections[i]
    ensures r.Ok? && |forces| != |corrections| && |forces| == 1 ==>
      |r.value| == |corrections| && forall i :: 0 <= i < |corrections| ==> r.value[i] == forces[0] + corrections[i]
    ensures r.Ok? && |forces| != |corrections| && |corrections| == 1 ==>
      |r.value| == |forces| && forall i :: 0 <= i < |forces| ==> r.value[i] == forces[i] + corrections[0]
  {
    if |forces| == |corrections| then Ok(Add(forces, corrections))
    else if |forces| == 1 then Ok(Shift(corrections, forces[0]))
    else if |corrections| == 1 then Ok(Shift(forces, corrections[0]))
    else Err(ShapeMismatch)
  }

  /** The three forces with their corrections applied. */
  function Equalized(x: real, y: real, z: real): (f: seq<real>)
    ensures |f| == 3
  {
    ApplyCorrections([x, y, z], CalculateVectorBalance(x, y, z)).value
  }

  /** After correction every component equals the average force. */
  lemma EqualizesToAverage(x: real, y: real, z: real)
    ensures var avg := (x + y + z) / 3.0; Equalized(x, y, z) == [avg, avg, avg]
  {
  }

  /** Equalisation preserves the total force. */
  lemma PreservesTotal(x: real, y: real, z: real)
    ensures var f := Equalized(x, y, z); f[0] + f[1] + f[2] == x + y + z
  {
    EqualizesToAverage(x, y, z);
  }

  /** Equal forces need no correction. */
  lemma BalancedNeedsNoCorrection(x: real)
    ensures CalculateVectorBalance(x, x, x) == [0.0, 0.0, 0.0]
  {
  }

  /** Balancing the corrected forces again yields all-zero corrections. */
  lemma BalanceIsIdempotent(x: real, y: real, z: real)
    ensures var f := Equalized(x, y, z); CalculateVectorBalance(f[0], f[1], f[2]) == [0.0, 0.0, 0.0]
  {
    EqualizesToAverage(x, y, z);
    BalancedNeedsNoCorrection((x + y + z) / 3.0);
  }
}
