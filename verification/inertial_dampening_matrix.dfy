/**
 * The phase-cancel pulse matrix of inertial_dampening_matrix.py: a square
 * grid of sampled sine pulses whose phases alternate between 0 and
 * `phase_shift` in a checkerboard. `sin` is a parameter, so what is proved
 * is the phase structure, for every sine the pulses could be built from.
 */
module InertialDampeningMatrix {
  import opened Signal

  const GRID_SIZE: int := 8
  const FREQ_BASE: real := 3330.0
  /** 180 degrees: the phase that cancels a neighbouring pulse. */
  const PHASE_NULL: real := PI

  /** The phase of cell `(i, j)`: `phase_shift * ((i + j) % 2)`. */
  function ParityPhase(phaseShift: real, i: nat, j: nat): real
  {
    phaseShift * ((i + j) % 2) as real
  }

  /** The pulse of cell `(i, j)`. */
  function Cell(sin: real -> real, freq: real, t: seq<real>, phaseShift: real, i: nat, j: nat): (wave: seq<real>)
    ensures |wave| == |t|
  {
    Tone(sin, freq, t, ParityPhase(phaseShift, i, j))
  }

  /** The matrix `generate_dampening_matrix` builds: `grid_size` rows of `grid_size` pulses. */
  function DampeningMatrix(sin: real -> real, freq: real, t: seq<real>, gridSize: int, phaseShift: real)
    : (m: seq<seq<seq<real>>>)
    ensures |m| == RangeLength(gridSize)
    ensures forall i :: 0 <= i < |m| ==> |m[i]| == RangeLength(gridSize)
    ensures forall i, j :: 0 <= i < |m| && 0 <= j < |m[i]| ==> |m[i][j]| == |t|
  {
    var g := RangeLength(gridSize);
    seq(g, i requires 0 <= i < g =>
      seq(g, j requires 0 <= j < g => Cell(sin, freq, t, phaseShift, i, j)))
  }

  /**
   * `generate_dampening_matrix`, with the sample count `int(sample_rate *
   * duration)` given directly: the nested loops append one pulse per cell,
   * row by row, and the time base is returned alongside.
   */
  method GenerateDampeningMatrix(gridSize: int, freq: real, duration: real, sampleCount: nat,
                                 phaseShift: real, sin: real -> real)
    returns (matrix: seq<seq<seq<real>>>, t: seq<real>)
    ensures t == TimeBase(duration, sampleCount)
    ensures matrix == DampeningMatrix(sin, freq, t, gridSize, phaseShift)
  {
    t := TimeBase(duration, sampleCount);
    ghost var spec := DampeningMatrix(sin, freq, t, gridSize, phaseShift);
    matrix := [];
    var i := 0;
    while i < gridSize
      invariant 0 <= i <= RangeLength(gridSize)
      invariant |matrix| == i
      invariant forall r :: 0 <= r < i ==> matrix[r] == spec[r]
    {
      var row := [];
      var j := 0;
      while j < gridSize
        invariant 0 <= j <= RangeLength(gridSize)
        invariant |row| == j
        invariant forall c :: 0 <= c < j ==> row[c] == Cell(sin, freq, t, phaseShift, i, c)
      {
        var phase := phaseShift * ((i + j) % 2) as real;
        assert phase == ParityPhase(phaseShift, i, j);
        var wave := Tone(sin, freq, t, phase);
        row := row + [wave];
        j := j + 1;
      }
      assert row == spec[i];
      matrix := matrix + [row];
      i := i + 1;
    }
  }

  /** A cell's phase is 0 exactly when `i + j` is even, and `phase_shift` otherwise: no third value occurs. */
  lemma ParityPhaseValues(phaseShift: real, i: nat, j: nat)
    ensures (i + j) % 2 == 0 ==> ParityPhase(phaseShift, i, j) == 0.0
    ensures (i + j) % 2 == 1 ==> ParityPhase(phaseShift, i, j) == phaseShift
    ensures ParityPhase(phaseShift, i, j) == 0.0 || ParityPhase(phaseShift, i, j) == phaseShift
  {
  }

  /** Horizontal and vertical neighbours take the other phase of the pair: a checkerboard. */
  lemma {:induction false} NeighboursAlternate(phaseShift: real, i: nat, j: nat)
    ensures ParityPhase(phaseShift, i + 1, j) == phaseShift - ParityPhase(phaseShift, i, j)
    ensures ParityPhase(phaseShift, i, j + 1) == phaseShift - ParityPhase(phaseShift, i, j)
  {
    ParityPhaseValues(phaseShift, i, j);
    ParityPhaseValues(phaseShift, i + 1, j);
    ParityPhaseValues(phaseShift, i, j + 1);
  }

  /** Cells whose index sums have the same parity carry identical pulses. */
  lemma SameParitySamePulse(sin: real -> real, freq: real, t: seq<real>, gridSize: int, phaseShift: real,
                            i: nat, j: nat, k: nat, l: nat)
    requires i < RangeLength(gridSize) && j < RangeLength(gridSize)
    requires k < RangeLength(gridSize) && l < RangeLength(gridSize)
    requires (i + j) % 2 == (k + l) % 2
    ensures DampeningMatrix(sin, freq, t, gridSize, phaseShift)[i][j]
         == DampeningMatrix(sin, freq, t, gridSize, phaseShift)[k][l]
  {
    ParityPhaseValues(phaseShift, i, j);
    ParityPhaseValues(phaseShift, k, l);
    assert ParityPhase(phaseShift, i, j) == ParityPhase(phaseShift, k, l);
  }

  /** The matrix is symmetric: the pulse at `(i, j)` is the pulse at `(j, i)`. */
  lemma Symmetric(sin: real -> real, freq: real, t: seq<real>, gridSize: int, phaseShift: real, i: nat, j: nat)
    requires i < RangeLength(gridSize) && j < RangeLength(gridSize)
    ensures DampeningMatrix(sin, freq, t, gridSize, phaseShift)[i][j]
         == DampeningMatrix(sin, freq, t, gridSize, phaseShift)[j][i]
  {
  }

  /** The corner `(0, 0)` has phase 0: it is the unshifted tone. */
  lemma CornerIsUnshifted(sin: real -> real, freq: real, t: seq<real>, gridSize: int, phaseShift: real)
    requires gridSize > 0
    ensures DampeningMatrix(sin, freq, t, gridSize, phaseShift)[0][0] == Tone(sin, freq, t, 0.0)
  {
    ParityPhaseValues(phaseShift, 0, 0);
  }

  /**
   * The cancellation the matrix is designed for: with the 180-degree shift
   * and a sine that changes sign over half a turn at sample `k`, a cell and
   * its lower neighbour sum to zero there.
   */
  lemma NeighboursCancel(sin: real -> real, freq: real, t: seq<real>, gridSize: int, i: nat, j: nat, k: nat)
    requires i + 1 < RangeLength(gridSize) && j < RangeLength(gridSize) && k < |t|
    requires sin(Angle(freq, t[k], PHASE_NULL)) == -sin(Angle(freq, t[k], 0.0))
    ensures DampeningMatrix(sin, freq, t, gridSize, PHASE_NULL)[i][j][k]
          + DampeningMatrix(sin, freq, t, gridSize, PHASE_NULL)[i + 1][j][k] == 0.0
  {
    NeighboursAlternate(PHASE_NULL, i, j);
    ParityPhaseValues(PHASE_NULL, i, j);
  }

  /**
   * The script's own run (grid size 8) plots the centre pulse `(4, 4)`
   * against the edge pulse `(0, 0)`: both index sums are even, so the two
   * plotted pulses are the same signal.
   */
  lemma PlottedPulsesCoincide(sin: real -> real, t: seq<real>)
    ensures DampeningMatrix(sin, FREQ_BASE, t, GRID_SIZE, PHASE_NULL)[GRID_SIZE / 2][GRID_SIZE / 2]
         == DampeningMatrix(sin, FREQ_BASE, t, GRID_SIZE, PHASE_NULL)[0][0]
  {
    SameParitySamePulse(sin, FREQ_BASE, t, GRID_SIZE, PHASE_NULL, GRID_SIZE / 2, GRID_SIZE / 2, 0, 0);
  }
}
