/**
 * The cloaking grid of em_cloak_field_matrix.py: a square grid of sampled
 * sine signals whose phase grows with the cell's Manhattan distance from
 * the centre cell. `sin` is a parameter, so what is proved is the phase
 * structure, for every sine the signals could be built from.
 */
module EmCloakFieldMatrix {
  import opened Signal

  const GRID_SIZE: int := 6
  const FREQ_BASE: real := 9990.0
  const AMPLITUDE: real := 1.0
  /** 90 degrees. */
  const PHASE_MOD: real := PI / 2.0

  /** `|x|` on integers (`np.abs` of an index difference). */
  function IntAbs(x: int): (r: nat)
    ensures r == x || r == -x
  {
    if x < 0 then -x else x
  }

  /** `|i - grid_size // 2| + |j - grid_size // 2|`: the distance of cell `(i, j)` from the centre cell. */
  function Manhattan(gridSize: nat, i: nat, j: nat): (d: nat)
    ensures d == 0 <==> i == gridSize / 2 && j == gridSize / 2
  {
    IntAbs(i - gridSize / 2) + IntAbs(j - gridSize / 2)
  }

  /** `phase_offset * distance / (grid_size / 2)`, with true division by half the grid size. */
  function DistancePhase(phaseOffset: real, gridSize: nat, distance: nat): (phase: real)
    requires gridSize > 0
    ensures distance == 0 ==> phase == 0.0
    ensures distance == gridSize ==> phase == 2.0 * phaseOffset
  {
    phaseOffset * distance as real / (gridSize as real / 2.0)
  }

  /** The phase of cell `(i, j)`. */
  function RadialPhase(phaseOffset: real, gridSize: nat, i: nat, j: nat): real
    requires gridSize > 0
  {
    DistancePhase(phaseOffset, gridSize, Manhattan(gridSize, i, j))
  }

  /** The signal of cell `(i, j)`: `AMPLITUDE * sin(2 * pi * freq * t + radial_phase)`. */
  function CloakCell(sin: real -> real, freq: real, t: seq<real>, gridSize: nat, phaseOffset: real, i: nat, j: nat)
    : (wave: seq<real>)
    requires gridSize > 0
    ensures |wave| == |t|
  {
    Scale(AMPLITUDE, Tone(sin, freq, t, RadialPhase(phaseOffset, gridSize, i, j)))
  }

  /** The grid `generate_cloak_grid` builds: `grid_size` rows of `grid_size` signals. */
  function CloakGrid(sin: real -> real, freq: real, t: seq<real>, gridSize: int, phaseOffset: real)
    : (grid: seq<seq<seq<real>>>)
    ensures |grid| == RangeLength(gridSize)
    ensures forall i :: 0 <= i < |grid| ==> |grid[i]| == RangeLength(gridSize)
    ensures forall i, j :: 0 <= i < |grid| && 0 <= j < |grid[i]| ==> |grid[i][j]| == |t|
  {
    var g := RangeLength(gridSize);
    seq(g, i requires 0 <= i < g =>
      seq(g, j requires 0 <= j < g => CloakCell(sin, freq, t, g, phaseOffset, i, j)))
  }

  /**
   * `generate_cloak_grid`, with the sample count `int(sample_rate *
   * duration)` given directly: the nested loops append one signal per
   * cell, row by row, and the time base is returned alongside.
   */
  method GenerateCloakGrid(freq: real, gridSize: int, duration: real, sampleCount: nat,
                           phaseOffset: real, sin: real -> real)
    returns (grid: seq<seq<seq<real>>>, t: seq<real>)
    ensures t == TimeBase(duration, sampleCount)
    ensures grid == CloakGrid(sin, freq, t, gridSize, phaseOffset)
  {
    t := TimeBase(duration, sampleCount);
    ghost var spec := CloakGrid(sin, freq, t, gridSize, phaseOffset);
    grid := [];
    var i := 0;
    while i < gridSize
      invariant 0 <= i <= RangeLength(gridSize)
      invariant |grid| == i
      invariant forall r :: 0 <= r < i ==> grid[r] == spec[r]
    {
      var row := [];
      var j := 0;
      while j < gridSize
        invariant 0 <= j <= RangeLength(gridSize)
        invariant |row| == j
        invariant forall c :: 0 <= c < j ==> row[c] == CloakCell(sin, freq, t, gridSize, phaseOffset, i, c)
      {
        var distance := IntAbs(i - gridSize / 2) + IntAbs(j - gridSize / 2);
        var radialPhase := DistancePhase(phaseOffset, gridSize, distance);
        assert distance == Manhattan(gridSize, i, j);
        var wave := Scale(AMPLITUDE, Tone(sin, freq, t, radialPhase));
        row := row + [wave];
        j := j + 1;
      }
      assert row == spec[i];
      grid := grid + [row];
      i := i + 1;
    }
  }

  /** The centre cell `(g // 2, g // 2)` has phase 0. */
  lemma CentreIsUnshifted(sin: real -> real, freq: real, t: seq<real>, gridSize: int, phaseOffset: real)
    requires gridSize > 0
    ensures RadialPhase(phaseOffset, gridSize, gridSize / 2, gridSize / 2) == 0.0
    ensures CloakGrid(sin, freq, t, gridSize, phaseOffset)[gridSize / 2][gridSize / 2]
         == Scale(AMPLITUDE, Tone(sin, freq, t, 0.0))
  {
  }

  /** The grid is symmetric: the signal at `(i, j)` is the signal at `(j, i)`. */
  lemma Symmetric(sin: real -> real, freq: real, t: seq<real>, gridSize: int, phaseOffset: real, i: nat, j: nat)
    requires i < RangeLength(gridSize) && j < RangeLength(gridSize)
    ensures CloakGrid(sin, freq, t, gridSize, phaseOffset)[i][j]
         == CloakGrid(sin, freq, t, gridSize, phaseOffset)[j][i]
  {
  }

  /** Cells at the same Manhattan distance from the centre carry identical signals. */
  lemma EqualDistanceSameSignal(sin: real -> real, freq: real, t: seq<real>, gridSize: int, phaseOffset: real,
                                i: nat, j: nat, k: nat, l: nat)
    requires i < RangeLength(gridSize) && j < RangeLength(gridSize)
    requires k < RangeLength(gridSize) && l < RangeLength(gridSize)
    requires Manhattan(gridSize, i, j) == Manhattan(gridSize, k, l)
    ensures CloakGrid(sin, freq, t, gridSize, phaseOffset)[i][j]
         == CloakGrid(sin, freq, t, gridSize, phaseOffset)[k][l]
  {
  }

  /** With a non-negative offset the phase is non-negative and does not decrease with the distance from the centre. */
  lemma PhaseGrowsOutward(phaseOffset: real, gridSize: nat, i: nat, j: nat, k: nat, l: nat)
    requires gridSize > 0 && phaseOffset >= 0.0
    requires Manhattan(gridSize, i, j) <= Manhattan(gridSize, k, l)
    ensures 0.0 <= RadialPhase(phaseOffset, gridSize, i, j) <= RadialPhase(phaseOffset, gridSize, k, l)
  {
    DistancePhaseMonotone(phaseOffset, gridSize, Manhattan(gridSize, i, j), Manhattan(gridSize, k, l));
  }

  lemma DistancePhaseMonotone(phaseOffset: real, gridSize: nat, near: nat, far: nat)
    requires gridSize > 0 && phaseOffset >= 0.0 && near <= far
    ensures 0.0 <= DistancePhase(phaseOffset, gridSize, near) <= DistancePhase(phaseOffset, gridSize, far)
  {
    var half := gridSize as real / 2.0;
    var nearTurn := phaseOffset * near as real;
    var farTurn := phaseOffset * far as real;
    assert 0.0 <= nearTurn <= farTurn;
    assert DistancePhase(phaseOffset, gridSize, near) == nearTurn / half;
    assert DistancePhase(phaseOffset, gridSize, far) == farTurn / half;
    DivideMonotone(nearTurn, farTurn, half);
  }

  lemma DivideMonotone(a: real, b: real, h: real)
    requires 0.0 <= a <= b && h > 0.0
    ensures 0.0 <= a / h <= b / h
  {
    assert b / h - a / h == (b - a) / h;
  }

  /** For an even grid size the corner `(0, 0)` is `g` steps from the centre, so its phase is twice the offset. */
  lemma EvenCornerPhase(phaseOffset: real, gridSize: nat)
    requires gridSize > 0 && gridSize % 2 == 0
    ensures RadialPhase(phaseOffset, gridSize, 0, 0) == 2.0 * phaseOffset
  {
    assert Manhattan(gridSize, 0, 0) == gridSize;
    var g := gridSize as real;
    assert phaseOffset * g == 2.0 * phaseOffset * (g / 2.0);
  }

  /** `AMPLITUDE` is 1, so each cell is the bare tone. */
  lemma UnitAmplitude(sin: real -> real, freq: real, t: seq<real>, gridSize: nat, phaseOffset: real, i: nat, j: nat)
    requires gridSize > 0
    ensures CloakCell(sin, freq, t, gridSize, phaseOffset, i, j)
         == Tone(sin, freq, t, RadialPhase(phaseOffset, gridSize, i, j))
  {
  }

  /**
   * The script's own run (grid size 6, 90-degree offset) plots the corner
   * against the centre: the corner is three steps along each axis, so its
   * phase is 180 degrees and it carries the opposite of the centre's tone.
   */
  lemma PlottedCornerOpposesCentre(sin: real -> real, t: seq<real>)
    ensures RadialPhase(PHASE_MOD, GRID_SIZE, 0, 0) == PI
    ensures CloakGrid(sin, FREQ_BASE, t, GRID_SIZE, PHASE_MOD)[0][0] == Scale(AMPLITUDE, Tone(sin, FREQ_BASE, t, PI))
    ensures CloakGrid(sin, FREQ_BASE, t, GRID_SIZE, PHASE_MOD)[GRID_SIZE / 2][GRID_SIZE / 2]
         == Scale(AMPLITUDE, Tone(sin, FREQ_BASE, t, 0.0))
  {
    EvenCornerPhase(PHASE_MOD, GRID_SIZE);
    CentreIsUnshifted(sin, FREQ_BASE, t, GRID_SIZE, PHASE_MOD);
  }
}
