/**
 * One-dimensional sampled signals as sequences of exact reals, with the
 * vectorised numpy operations the core uses: scaling, adding, shifting by a
 * constant, first differences (`np.diff`), circular shifts (`np.roll`) and
 * sampled sine tones.
 */
module Signal {

  /** `np.pi` as numpy prints it: the shortest decimal that rounds to the double nearest to pi. */
  const PI: real := 3.141592653589793

  function Abs(x: real): (r: real)
    ensures r >= 0.0 && (r == x || r == -x)
  {
    if x < 0.0 then -x else x
  }

  /** The sum of all samples. */
  function Sum(s: seq<real>): real
  {
    if s == [] then 0.0 else s[0] + Sum(s[1..])
  }

  /** `c * s` */
  function Scale(c: real, s: seq<real>): (r: seq<real>)
    ensures |r| == |s|
    ensures forall i {:trigger r[i]} :: 0 <= i < |s| ==> r[i] == c * s[i]
  {
    seq(|s|, i requires 0 <= i < |s| => c * s[i])
  }

  /** `a + b` for arrays of one shape. */
  function Add(a: seq<real>, b: seq<real>): (r: seq<real>)
    requires |a| == |b|
    ensures |r| == |a|
    ensures forall i {:trigger r[i]} :: 0 <= i < |a| ==> r[i] == a[i] + b[i]
  {
    seq(|a|, i requires 0 <= i < |a| => a[i] + b[i])
  }

  /** `a * b` for arrays of one shape. */
  function Mul(a: seq<real>, b: seq<real>): (r: seq<real>)
    requires |a| == |b|
    ensures |r| == |a|
    ensures forall i {:trigger r[i]} :: 0 <= i < |a| ==> r[i] == a[i] * b[i]
  {
    seq(|a|, i requires 0 <= i < |a| => a[i] * b[i])
  }

  /** `s + c`: every sample moved by the same constant. */
  function Shift(s: seq<real>, c: real): (r: seq<real>)
    ensures |r| == |s|
    ensures forall i {:trigger r[i]} :: 0 <= i < |s| ==> r[i] == s[i] + c
  {
    seq(|s|, i requires 0 <= i < |s| => s[i] + c)
  }

  /** `np.diff(s)`: one entry fewer than `s`, none for an empty `s`. */
  function Diff(s: seq<real>): (r: seq<real>)
    ensures |r| == if |s| == 0 then 0 else |s| - 1
    ensures forall k {:trigger r[k]} :: 0 <= k < |r| ==> r[k] == s[k + 1] - s[k]
  {
    if |s| == 0 then [] else seq(|s| - 1, k requires 0 <= k < |s| - 1 => s[k + 1] - s[k])
  }

  /**
   * `np.roll(s, k)` for a shift `0 <= k <= n` (numpy first reduces the shift
   * modulo `n`, which leaves such a shift as it is or, for `k = n`, makes it
   * 0): the last `k` samples moved to the front, so that entry `i` of the
   * result is entry `(i - k) mod n` of `s` (lemma RollAt).
   */
  function Roll(s: seq<real>, k: nat): (r: seq<real>)
    requires k <= |s|
    ensures |r| == |s|
  {
    s[|s| - k..] + s[..|s| - k]
  }

  /** The index that a roll by `0 <= k <= n` moves to position `i`. */
  function RollSource(n: nat, k: nat, i: nat): (j: nat)
    requires k <= n && i < n
    ensures j < n
  {
    if i < k then i + n - k else i - k
  }

  /** The argument of the sine at instant `tk`: `2 * np.pi * freq * tk + phase`. */
  function Angle(freq: real, tk: real, phase: real): real
  {
    2.0 * PI * freq * tk + phase
  }

  /** `np.sin(2 * np.pi * freq * t + phase)` over the time base `t`, for a given `sin`. */
  function Tone(sin: real -> real, freq: real, t: seq<real>, phase: real): (w: seq<real>)
    ensures |w| == |t|
    ensures forall k {:trigger w[k]} :: 0 <= k < |t| ==> w[k] == sin(Angle(freq, t[k], phase))
  {
    seq(|t|, k requires 0 <= k < |t| => sin(Angle(freq, t[k], phase)))
  }

  /** `len(range(n))`: the number of indices a `for` loop over `range(n)` visits. */
  function RangeLength(n: int): (r: nat)
    ensures n <= 0 ==> r == 0
    ensures n >= 0 ==> r == n
  {
    if n < 0 then 0 else n
  }

  /**
   * `np.linspace(0, duration, n, endpoint=False)`: `n` instants spaced
   * `duration / n` apart, starting at 0.
   */
  function TimeBase(duration: real, n: nat): (t: seq<real>)
    ensures |t| == n
  {
    seq(n, k requires 0 <= k < n => k as real * (duration / n as real))
  }

  /** For a positive duration the instants start at 0, increase strictly and stay below `duration`. */
  lemma TimeBaseIncreases(duration: real, n: nat, k: nat)
    requires duration > 0.0 && k < n
    ensures k == 0 ==> TimeBase(duration, n)[k] == 0.0
    ensures 0.0 <= TimeBase(duration, n)[k] < duration
    ensures k + 1 < n ==> TimeBase(duration, n)[k] < TimeBase(duration, n)[k + 1]
  {
    var step := duration / n as real;
    assert step > 0.0;
    assert step * n as real == duration;
    StepBelow(step, k, n);
    if k + 1 < n {
      assert TimeBase(duration, n)[k + 1] == (k + 1) as real * step;
      assert (k + 1) as real * step == k as real * step + step;
    }
  }

  lemma StepBelow(step: real, k: nat, n: nat)
    requires step > 0.0 && k < n
    ensures 0.0 <= k as real * step < n as real * step
  {
    assert n as real * step - k as real * step == (n - k) as real * step;
  }

  lemma {:induction false} SumConcat(a: seq<real>, b: seq<real>)
    ensures Sum(a + b) == Sum(a) + Sum(b)
  {
    if a == [] {
      assert a + b == b;
    } else {
      assert (a + b)[1..] == a[1..] + b;
      SumConcat(a[1..], b);
    }
  }

  lemma {:induction false} SumScale(c: real, s: seq<real>)
    ensures Sum(Scale(c, s)) == c * Sum(s)
  {
    if s != [] {
      var tail := Scale(c, s)[1..];
      forall i | 0 <= i < |tail| ensures tail[i] == Scale(c, s[1..])[i] {
        assert tail[i] == c * s[i + 1];
      }
      assert tail == Scale(c, s[1..]);
      SumScale(c, s[1..]);
      assert c * Sum(s) == c * s[0] + c * Sum(s[1..]);
    }
  }

  lemma {:induction false} SumAdd(a: seq<real>, b: seq<real>)
    requires |a| == |b|
    ensures Sum(Add(a, b)) == Sum(a) + Sum(b)
  {
    if a != [] {
      assert Add(a, b)[1..] == Add(a[1..], b[1..]);
      SumAdd(a[1..], b[1..]);
    }
  }

  lemma {:induction false} SumShift(s: seq<real>, c: real)
    ensures Sum(Shift(s, c)) == Sum(s) + |s| as real * c
  {
    if s != [] {
      assert Shift(s, c)[1..] == Shift(s[1..], c);
      SumShift(s[1..], c);
    }
  }

  /** A sequence whose samples all equal `c` sums to `n * c`. */
  lemma {:induction false} SumConstant(s: seq<real>, c: real)
    requires forall i :: 0 <= i < |s| ==> s[i] == c
    ensures Sum(s) == |s| as real * c
  {
    if s != [] {
      SumConstant(s[1..], c);
    }
  }

  /** Euclidean remainder of a value within one period of zero. */
  lemma ModSmall(x: int, n: int)
    requires 0 < n && -n <= x < n
    ensures x % n == if x < 0 then x + n else x
  {
    if x < 0 {
      assert x == (-1) * n + (x + n);
    } else {
      assert x == 0 * n + x;
    }
  }

  /** Entry `i` of a roll by `0 <= k <= n` is entry `RollSource(n, k, i)` of `s`. */
  lemma RollAt(s: seq<real>, k: nat, i: nat)
    requires k <= |s| && i < |s|
    ensures Roll(s, k)[i] == s[RollSource(|s|, k, i)]
  {
  }

  /** `RollSource` is numpy's index arithmetic: entry `i` comes from `(i - k) mod n`. */
  lemma RollSourceIsMod(n: nat, k: nat, i: nat)
    requires k <= n && i < n
    ensures RollSource(n, k, i) == (i - k) % n
  {
    ModSmall(i - k, n);
  }

  /** A circular shift is a permutation, so it keeps the sum. */
  lemma SumRoll(s: seq<real>, k: nat)
    requires k <= |s|
    ensures Sum(Roll(s, k)) == Sum(s)
  {
    var n := |s|;
    SumConcat(s[n - k..], s[..n - k]);
    SumConcat(s[..n - k], s[n - k..]);
    assert s[..n - k] + s[n - k..] == s;
  }

  /** Scaling commutes with a circular shift. */
  lemma ScaleRoll(c: real, s: seq<real>, k: nat)
    requires k <= |s|
    ensures Scale(c, Roll(s, k)) == Roll(Scale(c, s), k)
  {
    var n := |s|;
    var lhs, rhs := Scale(c, Roll(s, k)), Roll(Scale(c, s), k);
    forall i | 0 <= i < n ensures lhs[i] == rhs[i] {
      RollAt(s, k, i);
      RollAt(Scale(c, s), k, i);
    }
  }

  /** Scaling twice is scaling by the product. */
  lemma ScaleScale(g: real, d: real, s: seq<real>)
    ensures Scale(g, Scale(d, s)) == Scale(d * g, s)
  {
    var lhs, rhs := Scale(g, Scale(d, s)), Scale(d * g, s);
    forall i | 0 <= i < |s| ensures lhs[i] == rhs[i] {
      MulAssociates(g, d, s[i]);
    }
  }

  lemma MulAssociates(g: real, d: real, x: real)
    ensures g * (d * x) == d * g * x
  {
  }

  /** A signal plus `c` times itself is the signal scaled by `1 + c`. */
  lemma AddScaledSelf(c: real, s: seq<real>)
    ensures Add(s, Scale(c, s)) == Scale(1.0 + c, s)
  {
    var lhs, rhs := Add(s, Scale(c, s)), Scale(1.0 + c, s);
    forall i | 0 <= i < |s| ensures lhs[i] == rhs[i] {
      DistributeOnePlus(c, s[i]);
    }
  }

  lemma DistributeOnePlus(c: real, x: real)
    ensures x + c * x == (1.0 + c) * x
  {
  }

  /**
   * The signal plus `c` times a copy of itself circularly delayed by `k`
   * samples (`s + c * np.roll(s, k)`).
   */
  function Echo(s: seq<real>, c: real, k: nat): (r: seq<real>)
    requires k <= |s|
    ensures |r| == |s|
  {
    Add(s, Scale(c, Roll(s, k)))
  }

  /** Sample `i` of an echo: the sample plus `c` times the sample `k` places earlier, circularly. */
  lemma EchoAt(s: seq<real>, c: real, k: nat, i: nat)
    requires k <= |s| && i < |s|
    ensures Echo(s, c, k)[i] == s[i] + c * s[RollSource(|s|, k, i)]
  {
    var r := Roll(s, k);
    RollAt(s, k, i);
    assert Scale(c, r)[i] == c * r[i];
  }

  /** The delayed copy is a rearrangement of `s`, so an echo scales the total by `1 + c`. */
  lemma SumEcho(s: seq<real>, c: real, k: nat)
    requires k <= |s|
    ensures Sum(Echo(s, c, k)) == Sum(Scale(1.0 + c, s))
  {
    ScaleRoll(c, s, k);
    SumAdd(s, Scale(c, Roll(s, k)));
    SumRoll(Scale(c, s), k);
    SumAdd(s, Scale(c, s));
    AddScaledSelf(c, s);
  }

  /** Scaling by a factor written as another expression of the same value scales the total by that value. */
  lemma SumScaleBy(c: real, d: real, s: seq<real>)
    requires c == d
    ensures Sum(Scale(c, s)) == d * Sum(s)
  {
    SumScale(c, s);
  }

  /** A zero-weight echo adds nothing. */
  lemma EchoZeroWeight(s: seq<real>, k: nat)
    requires k <= |s|
    ensures Echo(s, 0.0, k) == s
  {
  }

  /** An undelayed echo scales the signal by `1 + c`. */
  lemma EchoNoDelay(s: seq<real>, c: real)
    ensures Echo(s, c, 0) == Scale(1.0 + c, s)
  {
    assert Roll(s, 0) == s;
    AddScaledSelf(c, s);
  }

  /** An echo maps a sum of signals to the sum of their echoes. */
  lemma EchoAdditive(a: seq<real>, b: seq<real>, c: real, k: nat)
    requires |a| == |b| && k <= |a|
    ensures Echo(Add(a, b), c, k) == Add(Echo(a, c, k), Echo(b, c, k))
  {
    var n := |a|;
    var ab := Add(a, b);
    var sum, ea, eb := Echo(ab, c, k), Echo(a, c, k), Echo(b, c, k);
    forall i | 0 <= i < n ensures sum[i] == ea[i] + eb[i] {
      var j := RollSource(n, k, i);
      assert ab[i] == a[i] + b[i] && ab[j] == a[j] + b[j];
      EchoAt(ab, c, k, i);
      EchoAt(a, c, k, i);
      EchoAt(b, c, k, i);
      EchoAddsUp(ab[i], ab[j], a[i], b[i], a[j], b[j], c);
    }
  }

  lemma EchoAddsUp(si: real, sj: real, ai: real, bi: real, aj: real, bj: real, c: real)
    requires si == ai + bi && sj == aj + bj
    ensures si + c * sj == (ai + c * aj) + (bi + c * bj)
  {
  }

  /** An echo of a scaled signal is the scaled echo. */
  lemma EchoHomogeneous(a: seq<real>, x: real, c: real, k: nat)
    requires k <= |a|
    ensures Echo(Scale(x, a), c, k) == Scale(x, Echo(a, c, k))
  {
    var n := |a|;
    var xa := Scale(x, a);
    var lhs, ea := Echo(xa, c, k), Echo(a, c, k);
    forall i | 0 <= i < n ensures lhs[i] == Scale(x, ea)[i] {
      var j := RollSource(n, k, i);
      assert Scale(x, ea)[i] == x * ea[i];
      assert xa[i] == x * a[i] && xa[j] == x * a[j];
      EchoAt(xa, c, k, i);
      EchoAt(a, c, k, i);
      EchoScales(xa[i], xa[j], a[i], a[j], x, c);
    }
  }

  lemma EchoScales(yi: real, yj: real, ai: real, aj: real, x: real, c: real)
    requires yi == x * ai && yj == x * aj
    ensures yi + c * yj == x * (ai + c * aj)
  {
  }
}
