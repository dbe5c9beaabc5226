/** The signal primitives of the embedding (main.go:378-411): value
    normalisation, amplitude with overshoot, phase, H3-level frequency, the
    in-place superposition of sine waves and the in-place L2 normalisation.
    sin and sqrt are supplied by the caller; the model is over exact reals. */
module Signal {
  import opened Numeric

  /** A sine function (math.Sin). */
  type Sine = real -> real

  /** A square root that is positive on positive inputs, which is all that
      1/sqrt(ss) needs to be defined. */
  type SqrtFn = f: real -> real | forall x :: x > 0.0 ==> f(x) > 0.0
    witness (x: real) => if x > 0.0 then x else 1.0

  lemma QuotientBounds(a: real, b: real)
    requires 0.0 < b
    ensures 0.0 <= a <= b ==> 0.0 <= a / b <= 1.0
    ensures a <= 0.0 ==> a / b <= 0.0
    ensures b <= a ==> 1.0 <= a / b
  {
  }

  lemma MulNonneg(a: real, b: real)
    requires a >= 0.0 && b >= 0.0
    ensures a * b >= 0.0
  {
  }

  /** For an overshoot above -1, norm*(1+overshoot) stays in [0, 1+overshoot] when norm is in [0, 1] and is not positive when norm is not. */
  lemma ScaledRatioBounds(norm: real, overshoot: real)
    ensures overshoot > -1.0 && 0.0 <= norm <= 1.0 ==> 0.0 <= norm * (1.0 + overshoot) <= 1.0 + overshoot
    ensures overshoot > -1.0 && norm <= 0.0 ==> norm * (1.0 + overshoot) <= 0.0
  {
    if overshoot > -1.0 && 0.0 <= norm <= 1.0 {
      MulNonneg(norm, 1.0 + overshoot);
      MulNonneg(1.0 - norm, 1.0 + overshoot);
      assert (1.0 - norm) * (1.0 + overshoot) == (1.0 + overshoot) - norm * (1.0 + overshoot);
    }
    if overshoot > -1.0 && norm <= 0.0 {
      MulNonneg(-norm, 1.0 + overshoot);
      assert (-norm) * (1.0 + overshoot) == -(norm * (1.0 + overshoot));
    }
  }

  /** normalize(x, min, max): the position of x in [min, max], clipped to [0, 1]; 0 for an empty range. */
  function Normalize(x: real, lo: real, hi: real): (t: real)
    ensures 0.0 <= t <= 1.0
    ensures hi <= lo ==> t == 0.0
    ensures lo < hi && x <= lo ==> t == 0.0
    ensures lo < hi && hi <= x ==> t == 1.0
    ensures lo < hi && lo <= x <= hi ==> t == (x - lo) / (hi - lo)
  {
    if hi <= lo then 0.0
    else
      QuotientBounds(x - lo, hi - lo);
      Clamp((x - lo) / (hi - lo), 0.0, 1.0)
  }

  /** normalize is monotone in x. */
  lemma NormalizeMonotone(x: real, y: real, lo: real, hi: real)
    requires x <= y
    ensures Normalize(x, lo, hi) <= Normalize(y, lo, hi)
  {
    if lo < hi {
      var d := hi - lo;
      assert (x - lo) / d <= (y - lo) / d by {
        assert (y - lo) / d - (x - lo) / d == (y - x) / d;
        QuotientBounds(y - x, d);
      }
      ClampMonotone((x - lo) / d, (y - lo) / d, 0.0, 1.0);
    }
  }

  /** amplitude(norm, overshoot) = clamp(norm*(1+overshoot), 0, 1+overshoot). */
  function Amplitude(norm: real, overshoot: real): (a: real)
    ensures overshoot > -1.0 ==> 0.0 <= a <= 1.0 + overshoot
    ensures overshoot > -1.0 && 0.0 <= norm <= 1.0 ==> a == norm * (1.0 + overshoot)
    ensures overshoot > -1.0 && norm <= 0.0 ==> a == 0.0
  {
    ScaledRatioBounds(norm, overshoot);
    Clamp(norm * (1.0 + overshoot), 0.0, 1.0 + overshoot)
  }

  /** phShift: a spatial phase in [-pi, pi] plus the day's share of a full turn. */
  function PhShift(latN: real, lngN: real, day: int, cycle: int): (phi: real)
    ensures cycle >= 1 ==> phi == (latN - 0.5) * Pi + (lngN - 0.5) * Pi + 2.0 * Pi * day as real / cycle as real
  {
    (latN - 0.5) * Pi + (lngN - 0.5) * Pi + 2.0 * Pi * day as real / Max(1, cycle) as real
  }

  /** Advancing the day by one whole cycle turns the phase by exactly 2*pi. */
  lemma PhShiftPeriodic(latN: real, lngN: real, day: int, cycle: int)
    requires cycle >= 1
    ensures PhShift(latN, lngN, day + cycle, cycle) == PhShift(latN, lngN, day, cycle) + 2.0 * Pi
  {
    var c := cycle as real;
    assert 2.0 * Pi * (day + cycle) as real / c == 2.0 * Pi * day as real / c + 2.0 * Pi * c / c;
    assert 2.0 * Pi * c / c == 2.0 * Pi;
  }

  /** A non-positive cycle length is read as one day. */
  lemma PhShiftShortCycle(latN: real, lngN: real, day: int, cycle: int)
    requires cycle <= 1
    ensures PhShift(latN, lngN, day, cycle) == PhShift(latN, lngN, day, 1)
  {
  }

  /** 2 to an integer power, exactly (math.Pow(2, shift) for an integral shift). */
  function Pow2(e: int): (r: real)
    ensures r > 0.0
    decreases if e < 0 then -e else e
  {
    if e == 0 then 1.0 else if e > 0 then 2.0 * Pow2(e - 1) else Pow2(e + 1) / 2.0
  }

  lemma {:induction false} Pow2Succ(e: int)
    ensures Pow2(e + 1) == 2.0 * Pow2(e)
    decreases if e < 0 then -e else e
  {
    if e < -1 {
      Pow2Succ(e + 1);
    }
  }

  /** frequencyForLevel(base, level) = base / 2^(level-5). */
  function FrequencyForLevel(base: real, level: int): real {
    base / Pow2(level - 5)
  }

  /** Level 5 keeps the base frequency and each finer level halves it. */
  lemma FrequencyHalves(base: real, level: int)
    ensures FrequencyForLevel(base, 5) == base
    ensures FrequencyForLevel(base, level + 1) == FrequencyForLevel(base, level) / 2.0
  {
    Pow2Succ(level - 5);
  }

  /** The angle 2*pi*f*(i/n) + phi of entry i of an n-entry channel. */
  function Theta(f: real, i: int, n: int, phi: real): real
    requires n > 0
  {
    2.0 * Pi * f * (i as real / n as real) + phi
  }

  /** One level's wave added to every entry of v, the channel having n entries. */
  function AddWave(v: seq<real>, amp: real, f: real, phi: real, n: int, sin: Sine): (w: seq<real>)
    requires n > 0
    ensures |w| == |v|
    ensures forall i :: 0 <= i < |v| ==> w[i] == v[i] + amp * sin(Theta(f, i, n, phi))
  {
    seq(|v|, i requires 0 <= i < |v| => v[i] + amp * sin(Theta(f, i, n, phi)))
  }

  /** superimpose, as a value: the waves of the given levels added in order;
      nothing when the channel is empty or the amplitude is 0. */
  function Superimposed(v: seq<real>, amp: real, base: real, levels: seq<int>, phi: real, sin: Sine): (w: seq<real>)
    ensures |w| == |v|
    ensures amp == 0.0 || levels == [] ==> w == v
    decreases |levels|
  {
    if |v| == 0 || amp == 0.0 || levels == [] then v
    else
      AddWave(Superimposed(v, amp, base, levels[..|levels| - 1], phi, sin), amp,
              FrequencyForLevel(base, levels[|levels| - 1]), phi, |v|, sin)
  }

  /** The sum over the levels of the sine at entry i. */
  function WaveSum(base: real, levels: seq<int>, i: int, n: int, phi: real, sin: Sine): real
    requires n > 0
    decreases |levels|
  {
    if levels == [] then 0.0
    else WaveSum(base, levels[..|levels| - 1], i, n, phi, sin) + sin(Theta(FrequencyForLevel(base, levels[|levels| - 1]), i, n, phi))
  }

  /** Entry i of the superposition is the original entry plus amp times the sum of the level waves. */
  lemma {:induction false} SuperimposedPointwise(v: seq<real>, amp: real, base: real, levels: seq<int>, phi: real, sin: Sine, i: int)
    requires 0 <= i < |v|
    ensures Superimposed(v, amp, base, levels, phi, sin)[i] == v[i] + amp * WaveSum(base, levels, i, |v|, phi, sin)
    decreases |levels|
  {
    if amp != 0.0 && levels != [] {
      SuperimposedPointwise(v, amp, base, levels[..|levels| - 1], phi, sin, i);
    }
  }

  /** Entry i after two superpositions: both amplitude-weighted wave sums added to the original entry. */
  lemma SuperimposedTwice(v: seq<real>, a1: real, phi1: real, a2: real, phi2: real, base: real, levels: seq<int>, sin: Sine, i: int)
    requires 0 <= i < |v|
    ensures Superimposed(Superimposed(v, a1, base, levels, phi1, sin), a2, base, levels, phi2, sin)[i]
         == v[i] + a1 * WaveSum(base, levels, i, |v|, phi1, sin) + a2 * WaveSum(base, levels, i, |v|, phi2, sin)
  {
    var s1 := Superimposed(v, a1, base, levels, phi1, sin);
    SuperimposedPointwise(v, a1, base, levels, phi1, sin, i);
    SuperimposedPointwise(s1, a2, base, levels, phi2, sin, i);
  }

  /** Superimposing two accounts' waves gives the same channel in either order. */
  lemma SuperimposeCommutes(v: seq<real>, a1: real, phi1: real, a2: real, phi2: real, base: real, levels: seq<int>, sin: Sine)
    ensures Superimposed(Superimposed(v, a1, base, levels, phi1, sin), a2, base, levels, phi2, sin)
         == Superimposed(Superimposed(v, a2, base, levels, phi2, sin), a1, base, levels, phi1, sin)
  {
    var x := Superimposed(Superimposed(v, a1, base, levels, phi1, sin), a2, base, levels, phi2, sin);
    var y := Superimposed(Superimposed(v, a2, base, levels, phi2, sin), a1, base, levels, phi1, sin);
    forall i | 0 <= i < |v| ensures x[i] == y[i] {
      SuperimposedTwice(v, a1, phi1, a2, phi2, base, levels, sin, i);
      SuperimposedTwice(v, a2, phi2, a1, phi1, base, levels, sin, i);
    }
  }

  /** superimpose: adds amp*sin(2*pi*f*(i/n) + phi) to vec[i] for every level f, in place. */
  method Superimpose(vec: array<real>, amp: real, base: real, levels: seq<int>, phi: real, sin: Sine)
    modifies vec
    ensures vec[..] == Superimposed(old(vec[..]), amp, base, levels, phi, sin)
  {
    var n := vec.Length;
    if n == 0 || amp == 0.0 {
      return;
    }
    ghost var v0 := vec[..];
    var k := 0;
    while k < |levels|
      invariant 0 <= k <= |levels|
      invariant vec.Length == n
      invariant vec[..] == Superimposed(v0, amp, base, levels[..k], phi, sin)
    {
      var f := FrequencyForLevel(base, levels[k]);
      AddWaveInPlace(vec, amp, f, phi, sin);
      assert levels[..k + 1][..k] == levels[..k];
      k := k + 1;
    }
    assert levels[..k] == levels;
  }

  /** The inner loop of superimpose: one level's wave added to every entry, in place. */
  method AddWaveInPlace(vec: array<real>, amp: real, f: real, phi: real, sin: Sine)
    requires vec.Length > 0
    modifies vec
    ensures vec[..] == AddWave(old(vec[..]), amp, f, phi, vec.Length, sin)
  {
    var n := vec.Length;
    var i := 0;
    while i < n
      invariant 0 <= i <= n
      invariant forall j :: 0 <= j < i ==> vec[j] == old(vec[j]) + amp * sin(Theta(f, j, n, phi))
      invariant forall j :: i <= j < n ==> vec[j] == old(vec[j])
    {
      vec[i] := vec[i] + amp * sin(Theta(f, i, n, phi));
      i := i + 1;
    }
    assert forall j :: 0 <= j < n ==> vec[..][j] == AddWave(old(vec[..]), amp, f, phi, n, sin)[j];
  }

  /** The sum of squares, Σ x*x. */
  function SumSq(v: seq<real>): (ss: real)
    ensures ss >= 0.0
  {
    if v == [] then 0.0 else SumSq(v[..|v| - 1]) + v[|v| - 1] * v[|v| - 1]
  }

  /** The sum of squares of the all-zero vector (or the empty one) is 0. */
  lemma {:induction false} SumSqOfZero(v: seq<real>)
    requires forall i :: 0 <= i < |v| ==> v[i] == 0.0
    ensures SumSq(v) == 0.0
  {
    if v != [] {
      var u := v[..|v| - 1];
      assert forall i :: 0 <= i < |u| ==> u[i] == v[i];
      SumSqOfZero(u);
    }
  }

  lemma SquareOfProduct(x: real, c: real)
    ensures (x * c) * (x * c) == c * c * (x * x)
  {
  }

  lemma Distribute(k: real, a: real, b: real)
    ensures k * a + k * b == k * (a + b)
  {
  }

  /** Every entry multiplied by c. */
  function Scaled(v: seq<real>, c: real): (w: seq<real>)
    ensures |w| == |v|
    ensures forall i :: 0 <= i < |v| ==> w[i] == v[i] * c
  {
    seq(|v|, i requires 0 <= i < |v| => v[i] * c)
  }

  lemma {:induction false} SumSqScaled(v: seq<real>, c: real)
    ensures SumSq(Scaled(v, c)) == c * c * SumSq(v)
  {
    if v != [] {
      var u := v[..|v| - 1];
      var x := v[|v| - 1];
      var w := Scaled(v, c);
      SumSqScaled(u, c);
      assert forall i :: 0 <= i < |u| ==> u[i] == v[i];
      assert forall i :: 0 <= i < |u| ==> w[..|w| - 1][i] == Scaled(u, c)[i];
      assert w[..|w| - 1] == Scaled(u, c);
      assert w[|w| - 1] == x * c;
      assert SumSq(w) == SumSq(Scaled(u, c)) + (x * c) * (x * c);
      SquareOfProduct(x, c);
      Distribute(c * c, SumSq(u), x * x);
    }
  }

  /** l2Normalize, as a value: v divided by its Euclidean norm, or v itself when that norm is 0. */
  function L2Normalized(v: seq<real>, sqrt: SqrtFn): (w: seq<real>)
    ensures |w| == |v|
  {
    var ss := SumSq(v);
    if ss == 0.0 then v else Scaled(v, 1.0 / sqrt(ss))
  }

  /** The all-zero vector (and the empty one) is left as it is. */
  lemma L2NormalizedZero(v: seq<real>, sqrt: SqrtFn)
    requires forall i :: 0 <= i < |v| ==> v[i] == 0.0
    ensures L2Normalized(v, sqrt) == v
  {
    SumSqOfZero(v);
  }

  lemma InverseSquare(r: real, ss: real)
    requires r > 0.0 && r * r == ss
    ensures (1.0 / r) * (1.0 / r) * ss == 1.0
  {
    var c := 1.0 / r;
    assert c * r == 1.0;
    assert c * c * (r * r) == (c * r) * (c * r);
  }

  /** Dividing by a positive root of the sum of squares gives unit norm. */
  lemma ScaledUnit(v: seq<real>, r: real)
    requires r > 0.0 && r * r == SumSq(v)
    ensures SumSq(Scaled(v, 1.0 / r)) == 1.0
  {
    SumSqScaled(v, 1.0 / r);
    InverseSquare(r, SumSq(v));
  }

  /** With an exact square root the result has unit norm. */
  lemma L2NormalizedUnit(v: seq<real>, sqrt: SqrtFn)
    requires SumSq(v) != 0.0
    requires sqrt(SumSq(v)) * sqrt(SumSq(v)) == SumSq(v)
    ensures SumSq(L2Normalized(v, sqrt)) == 1.0
  {
    ScaledUnit(v, sqrt(SumSq(v)));
  }

  /** With an exact square root normalising twice is normalising once. */
  lemma L2NormalizedIdempotent(v: seq<real>, sqrt: SqrtFn)
    requires SumSq(v) != 0.0
    requires sqrt(SumSq(v)) * sqrt(SumSq(v)) == SumSq(v)
    requires sqrt(1.0) == 1.0
    ensures L2Normalized(L2Normalized(v, sqrt), sqrt) == L2Normalized(v, sqrt)
  {
    L2NormalizedUnit(v, sqrt);
    var w := L2Normalized(v, sqrt);
    assert Scaled(w, 1.0 / sqrt(1.0)) == w;
  }

  /** The accumulation loop of l2Normalize and l2NormalizeCopy. */
  method SumOfSquares(v: array<real>) returns (ss: real)
    ensures ss == SumSq(v[..])
  {
    ss := 0.0;
    var i := 0;
    while i < v.Length
      invariant 0 <= i <= v.Length
      invariant ss == SumSq(v[..i])
    {
      assert v[..i + 1][..i] == v[..i];
      ss := ss + v[i] * v[i];
      i := i + 1;
    }
    assert v[..i] == v[..];
  }

  /** l2Normalize: divides the vector by its Euclidean norm in place, unless that norm is 0. */
  method L2Normalize(v: array<real>, sqrt: SqrtFn)
    modifies v
    ensures v[..] == L2Normalized(old(v[..]), sqrt)
  {
    var ss := SumOfSquares(v);
    if ss == 0.0 {
      return;
    }
    var inv := 1.0 / sqrt(ss);
    ScaleInPlace(v, inv);
  }

  /** The scaling loop of l2Normalize: every entry multiplied by c, in place. */
  method ScaleInPlace(v: array<real>, c: real)
    modifies v
    ensures v[..] == Scaled(old(v[..]), c)
  {
    var i := 0;
    while i < v.Length
      invariant 0 <= i <= v.Length
      invariant forall j :: 0 <= j < i ==> v[j] == old(v[j]) * c
      invariant forall j :: i <= j < v.Length ==> v[j] == old(v[j])
    {
      v[i] := v[i] * c;
      i := i + 1;
    }
    assert forall j :: 0 <= j < v.Length ==> v[..][j] == Scaled(old(v[..]), c)[j];
  }
}
