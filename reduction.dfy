/** simToVector (extended.go:315-335): the fixed-width reduction of a
    simulated day to 28 numbers; four blocks of six order statistics (of the
    driving times, the service times, the rep counts and the unassigned
    count), then the three totals and the unassigned count. */
module Reduction {
  import opened Numeric
  import opened Sorting
  import opened Simulation

  /** The length of the vector. */
  const Width: int := 28

  /** a + (b - a) f, written as the source writes it. */
  function Lerp(a: real, b: real, f: real): real {
    a * (1.0 - f) + b * f
  }

  lemma LerpBetween(a: real, b: real, f: real)
    requires a <= b && 0.0 <= f <= 1.0
    ensures a <= Lerp(a, b, f) <= b
  {
    assert Lerp(a, b, f) == a + (b - a) * f;
    MulLe(b - a, 0.0, f);
    MulLe(b - a, f, 1.0);
  }

  lemma LerpMonotone(a: real, b: real, f: real, g: real)
    requires a <= b && f <= g
    ensures Lerp(a, b, f) <= Lerp(a, b, g)
  {
    assert Lerp(a, b, f) == a + (b - a) * f;
    assert Lerp(a, b, g) == a + (b - a) * g;
    MulLe(b - a, f, g);
  }

  /** The percentile closure p, at position pos = q*(n-1): linear
      interpolation between the two neighbouring elements, clamped to the
      last element. */
  function Interpolate(cp: seq<real>, pos: real): real
    requires |cp| >= 1 && 0.0 <= pos
  {
    if |cp| == 1 then cp[0]
    else
      var i := TruncToInt(pos);
      if i >= |cp| - 1 then cp[|cp| - 1]
      else Lerp(cp[i], cp[i + 1], pos - i as real)
  }

  /** pos := q*(n-1). */
  function Position(q: real, n: int): (pos: real)
    requires 0.0 <= q && n >= 1
    ensures 0.0 <= pos
  {
    MulLe(q, 0.0, (n - 1) as real);
    q * (n - 1) as real
  }

  lemma PositionMonotone(q: real, r: real, n: int)
    requires 0.0 <= q <= r && n >= 1
    ensures Position(q, n) <= Position(r, n)
  {
    var m := (n - 1) as real;
    MulLe(m, q, r);
    assert q * m == m * q && r * m == m * r;
  }

  /** p(q). */
  function Percentile(cp: seq<real>, q: real): real
    requires |cp| >= 1 && 0.0 <= q
  {
    Interpolate(cp, Position(q, |cp|))
  }

  /** On a sorted sequence an interpolated value lies between the first and the last element. */
  lemma InterpolateBounds(cp: seq<real>, pos: real)
    requires |cp| >= 1 && 0.0 <= pos && SortedBy(cp, Identity)
    ensures cp[0] <= Interpolate(cp, pos) <= cp[|cp| - 1]
  {
    if |cp| > 1 {
      var i := TruncToInt(pos);
      if i < |cp| - 1 {
        assert Identity(cp[0]) <= Identity(cp[i]) || i == 0;
        assert Identity(cp[i + 1]) <= Identity(cp[|cp| - 1]) || i + 1 == |cp| - 1;
        assert Identity(cp[i]) <= Identity(cp[i + 1]);
        LerpBetween(cp[i], cp[i + 1], pos - i as real);
      }
    }
  }

  /** On a sorted sequence interpolation is monotone in the position. */
  lemma InterpolateMonotone(cp: seq<real>, x: real, y: real)
    requires |cp| >= 1 && 0.0 <= x <= y && SortedBy(cp, Identity)
    ensures Interpolate(cp, x) <= Interpolate(cp, y)
  {
    InterpolateBounds(cp, x);
    var n := |cp|;
    if n > 1 {
      var i, j := TruncToInt(x), TruncToInt(y);
      TruncMonotone(x, y);
      if j < n - 1 {
        assert Identity(cp[i]) <= Identity(cp[i + 1]);
        assert Identity(cp[j]) <= Identity(cp[j + 1]);
        if i == j {
          LerpMonotone(cp[i], cp[i + 1], x - i as real, y - j as real);
        } else {
          LerpBetween(cp[i], cp[i + 1], x - i as real);
          LerpBetween(cp[j], cp[j + 1], y - j as real);
          assert Identity(cp[i + 1]) <= Identity(cp[j]) || i + 1 == j;
        }
      }
    }
  }

  /** On a sorted sequence a percentile lies between the first and the last element. */
  lemma PercentileBounds(cp: seq<real>, q: real)
    requires |cp| >= 1 && 0.0 <= q && SortedBy(cp, Identity)
    ensures cp[0] <= Percentile(cp, q) <= cp[|cp| - 1]
  {
    InterpolateBounds(cp, Position(q, |cp|));
  }

  /** On a sorted sequence a higher quantile gives a percentile at least as high. */
  lemma PercentileMonotone(cp: seq<real>, q: real, r: real)
    requires |cp| >= 1 && 0.0 <= q <= r && SortedBy(cp, Identity)
    ensures Percentile(cp, q) <= Percentile(cp, r)
  {
    PositionMonotone(q, r, |cp|);
    InterpolateMonotone(cp, Position(q, |cp|), Position(r, |cp|));
  }

  /** avg := sum/n. */
  function Mean(cp: seq<real>): real
    requires |cp| >= 1
  {
    Sum(cp) / |cp| as real
  }

  /** The six numbers of a sorted, non-empty copy: min, max, mean, p50, p75 and p95. */
  function Summary(cp: seq<real>): (b: seq<real>)
    requires |cp| >= 1
    ensures |b| == 6
  {
    [cp[0], cp[|cp| - 1], Mean(cp), Percentile(cp, 0.5), Percentile(cp, 0.75), Percentile(cp, 0.95)]
  }

  /** The six numbers push appends: the summary of the sorted copy, or six zeros for an empty list. */
  function Block(vals: seq<real>): (b: seq<real>)
    ensures |b| == 6
  {
    if vals == [] then [0.0, 0.0, 0.0, 0.0, 0.0, 0.0] else Summary(SortedSeq(vals))
  }

  /** The order of the input does not matter: a block depends only on the multiset of values. */
  lemma BlockIgnoresOrder(xs: seq<real>, ys: seq<real>)
    requires multiset(xs) == multiset(ys)
    ensures Block(xs) == Block(ys)
  {
    SortedPermutationUnique(SortedSeq(xs), SortedSeq(ys));
    assert xs == [] <==> ys == [] by {
      assert |xs| == |multiset(xs)| == |multiset(ys)| == |ys|;
    }
  }

  lemma MeanBounds(cp: seq<real>)
    requires |cp| >= 1 && SortedBy(cp, Identity)
    ensures cp[0] <= Mean(cp) <= cp[|cp| - 1]
  {
    forall i | 0 <= i < |cp| ensures cp[0] <= cp[i] <= cp[|cp| - 1] {
      assert Identity(cp[0]) <= Identity(cp[i]) || i == 0;
      assert Identity(cp[i]) <= Identity(cp[|cp| - 1]) || i == |cp| - 1;
    }
    SumBounds(cp, cp[0], cp[|cp| - 1]);
    DivBounds(Sum(cp), |cp| as real, cp[0], cp[|cp| - 1]);
  }

  /** The summary of a sorted sequence is ordered: the mean and the three percentiles lie between its ends. */
  lemma SummaryOrdered(cp: seq<real>)
    requires |cp| >= 1 && SortedBy(cp, Identity)
    ensures var b := Summary(cp);
      && b[0] == cp[0] && b[1] == cp[|cp| - 1]
      && b[0] <= b[2] <= b[1]
      && b[0] <= b[3] <= b[4] <= b[5] <= b[1]
  {
    MeanBounds(cp);
    PercentileBounds(cp, 0.5);
    PercentileBounds(cp, 0.95);
    PercentileMonotone(cp, 0.5, 0.75);
    PercentileMonotone(cp, 0.75, 0.95);
  }

  /** The ends of the sorted copy are the least and the greatest value. */
  lemma SortedEnds(vals: seq<real>)
    requires vals != []
    ensures var cp := SortedSeq(vals);
      && |cp| == |vals|
      && cp[0] in vals && cp[|cp| - 1] in vals
      && forall v :: v in vals ==> cp[0] <= v <= cp[|cp| - 1]
  {
    var cp := SortedSeq(vals);
    assert cp[0] in multiset(vals) && cp[|cp| - 1] in multiset(vals);
    forall v | v in vals ensures cp[0] <= v <= cp[|cp| - 1] {
      assert v in multiset(cp);
      SortedHeadIsLeast(cp, v);
      var k :| 0 <= k < |cp| && cp[k] == v;
      assert Identity(cp[k]) <= Identity(cp[|cp| - 1]) || k == |cp| - 1;
    }
  }

  /** A non-empty block: its first entry is the least value, its second the
      greatest, and the mean and the three percentiles lie between them in
      order. */
  lemma BlockOrdered(vals: seq<real>)
    requires vals != []
    ensures var b := Block(vals);
      && b[0] in vals && (forall v :: v in vals ==> b[0] <= v)
      && b[1] in vals && (forall v :: v in vals ==> v <= b[1])
      && b[0] <= b[2] <= b[1]
      && b[0] <= b[3] <= b[4] <= b[5] <= b[1]
  {
    SortedEnds(vals);
    SummaryOrdered(SortedSeq(vals));
  }

  /** A single value gives that value six times. */
  lemma BlockSingle(x: real)
    ensures Block([x]) == [x, x, x, x, x, x]
  {
    assert [x][..0] == [];
    assert SortedSeq([x]) == [x];
    assert Sum([x]) == x by {
      assert [x] == [] + [x];
      SumSnoc([], x);
    }
  }

  lemma SummaryExample(s: seq<real>)
    requires s == [1.0, 2.0, 3.0, 4.0, 5.0]
    ensures Summary(s) == [1.0, 5.0, 3.0, 3.0, 4.0, 4.8]
  {
    assert s[..1][..0] == [] && Sum(s[..1]) == 1.0;
    assert s[..2][..1] == s[..1] && Sum(s[..2]) == 3.0;
    assert s[..3][..2] == s[..2] && Sum(s[..3]) == 6.0;
    assert s[..4][..3] == s[..3] && Sum(s[..4]) == 10.0;
    assert s[..4] == s[..|s| - 1] && Sum(s) == 15.0;
    assert Position(0.5, 5) == 2.0 && TruncToInt(2.0) == 2;
    assert Position(0.75, 5) == 3.0 && TruncToInt(3.0) == 3;
    assert Position(0.95, 5) == 3.8 && TruncToInt(3.8) == 3;
  }

  /** The block of [1, 2, 3, 4, 5]. */
  lemma BlockExample(s: seq<real>)
    requires s == [1.0, 2.0, 3.0, 4.0, 5.0]
    ensures Block(s) == [1.0, 5.0, 3.0, 3.0, 4.0, 4.8]
  {
    assert forall i :: 0 <= i < |s| ==> s[i] == (i + 1) as real;
    assert SortedBy(s, Identity);
    var t := SortedSeq(s);
    SortedPermutationUnique(t, s);
    SummaryExample(s);
  }

  /** float64(x) for each rep count. */
  function RepsAsReals(xs: seq<int>): (r: seq<real>)
    ensures |r| == |xs| && forall i :: 0 <= i < |xs| ==> r[i] == xs[i] as real
  {
    seq(|xs|, i requires 0 <= i < |xs| => xs[i] as real)
  }

  /** simToVector, as a value. */
  function SimVector(st: SimStats): (out: seq<real>)
    ensures |out| == Width
  {
    Block(st.drivingSec) + Block(st.serviceSec) + Block(RepsAsReals(st.repsUsed)) + Block([st.unassigned as real])
      + [st.totalTravelSec, st.totalServiceSec, st.totalIdleSec, st.unassigned as real]
  }

  /** A block's shape: the mean between the ends, and the percentiles between them in order. */
  predicate Ordered(b: seq<real>) {
    |b| == 6 && b[0] <= b[2] <= b[1] && b[0] <= b[3] <= b[4] <= b[5] <= b[1]
  }

  lemma BlockIsOrdered(vals: seq<real>)
    ensures Ordered(Block(vals))
  {
    if vals != [] {
      BlockOrdered(vals);
    }
  }

  /** Four blocks of six and a tail, concatenated, sliced back apart. */
  lemma Pieces(a: seq<real>, b: seq<real>, c: seq<real>, d: seq<real>, e: seq<real>)
    requires |a| == 6 && |b| == 6 && |c| == 6 && |d| == 6
    ensures var s := a + b + c + d + e;
      s[..6] == a && s[6..12] == b && s[12..18] == c && s[18..24] == d && s[24..] == e
  {
    var s := a + b + c + d + e;
    assert forall i :: 0 <= i < 6 ==> s[i] == a[i] && s[6 + i] == b[i] && s[12 + i] == c[i] && s[18 + i] == d[i];
    assert forall i :: 0 <= i < |e| ==> s[24 + i] == e[i];
  }

  /** Where each part of the vector sits. */
  lemma SimVectorSlices(st: SimStats)
    ensures var out := SimVector(st);
      && out[..6] == Block(st.drivingSec)
      && out[6..12] == Block(st.serviceSec)
      && out[12..18] == Block(RepsAsReals(st.repsUsed))
      && out[18..24] == Block([st.unassigned as real])
      && out[24..] == [st.totalTravelSec, st.totalServiceSec, st.totalIdleSec, st.unassigned as real]
  {
    Pieces(Block(st.drivingSec), Block(st.serviceSec), Block(RepsAsReals(st.repsUsed)), Block([st.unassigned as real]),
           [st.totalTravelSec, st.totalServiceSec, st.totalIdleSec, st.unassigned as real]);
  }

  /** Each of the four blocks of the vector is ordered as a block is, and the
      last four entries are the totals and the unassigned count. */
  lemma SimVectorLayout(st: SimStats)
    ensures var out := SimVector(st);
      && Ordered(out[..6]) && Ordered(out[6..12]) && Ordered(out[12..18]) && Ordered(out[18..24])
      && out[24] == st.totalTravelSec && out[25] == st.totalServiceSec
      && out[26] == st.totalIdleSec && out[27] == st.unassigned as real
  {
    SimVectorSlices(st);
    BlockIsOrdered(st.drivingSec);
    BlockIsOrdered(st.serviceSec);
    BlockIsOrdered(RepsAsReals(st.repsUsed));
    BlockIsOrdered([st.unassigned as real]);
    var out := SimVector(st);
    assert out[24..][0] == out[24] && out[24..][1] == out[25] && out[24..][2] == out[26] && out[24..][3] == out[27];
  }

  /** With a single rep count, the reps block and the unassigned block are constant. */
  lemma SimVectorConstantBlocks(st: SimStats, agents: int)
    requires st.repsUsed == [agents]
    ensures var out := SimVector(st);
      var a := agents as real;
      var u := st.unassigned as real;
      && out[12..18] == [a, a, a, a, a, a]
      && out[18..24] == [u, u, u, u, u, u]
  {
    SimVectorSlices(st);
    assert RepsAsReals(st.repsUsed) == [agents as real];
    BlockSingle(agents as real);
    BlockSingle(st.unassigned as real);
  }

  /** The vector of a simulated day: the reps block is the agent count six
      times, the unassigned block the count of accounts not active that day six
      times, no idle time, and the total service the sum of the active
      accounts' service times. */
  lemma SimVectorOfNaiveSim(sc: Domain.Scenario, day: int, occ: Recurrence.Occurrences, hav: HavKM)
    requires NaiveSimOf(sc, day, occ, hav).Success?
    ensures var out := SimVector(NaiveSimOf(sc, day, occ, hav).value);
      var a := |sc.agents| as real;
      var u := (|sc.accounts| - |SimActive(sc, day, occ)|) as real;
      && out[12..18] == [a, a, a, a, a, a]
      && out[18..24] == [u, u, u, u, u, u]
      && out[25] == Sum(ServiceSecs(SimActive(sc, day, occ)))
      && out[26] == 0.0 && out[27] == u
  {
    var st := NaiveSimOf(sc, day, occ, hav).value;
    NaiveSimStats(sc, day, occ, hav);
    SimVectorLayout(st);
    SimVectorConstantBlocks(st, |sc.agents|);
  }

  /** The running total `for _, v := range cp { sum += v }`. */
  method Total(cp: array<real>) returns (sum: real)
    ensures sum == Sum(cp[..])
  {
    sum := 0.0;
    var i := 0;
    while i < cp.Length
      invariant 0 <= i <= cp.Length
      invariant sum == Sum(cp[..i])
    {
      assert cp[..i + 1] == cp[..i] + [cp[i]];
      SumSnoc(cp[..i], cp[i]);
      sum := sum + cp[i];
      i := i + 1;
    }
    assert cp[..i] == cp[..];
  }

  /** cp := append([]float64(nil), vals...); sort.Float64s(cp). */
  method SortedCopy(vals: seq<real>) returns (cp: array<real>)
    ensures fresh(cp)
    ensures cp[..] == SortedSeq(vals)
  {
    cp := new real[|vals|](i requires 0 <= i < |vals| => vals[i]);
    assert cp[..] == vals;
    SortByKey(cp, Identity);
    SortedPermutationUnique(cp[..], SortedSeq(vals));
  }

  /** push: the six numbers of one list, from a sorted copy (the input is not reordered). */
  method Push(vals: seq<real>) returns (block: seq<real>)
    ensures block == Block(vals)
  {
    if |vals| == 0 {
      return [0.0, 0.0, 0.0, 0.0, 0.0, 0.0];
    }
    var cp := SortedCopy(vals);
    ghost var sorted := cp[..];
    var n := cp.Length as real;
    var sum := Total(cp);
    var avg := sum / n;
    var minv, maxv := cp[0], cp[cp.Length - 1];
    assert minv == sorted[0] && maxv == sorted[|sorted| - 1] && avg == Mean(sorted);
    block := [minv, maxv, avg, Percentile(cp[..], 0.5), Percentile(cp[..], 0.75), Percentile(cp[..], 0.95)];
  }

  /** The conversion loop over the rep counts. */
  method RepsToReals(xs: seq<int>) returns (reps: seq<real>)
    ensures reps == RepsAsReals(xs)
  {
    reps := [];
    var k := 0;
    while k < |xs|
      invariant 0 <= k <= |xs|
      invariant reps == RepsAsReals(xs[..k])
    {
      reps := reps + [xs[k] as real];
      k := k + 1;
    }
    assert xs[..k] == xs;
  }

  /** simToVector. */
  method SimToVector(st: SimStats) returns (out: seq<real>)
    ensures out == SimVector(st)
  {
    var driving := Push(st.drivingSec);
    var service := Push(st.serviceSec);
    var reps := RepsToReals(st.repsUsed);
    var repsBlock := Push(reps);
    var unassigned := Push([st.unassigned as real]);
    out := driving + service + repsBlock + unassigned
      + [st.totalTravelSec, st.totalServiceSec, st.totalIdleSec, st.unassigned as real];
  }
}
