/** Integer and real helpers of main.go and extended.go (clamp, clampInt, max, minInt)
    and the Go conversions the core relies on. */
module Numeric {

  /** math.Pi, as a real literal. */
  const Pi: real := 3.141592653589793

  const MinInt64: int := -0x8000_0000_0000_0000
  const MaxInt64: int := 0x7FFF_FFFF_FFFF_FFFF

  /** A field left at 0 takes the server default. */
  function OrDefault(x: int, d: int): (r: int)
    ensures x != 0 ==> r == x
    ensures x == 0 ==> r == d
  {
    if x == 0 then d else x
  }

  /** clamp(x, a, b): a when x < a, else b when x > b, else x. */
  function Clamp(x: real, a: real, b: real): (r: real)
    ensures a <= b ==> a <= r <= b
    ensures a <= x <= b ==> r == x
    ensures r == x || r == a || r == b
  {
    if x < a then a else if x > b then b else x
  }

  /** clampInt, the integer twin of Clamp. */
  function ClampInt(x: int, a: int, b: int): (r: int)
    ensures a <= b ==> a <= r <= b
    ensures a <= x <= b ==> r == x
    ensures r == x || r == a || r == b
  {
    if x < a then a else if x > b then b else x
  }

  /** Clamping preserves order. */
  lemma ClampMonotone(x: real, y: real, a: real, b: real)
    requires a <= b && x <= y
    ensures Clamp(x, a, b) <= Clamp(y, a, b)
  {
  }

  function Max(a: int, b: int): (r: int)
    ensures r >= a && r >= b && (r == a || r == b)
  {
    if a > b then a else b
  }

  function MinInt(a: int, b: int): (r: int)
    ensures r <= a && r <= b && (r == a || r == b)
  {
    if a < b then a else b
  }

  /** Go's int(x) for a float: truncation toward zero. */
  function TruncToInt(x: real): (r: int)
    ensures 0.0 <= x ==> r as real <= x < r as real + 1.0
    ensures x <= 0.0 ==> r as real - 1.0 < x <= r as real
  {
    if x >= 0.0 then x.Floor else -((-x).Floor)
  }

  /** Truncation preserves order. */
  lemma TruncMonotone(x: real, y: real)
    requires x <= y
    ensures TruncToInt(x) <= TruncToInt(y)
  {
    if x < 0.0 && 0.0 <= y {
      assert TruncToInt(x) <= 0 <= TruncToInt(y);
    }
  }

  /** A 64-bit Go int: the mathematical value reduced into [MinInt64, MaxInt64]. */
  function WrapInt64(x: int): (r: int)
    ensures MinInt64 <= r <= MaxInt64
    ensures MinInt64 <= x <= MaxInt64 ==> r == x
    ensures (r - x) % 0x1_0000_0000_0000_0000 == 0
  {
    (x - MinInt64) % 0x1_0000_0000_0000_0000 + MinInt64
  }

  /** The float64 running total of a loop `for _, v := range s { sum += v }`. */
  function Sum(s: seq<real>): real {
    if s == [] then 0.0 else Sum(s[..|s| - 1]) + s[|s| - 1]
  }

  /** One more element adds its value. */
  lemma SumSnoc(s: seq<real>, x: real)
    ensures Sum(s + [x]) == Sum(s) + x
  {
    assert (s + [x])[..|s|] == s;
  }

  /** Replacing one element changes the total by the difference. */
  lemma {:induction false} SumUpdate(s: seq<real>, b: int, x: real)
    requires 0 <= b < |s|
    ensures Sum(s[b := x]) == Sum(s) - s[b] + x
  {
    var n := |s| - 1;
    assert s[b := x][..n] == if b < n then s[..n][b := x] else s[..n];
    if b < n {
      SumUpdate(s[..n], b, x);
    }
  }

  /** Bounds on every element bound the total. */
  lemma {:induction false} SumBounds(s: seq<real>, lo: real, hi: real)
    requires forall i :: 0 <= i < |s| ==> lo <= s[i] <= hi
    ensures |s| as real * lo <= Sum(s) <= |s| as real * hi
  {
    if s != [] {
      var n := |s| - 1;
      assert forall i :: 0 <= i < n ==> s[..n][i] == s[i];
      SumBounds(s[..n], lo, hi);
      assert |s| as real * lo == n as real * lo + lo;
      assert |s| as real * hi == n as real * hi + hi;
    }
  }

  lemma MulLe(c: real, x: real, y: real)
    requires 0.0 <= c && x <= y
    ensures c * x <= c * y
  {
    assert c * y - c * x == c * (y - x);
  }

  /** A product with a positive factor has the sign of the other factor. */
  lemma PositiveFactor(n: real, y: real)
    requires n > 0.0 && n * y >= 0.0
    ensures y >= 0.0
  {
  }

  /** Dividing by a positive count keeps a total's per-item bounds. */
  lemma DivBounds(x: real, n: real, lo: real, hi: real)
    requires n > 0.0 && n * lo <= x <= n * hi
    ensures lo <= x / n <= hi
  {
    var m := x / n;
    assert x == n * m;
    assert n * (m - lo) == n * m - n * lo;
    assert n * (hi - m) == n * hi - n * m;
    PositiveFactor(n, m - lo);
    PositiveFactor(n, hi - m);
  }
}
