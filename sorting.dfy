/** The in-place sorts of the core: sort.Slice over the search buffer by
    distance (extended.go:119) and sort.Float64s over a copy of each block in
    simToVector (extended.go:318). Both are modelled by one insertion sort on
    an array, ordered by a real-valued key. */
module Sorting {

  /** The keys are non-decreasing along s. */
  predicate SortedBy<T>(s: seq<T>, key: T -> real) {
    forall i, j :: 0 <= i < j < |s| ==> key(s[i]) <= key(s[j])
  }

  /** The first n elements of s are ordered by key. */
  predicate SortedUpTo<T>(s: seq<T>, n: int, key: T -> real) {
    forall x, y :: 0 <= x < y < n && y < |s| ==> key(s[x]) <= key(s[y])
  }

  /** Sorts a by key, in place: the result is ordered and a permutation of the input. */
  method SortByKey<T>(a: array<T>, key: T -> real)
    modifies a
    ensures SortedBy(a[..], key)
    ensures multiset(a[..]) == multiset(old(a[..]))
  {
    var i := 0;
    while i < a.Length
      invariant 0 <= i <= a.Length
      invariant SortedUpTo(a[..], i, key)
      invariant multiset(a[..]) == multiset(old(a[..]))
    {
      InsertAt(a, i, key);
      i := i + 1;
    }
  }

  /** One insertion step: a[i] sinks into the ordered prefix a[..i]. */
  method InsertAt<T>(a: array<T>, i: int, key: T -> real)
    requires 0 <= i < a.Length
    requires SortedUpTo(a[..], i, key)
    modifies a
    ensures SortedUpTo(a[..], i + 1, key)
    ensures multiset(a[..]) == multiset(old(a[..]))
  {
    var j := i;
    while j > 0 && key(a[j - 1]) > key(a[j])
      invariant 0 <= j <= i
      invariant forall x, y :: 0 <= x < y <= i && y != j ==> key(a[x]) <= key(a[y])
      invariant multiset(a[..]) == multiset(old(a[..]))
    {
      a[j - 1], a[j] := a[j], a[j - 1];
      j := j - 1;
    }
  }

  /** The key of a plain float sort. */
  function Identity(x: real): real { x }

  /** The head of a sorted sequence is at most each of its elements. */
  lemma SortedHeadIsLeast(s: seq<real>, x: real)
    requires SortedBy(s, Identity) && x in s
    ensures Identity(s[0]) <= Identity(x)
  {
    var k :| 0 <= k < |s| && s[k] == x;
    if k > 0 {
      assert Identity(s[0]) <= Identity(s[k]);
    }
  }

  lemma SortedTail(s: seq<real>)
    requires s != [] && SortedBy(s, Identity)
    ensures SortedBy(s[1..], Identity)
  {
    assert forall i :: 0 <= i < |s| - 1 ==> s[1..][i] == s[i + 1];
  }

  /** A sorted permutation of a sequence of reals is unique. */
  lemma {:induction false} SortedPermutationUnique(s: seq<real>, t: seq<real>)
    requires SortedBy(s, Identity) && SortedBy(t, Identity)
    requires multiset(s) == multiset(t)
    ensures s == t
    decreases |s|
  {
    assert |s| == |multiset(s)| == |multiset(t)| == |t|;
    if s != [] {
      assert t[0] in multiset(s) && s[0] in multiset(t);
      SortedHeadIsLeast(s, t[0]);
      SortedHeadIsLeast(t, s[0]);
      assert s[0] == t[0];
      assert s == [s[0]] + s[1..];
      assert t == [t[0]] + t[1..];
      assert multiset(s) == multiset{s[0]} + multiset(s[1..]);
      assert multiset(t) == multiset{t[0]} + multiset(t[1..]);
      forall x ensures multiset(s[1..])[x] == multiset(t[1..])[x] {
        assert multiset(s)[x] == multiset{s[0]}[x] + multiset(s[1..])[x];
        assert multiset(t)[x] == multiset{t[0]}[x] + multiset(t[1..])[x];
      }
      assert multiset(s[1..]) == multiset(t[1..]);
      SortedTail(s);
      SortedTail(t);
      SortedPermutationUnique(s[1..], t[1..]);
    }
  }

  /** x inserted before the first element that is not smaller. */
  function Insert(x: real, s: seq<real>): (r: seq<real>)
    requires SortedBy(s, Identity)
    ensures SortedBy(r, Identity)
    ensures multiset(r) == multiset(s) + multiset{x}
    ensures |r| == |s| + 1
  {
    if s == [] then [x]
    else if x <= s[0] then
      assert forall i :: 0 < i < |s| ==> s[0] <= s[i] by {
        assert forall i :: 0 < i < |s| ==> Identity(s[0]) <= Identity(s[i]);
      }
      [x] + s
    else
      SortedTail(s);
      var rest := Insert(x, s[1..]);
      assert s == [s[0]] + s[1..];
      forall i | 0 <= i < |rest| ensures s[0] <= rest[i] {
        assert rest[i] in multiset(rest);
        if rest[i] != x {
          assert rest[i] in multiset(s[1..]);
          SortedHeadIsLeast(s, rest[i]);
        }
      }
      [s[0]] + rest
  }

  /** The sorted permutation of s (what sort.Float64s leaves in a copy of s). */
  function SortedSeq(s: seq<real>): (r: seq<real>)
    ensures SortedBy(r, Identity)
    ensures multiset(r) == multiset(s)
    ensures |r| == |s|
  {
    if s == [] then []
    else
      assert s == s[..|s| - 1] + [s[|s| - 1]];
      Insert(s[|s| - 1], SortedSeq(s[..|s| - 1]))
  }
}
