/**
 * shuffleArrayInPlace (a Fisher-Yates shuffle) and the limit-and-sample
 * policy applied to an oversized vertex list. Math.random is modelled as a
 * stream of reals in [0, 1): the k-th call returns draws[k].
 */
module Sampling {
  import opened Js

  /** Enough results of Math.random to shuffle `n` elements: one per step, each in [0, 1). */
  predicate RandomStream(draws: seq<real>, n: int) {
    |draws| >= n - 1 && forall k :: 0 <= k < |draws| ==> 0.0 <= draws[k] < 1.0
  }

  /**
   * Math.floor(x) for x in [0, i + 1), found by counting down from i: the
   * result j satisfies j <= x < j + 1.
   */
  function FloorBelow(x: real, i: nat): (j: nat)
    requires 0.0 <= x < (i + 1) as real
    ensures j <= i && j as real <= x < (j + 1) as real
  {
    if i == 0 || i as real <= x then i else FloorBelow(x, i - 1)
  }

  /**
   * r * n, written as n-fold addition so that the solver reasons about it
   * linearly; for r in [0, 1) it lies in [0, n).
   */
  function Scale(r: real, n: nat): (x: real)
    requires 0.0 <= r < 1.0
    ensures 0.0 <= x && (n > 0 ==> x < n as real)
  {
    if n == 0 then 0.0 else Scale(r, n - 1) + r
  }

  /** `Scale` is the product. */
  lemma {:induction false} ScaleIsProduct(r: real, n: nat)
    requires 0.0 <= r < 1.0
    ensures Scale(r, n) == r * n as real
  {
    if n > 0 {
      ScaleIsProduct(r, n - 1);
      assert r * n as real == r * (n - 1) as real + r;
    }
  }

  /** Math.floor(Math.random() * (i + 1)): a position in [0, i]. */
  function Pick(r: real, i: nat): (j: nat)
    requires 0.0 <= r < 1.0
    ensures j <= i
  {
    FloorBelow(Scale(r, i + 1), i)
  }

  /** `Pick` is Math.floor of the product: the greatest integer not above r * (i + 1). */
  lemma PickIsFloor(r: real, i: nat)
    requires 0.0 <= r < 1.0
    ensures Pick(r, i) as real <= r * (i + 1) as real < (Pick(r, i) + 1) as real
  {
    ScaleIsProduct(r, i + 1);
  }

  /** The sequence with positions i and j exchanged. */
  function Swap<T>(s: seq<T>, i: nat, j: nat): (r: seq<T>)
    requires i < |s| && j < |s|
    ensures |r| == |s|
  {
    s[i := s[j]][j := s[i]]
  }

  lemma SwapPermutes<T>(s: seq<T>, i: nat, j: nat)
    requires i < |s| && j < |s|
    ensures multiset(Swap(s, i, j)) == multiset(s)
  {
  }

  /**
   * The position each step of the loop swaps with: step i (for i from the
   * end down to 1) reads the (|s| - 1 - i)-th draw. Position 0 is never
   * swapped and holds 0.
   */
  function Picks(draws: seq<real>, n: nat): (p: seq<nat>)
    requires RandomStream(draws, n)
    ensures |p| == n && forall i :: 0 <= i < n ==> p[i] <= i
  {
    seq(n, i requires 0 <= i < n => if i == 0 then 0 else Pick(draws[n - 1 - i], i))
  }

  /** Swap positions that lie in range: the pick for position i is at most i. */
  predicate ValidPicks(picks: seq<nat>) {
    forall i :: 0 <= i < |picks| ==> picks[i] <= i
  }

  /** The shuffle's remaining steps, from position `i` down to 1. */
  function ShuffleFrom<T>(s: seq<T>, picks: seq<nat>, i: int): (r: seq<T>)
    requires |picks| == |s| && ValidPicks(picks) && i < |s|
    ensures |r| == |s|
    decreases i
  {
    if i <= 0 then s
    else ShuffleFrom(Swap(s, i, picks[i]), picks, i - 1)
  }

  /** The order shuffleArrayInPlace leaves the elements in, given the random draws. */
  function Shuffled<T>(s: seq<T>, draws: seq<real>): (r: seq<T>)
    requires RandomStream(draws, |s|)
    ensures |r| == |s|
    ensures |s| <= 1 ==> r == s
  {
    ShuffleFrom(s, Picks(draws, |s|), |s| - 1)
  }

  /** One step of the loop: swap position i with its pick, then continue from i - 1. */
  lemma ShuffleStep<T>(s: seq<T>, picks: seq<nat>, i: int)
    requires |picks| == |s| && ValidPicks(picks) && 0 < i < |s|
    ensures ShuffleFrom(s, picks, i) == ShuffleFrom(Swap(s, i, picks[i]), picks, i - 1)
  {
  }

  lemma {:induction false} ShuffleFromPermutes<T>(s: seq<T>, picks: seq<nat>, i: int)
    requires |picks| == |s| && ValidPicks(picks) && i < |s|
    ensures multiset(ShuffleFrom(s, picks, i)) == multiset(s)
    decreases i
  {
    if i > 0 {
      SwapPermutes(s, i, picks[i]);
      ShuffleFromPermutes(Swap(s, i, picks[i]), picks, i - 1);
    }
  }

  /** Whatever the draws, the shuffle is a permutation: same length, same multiset. */
  lemma ShufflePermutes<T>(s: seq<T>, draws: seq<real>)
    requires RandomStream(draws, |s|)
    ensures |Shuffled(s, draws)| == |s| && multiset(Shuffled(s, draws)) == multiset(s)
  {
    ShuffleFromPermutes(s, Picks(draws, |s|), |s| - 1);
  }

  /** The destructuring swap `[array[i], array[j]] = [array[j], array[i]]`. */
  method SwapInPlace<T>(a: array<T>, i: nat, j: nat)
    requires i < a.Length && j < a.Length
    modifies a
    ensures a[..] == Swap(old(a[..]), i, j)
  {
    var ai, aj := a[i], a[j];
    a[i] := aj;
    a[j] := ai;
  }

  /** `Math.floor(Math.random() * (i + 1))` at step i of a shuffle of n elements. */
  method DrawPick(draws: seq<real>, n: nat, i: nat) returns (j: nat)
    requires RandomStream(draws, n) && 0 < i < n
    ensures j == Picks(draws, n)[i] && j <= i
  {
    j := Pick(draws[n - 1 - i], i);
  }

  /** shuffleArrayInPlace: swap position i with a random j in [0, i], for i from the end down to 1. */
  method ShuffleInPlace<T>(a: array<T>, draws: seq<real>)
    requires RandomStream(draws, a.Length)
    modifies a
    ensures a[..] == Shuffled(old(a[..]), draws)
    ensures multiset(a[..]) == multiset(old(a[..]))
  {
    ghost var picks := Picks(draws, a.Length);
    ghost var goal := ShuffleFrom(a[..], picks, a.Length - 1);
    ShufflePermutes(a[..], draws);
    var i := a.Length - 1;
    while i > 0
      invariant -1 <= i < a.Length
      invariant ShuffleFrom(a[..], picks, i) == goal
    {
      ghost var before := a[..];
      var j := DrawPick(draws, a.Length, i);
      SwapInPlace(a, i, j);
      ShuffleStep(before, picks, i);
      i := i - 1;
    }
  }

  /**
   * The vertex tier's limit-and-sample: a list longer than `limit` is
   * shuffled and cut with slice(0, limit); otherwise it is returned as is.
   */
  function Sample<T>(s: seq<T>, limit: int, draws: seq<real>): (r: seq<T>)
    requires RandomStream(draws, |s|)
    ensures |s| <= limit ==> r == s
    ensures 0 <= limit < |s| ==> |r| == limit
    ensures limit < 0 ==> |r| == Max(|s| + limit, 0)
    ensures multiset(r) <= multiset(s)
  {
    if |s| > limit then
      ShufflePermutes(s, draws);
      Slice(Shuffled(s, draws), 0, limit)
    else s
  }
}
