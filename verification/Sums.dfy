/** Finite sums: over sequences with a weight function, and over maps indexed by the ids 1..n. */
module Sums {

  function SumBy<T>(xs: seq<T>, w: T -> int): int {
    if xs == [] then 0 else SumBy(xs[..|xs| - 1], w) + w(xs[|xs| - 1])
  }

  lemma {:induction false} SumByConcat<T>(xs: seq<T>, ys: seq<T>, w: T -> int)
    ensures SumBy(xs + ys, w) == SumBy(xs, w) + SumBy(ys, w)
    decreases |ys|
  {
    if ys == [] {
      assert xs + ys == xs;
    } else {
      var front := ys[..|ys| - 1];
      assert (xs + ys)[..|xs + ys| - 1] == xs + front;
      SumByConcat(xs, front, w);
    }
  }

  lemma {:induction false} SumByHead<T>(xs: seq<T>, w: T -> int)
    requires xs != []
    ensures SumBy(xs, w) == w(xs[0]) + SumBy(xs[1..], w)
  {
    assert xs == [xs[0]] + xs[1..];
    SumByConcat([xs[0]], xs[1..], w);
    assert SumBy([xs[0]], w) == SumBy([], w) + w(xs[0]) by {
      assert [xs[0]][..0] == [];
    }
  }

  lemma {:induction false} SumByRemove<T>(xs: seq<T>, j: nat, w: T -> int)
    requires j < |xs|
    ensures SumBy(xs, w) == SumBy(xs[..j] + xs[j + 1..], w) + w(xs[j])
  {
    assert xs == xs[..j] + xs[j..];
    SumByConcat(xs[..j], xs[j..], w);
    SumByHead(xs[j..], w);
    assert xs[j..][1..] == xs[j + 1..];
    SumByConcat(xs[..j], xs[j + 1..], w);
  }

  /** A sum does not depend on the order of its terms. */
  lemma {:induction false} SumByPermutation<T>(xs: seq<T>, ys: seq<T>, w: T -> int)
    requires multiset(xs) == multiset(ys)
    ensures SumBy(xs, w) == SumBy(ys, w)
    decreases |xs|
  {
    assert |xs| == |multiset(xs)| == |multiset(ys)| == |ys|;
    if xs != [] {
      var n := |xs| - 1;
      var x := xs[n];
      assert xs == xs[..n] + [x];
      assert x in multiset(ys);
      var j :| 0 <= j < |ys| && ys[j] == x;
      assert ys == ys[..j] + [x] + ys[j + 1..];
      assert multiset(ys[..j] + ys[j + 1..]) == multiset(ys) - multiset{x};
      assert multiset(xs[..n]) == multiset(xs) - multiset{x};
      SumByPermutation(xs[..n], ys[..j] + ys[j + 1..], w);
      SumByRemove(ys, j, w);
    }
  }

  lemma {:induction false} SumByAgree<T>(xs: seq<T>, v: T -> int, w: T -> int)
    requires forall x | x in xs :: v(x) == w(x)
    ensures SumBy(xs, v) == SumBy(xs, w)
  {
    if xs != [] {
      assert xs[|xs| - 1] in xs;
      assert forall x | x in xs[..|xs| - 1] :: x in xs;
      SumByAgree(xs[..|xs| - 1], v, w);
    }
  }

  lemma {:induction false} SumByAtMost<T>(xs: seq<T>, v: T -> int, w: T -> int)
    requires forall x | x in xs :: v(x) <= w(x)
    ensures SumBy(xs, v) <= SumBy(xs, w)
  {
    if xs != [] {
      assert xs[|xs| - 1] in xs;
      assert forall x | x in xs[..|xs| - 1] :: x in xs;
      SumByAtMost(xs[..|xs| - 1], v, w);
    }
  }

  lemma {:induction false} SumByNonNegative<T>(xs: seq<T>, w: T -> int)
    requires forall x | x in xs :: w(x) >= 0
    ensures SumBy(xs, w) >= 0
  {
    if xs != [] {
      assert xs[|xs| - 1] in xs;
      assert forall x | x in xs[..|xs| - 1] :: x in xs;
      SumByNonNegative(xs[..|xs| - 1], w);
    }
  }

  lemma TermAtMostSum<T>(xs: seq<T>, x: T, w: T -> int)
    requires x in xs && forall y | y in xs :: w(y) >= 0
    ensures w(x) <= SumBy(xs, w)
  {
    var j :| 0 <= j < |xs| && xs[j] == x;
    var rest := xs[..j] + xs[j + 1..];
    SumByRemove(xs, j, w);
    assert forall y | y in rest :: y in xs;
    SumByNonNegative(rest, w);
  }

  lemma {:induction false} SumByZero<T>(xs: seq<T>, w: T -> int)
    requires forall x | x in xs :: w(x) == 0
    ensures SumBy(xs, w) == 0
  {
    if xs != [] {
      assert xs[|xs| - 1] in xs;
      assert forall x | x in xs[..|xs| - 1] :: x in xs;
      SumByZero(xs[..|xs| - 1], w);
    }
  }

  lemma {:induction false} SumByPlus<T>(xs: seq<T>, u: T -> int, v: T -> int, w: T -> int)
    requires forall x | x in xs :: w(x) == u(x) + v(x)
    ensures SumBy(xs, w) == SumBy(xs, u) + SumBy(xs, v)
  {
    if xs != [] {
      assert xs[|xs| - 1] in xs;
      assert forall x | x in xs[..|xs| - 1] :: x in xs;
      SumByPlus(xs[..|xs| - 1], u, v, w);
    }
  }

  ghost predicate Distinct<T>(xs: seq<T>) {
    forall i, j | 0 <= i < j < |xs| :: xs[i] != xs[j]
  }

  /** Two weights that differ only at one element of a duplicate-free sequence. */
  lemma {:induction false} SumByPoint<T>(xs: seq<T>, x: T, v: T -> int, w: T -> int)
    requires Distinct(xs) && x in xs
    requires forall y | y in xs && y != x :: v(y) == w(y)
    ensures SumBy(xs, w) == SumBy(xs, v) + w(x) - v(x)
  {
    var j :| 0 <= j < |xs| && xs[j] == x;
    var rest := xs[..j] + xs[j + 1..];
    SumByRemove(xs, j, v);
    SumByRemove(xs, j, w);
    forall y | y in rest
      ensures v(y) == w(y)
    {
      var i :| 0 <= i < |rest| && rest[i] == y;
      assert y == xs[if i < j then i else i + 1];
    }
    SumByAgree(rest, v, w);
  }

  /** The sum of `w` over the ids 1, 2, .., n. */
  function SumIds(n: nat, w: nat -> int): int {
    if n == 0 then 0 else SumIds(n - 1, w) + w(n)
  }

  lemma {:induction false} SumIdsAgree(n: nat, v: nat -> int, w: nat -> int)
    requires forall k: nat | 1 <= k <= n :: v(k) == w(k)
    ensures SumIds(n, v) == SumIds(n, w)
  {
    if n > 0 {
      SumIdsAgree(n - 1, v, w);
    }
  }

  /** Two weights that differ only at id `k`. */
  lemma {:induction false} SumIdsPoint(n: nat, k: nat, v: nat -> int, w: nat -> int)
    requires 1 <= k <= n
    requires forall j: nat | 1 <= j <= n && j != k :: v(j) == w(j)
    ensures SumIds(n, w) == SumIds(n, v) + w(k) - v(k)
  {
    if n == k {
      SumIdsAgree(n - 1, v, w);
    } else {
      SumIdsPoint(n - 1, k, v, w);
    }
  }

  lemma {:induction false} SumIdsAtLeast(n: nat, w: nat -> int)
    requires forall k: nat | 1 <= k <= n :: w(k) >= 0
    ensures SumIds(n, w) >= 0
    ensures forall k: nat | 1 <= k <= n :: SumIds(n, w) >= w(k)
  {
    if n > 0 {
      SumIdsAtLeast(n - 1, w);
    }
  }
}
