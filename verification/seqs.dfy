/**
 Sums and filters over sequences: the `Array.prototype.reduce((acc, x) => acc + x, 0)`
 and `Array.prototype.filter` idioms the store and the analytics view are built from.
 */
module Seqs {

  /** Reference definition of the sum of a sequence, peeled from the right. */
  function Sum(xs: seq<int>): int
  {
    if xs == [] then 0 else Sum(xs[..|xs| - 1]) + xs[|xs| - 1]
  }

  /** A left fold with `+` starting from `acc`: what `reduce` evaluates, element by element. */
  function FoldLeft(acc: int, xs: seq<int>): int
    decreases |xs|
  {
    if xs == [] then acc else FoldLeft(acc + xs[0], xs[1..])
  }

  lemma {:induction false} SumAppend(a: seq<int>, b: seq<int>)
    ensures Sum(a + b) == Sum(a) + Sum(b)
    decreases |b|
  {
    if b == [] {
      assert a + b == a;
    } else {
      var b' := b[..|b| - 1];
      assert (a + b)[..|a + b| - 1] == a + b';
      SumAppend(a, b');
    }
  }

  /** The left fold computes the same total as the reference sum. */
  lemma {:induction false} FoldIsSum(acc: int, xs: seq<int>)
    ensures FoldLeft(acc, xs) == acc + Sum(xs)
    decreases |xs|
  {
    if xs != [] {
      FoldIsSum(acc + xs[0], xs[1..]);
      assert [xs[0]] + xs[1..] == xs;
      SumAppend([xs[0]], xs[1..]);
      assert [xs[0]][..0] == [];
    }
  }

  /** `xs.reduce((acc, x) => acc + x, 0)`. */
  function Reduce(xs: seq<int>): (total: int)
    ensures total == Sum(xs)
  {
    FoldIsSum(0, xs);
    FoldLeft(0, xs)
  }

  lemma {:induction false} SumNonNegative(xs: seq<int>)
    requires forall i :: 0 <= i < |xs| ==> xs[i] >= 0
    ensures Sum(xs) >= 0
    decreases |xs|
  {
    if xs != [] {
      SumNonNegative(xs[..|xs| - 1]);
    }
  }

  /** Two sequences that differ only at index `k`, by `d`, have sums that differ by `d`. */
  lemma {:induction false} SumBump(a: seq<int>, b: seq<int>, k: nat, d: int)
    requires |a| == |b| && k < |a|
    requires b[k] == a[k] + d
    requires forall i :: 0 <= i < |a| && i != k ==> b[i] == a[i]
    ensures Sum(b) == Sum(a) + d
    decreases |a|
  {
    var n := |a| - 1;
    if k == n {
      assert b[..n] == a[..n];
    } else {
      SumBump(a[..n], b[..n], k, d);
    }
  }

  /** `xs.filter(p)`: the elements satisfying `p`, in their original order. */
  function Filter<T(!new)>(xs: seq<T>, p: T -> bool): (r: seq<T>)
    ensures |r| <= |xs|
    ensures forall x :: x in r ==> x in xs && p(x)
    ensures forall x :: multiset(r)[x] == if p(x) then multiset(xs)[x] else 0
  {
    if xs == [] then []
    else
      var init := xs[..|xs| - 1];
      var last := xs[|xs| - 1];
      assert xs == init + [last];
      var rest := Filter(init, p);
      if p(last) then rest + [last] else rest
  }

  lemma {:induction false} FilterConcat<T(!new)>(a: seq<T>, b: seq<T>, p: T -> bool)
    ensures Filter(a + b, p) == Filter(a, p) + Filter(b, p)
    decreases |b|
  {
    if b == [] {
      assert a + b == a;
    } else {
      var b' := b[..|b| - 1];
      assert (a + b)[..|a + b| - 1] == a + b';
      FilterConcat(a, b', p);
    }
  }
}
