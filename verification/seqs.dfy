/**
  Sequence operations the components use: `Array.prototype.filter` and the
  `reduce((sum, x) => sum + f(x), 0)` fold, each with the facts the page-level proofs need.
 */
module Seqs {

  /** `xs.filter(p)`: the elements satisfying `p`, in their original order. */
  function Filter<T>(xs: seq<T>, p: T -> bool): (ys: seq<T>)
    ensures |ys| <= |xs|
    decreases |xs|
  {
    if |xs| == 0 then []
    else (if p(xs[0]) then [xs[0]] else []) + Filter(xs[1..], p)
  }

  /** `a` is obtained from `b` by deleting elements, keeping the order of the rest. */
  ghost predicate IsSubsequence<T>(a: seq<T>, b: seq<T>)
    decreases |b|
  {
    if |a| == 0 then true
    else if |b| == 0 then false
    else (a[0] == b[0] && IsSubsequence(a[1..], b[1..])) || IsSubsequence(a, b[1..])
  }

  lemma {:induction false} FilterMembership<T>(xs: seq<T>, p: T -> bool, x: T)
    ensures x in Filter(xs, p) <==> x in xs && p(x)
    decreases |xs|
  {
    if |xs| > 0 {
      FilterMembership(xs[1..], p, x);
      assert xs == [xs[0]] + xs[1..];
    }
  }

  /** Filtering keeps the order of what it keeps: the result is a subsequence of the input. */
  lemma {:induction false} FilterIsSubsequence<T>(xs: seq<T>, p: T -> bool)
    ensures IsSubsequence(Filter(xs, p), xs)
    decreases |xs|
  {
    if |xs| > 0 {
      FilterIsSubsequence(xs[1..], p);
      var ys := Filter(xs, p);
      if p(xs[0]) {
        assert ys[0] == xs[0] && ys[1..] == Filter(xs[1..], p);
      } else {
        assert ys == Filter(xs[1..], p);
        SubsequenceDropHead(ys, xs);
      }
    }
  }

  /** A subsequence of `b[1..]` is a subsequence of `b`. */
  lemma SubsequenceDropHead<T>(a: seq<T>, b: seq<T>)
    requires |b| > 0 && IsSubsequence(a, b[1..])
    ensures IsSubsequence(a, b)
  {
  }

  /** When every element satisfies `p`, filtering by `p` changes nothing. */
  lemma {:induction false} FilterAllKept<T>(xs: seq<T>, p: T -> bool)
    requires forall i :: 0 <= i < |xs| ==> p(xs[i])
    ensures Filter(xs, p) == xs
    decreases |xs|
  {
    if |xs| > 0 {
      FilterAllKept(xs[1..], p);
      assert [xs[0]] + xs[1..] == xs;
    }
  }

  /** Filtering twice by the same predicate is filtering once. */
  lemma FilterIdempotent<T>(xs: seq<T>, p: T -> bool)
    ensures Filter(Filter(xs, p), p) == Filter(xs, p)
  {
    var ys := Filter(xs, p);
    forall i | 0 <= i < |ys|
      ensures p(ys[i])
    {
      FilterMembership(xs, p, ys[i]);
    }
    FilterAllKept(ys, p);
  }

  /** Two predicates that agree everywhere filter alike. */
  lemma {:induction false} FilterCongruent<T>(xs: seq<T>, p: T -> bool, q: T -> bool)
    requires forall x :: p(x) == q(x)
    ensures Filter(xs, p) == Filter(xs, q)
    decreases |xs|
  {
    if |xs| > 0 {
      FilterCongruent(xs[1..], p, q);
    }
  }

  /** Successive filters are one filter by the conjunction. */
  lemma {:induction false} FilterFuse<T>(xs: seq<T>, p: T -> bool, q: T -> bool, r: T -> bool)
    requires forall x :: r(x) == (p(x) && q(x))
    ensures Filter(Filter(xs, p), q) == Filter(xs, r)
    decreases |xs|
  {
    if |xs| > 0 {
      FilterFuse(xs[1..], p, q, r);
      FilterAppend(if p(xs[0]) then [xs[0]] else [], Filter(xs[1..], p), q);
      if p(xs[0]) {
        assert Filter([xs[0]], q) == (if q(xs[0]) then [xs[0]] else []) by {
          assert [xs[0]][1..] == [];
        }
      }
    }
  }

  /** Filtering distributes over concatenation. */
  lemma {:induction false} FilterAppend<T>(a: seq<T>, b: seq<T>, p: T -> bool)
    ensures Filter(a + b, p) == Filter(a, p) + Filter(b, p)
    decreases |a|
  {
    if |a| > 0 {
      FilterAppend(a[1..], b, p);
      assert (a + b)[1..] == a[1..] + b;
    } else {
      assert a + b == b;
    }
  }

  /** The sum of `f` over `xs`, right to left: the reference definition of a total. */
  function SumBy<T>(xs: seq<T>, f: T -> nat): nat
    decreases |xs|
  {
    if |xs| == 0 then 0 else f(xs[0]) + SumBy(xs[1..], f)
  }

  /** `xs.reduce((acc, x) => acc + f(x), acc)`: the left fold that the source evaluates. */
  function FoldSum<T>(xs: seq<T>, f: T -> nat, acc: nat): (total: nat)
    ensures total == acc + SumBy(xs, f)
    decreases |xs|
  {
    if |xs| == 0 then acc else FoldSum(xs[1..], f, acc + f(xs[0]))
  }

  /** Totals add up over concatenation. */
  lemma {:induction false} SumByAppend<T>(a: seq<T>, b: seq<T>, f: T -> nat)
    ensures SumBy(a + b, f) == SumBy(a, f) + SumBy(b, f)
    decreases |a|
  {
    if |a| > 0 {
      SumByAppend(a[1..], b, f);
      assert (a + b)[1..] == a[1..] + b;
    } else {
      assert a + b == b;
    }
  }
}
