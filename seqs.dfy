/**
 * Order-preserving list transforms. Every page reconciles its local list
 * after a backend call with one of these: `filter` for a delete, `map` with
 * an id test for an update, and a spread for a create.
 */
module Seqs {

  /** `s` is obtained from `t` by deleting elements, keeping their order. */
  ghost predicate IsSubsequence<T>(s: seq<T>, t: seq<T>)
    decreases |t|
  {
    s == [] || (t != [] && ((s[0] == t[0] && IsSubsequence(s[1..], t[1..])) || IsSubsequence(s, t[1..])))
  }

  /** `xs.filter(p)`. */
  function Filter<T>(xs: seq<T>, p: T -> bool): (r: seq<T>)
    ensures |r| <= |xs|
    ensures forall i :: 0 <= i < |r| ==> r[i] in xs && p(r[i])
    ensures forall i :: 0 <= i < |xs| && p(xs[i]) ==> xs[i] in r
  {
    if xs == [] then [] else (if p(xs[0]) then [xs[0]] else []) + Filter(xs[1..], p)
  }

  /** A filter keeps the order of what it keeps. */
  lemma {:induction false} FilterIsSubsequence<T>(xs: seq<T>, p: T -> bool)
    ensures IsSubsequence(Filter(xs, p), xs)
  {
    if xs != [] {
      FilterIsSubsequence(xs[1..], p);
      var rest := Filter(xs[1..], p);
      if p(xs[0]) {
        assert Filter(xs, p) == [xs[0]] + rest;
        assert ([xs[0]] + rest)[1..] == rest;
      } else {
        assert Filter(xs, p) == rest;
      }
    }
  }

  /** A filter whose predicate holds everywhere returns its input. */
  lemma {:induction false} FilterKeepsAll<T>(xs: seq<T>, p: T -> bool)
    requires forall i :: 0 <= i < |xs| ==> p(xs[i])
    ensures Filter(xs, p) == xs
  {
    if xs != [] {
      assert forall i :: 0 <= i < |xs[1..]| ==> xs[1..][i] == xs[i + 1];
      FilterKeepsAll(xs[1..], p);
      assert xs == [xs[0]] + xs[1..];
    }
  }

  /** A filter with a weaker predicate keeps everything a stronger one keeps, in the same order. */
  lemma {:induction false} FilterMonotone<T>(xs: seq<T>, p: T -> bool, q: T -> bool)
    requires forall i :: 0 <= i < |xs| && p(xs[i]) ==> q(xs[i])
    ensures IsSubsequence(Filter(xs, p), Filter(xs, q))
    ensures |Filter(xs, p)| <= |Filter(xs, q)|
  {
    if xs != [] {
      assert forall i :: 0 <= i < |xs[1..]| ==> xs[1..][i] == xs[i + 1];
      FilterMonotone(xs[1..], p, q);
      var fp, fq := Filter(xs[1..], p), Filter(xs[1..], q);
      if p(xs[0]) {
        assert ([xs[0]] + fp)[1..] == fp && ([xs[0]] + fq)[1..] == fq;
      } else if q(xs[0]) {
        assert Filter(xs, p) == fp && Filter(xs, q) == [xs[0]] + fq;
        assert ([xs[0]] + fq)[1..] == fq;
        assert IsSubsequence(fp, [xs[0]] + fq);
      } else {
        assert Filter(xs, p) == fp && Filter(xs, q) == fq;
      }
    }
  }

  /** Filters whose predicates agree on the input keep the same elements. */
  lemma {:induction false} FilterCongruent<T>(xs: seq<T>, p: T -> bool, q: T -> bool)
    requires forall i :: 0 <= i < |xs| ==> p(xs[i]) == q(xs[i])
    ensures Filter(xs, p) == Filter(xs, q)
  {
    if xs != [] {
      assert forall i :: 0 <= i < |xs[1..]| ==> xs[1..][i] == xs[i + 1];
      FilterCongruent(xs[1..], p, q);
    }
  }

  /** What a filter keeps and what the complementary filter keeps add up to the input. */
  lemma {:induction false} FilterPartition<T>(xs: seq<T>, p: T -> bool)
    ensures |Filter(xs, p)| + |Filter(xs, x => !p(x))| == |xs|
  {
    if xs != [] {
      FilterPartition(xs[1..], p);
    }
  }

  /** `xs.filter(x => key(x) !== k)`: the list reconciliation after a delete. */
  function RemoveWhere<T, K(==)>(xs: seq<T>, key: T -> K, k: K): (r: seq<T>)
    ensures forall i :: 0 <= i < |r| ==> r[i] in xs && key(r[i]) != k
    ensures forall i :: 0 <= i < |xs| && key(xs[i]) != k ==> xs[i] in r
  {
    Filter(xs, x => key(x) != k)
  }

  /** Number of elements whose key is `k`. */
  function CountWhere<T, K(==)>(xs: seq<T>, key: T -> K, k: K): nat
  {
    if xs == [] then 0 else (if key(xs[0]) == k then 1 else 0) + CountWhere(xs[1..], key, k)
  }

  /**
   * A delete leaves exactly the elements with another key, in their original
   * order, and removes as many elements as carry the key.
   */
  lemma {:induction false} RemoveWhereSpec<T, K>(xs: seq<T>, key: T -> K, k: K)
    ensures IsSubsequence(RemoveWhere(xs, key, k), xs)
    ensures |RemoveWhere(xs, key, k)| + CountWhere(xs, key, k) == |xs|
    ensures CountWhere(xs, key, k) == 0 ==> RemoveWhere(xs, key, k) == xs
  {
    FilterIsSubsequence(xs, x => key(x) != k);
    if xs != [] {
      RemoveWhereSpec(xs[1..], key, k);
      assert RemoveWhere(xs, key, k) ==
        (if key(xs[0]) != k then [xs[0]] else []) + RemoveWhere(xs[1..], key, k);
      if CountWhere(xs, key, k) == 0 {
        assert xs == [xs[0]] + xs[1..];
      }
    }
  }

  /** `xs.map(x => key(x) === k ? y : x)`: the list reconciliation after an update. */
  function ReplaceWhere<T, K(==)>(xs: seq<T>, key: T -> K, k: K, y: T): (r: seq<T>)
    ensures |r| == |xs|
    ensures forall i :: 0 <= i < |xs| ==> r[i] == (if key(xs[i]) == k then y else xs[i])
  {
    if xs == [] then [] else [if key(xs[0]) == k then y else xs[0]] + ReplaceWhere(xs[1..], key, k, y)
  }

  /** An update whose key matches no element changes nothing. */
  lemma ReplaceWhereAbsent<T, K>(xs: seq<T>, key: T -> K, k: K, y: T)
    requires CountWhere(xs, key, k) == 0
    ensures ReplaceWhere(xs, key, k, y) == xs
  {
    forall i | 0 <= i < |xs| ensures key(xs[i]) != k {
      CountZeroAt(xs, key, k, i);
    }
  }

  /** An update whose key matches some element puts the new value in the list. */
  lemma ReplaceWherePresent<T, K>(xs: seq<T>, key: T -> K, k: K, y: T, i: int)
    requires 0 <= i < |xs| && key(xs[i]) == k
    ensures y in ReplaceWhere(xs, key, k, y)
    ensures CountWhere(xs, key, k) > 0
  {
    assert ReplaceWhere(xs, key, k, y)[i] == y;
    if CountWhere(xs, key, k) == 0 {
      CountZeroAt(xs, key, k, i);
    }
  }

  lemma {:induction false} CountZeroAt<T, K>(xs: seq<T>, key: T -> K, k: K, i: int)
    requires CountWhere(xs, key, k) == 0
    requires 0 <= i < |xs|
    ensures key(xs[i]) != k
  {
    if i > 0 {
      CountZeroAt(xs[1..], key, k, i - 1);
    }
  }
}
