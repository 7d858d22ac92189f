/**
 * Order-preserving filtering and element-wise mapping over sequences: the
 * `stream().filter(..).collect(..)` pipelines of the comparison service and
 * the WHERE / SELECT-list parts of the catalog queries.
 */
module Seqs {

  /** `r` can be obtained from `s` by deleting elements: nothing is added and relative order is kept. */
  predicate IsSubsequence<T(==)>(r: seq<T>, s: seq<T>)
    decreases |s|
  {
    |r| == 0 ||
    (|s| > 0 && ((r[0] == s[0] && IsSubsequence(r[1..], s[1..])) || IsSubsequence(r, s[1..])))
  }

  /** The elements of `s` satisfying `p`, in their original order. */
  function Filter<T(==)>(s: seq<T>, p: T -> bool): (r: seq<T>)
    ensures IsSubsequence(r, s)
    ensures forall i | 0 <= i < |r| :: p(r[i]) && r[i] in s
    decreases |s|
  {
    if |s| == 0 then []
    else if p(s[0]) then [s[0]] + Filter(s[1..], p)
    else Filter(s[1..], p)
  }

  /** Element-wise image of `s` under `f`. */
  function Map<T, U>(f: T -> U, s: seq<T>): (r: seq<U>)
    ensures |r| == |s|
    ensures forall i | 0 <= i < |s| :: r[i] == f(s[i])
  {
    seq(|s|, i requires 0 <= i < |s| => f(s[i]))
  }

  /** Every element of a subsequence occurs in the sequence. */
  lemma {:induction false} SubsequenceMembers<T>(r: seq<T>, s: seq<T>, x: T)
    requires IsSubsequence(r, s)
    requires x in r
    ensures x in s
    decreases |s|
  {
    if x == r[0] && r[0] == s[0] {
    } else if |r| > 0 && r[0] == s[0] && IsSubsequence(r[1..], s[1..]) {
      assert x in r[1..];
      SubsequenceMembers(r[1..], s[1..], x);
    } else {
      SubsequenceMembers(r, s[1..], x);
    }
  }

  /** An element survives the filter exactly when it is in the input and satisfies the predicate. */
  lemma {:induction false} FilterMembership<T>(s: seq<T>, p: T -> bool, x: T)
    ensures x in Filter(s, p) <==> x in s && p(x)
    decreases |s|
  {
    if |s| > 0 {
      FilterMembership(s[1..], p, x);
      assert s == [s[0]] + s[1..];
    }
  }

  /** Filtering keeps every occurrence of a kept element and drops every occurrence of a rejected one. */
  lemma {:induction false} FilterMultiplicity<T>(s: seq<T>, p: T -> bool, x: T)
    ensures multiset(Filter(s, p))[x] == if p(x) then multiset(s)[x] else 0
    decreases |s|
  {
    if |s| > 0 {
      FilterMultiplicity(s[1..], p, x);
      assert s == [s[0]] + s[1..];
      assert multiset(s) == multiset{s[0]} + multiset(s[1..]);
    }
  }

  /** A predicate that holds of every element filters nothing out. */
  lemma {:induction false} FilterKeepsAll<T>(s: seq<T>, p: T -> bool)
    requires forall i | 0 <= i < |s| :: p(s[i])
    ensures Filter(s, p) == s
    decreases |s|
  {
    if |s| > 0 {
      FilterKeepsAll(s[1..], p);
      assert s == [s[0]] + s[1..];
    }
  }

  /** The filter is empty exactly when no element satisfies the predicate. */
  lemma {:induction false} FilterEmptyIff<T>(s: seq<T>, p: T -> bool)
    ensures Filter(s, p) == [] <==> forall i | 0 <= i < |s| :: !p(s[i])
    decreases |s|
  {
    if |s| > 0 {
      FilterEmptyIff(s[1..], p);
      forall i | 1 <= i < |s| ensures s[i] == s[1..][i - 1] { }
    }
  }

  lemma MapConcat<T, U>(f: T -> U, a: seq<T>, b: seq<T>)
    ensures Map(f, a + b) == Map(f, a) + Map(f, b)
  {
  }

  /** Permuting the input permutes the image in the same way. */
  lemma {:induction false} MapPreservesPermutation<T, U>(f: T -> U, a: seq<T>, b: seq<T>)
    requires multiset(a) == multiset(b)
    ensures multiset(Map(f, a)) == multiset(Map(f, b))
    decreases |a|
  {
    if |a| == 0 {
      assert |b| == |multiset(b)| == 0;
    } else {
      var x := a[0];
      assert x in multiset(b);
      var k :| 0 <= k < |b| && b[k] == x;
      var rest := b[..k] + b[k + 1..];
      assert b == b[..k] + [x] + b[k + 1..];
      assert a == [x] + a[1..];
      assert multiset(b) == multiset(b[..k]) + multiset{x} + multiset(b[k + 1..]);
      assert multiset(rest) == multiset(b[..k]) + multiset(b[k + 1..]);
      assert multiset(a) == multiset{x} + multiset(a[1..]);
      assert multiset(a[1..]) == multiset(a) - multiset{x};
      assert multiset(rest) == multiset(b) - multiset{x};
      MapPreservesPermutation(f, a[1..], rest);
      MapConcat(f, b[..k] + [x], b[k + 1..]);
      MapConcat(f, b[..k], [x]);
      MapConcat(f, b[..k], b[k + 1..]);
      MapConcat(f, [x], a[1..]);
    }
  }

  /** Every element of a permutation of a filtered image is the image of an admitted input element. */
  lemma ImageProvenance<T, U>(r: seq<U>, f: T -> U, s: seq<T>, p: T -> bool)
    requires multiset(r) == multiset(Map(f, Filter(s, p)))
    ensures forall i | 0 <= i < |r| :: exists x | x in s :: p(x) && r[i] == f(x)
  {
    forall i | 0 <= i < |r|
      ensures exists x | x in s :: p(x) && r[i] == f(x)
    {
      assert r[i] in multiset(Map(f, Filter(s, p)));
      var k :| 0 <= k < |Filter(s, p)| && Map(f, Filter(s, p))[k] == r[i];
      var x := Filter(s, p)[k];
      assert x in s && p(x) && r[i] == f(x);
    }
  }
}
