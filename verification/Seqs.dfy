/** Sequences seen as lists that a loop builds from left to right: filters, permutations, subsequences. */
module Seqs {

  ghost predicate Permutation<T>(a: seq<T>, b: seq<T>) {
    multiset(a) == multiset(b)
  }

  lemma PermutationKeepsMembers<T(!new)>(a: seq<T>, b: seq<T>)
    requires Permutation(a, b)
    ensures |a| == |b|
    ensures forall x :: x in a <==> x in b
  {
    assert |a| == |multiset(a)| && |b| == |multiset(b)|;
    forall x
      ensures x in a <==> x in b
    {
      assert x in a <==> x in multiset(a);
      assert x in b <==> x in multiset(b);
    }
  }

  function Filter<T>(l: seq<T>, keep: T -> bool): (r: seq<T>)
    ensures |r| <= |l|
    ensures forall x :: x in r ==> x in l && keep(x)
    ensures forall x :: x in l && keep(x) ==> x in r
  {
    if l == [] then []
    else
      var last := l[|l| - 1];
      var r := Filter(l[..|l| - 1], keep);
      assert l == l[..|l| - 1] + [last];
      if keep(last) then r + [last] else r
  }

  lemma FilterStep<T(!new)>(l: seq<T>, k: nat, keep: T -> bool)
    requires k < |l|
    ensures Filter(l[..k + 1], keep) == Filter(l[..k], keep) + if keep(l[k]) then [l[k]] else []
  {
    assert l[..k + 1][..k] == l[..k];
  }

  lemma {:induction false} FilterCounts<T(!new)>(l: seq<T>, keep: T -> bool, x: T)
    ensures multiset(Filter(l, keep))[x] == if keep(x) then multiset(l)[x] else 0
  {
    if l != [] {
      assert l == l[..|l| - 1] + [l[|l| - 1]];
      FilterCounts(l[..|l| - 1], keep, x);
    }
  }

  lemma FilterPermutes<T(!new)>(a: seq<T>, b: seq<T>, keep: T -> bool)
    requires Permutation(a, b)
    ensures Permutation(Filter(a, keep), Filter(b, keep))
  {
    forall x
      ensures multiset(Filter(a, keep))[x] == multiset(Filter(b, keep))[x]
    {
      FilterCounts(a, keep, x);
      FilterCounts(b, keep, x);
    }
    assert multiset(Filter(a, keep)) == multiset(Filter(b, keep));
  }

  lemma {:induction false} FilterKeepsAll<T(!new)>(l: seq<T>, keep: T -> bool)
    requires forall x :: x in l ==> keep(x)
    ensures Filter(l, keep) == l
  {
    if l != [] {
      assert l == l[..|l| - 1] + [l[|l| - 1]];
      FilterKeepsAll(l[..|l| - 1], keep);
    }
  }

  /** Two filters that agree on the members of the list give the same result. */
  lemma {:induction false} FilterAgrees<T(!new)>(l: seq<T>, p: T -> bool, q: T -> bool)
    requires forall x :: x in l ==> p(x) == q(x)
    ensures Filter(l, p) == Filter(l, q)
  {
    if l != [] {
      assert l == l[..|l| - 1] + [l[|l| - 1]];
      FilterAgrees(l[..|l| - 1], p, q);
    }
  }

  /** A filter and its complement split the list. */
  lemma FilterPartitions<T(!new)>(l: seq<T>, keep: T -> bool, drop: T -> bool)
    requires forall x :: drop(x) == !keep(x)
    ensures Permutation(l, Filter(l, keep) + Filter(l, drop))
  {
    var kept, dropped := Filter(l, keep), Filter(l, drop);
    var both := multiset(kept) + multiset(dropped);
    forall x
      ensures both[x] == multiset(l)[x]
    {
      FilterCounts(l, keep, x);
      FilterCounts(l, drop, x);
    }
    assert multiset(kept + dropped) == both == multiset(l);
  }

  /** `a` is `b` with some elements left out. */
  ghost predicate Subsequence<T>(a: seq<T>, b: seq<T>) {
    if a == [] then true
    else if b == [] then false
    else if a[|a| - 1] == b[|b| - 1] && Subsequence(a[..|a| - 1], b[..|b| - 1]) then true
    else Subsequence(a, b[..|b| - 1])
  }

  lemma {:induction false} SubsequenceTransitive<T(!new)>(a: seq<T>, b: seq<T>, c: seq<T>)
    requires Subsequence(a, b) && Subsequence(b, c)
    ensures Subsequence(a, c)
    decreases |b| + |c|
  {
    if a != [] && b != [] && c != [] {
      var a', b', c' := a[..|a| - 1], b[..|b| - 1], c[..|c| - 1];
      if b[|b| - 1] == c[|c| - 1] && Subsequence(b', c') {
        if a[|a| - 1] == b[|b| - 1] && Subsequence(a', b') {
          SubsequenceTransitive(a', b', c');
        } else {
          SubsequenceTransitive(a, b', c');
        }
      } else {
        SubsequenceTransitive(a, b, c');
      }
    }
  }

  lemma {:induction false} FilterIsSubsequence<T(!new)>(l: seq<T>, keep: T -> bool)
    ensures Subsequence(Filter(l, keep), l)
  {
    if l != [] {
      FilterIsSubsequence(l[..|l| - 1], keep);
      var f := Filter(l[..|l| - 1], keep);
      if keep(l[|l| - 1]) {
        assert (f + [l[|l| - 1]])[..|f|] == f;
      }
    }
  }

  /** Each member of the set once, in some order: what iterating over a Go map yields. */
  ghost predicate Enumerates<T(!new)>(order: seq<T>, members: set<T>) {
    && (forall i, j :: 0 <= i < j < |order| ==> order[i] != order[j])
    && (forall x :: x in order <==> x in members)
  }

  lemma EnumeratesNothing<T(!new)>(order: seq<T>, members: set<T>)
    requires Enumerates(order, members)
    ensures order == [] <==> members == {}
  {
    if order != [] {
      assert order[0] in members;
    } else {
      assert forall x :: x !in members;
    }
  }
}
