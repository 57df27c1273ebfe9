/** Three-way comparators, and the lexicographic order they induce on sequences.
    Version identifiers (semver) and the lines of an INI section are both compared this way. */
module Ordering {

  /** `cmp` answers -1, 0 or 1, answers 0 for equal values only, and is a total order. */
  ghost predicate IsComparator<T(!new)>(cmp: (T, T) -> int) {
    && (forall x, y :: -1 <= cmp(x, y) <= 1 && cmp(x, y) == -cmp(y, x))
    && (forall x, y :: cmp(x, y) == 0 <==> x == y)
    && (forall x, y, z :: cmp(x, y) <= 0 && cmp(y, z) <= 0 ==> cmp(x, z) <= 0)
  }

  function CompareNat(a: nat, b: nat): int {
    if a == b then 0 else if a > b then 1 else -1
  }

  function CompareChar(a: char, b: char): int {
    if a == b then 0 else if a > b then 1 else -1
  }

  /** Element by element; when one sequence runs out first, it is the smaller one. */
  function Lexicographic<T>(cmp: (T, T) -> int, a: seq<T>, b: seq<T>): int {
    if a == [] && b == [] then 0
    else if a == [] then -1
    else if b == [] then 1
    else
      var c := cmp(a[0], b[0]);
      if c != 0 then c else Lexicographic(cmp, a[1..], b[1..])
  }

  lemma {:induction false} LexicographicFlips<T(!new)>(cmp: (T, T) -> int, a: seq<T>, b: seq<T>)
    requires IsComparator(cmp)
    ensures -1 <= Lexicographic(cmp, a, b) <= 1
    ensures Lexicographic(cmp, a, b) == -Lexicographic(cmp, b, a)
    ensures Lexicographic(cmp, a, b) == 0 <==> a == b
  {
    if a != [] && b != [] {
      LexicographicFlips(cmp, a[1..], b[1..]);
      assert a == [a[0]] + a[1..] && b == [b[0]] + b[1..];
    }
  }

  lemma {:induction false} LexicographicTransitive<T(!new)>(cmp: (T, T) -> int, a: seq<T>, b: seq<T>, c: seq<T>)
    requires IsComparator(cmp)
    requires Lexicographic(cmp, a, b) <= 0 && Lexicographic(cmp, b, c) <= 0
    ensures Lexicographic(cmp, a, c) <= 0
  {
    if a != [] && b != [] && c != [] {
      assert cmp(a[0], b[0]) <= 0 && cmp(b[0], c[0]) <= 0;
      if cmp(a[0], c[0]) == 0 {
        assert cmp(a[0], b[0]) == 0 by { assert cmp(b[0], a[0]) <= 0; }
        LexicographicTransitive(cmp, a[1..], b[1..], c[1..]);
      }
    }
  }

  /** Strings by their characters. Go compares UTF-8 bytes, which is the same order. */
  function CompareString(a: string, b: string): int {
    Lexicographic(CompareChar, a, b)
  }

  lemma StringsAreOrdered()
    ensures IsComparator(CompareString)
  {
    assert IsComparator(CompareChar);
    forall a, b
      ensures -1 <= CompareString(a, b) <= 1 && CompareString(a, b) == -CompareString(b, a)
      ensures CompareString(a, b) == 0 <==> a == b
    {
      LexicographicFlips(CompareChar, a, b);
    }
    forall a, b, c | CompareString(a, b) <= 0 && CompareString(b, c) <= 0
      ensures CompareString(a, c) <= 0
    {
      LexicographicTransitive(CompareChar, a, b, c);
    }
  }

  /** The strings agree up to position `k`, where `a` ends or has the smaller character. */
  predicate ComesFirstAt(a: string, b: string, k: nat) {
    k <= |a| && k < |b| && a[..k] == b[..k] && (k < |a| ==> a[k] < b[k])
  }

  /** The first difference decides; without one, the shorter string comes first. */
  lemma {:induction false} StringOrder(a: string, b: string)
    ensures CompareString(a, b) == -1 <==> exists k: nat :: ComesFirstAt(a, b, k)
  {
    assert ComesFirstAt(a, b, 0) <==> b != [] && (a == [] || a[0] < b[0]);
    forall k: nat | ComesFirstAt(a, b, k) && k > 0
      ensures a != [] && b != [] && a[0] == b[0]
    {
      assert a[0] == a[..k][0] && b[0] == b[..k][0];
    }
    if a != [] && b != [] && a[0] == b[0] {
      assert a == [a[0]] + a[1..] && b == [b[0]] + b[1..];
      StringOrder(a[1..], b[1..]);
      if k: nat :| ComesFirstAt(a[1..], b[1..], k) {
        assert a[..k + 1] == [a[0]] + a[1..][..k] && b[..k + 1] == [b[0]] + b[1..][..k];
        assert ComesFirstAt(a, b, k + 1);
      }
      if k: nat :| ComesFirstAt(a, b, k) {
        assert a[1..][..k - 1] == a[..k][1..] && b[1..][..k - 1] == b[..k][1..];
        assert ComesFirstAt(a[1..], b[1..], k - 1);
      }
    }
  }
}
