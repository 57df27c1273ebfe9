/** Precedence of semantic versions, as section 11 of Semantic Versioning 2.0.0 defines it and as
    `HasNewerVersionOf` uses it. Parsing is a parameter of the modules that need it. */
module Semver {
  import opened Ordering

  /** A dot-separated pre-release identifier. */
  datatype Identifier = Numeric(n: nat) | Alphanumeric(s: string)

  datatype Version = Version(major: nat, minor: nat, patch: nat, pre: seq<Identifier>, build: seq<string>)

  /** Numeric identifiers rank below alphanumeric ones. */
  function CompareIdentifier(a: Identifier, b: Identifier): int {
    match (a, b)
    case (Numeric(m), Numeric(n)) => CompareNat(m, n)
    case (Numeric(_), Alphanumeric(_)) => -1
    case (Alphanumeric(_), Numeric(_)) => 1
    case (Alphanumeric(s), Alphanumeric(t)) => CompareString(s, t)
  }

  /** A version without pre-release identifiers ranks above one with some. */
  function ComparePre(a: seq<Identifier>, b: seq<Identifier>): int {
    if a == [] && b == [] then 0
    else if a == [] then 1
    else if b == [] then -1
    else Lexicographic(CompareIdentifier, a, b)
  }

  function Compare(a: Version, b: Version): int {
    if a.major != b.major then CompareNat(a.major, b.major)
    else if a.minor != b.minor then CompareNat(a.minor, b.minor)
    else if a.patch != b.patch then CompareNat(a.patch, b.patch)
    else ComparePre(a.pre, b.pre)
  }

  predicate Newer(a: Version, b: Version) {
    Compare(a, b) == 1
  }

  lemma IdentifiersAreOrdered()
    ensures IsComparator(CompareIdentifier)
  {
    StringsAreOrdered();
    forall a, b
      ensures -1 <= CompareIdentifier(a, b) <= 1 && CompareIdentifier(a, b) == -CompareIdentifier(b, a)
      ensures CompareIdentifier(a, b) == 0 <==> a == b
    {
      if a.Alphanumeric? && b.Alphanumeric? {
        assert CompareString(a.s, b.s) == -CompareString(b.s, a.s);
      }
    }
    forall a, b, c | CompareIdentifier(a, b) <= 0 && CompareIdentifier(b, c) <= 0
      ensures CompareIdentifier(a, c) <= 0
    {
      if a.Alphanumeric? && b.Alphanumeric? && c.Alphanumeric? {
        assert CompareString(a.s, b.s) <= 0 && CompareString(b.s, c.s) <= 0;
      }
    }
  }

  /** Precedence is antisymmetric and total, and two versions tie exactly when they differ in
      build metadata only. */
  lemma PrecedenceIsTotal(a: Version, b: Version)
    ensures -1 <= Compare(a, b) <= 1
    ensures Compare(a, b) == -Compare(b, a)
    ensures Compare(a, b) == 0 <==> a.(build := b.build) == b
  {
    IdentifiersAreOrdered();
    LexicographicFlips(CompareIdentifier, a.pre, b.pre);
  }

  lemma PrecedenceIsTransitive(a: Version, b: Version, c: Version)
    requires Compare(a, b) <= 0 && Compare(b, c) <= 0
    ensures Compare(a, c) <= 0
  {
    IdentifiersAreOrdered();
    if a.pre != [] && b.pre != [] && c.pre != [] {
      if Lexicographic(CompareIdentifier, a.pre, b.pre) <= 0 && Lexicographic(CompareIdentifier, b.pre, c.pre) <= 0 {
        LexicographicTransitive(CompareIdentifier, a.pre, b.pre, c.pre);
      }
    }
  }

  /** The two facts about "newer" that the plugin lists need: a strict order compatible with ties. */
  lemma NewerIsTransitive(a: Version, b: Version, c: Version)
    requires Newer(a, b) && Newer(b, c)
    ensures Newer(a, c) && !Newer(c, a)
  {
    PrecedenceIsTotal(a, b);
    PrecedenceIsTotal(b, c);
    PrecedenceIsTotal(a, c);
    PrecedenceIsTransitive(c, b, a);
    if Compare(a, c) == 0 {
      PrecedenceIsTransitive(a, c, b);
    }
  }

  /** Section 11.2: major, minor and patch decide in this order, and before any pre-release identifier does; section
      11.3: with all three equal, a pre-release is older than the release. */
  lemma CoreDecides(a: Version, b: Version)
    ensures a.major > b.major ==> Newer(a, b)
    ensures a.major == b.major && a.minor > b.minor ==> Newer(a, b)
    ensures a.major == b.major && a.minor == b.minor && a.patch > b.patch ==> Newer(a, b)
    ensures a.major == b.major && a.minor == b.minor && a.patch == b.patch && a.pre == [] != b.pre ==> Newer(a, b)
  {
  }

  /** Section 11.4: after a common beginning the first different identifier decides, a number as a number, and below
      any word; when there is none, more identifiers are newer. */
  lemma {:induction false} IdentifiersDecide(common: seq<Identifier>, a: seq<Identifier>, b: seq<Identifier>)
    ensures a != [] && b != [] && a[0] != b[0] ==>
      forall core: Version :: Compare(core.(pre := common + a), core.(pre := common + b)) == CompareIdentifier(a[0], b[0])
    ensures common != [] && a != [] ==>
      forall core: Version :: Newer(core.(pre := common + a), core.(pre := common))
    ensures forall m: nat, n: nat :: m > n ==> CompareIdentifier(Numeric(m), Numeric(n)) == 1
    ensures forall n: nat, s: string :: CompareIdentifier(Alphanumeric(s), Numeric(n)) == 1
  {
    IdentifiersAreOrdered();
    CommonBeginning(common, a, b);
    CommonBeginning(common, a, []);
    assert common + [] == common;
    if a != [] && b != [] {
      assert Lexicographic(CompareIdentifier, a, b) == CompareIdentifier(a[0], b[0]) || a[0] == b[0];
    }
  }

  lemma {:induction false} CommonBeginning(common: seq<Identifier>, a: seq<Identifier>, b: seq<Identifier>)
    ensures Lexicographic(CompareIdentifier, common + a, common + b) == Lexicographic(CompareIdentifier, a, b)
  {
    if common == [] {
      assert common + a == a && common + b == b;
    } else {
      IdentifiersAreOrdered();
      assert (common + a)[1..] == common[1..] + a && (common + b)[1..] == common[1..] + b;
      CommonBeginning(common[1..], a, b);
    }
  }

  /** The precedence example of section 11.2 of Semantic Versioning 2.0.0. */
  lemma CoreExample()
    ensures
      var v := (major: nat, minor: nat, patch: nat) => Version(major, minor, patch, [], []);
      && Newer(v(2, 0, 0), v(1, 0, 0)) && Newer(v(2, 1, 0), v(2, 0, 0)) && Newer(v(2, 1, 1), v(2, 1, 0))
  {
  }

  /** Versions that agree up to a common first pre-release identifier compare by the rest. */
  lemma SharedIdentifierDropsOut(first: Identifier, a: seq<Identifier>, b: seq<Identifier>)
    ensures Compare(Version(1, 0, 0, [first] + a, []), Version(1, 0, 0, [first] + b, []))
         == Lexicographic(CompareIdentifier, a, b)
  {
    CommonBeginning([first], a, b);
  }

  /** The precedence example of section 11.4 of Semantic Versioning 2.0.0. */
  lemma PrecedenceExample()
    ensures
      var v := (pre: seq<Identifier>) => Version(1, 0, 0, pre, []);
      var alpha, beta, rc := Alphanumeric("alpha"), Alphanumeric("beta"), Alphanumeric("rc");
      && Newer(v([]), v([rc] + [Numeric(1)]))
      && Newer(v([rc] + [Numeric(1)]), v([beta] + [Numeric(11)]))
      && Newer(v([beta] + [Numeric(11)]), v([beta] + [Numeric(2)]))
      && Newer(v([beta] + [Numeric(2)]), v([beta] + []))
      && Newer(v([beta] + []), v([alpha] + [beta]))
      && Newer(v([alpha] + [beta]), v([alpha] + [Numeric(1)]))
      && Newer(v([alpha] + [Numeric(1)]), v([alpha] + []))
  {
    var alpha, beta := Alphanumeric("alpha"), Alphanumeric("beta");
    SharedIdentifierDropsOut(beta, [Numeric(11)], [Numeric(2)]);
    SharedIdentifierDropsOut(beta, [Numeric(2)], []);
    SharedIdentifierDropsOut(alpha, [beta], [Numeric(1)]);
    SharedIdentifierDropsOut(alpha, [Numeric(1)], []);
  }
}
