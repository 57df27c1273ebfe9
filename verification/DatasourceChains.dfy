/** When the datasource rules of a dashboard chain into one another: exact conditions on the rules alone, and what
    is left of the placeholders. */
module DatasourceChains {
  import opened Wrappers
  import opened DatasourceInputs

  // ----- closed datasources -----

  /** Nothing at either end of the text can complete a placeholder, and no `${` inside it is left open. */
  predicate Closed(v: string) {
    v != "" && WellFormed(v) && v[0] != '{' && v[|v| - 1] != '$'
  }

  predicate Joins(a: string, b: string) {
    a == "" || b == "" || a[|a| - 1] != '$' || b[0] != '{'
  }

  lemma JoinsRest(front: string, t: string, b: string)
    requires Joins(front + t, b)
    ensures Joins(t, b)
  {
  }

  lemma {:induction false} ReplaceInPieces(a: string, b: string, name: string, v: string)
    requires WellFormed(a) && WellFormed(b) && Joins(a, b) && Plain(name)
    ensures WellFormed(a + b)
    ensures ReplaceAll(a + b, Placeholder(name), v) == ReplaceAll(a, Placeholder(name), v) + ReplaceAll(b, Placeholder(name), v)
    decreases |a|
  {
    hide ReplaceAll, WellFormed, Placeholder, Plain;
    var p := Placeholder(name);
    if a == "" {
      assert a + b == b && ReplaceAll(a, p, v) == "" by { ReplacedNothing(name, v); }
    } else {
      var n, t := Front(a);
      var front := if Opens(a) then Placeholder(n) else [a[0]];
      JoinsRest(front, t, b);
      ReplaceInPieces(t, b, name, v);
      Associate(front, t, b);
      if Opens(a) {
        ReplaceAtHole(n, t, name, v);
        ReplaceAtHole(n, t + b, name, v);
        SimultaneousHole(n, t + b, []);
        Associate(if n == name then v else front, ReplaceAll(t, p, v), ReplaceAll(b, p, v));
      } else {
        ReplaceAtChar(a[0], t, name, v);
        assert !Opens([a[0]] + (t + b));
        ReplaceAtChar(a[0], t + b, name, v);
        CharInFront(a[0], t + b);
        Associate(front, ReplaceAll(t, p, v), ReplaceAll(b, p, v));
      }
    }
  }

  /** The second text ends no worse than the first: it starts or ends a split placeholder only where the first does. */
  predicate EndsLike(s: string, r: string) {
    && (r == "" <==> s == "")
    && (r != "" && r[0] == '{' ==> s[0] == '{')
    && (r != "" && r[|r| - 1] == '$' ==> s[|s| - 1] == '$')
  }

  lemma EndsLikeConcat(front: string, front': string, t: string, t': string)
    requires EndsLike(front, front') && EndsLike(t, t')
    ensures EndsLike(front + t, front' + t')
  {
  }

  /** A closed replacement keeps the text well-formed. */
  lemma {:induction false} ReplaceKeepsForm(s: string, name: string, v: string)
    requires WellFormed(s) && Plain(name) && Closed(v)
    ensures WellFormed(ReplaceAll(s, Placeholder(name), v)) && EndsLike(s, ReplaceAll(s, Placeholder(name), v))
    decreases |s|
  {
    hide ReplaceAll, WellFormed, Plain, EndsLike;
    if s == "" {
      ReplacedNothing(name, v);
      assert EndsLike("", "") by { EmptyEndsLike(); }
    } else {
      var n, t := Front(s);
      var t' := ReplaceAll(t, Placeholder(name), v);
      ReplaceKeepsForm(t, name, v);
      if Opens(s) {
        ReplaceAtHole(n, t, name, v);
        if n == name {
          FilledKeepsForm(n, v, t');
          EndsLikeConcat(Placeholder(n), v, t, t');
        } else {
          SimultaneousHole(n, t', []);
          SameEndsLike(Placeholder(n));
          EndsLikeConcat(Placeholder(n), Placeholder(n), t, t');
        }
      } else {
        ReplaceAtChar(s[0], t, name, v);
        CharKeepsForm(s[0], t, t');
        SameEndsLike([s[0]]);
        EndsLikeConcat([s[0]], [s[0]], t, t');
      }
    }
  }

  lemma EmptyEndsLike()
    ensures EndsLike("", "")
  {
  }

  lemma SameEndsLike(s: string)
    ensures EndsLike(s, s)
  {
  }

  lemma FilledKeepsForm(n: string, v: string, t: string)
    requires Closed(v) && WellFormed(t)
    ensures WellFormed(v + t) && EndsLike(Placeholder(n), v)
  {
    ReplaceInPieces(v, t, "", "");
  }

  lemma CharKeepsForm(c: char, t: string, t': string)
    requires !Opens([c] + t) && EndsLike(t, t') && WellFormed(t')
    ensures WellFormed([c] + t')
  {
    CharInFront(c, t');
  }

  predicate AllClosed(rules: seq<Rule>) {
    Named(rules) && forall i :: 0 <= i < |rules| ==> Closed(rules[i].datasource)
  }

  /** A placeholder that is begun at position `j` and not closed. */
  predicate OpenTail(w: string, j: nat) {
    j < |w| && w[j] == '$' && (j + 1 < |w| ==> w[j + 1] == '{') && forall k :: j < k < |w| ==> w[k] != '}'
  }

  lemma {:induction false} NoOpenTail(w: string, j: nat)
    requires WellFormed(w) && (w == "" || w[|w| - 1] != '$')
    ensures !OpenTail(w, j)
    decreases |w|
  {
    if w == "" {
      assert !OpenTail("", j);
    } else {
      hide OpenTail, WellFormed, Plain, Placeholder;
      var m, t := Front(w);
      var k := if Opens(w) then |m| + 3 else 1;
      assert w[k..] == t && |w| == k + |t|;
      if j >= k {
        NoOpenTail(t, j - k);
        TailOpens(w, k, j);
      } else if Opens(w) {
        HoleIsClosed(m, t, j);
      } else {
        CharOpensNothing(w);
      }
    }
  }

  lemma HoleIsClosed(m: string, t: string, j: nat)
    requires Plain(m) && j < |m| + 3
    ensures !OpenTail(Placeholder(m) + t, j)
  {
    var w := Placeholder(m) + t;
    assert w[|m| + 2] == '}';
    assert 0 < j ==> w[j] != '$';
  }

  lemma CharOpensNothing(w: string)
    requires w != "" && !Opens(w) && w[|w| - 1] != '$'
    ensures !OpenTail(w, 0)
  {
  }

  lemma TailOpens(w: string, k: nat, j: nat)
    requires k <= j
    ensures k <= |w| && OpenTail(w, j) ==> OpenTail(w[k..], j - k)
  {
  }

  /** A well-formed text that does not end in a dollar sign does not end inside a placeholder. */
  lemma WellFormedEndsOutside(w: string, n: string)
    requires WellFormed(w) && Plain(n) && (w == "" || w[|w| - 1] != '$')
    ensures !EndsInside(w, Placeholder(n))
  {
    var p := Placeholder(n);
    forall i | 1 <= i < |p| && i <= |w|
      ensures w[|w| - i..] != p[..i]
    {
      NoOpenTail(w, |w| - i);
      InsideIsOpen(w, n, i);
    }
  }

  lemma InsideIsOpen(w: string, n: string, i: nat)
    requires Plain(n) && 1 <= i < |Placeholder(n)| && i <= |w|
    ensures w[|w| - i..] == Placeholder(n)[..i] ==> OpenTail(w, |w| - i)
  {
    var p, j := Placeholder(n), |w| - i;
    assert forall k :: 2 <= k < i ==> p[k] == n[k - 2];
    if w[j..] == p[..i] {
      assert forall k :: j <= k < |w| ==> w[k] == w[j..][k - j] == p[k - j];
    }
  }

  lemma ClosedTouchesNothing(w: string, n: string)
    requires Closed(w) && Plain(n)
    ensures !Touches(w, n)
  {
    WellFormedEndsOutside(w, n);
    assert Placeholder(n)[1..][0] == '{';
  }

  lemma {:induction false} ClosedIsFenced(w: string, later: seq<Rule>)
    requires Closed(w) && AllClosed(later)
    ensures FencedFrom(w, later)
    decreases |later|
  {
    if later != [] {
      var r := later[0];
      assert ValidRule(r) && Plain(r.input) && Closed(r.datasource);
      ClosedTouchesNothing(w, r.input);
      ReplaceKeepsForm(w, r.input, r.datasource);
      hide Touches, WellFormed, ReplaceAll, Placeholder;
      ClosedIsFenced(Applied(w, r), later[1..]);
    }
  }

  /** Closed datasources are fenced off from all rules. */
  lemma AllClosedIsFenced(rules: seq<Rule>)
    requires AllClosed(rules)
    ensures Fenced(rules)
  {
    hide Closed, FencedFrom, First;
    forall i | 0 <= i < |rules|
      ensures FencedFrom(rules[i].datasource, rules[i + 1..])
    {
      assert AllClosed(rules[i + 1..]);
      ClosedIsFenced(rules[i].datasource, rules[i + 1..]);
    }
  }

  // ----- occurrences -----

  ghost predicate Occurs(p: string, s: string) {
    exists i :: 0 <= i <= |s| && p <= s[i..]
  }

  lemma OccursHere(p: string, s: string, i: nat)
    requires i <= |s| && p <= s[i..]
    ensures Occurs(p, s)
  {
  }

  lemma OccursLater(p: string, front: string, t: string)
    requires Occurs(p, t)
    ensures Occurs(p, front + t)
  {
    var i :| 0 <= i <= |t| && p <= t[i..];
    assert (front + t)[|front| + i..] == t[i..];
  }

  lemma {:induction false} NothingToReplace(s: string, name: string, v: string)
    requires v == Placeholder(name) || !Occurs(Placeholder(name), s)
    ensures ReplaceAll(s, Placeholder(name), v) == s
    decreases |s|
  {
    hide Occurs;
    var p := Placeholder(name);
    if |s| >= |p| && s[..|p|] == p {
      OccursHere(p, s, 0) by { assert s[0..] == s; }
      NothingToReplace(s[|p|..], name, v);
    } else if s != "" {
      assert s == [s[0]] + s[1..];
      if Occurs(p, s[1..]) {
        OccursLater(p, [s[0]], s[1..]);
      }
      hide Placeholder;
      NothingToReplace(s[1..], name, v);
    }
  }

  /** No datasource contains the placeholder of a later rule, other than one that replaces it by itself. */
  ghost predicate ChainFree(rules: seq<Rule>) {
    forall i, j :: 0 <= i < j < |rules| && Occurs(Placeholder(rules[j].input), rules[i].datasource) ==>
      rules[j].datasource == Placeholder(rules[j].input)
  }

  lemma {:induction false} NothingChanges(v: string, rules: seq<Rule>)
    requires Named(rules)
    requires forall j :: 0 <= j < |rules| && Occurs(Placeholder(rules[j].input), v) ==> rules[j].datasource == Placeholder(rules[j].input)
    ensures Sequential(v, rules) == Success(v)
    decreases |rules|
  {
    if rules != [] {
      assert ValidRule(rules[0]);
      NothingToReplace(v, rules[0].input, rules[0].datasource);
      assert forall j :: 0 <= j < |rules[1..]| ==> rules[1..][j] == rules[j + 1];
      hide Occurs;
      NothingChanges(v, rules[1..]);
    }
  }

  lemma ChainFreeLeavesAlone(rules: seq<Rule>)
    requires Named(rules) && ChainFree(rules)
    ensures LeftAlone(rules)
  {
    hide Occurs, Sequential;
    forall i | 0 <= i < |rules|
      ensures Sequential(rules[i].datasource, rules[i + 1..]) == Success(rules[i].datasource)
    {
      var v, rest := rules[i].datasource, rules[i + 1..];
      forall j | 0 <= j < |rest|
        ensures ValidRule(rest[j]) && Plain(rest[j].input)
        ensures Occurs(Placeholder(rest[j].input), v) ==> rest[j].datasource == Placeholder(rest[j].input)
      {
        assert rest[j] == rules[i + 1 + j];
      }
      NothingChanges(v, rest);
    }
  }

  /** How many placeholders and other characters a text consists of. */
  function Pieces(s: string): nat {
    if s == "" then 0
    else if HoleAt(s) then 1 + Pieces(AfterHole(s))
    else 1 + Pieces(s[1..])
  }

  lemma PiecesOfHole(n: string, t: string)
    requires Plain(n) && n != ""
    ensures Pieces(Placeholder(n) + t) == 1 + Pieces(t)
  {
    PlaceholderIsHole(n, t);
  }

  lemma PiecesOfChar(c: char, t: string)
    requires !Opens([c] + t)
    ensures Pieces([c] + t) == 1 + Pieces(t)
  {
    assert ([c] + t)[1..] == t;
  }

  lemma {:induction false} PiecesAdd(a: string, b: string)
    requires WellFormed(a) && WellFormed(b) && Joins(a, b)
    ensures Pieces(a + b) == Pieces(a) + Pieces(b)
    decreases |a|
  {
    hide Pieces, WellFormed, Placeholder, Plain;
    if a == "" {
      assert a + b == b && Pieces("") == 0 by { NoPieces(); }
    } else {
      var n, t := Front(a);
      var front := if Opens(a) then Placeholder(n) else [a[0]];
      JoinsRest(front, t, b);
      PiecesAdd(t, b);
      Associate(front, t, b);
      if Opens(a) {
        PiecesOfHole(n, t);
        PiecesOfHole(n, t + b);
      } else {
        assert !Opens([a[0]] + (t + b));
        PiecesOfChar(a[0], t);
        PiecesOfChar(a[0], t + b);
      }
    }
  }

  lemma NoPieces()
    ensures Pieces("") == 0
  {
  }

  lemma FilledIsClosed(rules: seq<Rule>, name: string)
    requires AllClosed(rules) && Plain(name) && name != ""
    ensures Closed(Filled(rules, name)) && Pieces(Filled(rules, name)) >= 1
  {
    if First(rules, name).None? {
      HoleAlone(name, rules);
    }
  }

  /** Substitution keeps the form of the text and loses no piece. */
  lemma {:induction false} SubstitutedForm(s: string, rules: seq<Rule>)
    requires WellFormed(s) && AllClosed(rules)
    ensures WellFormed(Simultaneous(s, rules)) && EndsLike(s, Simultaneous(s, rules))
    ensures Pieces(Simultaneous(s, rules)) >= Pieces(s)
    decreases |s|
  {
    hide Simultaneous, WellFormed, Plain, EndsLike, Pieces, AllClosed, Filled;
    if s == "" {
      assert Simultaneous("", rules) == "" && EndsLike("", "") by { EmptySubstituted(rules); }
    } else {
      var n, t := Front(s);
      var t' := Simultaneous(t, rules);
      SubstitutedForm(t, rules);
      if Opens(s) {
        var v := Filled(rules, n);
        FilledIsClosed(rules, n);
        SimultaneousHole(n, t, rules);
        FilledKeepsForm(n, v, t');
        EndsLikeConcat(Placeholder(n), v, t, t');
        PiecesOfHole(n, t);
        PiecesAdd(v, t');
      } else {
        SimultaneousAtChar(s[0], t, rules);
        CharKeepsForm(s[0], t, t');
        SameEndsLike([s[0]]);
        EndsLikeConcat([s[0]], [s[0]], t, t');
        PiecesOfChar(s[0], t);
        CharPiece(s[0], t, t');
      }
    }
  }

  lemma EmptySubstituted(rules: seq<Rule>)
    ensures Simultaneous("", rules) == "" && EndsLike("", "")
  {
  }

  lemma CharPiece(c: char, t: string, t': string)
    requires !Opens([c] + t) && EndsLike(t, t')
    ensures Pieces([c] + t') == 1 + Pieces(t')
  {
    PiecesOfChar(c, t');
  }

  /** A closed text of one piece that starts like a placeholder is one. */
  lemma OnePiece(v: string, n: string, t: string, rest: string)
    requires Closed(v) && Pieces(v) == 1 && Plain(n) && v + rest == Placeholder(n) + t
    ensures v == Placeholder(n)
  {
    assert v[0] == (v + rest)[0] == '$';
    var m, u := Front(v);
    if Opens(v) {
      PiecesOfHole(m, u);
      SomePieces(u);
      assert v == Placeholder(m);
      assert Placeholder(n) <= Placeholder(n) + t == Placeholder(m) + rest;
      PlaceholderPrefix(n, m, rest);
    } else {
      PiecesOfChar(v[0], u);
      SomePieces(u);
    }
  }

  lemma SomePieces(s: string)
    ensures Pieces(s) == 0 <==> s == ""
  {
  }

  /** A text that the substitution leaves as it is holds only placeholders that are replaced by themselves. */
  lemma {:induction false} FixedText(s: string, rules: seq<Rule>, name: string)
    requires WellFormed(s) && AllClosed(rules) && Simultaneous(s, rules) == s
    requires Plain(name) && name != "" && Occurs(Placeholder(name), s)
    ensures Filled(rules, name) == Placeholder(name)
    decreases |s|
  {
    hide Simultaneous, WellFormed, Plain, Pieces, AllClosed, Filled, Occurs, Closed;
    var n, t := FrontOfNonempty(s, name);
    SubstitutedForm(t, rules);
    if Opens(s) {
      var v := Filled(rules, n);
      SimultaneousHole(n, t, rules);
      FilledIsClosed(rules, n);
      FilledAdds(n, v, t, Simultaneous(t, rules));
      OnePiece(v, n, t, Simultaneous(t, rules));
      SameTail(v, Simultaneous(t, rules), t);
      OccursAtHole(name, n, t);
      if Occurs(Placeholder(name), t) {
        FixedText(t, rules, name);
      }
    } else {
      SimultaneousAtChar(s[0], t, rules);
      SameTail([s[0]], Simultaneous(t, rules), t);
      OccursAtChar(name, s[0], t);
      FixedText(t, rules, name);
    }
  }

  lemma FrontOfNonempty(s: string, name: string) returns (n: string, t: string)
    requires WellFormed(s) && Occurs(Placeholder(name), s)
    ensures s != "" && |t| < |s| && WellFormed(t)
    ensures if Opens(s) then n != "" && Plain(n) && s == Placeholder(n) + t else n == "" && s == [s[0]] + t
  {
    n, t := Front(s);
  }

  lemma FilledAdds(n: string, v: string, t: string, t': string)
    requires Closed(v) && Pieces(v) >= 1 && Plain(n) && n != "" && WellFormed(t')
    requires v + t' == Placeholder(n) + t && Pieces(t') >= Pieces(t)
    ensures Pieces(v) == 1
  {
    PiecesAdd(v, t');
    PiecesOfHole(n, t);
  }

  lemma SameTail(front: string, a: string, b: string)
    requires front + a == front + b
    ensures a == b
  {
    assert (front + a)[|front|..] == a && (front + b)[|front|..] == b;
  }

  /** An occurrence is the placeholder in front, or lies in the text after it. */
  lemma OccursAtHole(name: string, n: string, t: string)
    requires Plain(name) && Plain(n) && Occurs(Placeholder(name), Placeholder(n) + t)
    ensures name == n || Occurs(Placeholder(name), t)
  {
    var s := Placeholder(n) + t;
    var i :| 0 <= i <= |s| && Placeholder(name) <= s[i..];
    var k := |Placeholder(n)|;
    if i >= k {
      assert s[i..] == t[i - k..];
      OccursHere(Placeholder(name), t, i - k);
    } else {
      assert s[i] == '$' by { assert s[i..][0] == '$'; }
      assert i == 0 && s[0..] == s;
      PlaceholderPrefix(name, n, t);
    }
  }

  lemma OccursAtChar(name: string, c: char, t: string)
    requires !Opens([c] + t) && Occurs(Placeholder(name), [c] + t)
    ensures Occurs(Placeholder(name), t)
  {
    var s := [c] + t;
    assert s[0..] == s;
    var i :| 0 <= i <= |s| && Placeholder(name) <= s[i..];
    if i > 0 {
      assert s[i..] == t[i - 1..];
      OccursHere(Placeholder(name), t, i - 1);
    }
  }

  /** Exactness in terms of the rules alone: with one rule per input and closed datasources, loop and simultaneous
      substitution agree on every well-formed text if and only if no datasource contains the placeholder of a later
      rule, other than one that replaces it by itself. */
  lemma {:induction false} AgreesIffChainFree(rules: seq<Rule>)
    requires AllClosed(rules) && DistinctInputs(rules)
    ensures (forall s :: WellFormed(s) ==> Sequential(s, rules) == Success(Simultaneous(s, rules))) <==> ChainFree(rules)
  {
    hide WellFormed, Sequential, Simultaneous, Closed, Occurs, Fenced;
    AllClosedIsFenced(rules);
    AgreesIffLeftAlone(rules);
    if ChainFree(rules) {
      ChainFreeLeavesAlone(rules);
    }
    if LeftAlone(rules) {
      LeftAloneIsChainFree(rules);
    }
  }

  lemma LeftAloneIsChainFree(rules: seq<Rule>)
    requires AllClosed(rules) && DistinctInputs(rules) && LeftAlone(rules)
    ensures ChainFree(rules)
  {
    hide Occurs, LeftAlone, AllClosed, DistinctInputs;
    forall i, j | 0 <= i < j < |rules| && Occurs(Placeholder(rules[j].input), rules[i].datasource)
      ensures rules[j].datasource == Placeholder(rules[j].input)
    {
      LaterIsKept(rules, i, j);
    }
  }

  lemma LaterIsKept(rules: seq<Rule>, i: nat, j: nat)
    requires AllClosed(rules) && DistinctInputs(rules) && LeftAlone(rules)
    requires i < j < |rules| && Occurs(Placeholder(rules[j].input), rules[i].datasource)
    ensures rules[j].datasource == Placeholder(rules[j].input)
  {
    var v, rest := rules[i].datasource, rules[i + 1..];
    assert ValidRule(rules[j]) && Plain(rules[j].input) && Closed(v);
    DistinctIsFirst(rules, i);
    assert rest[j - i - 1] == rules[j];
    LeftAloneFrom(rules, i + 1);
    assert Sequential(v, rest) == Success(v);
    hide WellFormed, Sequential, Simultaneous, Occurs, Closed, LeftAlone, DistinctInputs, AllClosed, Placeholder, Plain, First;
    FixedByRules(v, rest, rules[j].input);
    LookupOfDistinct(rest, rules[j].input);
  }

  lemma FixedByRules(v: string, rest: seq<Rule>, name: string)
    requires Closed(v) && AllClosed(rest) && LeftAlone(rest) && Sequential(v, rest) == Success(v)
    requires Plain(name) && name != "" && Occurs(Placeholder(name), v)
    ensures Filled(rest, name) == Placeholder(name)
  {
    hide WellFormed, Sequential, Simultaneous, Occurs, LeftAlone, Placeholder, Fenced, Filled, Plain;
    AllClosedIsFenced(rest);
    SequentialIsSimultaneous(v, rest);
    FixedText(v, rest, name);
  }

  lemma SuffixIsClosed(rules: seq<Rule>, k: nat)
    requires AllClosed(rules) && DistinctInputs(rules) && k <= |rules|
    ensures AllClosed(rules[k..]) && DistinctInputs(rules[k..])
  {
    hide Closed, Plain;
    assert forall i :: 0 <= i < |rules[k..]| ==> rules[k..][i] == rules[k + i];
  }

  lemma DistinctIsFirst(rules: seq<Rule>, i: nat)
    requires DistinctInputs(rules) && i < |rules|
    ensures First(rules, rules[i].input) == Some(i)
  {
    hide First;
  }

  lemma LeftAloneAt(rules: seq<Rule>, i: nat)
    requires DistinctInputs(rules) && LeftAlone(rules) && i < |rules|
    ensures Sequential(rules[i].datasource, rules[i + 1..]) == Success(rules[i].datasource)
  {
    DistinctIsFirst(rules, i);
    hide Sequential, First, DistinctInputs;
  }

  lemma AllLeftAlone(rules: seq<Rule>)
    requires forall i :: 0 <= i < |rules| ==> Sequential(rules[i].datasource, rules[i + 1..]) == Success(rules[i].datasource)
    ensures LeftAlone(rules)
  {
    hide Sequential, First;
  }

  lemma LeftAloneFrom(rules: seq<Rule>, k: nat)
    requires AllClosed(rules) && DistinctInputs(rules) && LeftAlone(rules) && k <= |rules|
    ensures AllClosed(rules[k..]) && DistinctInputs(rules[k..]) && LeftAlone(rules[k..])
  {
    SuffixIsClosed(rules, k);
    hide Sequential, AllClosed, DistinctInputs, LeftAlone;
    var rest := rules[k..];
    forall i | 0 <= i < |rest|
      ensures Sequential(rest[i].datasource, rest[i + 1..]) == Success(rest[i].datasource)
    {
      LeftAloneAt(rules, k + i);
      assert rest[i] == rules[k + i] && rest[i + 1..] == rules[k + i + 1..];
    }
    AllLeftAlone(rest);
  }

  // ----- what is left -----

  lemma {:induction false} OccursInPieces(name: string, a: string, b: string)
    requires WellFormed(a) && WellFormed(b) && Joins(a, b) && Plain(name)
    requires Occurs(Placeholder(name), a + b)
    ensures Occurs(Placeholder(name), a) || Occurs(Placeholder(name), b)
    decreases |a|
  {
    hide WellFormed, Plain, Occurs;
    if a == "" {
      assert a + b == b;
    } else {
      var n, t := Front(a);
      var front := if Opens(a) then Placeholder(n) else [a[0]];
      JoinsRest(front, t, b);
      Associate(front, t, b);
      if Opens(a) {
        OccursAtHole(name, n, t + b);
        if name == n {
          OccursHere(Placeholder(name), a, 0) by { assert a[0..] == a; }
        }
      } else {
        assert !Opens([a[0]] + (t + b));
        OccursAtChar(name, a[0], t + b);
      }
      if Occurs(Placeholder(name), t + b) {
        OccursInPieces(name, t, b);
        if Occurs(Placeholder(name), t) {
          OccursLater(Placeholder(name), front, t);
        }
      }
    }
  }

  ghost predicate Free(rules: seq<Rule>, s: string) {
    forall j :: 0 <= j < |rules| ==> !Occurs(Placeholder(rules[j].input), s)
  }

  /** No first datasource for a name contains the placeholder of any rule. */
  ghost predicate FreeRules(rules: seq<Rule>) {
    forall i :: 0 <= i < |rules| && First(rules, rules[i].input) == Some(i) ==> Free(rules, rules[i].datasource)
  }

  lemma FilledIsFree(rules: seq<Rule>, n: string, j: nat)
    requires FreeRules(rules) && Plain(n) && j < |rules| && Plain(rules[j].input)
    ensures !Occurs(Placeholder(rules[j].input), Filled(rules, n))
  {
    hide Occurs, Placeholder, Plain;
    var i := First(rules, n);
    if i.Some? {
      assert Free(rules, rules[i.value].datasource);
    } else if Occurs(Placeholder(rules[j].input), Placeholder(n)) {
      assert Placeholder(n) + "" == Placeholder(n);
      OccursAtHole(rules[j].input, n, "");
      OccursInNothing(rules[j].input);
    }
  }

  lemma OccursInNothing(name: string)
    ensures !Occurs(Placeholder(name), "")
  {
  }

  lemma {:induction false} SubstitutedIsFree(s: string, rules: seq<Rule>, j: nat)
    requires WellFormed(s) && AllClosed(rules) && FreeRules(rules) && j < |rules|
    ensures !Occurs(Placeholder(rules[j].input), Simultaneous(s, rules))
    decreases |s|
  {
    assert ValidRule(rules[j]) && Plain(rules[j].input);
    hide WellFormed, Occurs, Simultaneous, Plain, AllClosed, FreeRules, EndsLike;
    var name := rules[j].input;
    if s == "" {
      EmptySubstituted(rules);
      OccursInNothing(name);
    } else {
      var n, t := Front(s);
      var t' := Simultaneous(t, rules);
      SubstitutedIsFree(t, rules, j);
      SubstitutedForm(t, rules);
      if Opens(s) {
        SimultaneousHole(n, t, rules);
        FilledIsClosed(rules, n);
        FilledIsFree(rules, n, j);
        if Occurs(Placeholder(name), Filled(rules, n) + t') {
          OccursInPieces(name, Filled(rules, n), t');
        }
      } else {
        SimultaneousAtChar(s[0], t, rules);
        if Occurs(Placeholder(name), [s[0]] + t') {
          CharStaysClosed(s[0], t, t');
          OccursAtChar(name, s[0], t');
        }
      }
    }
  }

  lemma CharStaysClosed(c: char, t: string, t': string)
    requires !Opens([c] + t) && EndsLike(t, t')
    ensures !Opens([c] + t')
  {
  }

  /** No listed placeholder is left in any well-formed text exactly when no first datasource contains one. */
  lemma NoPlaceholderLeft(rules: seq<Rule>)
    requires AllClosed(rules) && LeftAlone(rules)
    ensures (forall s :: WellFormed(s) ==> Sequential(s, rules).Success? && Free(rules, Sequential(s, rules).value))
      <==> FreeRules(rules)
  {
    hide WellFormed, Sequential, Simultaneous, Closed, Occurs, Fenced;
    AllClosedIsFenced(rules);
    if FreeRules(rules) {
      forall s | WellFormed(s)
        ensures Sequential(s, rules).Success? && Free(rules, Sequential(s, rules).value)
      {
        SequentialIsSimultaneous(s, rules);
        forall j | 0 <= j < |rules|
          ensures !Occurs(Placeholder(rules[j].input), Simultaneous(s, rules))
        {
          SubstitutedIsFree(s, rules, j);
        }
      }
    } else {
      var i :| 0 <= i < |rules| && First(rules, rules[i].input) == Some(i) && !Free(rules, rules[i].datasource);
      assert ValidRule(rules[i]);
      HoleAlone(rules[i].input, rules);
      SequentialIsSimultaneous(Placeholder(rules[i].input), rules);
    }
  }

  /** Datasources without markup meet every condition above. */
  lemma PlainRulesAreSafe(rules: seq<Rule>)
    requires Named(rules) && forall i :: 0 <= i < |rules| ==> Plain(rules[i].datasource)
    ensures AllClosed(rules) && Fenced(rules) && LeftAlone(rules) && FreeRules(rules)
  {
    hide WellFormed, Sequential, Occurs;
    forall i | 0 <= i < |rules|
      ensures Closed(rules[i].datasource) && Free(rules, rules[i].datasource)
      ensures Sequential(rules[i].datasource, rules[i + 1..]) == Success(rules[i].datasource)
    {
      var v := rules[i].datasource;
      assert ValidRule(rules[i]);
      ClosedExamples(v, v, v);
      StaysPlain(v, rules[i + 1..]);
      forall j | 0 <= j < |rules|
        ensures !Occurs(Placeholder(rules[j].input), v)
      {
        NotInPlain(rules[j].input, v);
      }
    }
    AllClosedIsFenced(rules);
  }

  lemma NotInPlain(name: string, v: string)
    requires Plain(v)
    ensures !Occurs(Placeholder(name), v)
  {
    forall i | 0 <= i <= |v|
      ensures !(Placeholder(name) <= v[i..])
    {
      assert i < |v| ==> v[i..][0] == v[i];
    }
  }

  // ----- why the premises -----

  /** Two rules for one name can undo each other's chain, so with repeated inputs a datasource may contain the
      placeholder of a later rule, and of one that changes it, without any harm. */
  lemma RepeatedInputCancels(a: string, b: string, c: string, x: string)
    requires Plain(a) && Plain(b) && Plain(c) && Plain(x) && a != "" && b != "" && c != "" && x != ""
    requires a != b && b != c && a != c
    ensures
      var rules := [Rule(b, x), Rule(a, Placeholder(b)), Rule(b, Placeholder(c)), Rule(c, Placeholder(b))];
      && Occurs(Placeholder(rules[2].input), rules[1].datasource) && rules[2].datasource != Placeholder(rules[2].input)
      && forall s :: WellFormed(s) ==> Sequential(s, rules) == Success(Simultaneous(s, rules))
  {
    hide WellFormed, Sequential, Simultaneous, Placeholder;
    var rules := [Rule(b, x), Rule(a, Placeholder(b)), Rule(b, Placeholder(c)), Rule(c, Placeholder(b))];
    OccursHere(Placeholder(b), Placeholder(b), 0) by { assert Placeholder(b)[0..] == Placeholder(b); }
    assert Placeholder(b) != Placeholder(c) by { PlaceholdersDiffer(b, c); }
    ClosedExamples(b, c, x);
    ChainReturns(b, c);
    assert rules[1..] == [rules[1], rules[2], rules[3]] && rules[2..] == [rules[2], rules[3]] && rules[4..] == [];
    StaysPlain(x, rules[1..]);
    FirstOfRepeated(rules, a, b, c);
    EmptyLeaves(Placeholder(b));
    AllClosedIsFenced(rules);
    AgreesIffLeftAlone(rules);
  }

  lemma PlaceholdersDiffer(b: string, c: string)
    requires b != c && Plain(b) && Plain(c)
    ensures Placeholder(b) != Placeholder(c)
  {
    if Placeholder(b) == Placeholder(c) {
      assert Placeholder(c) + "" == Placeholder(c);
      PlaceholderPrefix(b, c, "");
    }
  }

  lemma ClosedExamples(b: string, c: string, x: string)
    requires Plain(b) && Plain(c) && Plain(x) && b != "" && c != "" && x != ""
    ensures Closed(Placeholder(b)) && Closed(Placeholder(c)) && Closed(x)
  {
    HoleAlone(b, []);
    HoleAlone(c, []);
    SimultaneousPlain(x, "", []);
    assert x + "" == x;
  }

  lemma EmptyLeaves(s: string)
    ensures Sequential(s, []) == Success(s)
  {
  }

  lemma ChainReturns(b: string, c: string)
    requires Plain(b) && Plain(c) && b != "" && c != ""
    ensures Sequential(Placeholder(b), [Rule(b, Placeholder(c)), Rule(c, Placeholder(b))]) == Success(Placeholder(b))
  {
    hide Sequential, Placeholder;
    var there, back := Rule(b, Placeholder(c)), Rule(c, Placeholder(b));
    PlaceholderBecomes([there, back], b);
    PlaceholderBecomes([back], c);
    EmptyLeaves(Placeholder(b));
    assert [there, back][1..] == [back] && [back][1..] == [];
  }

  lemma {:induction false} StaysPlain(x: string, rules: seq<Rule>)
    requires Plain(x) && Named(rules)
    ensures Sequential(x, rules) == Success(x)
    decreases |rules|
  {
    if rules != [] {
      assert ValidRule(rules[0]);
      NoDollar(x, [], rules[0].input, rules[0].datasource);
      StaysPlain(x, rules[1..]);
    }
  }

  lemma FirstOfRepeated(rules: seq<Rule>, a: string, b: string, c: string)
    requires |rules| == 4 && rules[0].input == b && rules[1].input == a && rules[2].input == b && rules[3].input == c
    requires a != b && b != c && a != c
    ensures First(rules, a) == Some(1) && First(rules, b) == Some(0) && First(rules, c) == Some(3)
  {
  }

  /** A chain: a datasource name that looks like a placeholder is replaced in its turn. */
  lemma MarkupInRuleChains()
    ensures
      var rules := [Rule("A", "${B}"), Rule("B", "C")];
      && Sequential("${A}", rules) == Success("C")
      && Simultaneous("${A}", rules) == "${B}"
  {
    var rules := [Rule("A", "${B}"), Rule("B", "C")];
    var a, b := "${A}", "${B}";
    assert a == Placeholder("A") + "" && b == Placeholder("B") + "";
    ReplaceHere("A", b, "");
    ReplaceHere("B", "C", "");
    assert rules[1..] == [Rule("B", "C")] && rules[1..][1..] == [];
    assert ReplaceAll(a, Placeholder("A"), b) == b;
    assert ReplaceAll(b, Placeholder("B"), "C") == "C";
    SimultaneousHole("A", "", rules);
  }

  /** Why the text must be well-formed: replacing inside an unfinished placeholder can complete it. */
  lemma NestedPlaceholderChains(s: string)
    requires s == "$" + ("{" + (Placeholder("A") + "}"))
    ensures !WellFormed(s)
    ensures Sequential(s, [Rule("A", "B"), Rule("B", "C")]) == Success("C")
    ensures Simultaneous(s, [Rule("A", "B"), Rule("B", "C")]) == Placeholder("B")
  {
    NestedReplacedTwice(s);
    NestedReplacedAtOnce(s, [Rule("A", "B"), Rule("B", "C")]);
  }

  lemma NestedReplacedTwice(s: string)
    requires s == "$" + ("{" + (Placeholder("A") + "}"))
    ensures Sequential(s, [Rule("A", "B"), Rule("B", "C")]) == Success("C")
  {
    hide WellFormed, Simultaneous;
    var rules := [Rule("A", "B"), Rule("B", "C")];
    var once := ReplaceAll(s, Placeholder("A"), "B");
    var twice := ReplaceAll(once, Placeholder("B"), "C");
    NestedReplaced(Placeholder("A") + "}");
    ReplaceHere("B", "C", "");
    assert twice == "C" + ReplaceAll("", Placeholder("B"), "C") == "C";
    hide ReplaceAll;
    assert rules[1..] == [Rule("B", "C")] && rules[1..][1..] == [];
    assert Sequential(s, rules) == Sequential(once, rules[1..]);
    assert Sequential(once, rules[1..]) == Sequential(twice, []);
  }

  lemma NestedReplacedAtOnce(s: string, rules: seq<Rule>)
    requires s == "$" + ("{" + (Placeholder("A") + "}")) && Lookup(rules, "A") == Some("B")
    ensures !WellFormed(s) && Simultaneous(s, rules) == Placeholder("B")
  {
    hide Sequential, ReplaceAll;
    var inner := Placeholder("A") + "}";
    assert s[2..][0] == '$' && !HoleAt(s);
    assert s[1..] == "{" + inner && ("{" + inner)[1..] == inner;
    SimultaneousHole("A", "}", rules);
    assert Simultaneous("}", rules) == "}";
  }

  lemma NestedReplaced(inner: string)
    requires inner == Placeholder("A") + "}"
    ensures ReplaceAll("$" + ("{" + inner), Placeholder("A"), "B") == Placeholder("B") + ""
  {
    var s := "$" + ("{" + inner);
    assert s[2] == '$' && Placeholder("A")[2] == 'A';
    assert s[1..] == "{" + inner;
    ReplaceSkipsChar(s, "A", "B");
    ReplaceSkipsPlain("{", inner, "A", "B");
    ReplaceHere("A", "B", "}");
    assert ReplaceAll("}", Placeholder("A"), "B") == "}";
  }
}
