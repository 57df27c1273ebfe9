/** Datasource inputs of a dashboard: the rules are applied one after the other, each replacing every `${name}` in
    the text. On well-formed text that is one simultaneous substitution. */
module DatasourceInputs {
  import opened Wrappers

  datatype Rule = Rule(input: string, datasource: string)

  // ----- replacing -----

  /** Every occurrence, left to right, without overlap. */
  function ReplaceAll(s: string, pattern: string, replacement: string): string
    requires pattern != ""
    decreases |s|
  {
    if |s| < |pattern| then s
    else if s[..|pattern|] == pattern then replacement + ReplaceAll(s[|pattern|..], pattern, replacement)
    else [s[0]] + ReplaceAll(s[1..], pattern, replacement)
  }

  function Placeholder(name: string): (p: string)
    ensures |p| == |name| + 3 && p[0] == '$' && p[1] == '{' && p[|name| + 2] == '}'
  {
    "${" + name + "}"
  }

  predicate ValidRule(r: Rule) {
    r.input != "" && r.datasource != ""
  }

  /** The loop over the rules. It stops at the first rule with an empty part. */
  function Sequential(s: string, rules: seq<Rule>): Result<string, string>
    decreases |rules|
  {
    if rules == [] then Success(s)
    else if !ValidRule(rules[0]) then Failure("invalid datasource input rule, input or datasource empty")
    else Sequential(ReplaceAll(s, Placeholder(rules[0].input), rules[0].datasource), rules[1..])
  }

  // ----- the simultaneous substitution -----

  predicate Markup(c: char) {
    c == '$' || c == '{' || c == '}'
  }

  predicate Plain(s: string) {
    forall i :: 0 <= i < |s| ==> !Markup(s[i])
  }

  function PlainRun(s: string): (n: nat)
    ensures n <= |s| && Plain(s[..n]) && (n < |s| ==> Markup(s[n]))
  {
    if s == "" || Markup(s[0]) then 0
    else
      var n := PlainRun(s[1..]);
      assert s[..n + 1] == [s[0]] + s[1..][..n];
      n + 1
  }

  predicate Opens(s: string) {
    |s| >= 2 && s[0] == '$' && s[1] == '{'
  }

  /** The text starts with a placeholder of a plain, non-empty name. */
  predicate HoleAt(s: string) {
    Opens(s) && var n := PlainRun(s[2..]); n > 0 && n + 2 < |s| && s[n + 2] == '}'
  }

  function HoleName(s: string): string
    requires HoleAt(s)
  {
    s[2..PlainRun(s[2..]) + 2]
  }

  function AfterHole(s: string): string
    requires HoleAt(s)
  {
    s[PlainRun(s[2..]) + 3..]
  }

  /** Every `${` opens a placeholder. */
  predicate WellFormed(s: string) {
    if s == "" then true
    else if Opens(s) then HoleAt(s) && WellFormed(AfterHole(s))
    else WellFormed(s[1..])
  }

  /** Valid rules for names without markup. */
  predicate Named(rules: seq<Rule>) {
    forall i :: 0 <= i < |rules| ==> ValidRule(rules[i]) && Plain(rules[i].input)
  }

  /** The first rule for the name. */
  function Lookup(rules: seq<Rule>, name: string): Option<string> {
    if rules == [] then None
    else if rules[0].input == name then Some(rules[0].datasource)
    else Lookup(rules[1..], name)
  }

  function Filled(rules: seq<Rule>, name: string): string {
    match Lookup(rules, name)
    case Some(v) => v
    case None => Placeholder(name)
  }

  /** One pass over the text: each placeholder is replaced by the datasource of its first rule, if it has one. */
  function Simultaneous(s: string, rules: seq<Rule>): string {
    if s == "" then ""
    else if HoleAt(s) then Filled(rules, HoleName(s)) + Simultaneous(AfterHole(s), rules)
    else [s[0]] + Simultaneous(s[1..], rules)
  }

  // ----- placeholders at the start of a text -----

  lemma HoleShape(s: string)
    requires HoleAt(s)
    ensures s == Placeholder(HoleName(s)) + AfterHole(s)
    ensures Plain(HoleName(s)) && HoleName(s) != ""
  {
    assert s[2..][..PlainRun(s[2..])] == HoleName(s);
  }

  lemma {:induction false} PlainRunIs(s: string, n: nat)
    requires n <= |s| && Plain(s[..n]) && (n < |s| ==> Markup(s[n]))
    ensures PlainRun(s) == n
  {
  }

  lemma PlaceholderIsHole(name: string, t: string)
    requires Plain(name) && name != ""
    ensures HoleAt(Placeholder(name) + t)
    ensures HoleName(Placeholder(name) + t) == name && AfterHole(Placeholder(name) + t) == t
  {
    var s := Placeholder(name) + t;
    assert s[2..] == name + "}" + t;
    assert s[2..][..|name|] == name;
    PlainRunIs(s[2..], |name|);
  }

  /** A placeholder is a prefix of another placeholder's text only when the names agree. */
  lemma PlaceholderPrefix(a: string, b: string, t: string)
    requires Plain(a) && Plain(b)
    requires Placeholder(a) <= Placeholder(b) + t
    ensures a == b
  {
    var s := Placeholder(b) + t;
    assert s[|a| + 2] == '}' && s[|b| + 2] == '}';
    assert forall i :: 0 <= i < |a| ==> s[i + 2] == a[i];
    assert forall i :: 0 <= i < |b| ==> s[i + 2] == b[i];
    assert |a| == |b|;
    assert a == s[2..|a| + 2] == b;
  }

  // ----- replacing a placeholder, seen from the front of the text -----

  lemma ReplaceHere(name: string, v: string, t: string)
    ensures ReplaceAll(Placeholder(name) + t, Placeholder(name), v) == v + ReplaceAll(t, Placeholder(name), v)
  {
  }

  lemma ReplaceSkipsChar(s: string, name: string, v: string)
    requires s != "" && !(Placeholder(name) <= s)
    ensures ReplaceAll(s, Placeholder(name), v) == [s[0]] + ReplaceAll(s[1..], Placeholder(name), v)
  {
  }

  lemma {:induction false} ReplaceSkipsPlain(p: string, t: string, name: string, v: string)
    requires forall i :: 0 <= i < |p| ==> p[i] != '$'
    ensures ReplaceAll(p + t, Placeholder(name), v) == p + ReplaceAll(t, Placeholder(name), v)
  {
    hide ReplaceAll, Placeholder;
    if p == "" {
      assert p + t == t;
    } else {
      assert (p + t)[0] == p[0] && (p + t)[1..] == p[1..] + t;
      ReplaceSkipsPlain(p[1..], t, name, v);
      ReplaceSkipsChar(p + t, name, v);
      Associate([p[0]], p[1..], ReplaceAll(t, Placeholder(name), v));
      assert [p[0]] + p[1..] == p;
    }
  }

  lemma ReplaceSkipsOther(name: string, other: string, v: string, t: string)
    requires Plain(name) && Plain(other) && name != other
    ensures ReplaceAll(Placeholder(other) + t, Placeholder(name), v) == Placeholder(other) + ReplaceAll(t, Placeholder(name), v)
  {
    hide ReplaceAll;
    var s := Placeholder(other) + t;
    if Placeholder(name) <= s {
      PlaceholderPrefix(name, other, t);
    }
    var tail := "{" + other + "}";
    assert s[0] == '$' && s[1..] == tail + t;
    ReplaceSkipsChar(s, name, v);
    ReplaceSkipsPlain(tail, t, name, v);
  }

  // ----- the simultaneous substitution, seen from the front of the text -----

  lemma SimultaneousHole(name: string, t: string, rules: seq<Rule>)
    requires Plain(name) && name != ""
    ensures Simultaneous(Placeholder(name) + t, rules) == Filled(rules, name) + Simultaneous(t, rules)
    ensures WellFormed(Placeholder(name) + t) <==> WellFormed(t)
  {
    PlaceholderIsHole(name, t);
  }

  lemma {:induction false} SimultaneousPlain(p: string, t: string, rules: seq<Rule>)
    requires Plain(p)
    ensures Simultaneous(p + t, rules) == p + Simultaneous(t, rules)
    ensures WellFormed(p + t) <==> WellFormed(t)
  {
    if p == "" {
      assert p + t == t;
    } else {
      assert (p + t)[0] == p[0] && (p + t)[1..] == p[1..] + t;
      SimultaneousPlain(p[1..], t, rules);
    }
  }

  lemma SimultaneousAtChar(c: char, t: string, rules: seq<Rule>)
    requires !Opens([c] + t)
    ensures Simultaneous([c] + t, rules) == [c] + Simultaneous(t, rules)
  {
    assert ([c] + t)[1..] == t;
  }

  // ----- pieces of a text -----

  lemma CharInFront(c: char, t: string)
    requires !Opens([c] + t)
    ensures WellFormed([c] + t) <==> WellFormed(t)
  {
    assert ([c] + t)[1..] == t;
  }

  /** What the replacement makes of a placeholder with a text after it. */
  lemma ReplaceAtHole(n: string, t: string, name: string, v: string)
    requires Plain(n) && Plain(name)
    ensures ReplaceAll(Placeholder(n) + t, Placeholder(name), v) ==
      (if n == name then v else Placeholder(n)) + ReplaceAll(t, Placeholder(name), v)
  {
    if n == name {
      ReplaceHere(name, v, t);
    } else {
      ReplaceSkipsOther(name, n, v, t);
    }
  }

  lemma ReplaceAtChar(c: char, t: string, name: string, v: string)
    requires !Opens([c] + t)
    ensures ReplaceAll([c] + t, Placeholder(name), v) == [c] + ReplaceAll(t, Placeholder(name), v)
  {
    ReplaceSkipsChar([c] + t, name, v);
    assert ([c] + t)[1..] == t;
  }

  /** A well-formed text is empty, or starts with a placeholder, or with a character that opens none. */
  lemma Front(s: string) returns (n: string, t: string)
    requires WellFormed(s) && s != ""
    ensures |t| < |s| && WellFormed(t)
    ensures if Opens(s) then n != "" && Plain(n) && s == Placeholder(n) + t else n == "" && s == [s[0]] + t
  {
    if Opens(s) {
      HoleShape(s);
      n, t := HoleName(s), AfterHole(s);
    } else {
      n, t := "", s[1..];
    }
  }

  lemma Associate(a: string, b: string, c: string)
    ensures a + b + c == a + (b + c)
  {
  }

  lemma ReplacedNothing(name: string, v: string)
    ensures ReplaceAll("", Placeholder(name), v) == ""
  {
  }

  /** Some occurrence of the pattern starts in the first text and ends in the second. */
  ghost predicate Straddles(a: string, b: string, p: string) {
    exists i :: 1 <= i < |p| && i <= |a| && a[|a| - i..] == p[..i] && p[i..] <= b
  }

  lemma ReplaceInFront(s: string, t: string, p: string, v: string)
    requires p != "" && s == p + t
    ensures ReplaceAll(s, p, v) == v + ReplaceAll(t, p, v)
  {
    assert s[..|p|] == p && s[|p|..] == t;
  }

  lemma ReplaceFurtherOn(s: string, p: string, v: string)
    requires p != "" && s != "" && !(p <= s)
    ensures ReplaceAll(s, p, v) == [s[0]] + ReplaceAll(s[1..], p, v)
  {
  }

  lemma ReplaceNowhere(p: string, v: string)
    requires p != ""
    ensures ReplaceAll("", p, v) == ""
  {
  }

  lemma {:induction false} ReplaceApart(a: string, b: string, p: string, v: string)
    requires p != "" && !Straddles(a, b, p)
    ensures ReplaceAll(a + b, p, v) == ReplaceAll(a, p, v) + ReplaceAll(b, p, v)
    decreases |a|
  {
    hide Straddles, ReplaceAll;
    if a == "" {
      assert a + b == b;
      ReplaceNowhere(p, v);
    } else if p <= a {
      var t := a[|p|..];
      StraddlesTail(a, |p|, b, p);
      ReplaceApart(t, b, p, v);
      assert a == p + t;
      Associate(p, t, b);
      ReplaceInFront(a, t, p, v);
      ReplaceInFront(a + b, t + b, p, v);
      Associate(v, ReplaceAll(t, p, v), ReplaceAll(b, p, v));
    } else {
      var t := a[1..];
      StraddlesTail(a, 1, b, p);
      ReplaceApart(t, b, p, v);
      if p <= a + b {
        InFrontOrAcross(a, b, p);
      }
      assert (a + b)[0] == a[0] && (a + b)[1..] == t + b;
      ReplaceFurtherOn(a, p, v);
      ReplaceFurtherOn(a + b, p, v);
      Associate([a[0]], ReplaceAll(t, p, v), ReplaceAll(b, p, v));
    }
  }

  lemma InFrontOrAcross(a: string, b: string, p: string)
    requires a != "" && p <= a + b
    ensures p <= a || Straddles(a, b, p)
  {
    PrefixOfSum(p, a, b);
    if |a| < |p| {
      assert a[|a| - |a|..] == a == p[..|a|];
      assert (a + b)[|a|..|p|] == p[|a|..] && b[..|p| - |a|] == p[|a|..];
    }
  }

  lemma StraddlesTail(a: string, k: nat, b: string, p: string)
    requires k <= |a| && !Straddles(a, b, p)
    ensures !Straddles(a[k..], b, p)
  {
    var t := a[k..];
    forall i | 1 <= i < |p| && i <= |t|
      ensures !(t[|t| - i..] == p[..i] && p[i..] <= b)
    {
      assert t[|t| - i..] == a[|a| - i..];
    }
  }

  lemma {:induction false} ReplaceByItself(s: string, p: string)
    requires p != ""
    ensures ReplaceAll(s, p, p) == s
    decreases |s|
  {
    if |s| >= |p| && s[..|p|] == p {
      ReplaceByItself(s[|p|..], p);
    } else if s != "" {
      ReplaceByItself(s[1..], p);
      assert s == [s[0]] + s[1..];
    }
  }

  /** The rule replaces a placeholder by itself. */
  predicate Identity(r: Rule) {
    r.datasource == Placeholder(r.input)
  }

  function Applied(s: string, r: Rule): string {
    ReplaceAll(s, Placeholder(r.input), r.datasource)
  }

  /** No rule finds its placeholder across the border of the two texts, as they are by then. */
  ghost predicate Apart(a: string, b: string, rules: seq<Rule>)
    decreases |rules|
  {
    rules == [] ||
    ((Identity(rules[0]) || !Straddles(a, b, Placeholder(rules[0].input))) &&
     Apart(Applied(a, rules[0]), Applied(b, rules[0]), rules[1..]))
  }

  lemma AppliedApart(a: string, b: string, r: Rule)
    requires Identity(r) || !Straddles(a, b, Placeholder(r.input))
    ensures Applied(a + b, r) == Applied(a, r) + Applied(b, r)
  {
    if Identity(r) {
      ReplaceByItself(a, Placeholder(r.input));
      ReplaceByItself(b, Placeholder(r.input));
      ReplaceByItself(a + b, Placeholder(r.input));
    } else {
      ReplaceApart(a, b, Placeholder(r.input), r.datasource);
    }
  }

  /** Then the whole loop works on the two texts separately. */
  lemma {:induction false} SequentialApart(a: string, b: string, rules: seq<Rule>)
    requires Named(rules) && Apart(a, b, rules)
    ensures Sequential(a, rules).Success? && Sequential(b, rules).Success?
    ensures Sequential(a + b, rules) == Success(Sequential(a, rules).value + Sequential(b, rules).value)
    decreases |rules|
  {
    if rules != [] {
      assert ValidRule(rules[0]);
      AppliedApart(a, b, rules[0]);
      hide Straddles;
      SequentialApart(Applied(a, rules[0]), Applied(b, rules[0]), rules[1..]);
    }
  }

  // ----- fences -----

  /** The text ends in the middle of the placeholder. */
  ghost predicate EndsInside(w: string, p: string) {
    exists i :: 1 <= i < |p| && i <= |w| && w[|w| - i..] == p[..i]
  }

  /** Text around the datasource could make up the placeholder with one of its ends: it ends in the middle of the
      placeholder, or goes on as the placeholder does after the dollar sign. */
  ghost predicate Touches(w: string, name: string) {
    var p := Placeholder(name);
    EndsInside(w, p) || w <= p[1..] || p[1..] <= w
  }

  /** As each later rule finds the datasource, it does not touch the placeholder of that rule. */
  ghost predicate FencedFrom(w: string, later: seq<Rule>)
    decreases |later|
  {
    later == [] ||
    ((Identity(later[0]) || !Touches(w, later[0].input)) && FencedFrom(Applied(w, later[0]), later[1..]))
  }

  /** The first datasource of every name is fenced off from the later rules. */
  ghost predicate Fenced(rules: seq<Rule>) {
    forall i :: 0 <= i < |rules| && First(rules, rules[i].input) == Some(i) ==> FencedFrom(rules[i].datasource, rules[i + 1..])
  }

  ghost predicate HoleFenced(name: string, rules: seq<Rule>) {
    match First(rules, name)
    case None => true
    case Some(i) => FencedFrom(rules[i].datasource, rules[i + 1..])
  }

  lemma HoleFencedNext(name: string, rules: seq<Rule>)
    requires rules != [] && HoleFenced(name, rules)
    ensures if rules[0].input == name then FencedFrom(rules[0].datasource, rules[1..]) else HoleFenced(name, rules[1..])
  {
    hide FencedFrom;
    var i := First(rules[1..], name);
    if rules[0].input != name && i.Some? {
      assert First(rules, name) == Some(i.value + 1);
      assert rules[i.value + 2..] == rules[1..][i.value + 1..];
    }
  }

  /** A fenced text is apart from whatever follows. */
  lemma {:induction false} FencedIsApart(w: string, b: string, later: seq<Rule>)
    requires FencedFrom(w, later)
    ensures Apart(w, b, later)
    decreases |later|
  {
    if later != [] {
      FencedIsApart(Applied(w, later[0]), Applied(b, later[0]), later[1..]);
    }
  }

  lemma HoleEndsOutside(n: string, name: string)
    requires Plain(n) && Plain(name)
    ensures !EndsInside(Placeholder(n), Placeholder(name))
  {
    var w, p := Placeholder(n), Placeholder(name);
    forall i | 1 <= i < |p| && i <= |w|
      ensures w[|w| - i..] != p[..i]
    {
      assert w[|w| - i..][i - 1] == '}';
      assert i >= 3 ==> p[..i][i - 1] == name[i - 3];
    }
  }

  lemma AppliedToHole(n: string, r: Rule)
    requires Plain(n) && Plain(r.input)
    ensures Applied(Placeholder(n), r) == if n == r.input then r.datasource else Placeholder(n)
  {
    ReplaceAtHole(n, "", r.input, r.datasource);
    assert Placeholder(n) + "" == Placeholder(n) && r.datasource + "" == r.datasource;
  }

  /** So is a placeholder of the text, before and after it is replaced. */
  lemma {:induction false} HoleIsApart(n: string, b: string, rules: seq<Rule>)
    requires Named(rules) && Plain(n) && HoleFenced(n, rules)
    ensures Apart(Placeholder(n), b, rules)
    decreases |rules|
  {
    if rules != [] {
      var r, rest := rules[0], rules[1..];
      assert ValidRule(r) && Plain(r.input);
      HoleEndsOutside(n, r.input);
      AppliedToHole(n, r);
      HoleFencedNext(n, rules);
      hide FencedFrom, HoleFenced, Placeholder, Plain;
      if n == r.input {
        FencedIsApart(r.datasource, Applied(b, r), rest);
      } else {
        HoleIsApart(n, Applied(b, r), rest);
      }
    }
  }

  // ----- a character and the text after it -----

  lemma AppliedToChar(c: char, r: Rule)
    ensures Applied([c], r) == [c]
  {
    assert |Placeholder(r.input)| >= 3;
  }

  /** No rule finds the text starting as its placeholder goes on after the dollar sign. */
  ghost predicate LeadFree(b: string, rules: seq<Rule>)
    decreases |rules|
  {
    rules == [] ||
    ((Identity(rules[0]) || !(Placeholder(rules[0].input)[1..] <= b)) && LeadFree(Applied(b, rules[0]), rules[1..]))
  }

  lemma {:induction false} CharIsApart(c: char, b: string, rules: seq<Rule>)
    requires c == '$' ==> LeadFree(b, rules)
    ensures Apart([c], b, rules)
    decreases |rules|
  {
    if rules != [] {
      var p := Placeholder(rules[0].input);
      AppliedToChar(c, rules[0]);
      assert forall i :: 1 <= i < |p| && i <= 1 ==> [c][1 - i..] == [c] && p[..i] == [p[0]];
      CharIsApart(c, Applied(b, rules[0]), rules[1..]);
    }
  }

  lemma {:induction false} EmptyIsLeadFree(rules: seq<Rule>)
    ensures LeadFree("", rules)
    decreases |rules|
  {
    if rules != [] {
      assert Applied("", rules[0]) == "";
      EmptyIsLeadFree(rules[1..]);
    }
  }

  lemma {:induction false} CharLeads(c: char, t: string, rules: seq<Rule>)
    requires c != '{' && Apart([c], t, rules)
    ensures LeadFree([c] + t, rules)
    decreases |rules|
  {
    if rules != [] {
      var r := rules[0];
      AppliedToChar(c, r);
      AppliedApart([c], t, r);
      assert Placeholder(r.input)[1..][0] == '{' && ([c] + t)[0] == c;
      CharLeads(c, Applied(t, r), rules[1..]);
    }
  }

  lemma {:induction false} FencedLeads(w: string, t: string, later: seq<Rule>)
    requires FencedFrom(w, later) && Apart(w, t, later)
    ensures LeadFree(w + t, later)
    decreases |later|
  {
    if later != [] {
      var r := later[0];
      var q := Placeholder(r.input)[1..];
      AppliedApart(w, t, r);
      if q <= w + t {
        PrefixOfSum(q, w, t);
      }
      FencedLeads(Applied(w, r), Applied(t, r), later[1..]);
    }
  }

  lemma PrefixOfSum(q: string, w: string, t: string)
    requires q <= w + t
    ensures q <= w || w <= q
  {
    if |q| <= |w| {
      assert q == (w + t)[..|q|] == w[..|q|];
    } else {
      assert w == (w + t)[..|w|] == q[..|w|];
    }
  }

  lemma {:induction false} HoleLeads(n: string, t: string, rules: seq<Rule>)
    requires Named(rules) && Plain(n) && HoleFenced(n, rules) && Apart(Placeholder(n), t, rules)
    ensures LeadFree(Placeholder(n) + t, rules)
    decreases |rules|
  {
    if rules != [] {
      var r, rest := rules[0], rules[1..];
      assert ValidRule(r) && Plain(r.input);
      AppliedToHole(n, r);
      AppliedApart(Placeholder(n), t, r);
      HoleFencedNext(n, rules);
      assert Placeholder(r.input)[1..][0] == '{' && (Placeholder(n) + t)[0] == '$';
      hide FencedFrom, HoleFenced, Placeholder, Plain;
      if n == r.input {
        FencedLeads(r.datasource, Applied(t, r), rest);
      } else {
        HoleLeads(n, Applied(t, r), rest);
      }
    }
  }

  lemma {:induction false} CharStays(c: char, rules: seq<Rule>)
    requires Named(rules)
    ensures Sequential([c], rules) == Success([c])
    decreases |rules|
  {
    if rules != [] {
      assert ValidRule(rules[0]);
      CharStays(c, rules[1..]);
    }
  }

  // ----- what becomes of a placeholder -----

  function First(rules: seq<Rule>, name: string): (r: Option<nat>)
    ensures r.Some? ==> r.value < |rules| && rules[r.value].input == name && forall j :: 0 <= j < r.value ==> rules[j].input != name
    ensures r.None? ==> forall j :: 0 <= j < |rules| ==> rules[j].input != name
    ensures Lookup(rules, name) == if r.Some? then Some(rules[r.value].datasource) else None
  {
    if rules == [] then None
    else if rules[0].input == name then Some(0)
    else
      match First(rules[1..], name)
      case None => None
      case Some(i) => Some(i + 1)
  }

  /** Text without a dollar sign is not touched by anything. */
  lemma {:induction false} NoDollar(s: string, rules: seq<Rule>, name: string, v: string)
    requires '$' !in s
    ensures WellFormed(s) && Simultaneous(s, rules) == s && ReplaceAll(s, Placeholder(name), v) == s
  {
    if s != "" {
      var t := s[1..];
      assert s == [s[0]] + t && s[0] in s;
      NoDollar(t, rules, name, v);
      hide Simultaneous, WellFormed, ReplaceAll;
      CharInFront(s[0], t);
      SimultaneousAtChar(s[0], t, rules);
      ReplaceAtChar(s[0], t, name, v);
    }
  }

  /** What a well-formed text can put around a placeholder without using another one: possibly a dollar sign in
      front, and anything without a dollar sign behind. */
  predicate Around(front: string, back: string) {
    (front == "" || front == "$") && '$' !in back
  }

  lemma ReplaceAround(front: string, n: string, back: string, name: string, v: string)
    requires Around(front, back) && Plain(n) && Plain(name)
    ensures ReplaceAll(front + Placeholder(n) + back, Placeholder(name), v) ==
      front + (if n == name then v else Placeholder(n)) + back
  {
    hide ReplaceAll;
    var hole, filled := Placeholder(n) + back, (if n == name then v else Placeholder(n)) + back;
    NoDollar(back, [], name, v);
    ReplaceAtHole(n, back, name, v);
    Associate(front, Placeholder(n), back);
    Associate(front, if n == name then v else Placeholder(n), back);
    if front == "" {
      assert front + hole == hole && front + filled == filled;
    } else {
      ReplaceAtChar('$', hole, name, v);
    }
  }

  /** Such a text becomes what the later rules make of it after the first rule for the name has been applied. */
  lemma {:induction false} ContextBecomes(rules: seq<Rule>, front: string, name: string, back: string)
    requires Named(rules) && Plain(name) && name != "" && Around(front, back)
    ensures Sequential(front + Placeholder(name) + back, rules) ==
      match First(rules, name)
      case None => Success(front + Placeholder(name) + back)
      case Some(i) => Sequential(front + rules[i].datasource + back, rules[i + 1..])
    decreases |rules|
  {
    hide ReplaceAll, Placeholder;
    if rules != [] {
      var r, rest := rules[0], rules[1..];
      assert ValidRule(r) && Plain(r.input);
      ReplaceAround(front, name, back, r.input, r.datasource);
      if r.input != name {
        ContextBecomes(rest, front, name, back);
        var i := First(rest, name);
        assert i.Some? ==> rules[i.value + 2..] == rest[i.value + 1..];
      }
    }
  }

  lemma PlaceholderBecomes(rules: seq<Rule>, name: string)
    requires Named(rules) && Plain(name) && name != ""
    ensures Sequential(Placeholder(name), rules) ==
      match First(rules, name)
      case None => Success(Placeholder(name))
      case Some(i) => Sequential(rules[i].datasource, rules[i + 1..])
  {
    hide Sequential, Placeholder;
    ContextBecomes(rules, "", name, "");
    assert "" + Placeholder(name) + "" == Placeholder(name);
    assert forall v: string :: "" + v + "" == v;
  }

  /** The later rules leave the datasource of every first rule for a name as it is. */
  predicate LeftAlone(rules: seq<Rule>) {
    forall i :: 0 <= i < |rules| && First(rules, rules[i].input) == Some(i) ==>
      Sequential(rules[i].datasource, rules[i + 1..]) == Success(rules[i].datasource)
  }

  // ----- main results -----

  /** A well-formed text comes apart at its front: into a placeholder or a character, and the rest. */
  lemma {:induction false} FrontIsApart(s: string, rules: seq<Rule>)
    requires WellFormed(s) && Named(rules) && Fenced(rules) && s != ""
    ensures
      if Opens(s) then Apart(Placeholder(HoleName(s)), AfterHole(s), rules)
      else Apart([s[0]], s[1..], rules)
    ensures s[0] != '{' ==> LeadFree(s, rules)
    decreases |s|
  {
    if Opens(s) {
      var n, t := HoleName(s), AfterHole(s);
      HoleShape(s);
      assert HoleFenced(n, rules);
      hide WellFormed, Fenced, Apart, LeadFree, HoleFenced, HoleAt;
      HoleIsApart(n, t, rules);
      HoleLeads(n, t, rules);
    } else {
      var c, t := s[0], s[1..];
      assert s == [c] + t && WellFormed(t);
      if t == "" {
        EmptyIsLeadFree(rules);
      } else {
        FrontIsApart(t, rules);
      }
      hide WellFormed, Fenced, Apart, LeadFree;
      CharIsApart(c, t, rules);
      if c != '{' {
        CharLeads(c, t, rules);
      }
    }
  }

  /** On well-formed text, applying the rules one after the other is one simultaneous substitution in which the
      first rule for a name wins. */
  lemma {:induction false} SequentialIsSimultaneous(s: string, rules: seq<Rule>)
    requires WellFormed(s) && Named(rules) && Fenced(rules) && LeftAlone(rules)
    ensures Sequential(s, rules) == Success(Simultaneous(s, rules))
    decreases |s|
  {
    hide Sequential, Apart, LeadFree, Fenced;
    if s == "" {
      EmptyStays(rules);
    } else if Opens(s) {
      var n, t := HoleName(s), AfterHole(s);
      HoleShape(s);
      SequentialIsSimultaneous(t, rules);
      PlaceholderBecomes(rules, n);
      FrontIsApart(s, rules);
      SequentialApart(Placeholder(n), t, rules);
    } else {
      var t := s[1..];
      SequentialIsSimultaneous(t, rules);
      CharStays(s[0], rules);
      assert s == [s[0]] + t;
      FrontIsApart(s, rules);
      SequentialApart([s[0]], t, rules);
    }
  }

  lemma {:induction false} EmptyStays(rules: seq<Rule>)
    requires Named(rules)
    ensures Sequential("", rules) == Success("")
    decreases |rules|
  {
    if rules != [] {
      assert ValidRule(rules[0]);
      EmptyStays(rules[1..]);
    }
  }

  lemma HoleAlone(name: string, rules: seq<Rule>)
    requires Plain(name) && name != ""
    ensures WellFormed(Placeholder(name)) && Simultaneous(Placeholder(name), rules) == Filled(rules, name)
  {
    SimultaneousHole(name, "", rules);
    assert Placeholder(name) + "" == Placeholder(name) && Simultaneous("", rules) == "";
  }

  lemma HoleAround(front: string, name: string, back: string, rules: seq<Rule>)
    requires Plain(name) && name != "" && Around(front, back)
    ensures WellFormed(front + Placeholder(name) + back)
    ensures Simultaneous(front + Placeholder(name) + back, rules) == front + Filled(rules, name) + back
  {
    hide WellFormed, Simultaneous;
    var hole := Placeholder(name) + back;
    NoDollar(back, rules, name, "");
    SimultaneousHole(name, back, rules);
    Associate(front, Placeholder(name), back);
    Associate(front, Filled(rules, name), back);
    if front == "" {
      assert front + hole == hole && front + (Filled(rules, name) + back) == Filled(rules, name) + back;
    } else {
      CharInFront('$', hole);
      SimultaneousAtChar('$', hole, rules);
    }
  }

  /** A datasource that later rules change, alone or with what a well-formed text can put around it, makes the two
      differ, whatever the other datasources are. */
  lemma DisagreesAt(rules: seq<Rule>, i: nat, front: string, back: string)
    requires Named(rules) && i < |rules| && First(rules, rules[i].input) == Some(i) && Around(front, back)
    requires Sequential(front + rules[i].datasource + back, rules[i + 1..]) != Success(front + rules[i].datasource + back)
    ensures
      var s := front + Placeholder(rules[i].input) + back;
      WellFormed(s) && Sequential(s, rules) != Success(Simultaneous(s, rules))
  {
    hide Sequential, Simultaneous, WellFormed, Placeholder;
    assert ValidRule(rules[i]);
    ContextBecomes(rules, front, rules[i].input, back);
    HoleAround(front, rules[i].input, back, rules);
  }

  lemma SomeDisagreement(rules: seq<Rule>) returns (s: string)
    requires Named(rules) && !LeftAlone(rules)
    ensures WellFormed(s) && Sequential(s, rules) != Success(Simultaneous(s, rules))
  {
    hide WellFormed, Sequential, Simultaneous, First;
    var i :| 0 <= i < |rules| && First(rules, rules[i].input) == Some(i) &&
      Sequential(rules[i].datasource, rules[i + 1..]) != Success(rules[i].datasource);
    assert "" + rules[i].datasource + "" == rules[i].datasource;
    DisagreesAt(rules, i, "", "");
    s := "" + Placeholder(rules[i].input) + "";
  }

  /** Exactness: with fenced datasources, loop and simultaneous substitution agree on every well-formed text if and
      only if the rules after it leave the datasource of every first rule for a name as it is. */
  lemma AgreesIffLeftAlone(rules: seq<Rule>)
    requires Named(rules) && Fenced(rules)
    ensures (forall s :: WellFormed(s) ==> Sequential(s, rules) == Success(Simultaneous(s, rules))) <==> LeftAlone(rules)
  {
    hide WellFormed, Sequential, Simultaneous, Named, LeftAlone, Fenced;
    if LeftAlone(rules) {
      forall s | WellFormed(s)
        ensures Sequential(s, rules) == Success(Simultaneous(s, rules))
      {
        SequentialIsSimultaneous(s, rules);
      }
    } else {
      var s := SomeDisagreement(rules);
    }
  }

  /** The loop fails exactly when some rule has an empty input or an empty datasource. */
  lemma {:induction false} SequentialFails(s: string, rules: seq<Rule>)
    ensures Sequential(s, rules).Failure? <==> exists r :: r in rules && !ValidRule(r)
    decreases |rules|
  {
    if rules != [] {
      assert rules == [rules[0]] + rules[1..];
      if ValidRule(rules[0]) {
        SequentialFails(ReplaceAll(s, Placeholder(rules[0].input), rules[0].datasource), rules[1..]);
      }
    }
  }

  ghost predicate DistinctInputs(rules: seq<Rule>) {
    forall i, j :: 0 <= i < j < |rules| ==> rules[i].input != rules[j].input
  }

  lemma {:induction false} LookupOfDistinct(rules: seq<Rule>, name: string)
    requires DistinctInputs(rules)
    ensures Lookup(rules, name).Some? <==> exists r :: r in rules && r.input == name
    ensures forall r :: r in rules && r.input == name ==> Lookup(rules, name) == Some(r.datasource)
  {
    if rules != [] {
      assert rules == [rules[0]] + rules[1..];
      LookupOfDistinct(rules[1..], name);
    }
  }

  lemma {:induction false} SameLookupSameText(s: string, a: seq<Rule>, b: seq<Rule>)
    requires forall name :: Lookup(a, name) == Lookup(b, name)
    ensures Simultaneous(s, a) == Simultaneous(s, b)
    decreases |s|
  {
    if s != "" {
      if HoleAt(s) {
        assert Lookup(a, HoleName(s)) == Lookup(b, HoleName(s));
        SameLookupSameText(AfterHole(s), a, b);
      } else {
        SameLookupSameText(s[1..], a, b);
      }
    }
  }

  /** With one rule per input, the order of the rules does not matter, as long as both orders leave their
      datasources alone. */
  lemma RuleOrderIrrelevant(s: string, a: seq<Rule>, b: seq<Rule>)
    requires WellFormed(s) && Named(a) && Fenced(a) && LeftAlone(a) && Named(b) && Fenced(b) && LeftAlone(b)
    requires DistinctInputs(a) && DistinctInputs(b) && forall r :: r in a <==> r in b
    ensures Sequential(s, a) == Sequential(s, b)
  {
    forall name
      ensures Lookup(a, name) == Lookup(b, name)
    {
      LookupOfDistinct(a, name);
      LookupOfDistinct(b, name);
      if Lookup(a, name).Some? {
        var r :| r in a && r.input == name;
        assert r in b;
      }
    }
    SameLookupSameText(s, a, b);
    SequentialIsSimultaneous(s, a);
    SequentialIsSimultaneous(s, b);
  }
}
