/** The text form of a section map, as `Write` prints it, and a parser for that form. The text is canonical: it
    determines, and is determined by, the section names and the multiset of lines of each section. */
module IniText {
  import opened Wrappers
  import opened Ordering
  import opened Seqs

  /** Section name to lines of the form `key = value`. */
  type Sections = map<string, seq<string>>

  // ----- sorting strings -----

  predicate AtMost(a: string, b: string) {
    CompareString(a, b) <= 0
  }

  ghost predicate IsSorted(l: seq<string>) {
    forall i, j :: 0 <= i < j < |l| ==> AtMost(l[i], l[j])
  }

  function Insert(l: seq<string>, x: string): seq<string> {
    if l == [] || AtMost(l[|l| - 1], x) then l + [x]
    else Insert(l[..|l| - 1], x) + [l[|l| - 1]]
  }

  function Sort(l: seq<string>): seq<string> {
    if l == [] then [] else Insert(Sort(l[..|l| - 1]), l[|l| - 1])
  }

  lemma {:induction false} InsertSorts(l: seq<string>, x: string)
    requires IsSorted(l)
    ensures IsSorted(Insert(l, x)) && Permutation(Insert(l, x), l + [x])
    ensures forall y :: y in Insert(l, x) ==> y in l || y == x
  {
    StringsAreOrdered();
    hide CompareString;
    if l != [] {
      var rest, last := l[..|l| - 1], l[|l| - 1];
      assert l == rest + [last];
      if AtMost(last, x) {
        forall i | 0 <= i < |l|
          ensures AtMost(l[i], x)
        {
          assert i < |l| - 1 ==> AtMost(l[i], last);
        }
      } else {
        InsertSorts(rest, x);
        assert AtMost(x, last);
        assert forall y :: y in rest ==> AtMost(y, last);
        assert Insert(l, x) == Insert(rest, x) + [last];
      }
    }
  }

  lemma {:induction false} SortSorts(l: seq<string>)
    ensures IsSorted(Sort(l)) && Permutation(Sort(l), l)
  {
    if l != [] {
      SortSorts(l[..|l| - 1]);
      InsertSorts(Sort(l[..|l| - 1]), l[|l| - 1]);
      assert l == l[..|l| - 1] + [l[|l| - 1]];
    }
  }

  /** The first elements of two sorted permutations agree, and the rests are permutations. */
  lemma SortedFirst(a: seq<string>, b: seq<string>)
    requires IsSorted(a) && IsSorted(b) && Permutation(a, b) && a != []
    ensures b != [] && a[0] == b[0]
  {
    PermutationKeepsMembers(a, b);
    assert a[0] in b && b[0] in a;
    StringsAreOrdered();
    hide CompareString;
    assert AtMost(a[0], b[0]) && AtMost(b[0], a[0]);
  }

  lemma PermutedRest(a: seq<string>, b: seq<string>)
    requires Permutation(a, b) && a != [] && b != [] && a[0] == b[0]
    ensures Permutation(a[1..], b[1..])
  {
    assert a == [a[0]] + a[1..] && b == [b[0]] + b[1..];
    assert multiset(a[1..]) == multiset(a) - multiset{a[0]};
  }

  /** Two sorted permutations are equal. */
  lemma {:induction false} SortedIsUnique(a: seq<string>, b: seq<string>)
    requires IsSorted(a) && IsSorted(b) && Permutation(a, b)
    ensures a == b
  {
    PermutationKeepsMembers(a, b);
    if a != [] {
      SortedFirst(a, b);
      PermutedRest(a, b);
      hide AtMost, Permutation;
      SortedIsUnique(a[1..], b[1..]);
      assert a == [a[0]] + a[1..] && b == [b[0]] + b[1..];
    }
  }

  lemma SortIsCanonical(a: seq<string>, b: seq<string>)
    ensures Sort(a) == Sort(b) <==> Permutation(a, b)
  {
    SortSorts(a);
    SortSorts(b);
    if Permutation(a, b) {
      SortedIsUnique(Sort(a), Sort(b));
    }
  }

  /** By the first difference, or the shorter string first; equal strings side by side. */
  ghost predicate Ascending(l: seq<string>) {
    forall i, j :: 0 <= i < j < |l| ==> l[i] == l[j] || exists k: nat :: ComesFirstAt(l[i], l[j], k)
  }

  lemma SortAscends(l: seq<string>)
    ensures Ascending(Sort(l))
  {
    SortSorts(l);
    var sorted := Sort(l);
    StringsAreOrdered();
    forall i, j | 0 <= i < j < |sorted|
      ensures sorted[i] == sorted[j] || exists k: nat :: ComesFirstAt(sorted[i], sorted[j], k)
    {
      assert AtMost(sorted[i], sorted[j]);
      StringOrder(sorted[i], sorted[j]);
    }
  }

  // ----- printing -----

  function SectionLines(key: string, values: seq<string>): seq<string> {
    ["[" + key + "]"] + Sort(values) + [""]
  }

  function LinesOf(keys: seq<string>, m: Sections): seq<string>
    requires forall k :: k in keys ==> k in m
  {
    if keys == [] then [] else LinesOf(keys[..|keys| - 1], m) + SectionLines(keys[|keys| - 1], m[keys[|keys| - 1]])
  }

  function Text(lines: seq<string>): string {
    if lines == [] then "" else Text(lines[..|lines| - 1]) + lines[|lines| - 1] + "\n"
  }

  lemma {:induction false} TextAppend(a: seq<string>, b: seq<string>)
    ensures Text(a + b) == Text(a) + Text(b)
  {
    if b == [] {
      assert a + b == a;
    } else {
      var rest, last := b[..|b| - 1], b[|b| - 1];
      TextAppend(a, rest);
      assert (a + b)[..|a + b| - 1] == a + rest;
      assert Text(a + b) == Text(a + rest) + last + "\n";
      assert Text(b) == Text(rest) + last + "\n";
    }
  }

  ghost function SomeOrder(keys: set<string>): (order: seq<string>)
    ensures Enumerates(order, keys)
  {
    if keys == {} then []
    else
      var k :| k in keys;
      SomeOrder(keys - {k}) + [k]
  }

  ghost function SortedKeys(keys: set<string>): seq<string> {
    Sort(SomeOrder(keys))
  }

  /** The printed form of a section map: a function of the map alone. */
  ghost function Printed(m: Sections): string {
    SortedKeysAre(m.Keys, SortedKeys(m.Keys));
    Text(LinesOf(SortedKeys(m.Keys), m))
  }

  lemma {:induction false} ListsPermute(a: seq<string>, b: seq<string>, keys: set<string>)
    requires Enumerates(a, keys) && Enumerates(b, keys)
    ensures Permutation(a, b)
  {
    forall k
      ensures multiset(a)[k] == multiset(b)[k]
    {
      ListsOnce(a, k);
      ListsOnce(b, k);
    }
  }

  lemma {:induction false} ListsOnce(a: seq<string>, k: string)
    requires forall i, j :: 0 <= i < j < |a| ==> a[i] != a[j]
    ensures multiset(a)[k] == if k in a then 1 else 0
  {
    if a != [] {
      var rest, last := a[..|a| - 1], a[|a| - 1];
      assert a == rest + [last];
      ListsOnce(rest, k);
    }
  }

  lemma SortedKeysAre(keys: set<string>, sorted: seq<string>)
    requires sorted == SortedKeys(keys)
    ensures IsSorted(sorted) && Enumerates(sorted, keys)
  {
    var order := SomeOrder(keys);
    SortSorts(order);
    PermutationKeepsMembers(sorted, order);
    forall i, j | 0 <= i < j < |sorted|
      ensures sorted[i] != sorted[j]
    {
      if sorted[i] == sorted[j] {
        ListsOnce(order, sorted[i]);
        TwiceInMultiset(sorted, i, j);
      }
    }
  }

  lemma TwiceInMultiset(l: seq<string>, i: nat, j: nat)
    requires i < j < |l| && l[i] == l[j]
    ensures multiset(l)[l[i]] >= 2
  {
    assert l == l[..j] + [l[j]] + l[j + 1..];
    assert l[i] in l[..j];
  }

  /** Whatever order the map is visited in, sorting the keys gives the same list. */
  lemma AnyOrderSorts(order: seq<string>, keys: set<string>)
    requires Enumerates(order, keys)
    ensures Sort(order) == SortedKeys(keys)
    ensures forall k :: k in Sort(order) <==> k in keys
  {
    ListsPermute(order, SomeOrder(keys), keys);
    SortIsCanonical(order, SomeOrder(keys));
    SortedKeysAre(keys, SortedKeys(keys));
  }

  /** Visits the map in an arbitrary order, and sorts. */
  method KeysInOrder(config: Sections) returns (keys: seq<string>)
    ensures keys == SortedKeys(config.Keys)
    ensures Enumerates(keys, config.Keys) && Ascending(keys)
  {
    keys := [];
    var left := config.Keys;
    while left != {}
      invariant left <= config.Keys
      invariant Enumerates(keys, config.Keys - left)
      decreases left
    {
      var k :| k in left;
      keys := keys + [k];
      left := left - {k};
    }
    assert config.Keys - left == config.Keys;
    AnyOrderSorts(keys, config.Keys);
    SortAscends(keys);
    keys := Sort(keys);
    SortedKeysAre(config.Keys, keys);
  }

  /** Sections in the order of their names, each with its lines in order. The hash of the text is the second result. */
  method Write(config: Sections, sha256: string -> string) returns (text: string, hash: string)
    ensures text == Printed(config)
    ensures hash == sha256(text)
  {
    var keys := KeysInOrder(config);
    SortedKeysAre(config.Keys, keys);
    assert forall k :: k in keys ==> k in config;
    hide Sort, SortedKeys, IsSorted, Enumerates, SectionLines, Text;
    text := "";
    NoText();
    for i := 0 to |keys|
      invariant text == Text(LinesOf(keys[..i], config))
    {
      var section := WriteSection(keys[i], config[keys[i]]);
      TextOfNext(keys, config, i);
      text := text + section;
    }
    assert keys[..|keys|] == keys;
    hash := sha256(text);
  }

  lemma NoText()
    ensures Text([]) == ""
  {
  }

  lemma TextOfNext(keys: seq<string>, m: Sections, i: nat)
    requires i < |keys| && forall k :: k in keys ==> k in m
    ensures Text(LinesOf(keys[..i + 1], m)) == Text(LinesOf(keys[..i], m)) + Text(SectionLines(keys[i], m[keys[i]]))
  {
    hide SectionLines, Text;
    assert keys[..i + 1][..i] == keys[..i];
    TextAppend(LinesOf(keys[..i], m), SectionLines(keys[i], m[keys[i]]));
  }

  method WriteSection(key: string, lines: seq<string>) returns (text: string)
    ensures text == Text(SectionLines(key, lines))
  {
    var values := Sort(lines);
    ghost var written := ["[" + key + "]"];
    text := "[" + key + "]" + "\n";
    assert Text(written) == Text([]) + written[0] + "\n" by { assert written[..0] == []; }
    for i := 0 to |values|
      invariant written == ["[" + key + "]"] + values[..i]
      invariant text == Text(written)
    {
      assert (written + [values[i]])[..|written|] == written;
      text := text + values[i] + "\n";
      written := written + [values[i]];
    }
    assert values[..|values|] == values;
    assert (written + [""])[..|written|] == written;
    assert written + [""] == SectionLines(key, lines);
    text := text + "" + "\n";
  }

  // ----- parsing -----

  function LineEnd(s: string): (n: nat)
    ensures n <= |s| && '\n' !in s[..n] && (n < |s| ==> s[n] == '\n')
  {
    if s == "" || s[0] == '\n' then 0
    else
      var n := LineEnd(s[1..]);
      assert s[..n + 1] == [s[0]] + s[1..][..n];
      n + 1
  }

  function SplitLines(s: string): seq<string>
    decreases |s|
  {
    if s == "" then []
    else
      var n := LineEnd(s);
      if n == |s| then [s] else [s[..n]] + SplitLines(s[n + 1..])
  }

  predicate IsHeader(line: string) {
    |line| >= 2 && line[0] == '[' && line[|line| - 1] == ']'
  }

  /** The number of lines before the first empty one. */
  function BodyLength(lines: seq<string>): (n: nat)
    ensures n <= |lines|
  {
    if lines == [] || lines[0] == "" then 0 else 1 + BodyLength(lines[1..])
  }

  /** A header, lines up to an empty line, and so on; no section twice. */
  function ParseSections(lines: seq<string>): Option<Sections>
    decreases |lines|
  {
    if lines == [] then Some(map[])
    else if !IsHeader(lines[0]) then None
    else
      var key, n := lines[0][1..|lines[0]| - 1], BodyLength(lines[1..]);
      if n + 1 == |lines| then None
      else
        match ParseSections(lines[n + 2..])
        case None => None
        case Some(m) => if key in m then None else Some(m[key := lines[1..n + 1]])
  }

  function Parse(text: string): Option<Sections> {
    ParseSections(SplitLines(text))
  }

  // ----- round trip -----

  predicate OneLine(s: string) {
    '\n' !in s
  }

  /** Names and lines fit on a line each, and no line is empty. */
  ghost predicate Printable(m: Sections) {
    forall k :: k in m ==> OneLine(k) && forall l :: l in m[k] ==> OneLine(l) && l != ""
  }

  ghost function WithSortedLines(m: Sections): Sections {
    map k | k in m :: Sort(m[k])
  }

  lemma {:induction false} LineEndIs(line: string, rest: string)
    requires OneLine(line)
    ensures LineEnd(line + "\n" + rest) == |line|
  {
    var s := line + "\n" + rest;
    if line == "" {
      assert s[0] == '\n';
    } else {
      assert line[0] in line && forall c :: c in line[1..] ==> c in line;
      assert s[0] == line[0] && s[1..] == line[1..] + "\n" + rest;
      LineEndIs(line[1..], rest);
    }
  }

  lemma {:induction false} TextFront(line: string, rest: seq<string>)
    ensures Text([line] + rest) == line + "\n" + Text(rest)
  {
    TextAppend([line], rest);
    assert Text([line]) == Text([]) + line + "\n" by { assert [line][..0] == []; }
  }

  lemma {:induction false} SplitsBack(lines: seq<string>)
    requires forall l :: l in lines ==> OneLine(l)
    ensures SplitLines(Text(lines)) == lines
  {
    if lines != [] {
      var line, rest := lines[0], lines[1..];
      assert lines == [line] + rest;
      TextFront(line, rest);
      LineEndIs(line, Text(rest));
      SplitsBack(rest);
      var s := line + "\n" + Text(rest);
      assert s[..|line|] == line && s[|line| + 1..] == Text(rest);
    }
  }

  lemma {:induction false} BodyLengthIs(body: seq<string>, rest: seq<string>)
    requires forall l :: l in body ==> l != ""
    ensures BodyLength(body + [""] + rest) == |body|
  {
    if body == [] {
      assert (body + [""] + rest)[0] == "";
    } else {
      assert body[0] in body && forall l :: l in body[1..] ==> l in body;
      assert (body + [""] + rest)[0] == body[0] && (body + [""] + rest)[1..] == body[1..] + [""] + rest;
      BodyLengthIs(body[1..], rest);
    }
  }

  /** Parsing one printed section in front of others. */
  lemma SectionParses(key: string, values: seq<string>, rest: seq<string>)
    requires forall l :: l in values ==> l != ""
    requires ParseSections(rest).Some? && key !in ParseSections(rest).value
    ensures ParseSections(SectionLines(key, values) + rest) == Some(ParseSections(rest).value[key := Sort(values)])
  {
    var body := Sort(values);
    SortSorts(values);
    PermutationKeepsMembers(body, values);
    hide Sort, IsSorted, BodyLength, ParseSections;
    BodyParses(key, body, rest);
    Regroup(["[" + key + "]"], body, [""], rest);
  }

  lemma Regroup<T>(a: seq<T>, b: seq<T>, c: seq<T>, d: seq<T>)
    ensures a + b + c + d == a + (b + c + d)
  {
  }

  lemma BodyParses(key: string, body: seq<string>, rest: seq<string>)
    requires forall l :: l in body ==> l != ""
    requires ParseSections(rest).Some? && key !in ParseSections(rest).value
    ensures ParseSections(["[" + key + "]"] + (body + [""] + rest)) == Some(ParseSections(rest).value[key := body])
  {
    var header := "[" + key + "]";
    var lines := [header] + (body + [""] + rest);
    BodyLengthIs(body, rest);
    hide BodyLength;
    assert lines[0] == header && header[1..|header| - 1] == key;
    assert lines[1..] == body + [""] + rest;
    assert lines[1..|body| + 1] == body;
    assert lines[|body| + 2..] == rest;
  }

  lemma LinesOfLast(init: seq<string>, last: string, m: Sections)
    requires last in m && forall k :: k in init ==> k in m
    ensures LinesOf(init + [last], m) == LinesOf(init, m) + SectionLines(last, m[last])
  {
    hide SectionLines;
    assert (init + [last])[..|init|] == init;
  }

  lemma {:induction false} LinesOfFront(keys: seq<string>, m: Sections)
    requires keys != [] && forall k :: k in keys ==> k in m
    ensures forall k :: k in keys[1..] ==> k in m
    ensures LinesOf(keys, m) == SectionLines(keys[0], m[keys[0]]) + LinesOf(keys[1..], m)
  {
    hide SectionLines, LinesOf;
    if |keys| == 1 {
      LinesOfLast([], keys[0], m);
      assert keys == [] + [keys[0]] && keys[1..] == [];
      NoLinesOf(m);
    } else {
      var init, last := keys[..|keys| - 1], keys[|keys| - 1];
      assert last in keys && forall k :: k in init ==> k in keys;
      LinesOfFront(init, m);
      LinesOfLast(init, last, m);
      LinesOfLast(init[1..], last, m);
      assert keys == init + [last] && keys[1..] == init[1..] + [last];
    }
  }

  lemma NoLinesOf(m: Sections)
    ensures LinesOf([], m) == []
  {
  }

  ghost function SortedSections(keys: seq<string>, m: Sections): Sections
    requires forall k :: k in keys ==> k in m
  {
    map k | k in keys :: Sort(m[k])
  }

  lemma {:induction false} SectionsParse(keys: seq<string>, m: Sections)
    requires (forall k :: k in keys ==> k in m) && forall i, j :: 0 <= i < j < |keys| ==> keys[i] != keys[j]
    requires Printable(m)
    ensures ParseSections(LinesOf(keys, m)) == Some(SortedSections(keys, m))
  {
    hide Sort, SectionLines, ParseSections;
    if keys == [] {
      NoSectionsParse();
      assert LinesOf(keys, m) == [];
    } else {
      var key, rest := keys[0], keys[1..];
      assert keys == [key] + rest;
      assert key in keys && key in m;
      LinesOfFront(keys, m);
      SectionsParse(rest, m);
      assert forall i :: 1 <= i < |keys| ==> keys[0] != keys[i];
      assert key !in rest;
      SectionParses(key, m[key], LinesOf(rest, m));
      SortedSectionsFront(key, rest, m);
    }
  }

  lemma SortedSectionsFront(key: string, rest: seq<string>, m: Sections)
    requires key in m && forall k :: k in rest ==> k in m
    ensures SortedSections([key] + rest, m) == SortedSections(rest, m)[key := Sort(m[key])]
  {
  }

  lemma NoSectionsParse()
    ensures ParseSections([]) == Some(map[])
  {
  }

  lemma {:induction false} LinesAreOneLine(keys: seq<string>, m: Sections)
    requires (forall k :: k in keys ==> k in m) && Printable(m)
    ensures forall l :: l in LinesOf(keys, m) ==> OneLine(l)
  {
    if keys != [] {
      var key := keys[|keys| - 1];
      assert key in keys;
      LinesAreOneLine(keys[..|keys| - 1], m);
      SortSorts(m[key]);
      PermutationKeepsMembers(Sort(m[key]), m[key]);
    }
  }

  lemma PrintableRoundTrip(m: Sections)
    requires Printable(m)
    ensures Parse(Printed(m)) == Some(WithSortedLines(m))
  {
    hide Sort, SortedKeys, LinesOf, ParseSections, SplitLines, Text;
    var keys := SortedKeys(m.Keys);
    SortedKeysAre(m.Keys, keys);
    LinesAreOneLine(keys, m);
    SplitsBack(LinesOf(keys, m));
    SectionsParse(keys, m);
    assert SortedSections(keys, m) == WithSortedLines(m);
  }

  lemma {:induction false} SplitLinesAreLines(s: string)
    ensures forall l :: l in SplitLines(s) ==> OneLine(l)
    decreases |s|
  {
    if s != "" && LineEnd(s) < |s| {
      SplitLinesAreLines(s[LineEnd(s) + 1..]);
    } else if s != "" {
      assert s[..|s|] == s;
    }
  }

  lemma {:induction false} BodyHasNoEmptyLine(lines: seq<string>)
    ensures forall l :: l in lines[..BodyLength(lines)] ==> l != ""
  {
    if lines != [] && lines[0] != "" {
      BodyHasNoEmptyLine(lines[1..]);
      assert lines[..BodyLength(lines)] == [lines[0]] + lines[1..][..BodyLength(lines[1..])];
    }
  }

  /** Whatever the text, what the parser answers fits on lines. */
  lemma {:induction false} ParsedIsPrintable(lines: seq<string>)
    requires forall l :: l in lines ==> OneLine(l)
    ensures ParseSections(lines).Some? ==> Printable(ParseSections(lines).value)
    decreases |lines|
  {
    if lines != [] && IsHeader(lines[0]) && BodyLength(lines[1..]) + 1 < |lines| {
      var header, n := lines[0], BodyLength(lines[1..]);
      var rest := lines[n + 2..];
      assert header in lines && forall l :: l in rest ==> l in lines;
      ParsedIsPrintable(rest);
      BodyHasNoEmptyLine(lines[1..]);
      assert lines[1..n + 1] == lines[1..][..n];
      assert OneLine(header[1..|header| - 1]);
    }
  }

  /** INI round trip: parsing the printed text gives back exactly the sections, each with its sorted lines and the
      empty sections included, if and only if every name and line fits on a line and no line is empty. */
  lemma RoundTrip(m: Sections)
    ensures Parse(Printed(m)) == Some(WithSortedLines(m)) <==> Printable(m)
  {
    hide Printed, SplitLines, ParseSections, Sort;
    if Printable(m) {
      PrintableRoundTrip(m);
    }
    if Parse(Printed(m)) == Some(WithSortedLines(m)) {
      SplitLinesAreLines(Printed(m));
      ParsedIsPrintable(SplitLines(Printed(m)));
      forall k | k in m
        ensures OneLine(k) && forall l :: l in m[k] ==> OneLine(l) && l != ""
      {
        assert k in WithSortedLines(m);
        SortSorts(m[k]);
        PermutationKeepsMembers(Sort(m[k]), m[k]);
      }
    }
  }

  /** The section with the least name comes first, with its lines in ascending order. */
  lemma LeastSectionFirst(m: Sections, key: string)
    requires key in m && forall k :: k in m && k != key ==> exists n: nat :: ComesFirstAt(key, k, n)
    ensures Printed(m) == Text(["[" + key + "]"] + Sort(m[key]) + [""]) + Printed(m - {key})
    ensures Ascending(Sort(m[key])) && Permutation(Sort(m[key]), m[key])
  {
    hide Sort, SortedKeys, LinesOf, Text, IsSorted;
    SortAscends(m[key]);
    SortSorts(m[key]);
    var sorted, rest := SortedKeys(m.Keys), SortedKeys(m.Keys - {key});
    SortedKeysAre(m.Keys, sorted);
    SortedKeysAre(m.Keys - {key}, rest);
    LeastKeyFirst(m.Keys, key);
    assert sorted[1..] == rest;
    LinesOfFront(sorted, m);
    LinesOfOthers(rest, m, key);
    assert m.Keys - {key} == (m - {key}).Keys;
    TextAppend(SectionLines(key, m[key]), LinesOf(rest, m));
  }

  lemma LeastKeyFirst(keys: set<string>, key: string)
    requires key in keys && forall k :: k in keys && k != key ==> exists n: nat :: ComesFirstAt(key, k, n)
    ensures SortedKeys(keys) == [key] + SortedKeys(keys - {key})
  {
    var sorted := SortedKeys(keys);
    SortedKeysAre(keys, sorted);
    LeastIsFirst(sorted, key);
    var rest := sorted[1..];
    assert sorted == [key] + rest;
    RestEnumerates(sorted, keys);
    SortSorts(rest);
    AnyOrderSorts(rest, keys - {key});
    assert IsSorted(rest);
    hide SortedKeys, Sort, AtMost;
    SortedIsUnique(Sort(rest), rest);
  }

  lemma RestEnumerates(order: seq<string>, keys: set<string>)
    requires Enumerates(order, keys) && order != []
    ensures Enumerates(order[1..], keys - {order[0]})
  {
    assert order == [order[0]] + order[1..];
    assert forall i :: 1 <= i < |order| ==> order[0] != order[i];
  }

  lemma LeastIsFirst(sorted: seq<string>, key: string)
    requires IsSorted(sorted) && key in sorted
    requires forall k :: k in sorted && k != key ==> exists n: nat :: ComesFirstAt(key, k, n)
    ensures sorted[0] == key
  {
    StringsAreOrdered();
    var j :| 0 <= j < |sorted| && sorted[j] == key;
    StringOrder(key, sorted[0]);
    assert j > 0 ==> AtMost(sorted[0], key);
    assert sorted[0] in sorted;
    hide CompareString, ComesFirstAt;
    assert CompareString(key, sorted[0]) == -CompareString(sorted[0], key);
  }

  lemma {:induction false} LinesOfOthers(keys: seq<string>, m: Sections, key: string)
    requires key !in keys && forall k :: k in keys ==> k in m
    ensures LinesOf(keys, m) == LinesOf(keys, m - {key})
  {
    if keys != [] {
      LinesOfOthers(keys[..|keys| - 1], m, key);
      assert keys[|keys| - 1] in keys;
    }
  }

  ghost predicate SameSections(a: Sections, b: Sections) {
    a.Keys == b.Keys && forall k :: k in a ==> Permutation(a[k], b[k])
  }

  lemma {:induction false} SameLinesPrinted(keys: seq<string>, a: Sections, b: Sections)
    requires (forall k :: k in keys ==> k in a && k in b) && SameSections(a, b)
    ensures LinesOf(keys, a) == LinesOf(keys, b)
  {
    if keys != [] {
      var key := keys[|keys| - 1];
      assert key in keys;
      SameLinesPrinted(keys[..|keys| - 1], a, b);
      SortIsCanonical(a[key], b[key]);
    }
  }

  /** INI canonicity: two section maps print alike exactly when they have the same sections with the same lines,
      each line as often; so the hash of the text changes only with the configuration. */
  lemma PrintedIsCanonical(a: Sections, b: Sections)
    requires Printable(a) && Printable(b)
    ensures Printed(a) == Printed(b) <==> SameSections(a, b)
  {
    hide Sort, SortedKeys, LinesOf, Parse, Text;
    if SameSections(a, b) {
      SortedKeysAre(a.Keys, SortedKeys(a.Keys));
      SameLinesPrinted(SortedKeys(a.Keys), a, b);
    }
    if Printed(a) == Printed(b) {
      hide Printed;
      RoundTrip(a);
      RoundTrip(b);
      SortedAlikeIsSame(a, b);
    }
  }

  lemma SortedAlikeIsSame(a: Sections, b: Sections)
    requires WithSortedLines(a) == WithSortedLines(b)
    ensures SameSections(a, b)
  {
    hide Sort;
    assert a.Keys == WithSortedLines(a).Keys == WithSortedLines(b).Keys == b.Keys;
    forall k | k in a
      ensures Permutation(a[k], b[k])
    {
      assert WithSortedLines(a)[k] == WithSortedLines(b)[k];
      SortIsCanonical(a[k], b[k]);
    }
  }

  /** A line with a line break prints like two lines. */
  lemma LineBreakIsAmbiguous(k: string, x: string, y: string)
    requires AtMost(x, y)
    ensures Text(SectionLines(k, [x + "\n" + y])) == Text(SectionLines(k, [x, y]))
  {
    SortOne(x + "\n" + y);
    SortTwo(x, y);
    hide Sort;
    var header, one, two := "[" + k + "]", [x + "\n" + y] + [""], [x] + ([y] + [""]);
    assert SectionLines(k, [x + "\n" + y]) == [header] + one;
    assert SectionLines(k, [x, y]) == [header] + two;
    TextFront(header, one);
    TextFront(header, two);
    TextFront(x + "\n" + y, [""]);
    TextFront(x, [y] + [""]);
    TextFront(y, [""]);
    hide Text;
    Regroup(x, "\n", y, "\n" + Text([""]));
    assert Text(one) == Text(two);
  }

  lemma {:induction false} SameTextsPrinted(keys: seq<string>, a: Sections, b: Sections)
    requires forall k :: k in keys ==> k in a && k in b && Text(SectionLines(k, a[k])) == Text(SectionLines(k, b[k]))
    ensures Text(LinesOf(keys, a)) == Text(LinesOf(keys, b))
  {
    hide SectionLines, Text;
    if keys != [] {
      var rest, key := keys[..|keys| - 1], keys[|keys| - 1];
      assert key in keys;
      SameTextsPrinted(rest, a, b);
      TextAppend(LinesOf(rest, a), SectionLines(key, a[key]));
      TextAppend(LinesOf(rest, b), SectionLines(key, b[key]));
    }
  }

  /** Maps whose sections print alike print alike. */
  lemma SectionsPrintAlike(a: Sections, b: Sections)
    requires a.Keys == b.Keys && forall k :: k in a ==> Text(SectionLines(k, a[k])) == Text(SectionLines(k, b[k]))
    ensures Printed(a) == Printed(b)
  {
    hide SectionLines, Text, SortedKeys, LinesOf;
    SortedKeysAre(a.Keys, SortedKeys(a.Keys));
    SameTextsPrinted(SortedKeys(a.Keys), a, b);
  }

  lemma SortOne(x: string)
    ensures Sort([x]) == [x]
  {
  }

  lemma SortTwo(x: string, y: string)
    requires AtMost(x, y)
    ensures Sort([x, y]) == [x, y]
  {
    SortOne(x);
    assert [x, y][..1] == [x];
  }
}
