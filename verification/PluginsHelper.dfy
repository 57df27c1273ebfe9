/** The plugin helper: picking the latest requested versions, filtering them against the status of the
    Grafana resource, and rendering the installed ones for the init container. */
module PluginsHelper {
  import opened Wrappers
  import opened Seqs
  import opened PluginList

  /** The two plugin lists of the status of a Grafana resource. */
  datatype Status = Status(installed: seq<Plugin>, failed: seq<Plugin>)

  // ----- picking the latest versions -----

  /** The entries among the first `k` with no strictly newer entry of the same name. */
  ghost function Latest(parse: Parser, requested: seq<Plugin>, k: nat): seq<Plugin>
    requires k <= |requested|
  {
    if k == 0 then []
    else
      var latest := Latest(parse, requested, k - 1);
      if HasNewer(parse, requested, requested[k - 1]) then latest else latest + [requested[k - 1]]
  }

  /** The latest entries, or the whole list when some version is not semantic. */
  ghost function Picked(parse: Parser, requested: seq<Plugin>): seq<Plugin> {
    if AllParse(parse, requested) then Latest(parse, requested, |requested|) else requested
  }

  method PickLatestVersions(parse: Parser, requested: seq<Plugin>) returns (latest: seq<Plugin>, err: Option<string>)
    ensures latest == Picked(parse, requested)
    ensures err.None? <==> AllParse(parse, requested)
  {
    latest := [];
    for i := 0 to |requested|
      invariant latest == Latest(parse, requested, i)
      invariant forall j | 0 <= j < i :: Parses(parse, requested[j])
    {
      StumblesWithoutParse(parse, requested, requested[i]);
      var result := HasNewerVersionOf(parse, requested, requested[i]);
      if result.Failure? {
        return requested, Some(result.error);
      }
      if result.value {
        continue;
      }
      latest := latest + [requested[i]];
    }
    err := None;
  }

  ghost function Newest(parse: Parser, requested: seq<Plugin>): Plugin -> bool {
    p => !HasNewer(parse, requested, p)
  }

  lemma LatestNext(parse: Parser, requested: seq<Plugin>, k: nat)
    requires k < |requested|
    ensures Latest(parse, requested, k + 1) ==
      Latest(parse, requested, k) + if Newest(parse, requested)(requested[k]) then [requested[k]] else []
  {
    hide HasNewer;
  }

  lemma {:induction false} LatestFilters(parse: Parser, requested: seq<Plugin>, k: nat)
    requires k <= |requested|
    ensures Latest(parse, requested, k) == Filter(requested[..k], Newest(parse, requested))
  {
    hide Latest, Newest, Filter, HasNewer;
    if k == 0 {
      NothingLatest(parse, requested);
    } else {
      var j := k - 1;
      LatestNext(parse, requested, j);
      LatestFilters(parse, requested, j);
      FilterStep(requested, j, Newest(parse, requested));
      assert j + 1 == k;
    }
  }

  lemma NothingLatest(parse: Parser, requested: seq<Plugin>)
    ensures Latest(parse, requested, 0) == Filter(requested[..0], Newest(parse, requested))
  {
    hide HasNewer;
  }

  lemma PickedFilters(parse: Parser, requested: seq<Plugin>)
    requires AllParse(parse, requested)
    ensures Picked(parse, requested) == Filter(requested, Newest(parse, requested))
  {
    LatestFilters(parse, requested, |requested|);
    assert requested[..|requested|] == requested;
  }

  lemma PickedMembers(parse: Parser, requested: seq<Plugin>)
    ensures forall p :: p in Picked(parse, requested) ==> p in requested
    ensures AllParse(parse, requested) ==> AllParse(parse, Picked(parse, requested))
  {
    if AllParse(parse, requested) {
      PickedFilters(parse, requested);
    }
  }

  /** Picking keeps exactly the entries that no same-named entry beats, in the order of the request. */
  lemma PickedExactly(parse: Parser, requested: seq<Plugin>)
    requires AllParse(parse, requested)
    ensures Subsequence(Picked(parse, requested), requested)
    ensures forall p :: p in Picked(parse, requested) <==>
      && p in requested
      && forall q :: q in requested && q.name == p.name ==> Semver.Compare(parse(q.version).value, parse(p.version).value) <= 0
    ensures forall p, q :: p in Picked(parse, requested) && q in Picked(parse, requested) && p.name == q.name
              ==> Semver.Compare(parse(p.version).value, parse(q.version).value) == 0
  {
    PickedFilters(parse, requested);
    FilterIsSubsequence(requested, Newest(parse, requested));
    forall p, q | p in requested && q in requested && q.name == p.name
      ensures NewerThan(parse, q, p) <==> !(Semver.Compare(parse(q.version).value, parse(p.version).value) <= 0)
    {
      Semver.PrecedenceIsTotal(parse(q.version).value, parse(p.version).value);
    }
    forall p, q | p in Picked(parse, requested) && q in Picked(parse, requested) && p.name == q.name
      ensures Semver.Compare(parse(p.version).value, parse(q.version).value) == 0
    {
      assert !NewerThan(parse, q, p) && !NewerThan(parse, p, q);
      Semver.PrecedenceIsTotal(parse(p.version).value, parse(q.version).value);
    }
  }

  /** Every name has an entry that no other entry of the name beats. */
  lemma {:induction false} NewestExists(parse: Parser, l: seq<Plugin>, p: Plugin) returns (best: Plugin)
    ensures best == p || best in l
    ensures best.name == p.name
    ensures best == p || NewerThan(parse, best, p)
    ensures !HasNewer(parse, l, best)
  {
    if l == [] {
      best := p;
    } else {
      var last := l[|l| - 1];
      assert l == l[..|l| - 1] + [last];
      best := NewestExists(parse, l[..|l| - 1], p);
      if NewerThan(parse, last, best) {
        forall q | q in l[..|l| - 1]
          ensures !NewerThan(parse, q, last)
        {
          if NewerThan(parse, q, last) {
            NewerThanTransitive(parse, q, last, best);
          }
        }
        Semver.PrecedenceIsTotal(parse(last.version).value, parse(last.version).value);
        if best != p {
          NewerThanTransitive(parse, last, best, p);
        }
        best := last;
      }
    }
  }

  lemma NewerThanTransitive(parse: Parser, a: Plugin, b: Plugin, c: Plugin)
    requires NewerThan(parse, a, b) && NewerThan(parse, b, c)
    ensures NewerThan(parse, a, c)
  {
    Semver.NewerIsTransitive(parse(a.version).value, parse(b.version).value, parse(c.version).value);
  }

  /** No requested name is lost, and none is invented. */
  lemma PickedKeepsNames(parse: Parser, requested: seq<Plugin>, name: string)
    ensures HasName(Picked(parse, requested), name) <==> HasName(requested, name)
  {
    if AllParse(parse, requested) {
      PickedFilters(parse, requested);
    }
    if AllParse(parse, requested) && HasName(requested, name) {
      var p :| p in requested && p.name == name;
      var best := NewestExists(parse, requested, p);
      assert best in Picked(parse, requested);
    }
  }

  lemma PickedIsIdempotent(parse: Parser, requested: seq<Plugin>)
    ensures Picked(parse, Picked(parse, requested)) == Picked(parse, requested)
  {
    var picked := Picked(parse, requested);
    PickedMembers(parse, requested);
    if AllParse(parse, requested) {
      PickedFilters(parse, requested);
      PickedFilters(parse, picked);
      FilterKeepsAll(picked, Newest(parse, picked));
    }
  }

  lemma PickedPermutes(parse: Parser, a: seq<Plugin>, b: seq<Plugin>)
    requires Permutation(a, b)
    ensures Permutation(Picked(parse, a), Picked(parse, b))
  {
    PermutationKeepsMembers(a, b);
    if AllParse(parse, a) {
      PickedFilters(parse, a);
      PickedFilters(parse, b);
      FilterPermutes(a, b, Newest(parse, a));
      FilterAgrees(b, Newest(parse, a), Newest(parse, b));
    }
  }

  // ----- filtering against the status -----

  /** The status alone does not stand against the entry: it has not failed before, and it is installed as is,
      or its name is new, or it is the only request for its name. */
  ghost predicate Wanted(st: Status, picked: seq<Plugin>, p: Plugin) {
    && p !in st.failed
    && (p in st.installed || !HasName(st.installed, p.name) || Entries(picked, p.name) == 1)
  }

  /** The filtered list: the first wanted entry of each name, in the order of the picked list. */
  ghost function Kept(st: Status, picked: seq<Plugin>, k: nat): seq<Plugin>
    requires k <= |picked|
  {
    if k == 0 then []
    else
      var kept := Kept(st, picked, k - 1);
      var p := picked[k - 1];
      if !HasName(kept, p.name) && Wanted(st, picked, p) then kept + [p] else kept
  }

  ghost function Filtered(st: Status, picked: seq<Plugin>): seq<Plugin> {
    Kept(st, picked, |picked|)
  }

  /** The entry asks for a plugin to be installed or changed. */
  ghost predicate Triggers(st: Status, picked: seq<Plugin>, p: Plugin) {
    && p !in st.failed
    && p !in st.installed
    && (!HasName(st.installed, p.name) || Entries(picked, p.name) == 1)
  }

  /** When a round reports an update, with no reference to the order of the list. */
  ghost predicate Updated(st: Status, picked: seq<Plugin>) {
    || (exists p :: p in picked && Triggers(st, picked, p))
    || (exists q :: q in st.installed && !HasName(picked, q.name))
  }

  /** Nothing is installed that nobody requests; every requested plugin has failed or is installed in some version, and
      in exactly its own when it is the only request for its name. */
  ghost predicate UpToDate(st: Status, picked: seq<Plugin>) {
    && (forall q :: q in st.installed ==> HasName(picked, q.name))
    && (forall p :: p in picked && p !in st.failed ==> HasName(st.installed, p.name))
    && (forall p :: p in picked && p !in st.failed && Entries(picked, p.name) == 1 ==> p in st.installed)
  }

  lemma UpdatedIffNotUpToDate(st: Status, picked: seq<Plugin>)
    ensures Updated(st, picked) <==> !UpToDate(st, picked)
  {
  }

  ghost predicate NameUnique(l: seq<Plugin>) {
    forall i, j :: 0 <= i < j < |l| ==> l[i].name != l[j].name
  }

  method FilterPlugins(parse: Parser, st: Status, requested: seq<Plugin>) returns (filtered: seq<Plugin>, updated: bool)
    ensures filtered == Filtered(st, Picked(parse, requested))
    ensures updated <==> Updated(st, Picked(parse, requested))
    ensures updated <==> !UpToDate(st, Picked(parse, requested))
  {
    UpdatedIffNotUpToDate(st, Picked(parse, requested));
    filtered, updated := [], false;
    var picked, _ := PickLatestVersions(parse, requested);
    if |picked| == 0 && |st.installed| > 0 {
      assert st.installed[0] in st.installed && !HasName(picked, st.installed[0].name);
      return [], true;
    }
    hide Picked;
    for i := 0 to |picked|
      invariant filtered == Kept(st, picked, i)
      invariant updated <==> exists j :: 0 <= j < i && Triggers(st, picked, picked[j])
    {
      var p := picked[i];
      var listed := HasSomeVersionOf(filtered, p);
      if listed {
        var installedVersion := GetInstalledVersionOf(filtered, p);
        ghost var j := EarlierEntryTriggers(st, picked, i);
        continue;
      }
      var hasFailed := HasExactVersionOf(st.failed, p);
      if hasFailed {
        continue;
      }
      var isInstalled := HasExactVersionOf(st.installed, p);
      if isInstalled {
        filtered := filtered + [p];
        continue;
      }
      var someInstalled := HasSomeVersionOf(st.installed, p);
      if !someInstalled {
        filtered := filtered + [p];
        updated := true;
        assert Triggers(st, picked, p);
        continue;
      }
      var versions := VersionsOf(picked, p);
      if someInstalled && !isInstalled && versions == 1 {
        filtered := filtered + [p];
        updated := true;
        assert Triggers(st, picked, p);
        continue;
      }
    }
    assert updated <==> exists p :: p in picked && Triggers(st, picked, p);
    var removed := AnyRemoved(st.installed, picked);
    if removed {
      updated := true;
    }
  }

  /** Whether some installed plugin is no longer requested in any version. */
  method AnyRemoved(installed: seq<Plugin>, picked: seq<Plugin>) returns (removed: bool)
    ensures removed <==> exists q :: q in installed && !HasName(picked, q.name)
  {
    removed := false;
    for i := 0 to |installed|
      invariant removed <==> exists j :: 0 <= j < i && !HasName(picked, installed[j].name)
    {
      var requestedStill := HasSomeVersionOf(picked, installed[i]);
      if !requestedStill {
        removed := true;
      }
    }
  }

  lemma {:induction false} KeptMembersAreWanted(st: Status, picked: seq<Plugin>, k: nat)
    requires k <= |picked|
    ensures forall p :: p in Kept(st, picked, k) ==> p in picked[..k] && Wanted(st, picked, p)
  {
    if k > 0 {
      KeptMembersAreWanted(st, picked, k - 1);
      assert picked[..k] == picked[..k - 1] + [picked[k - 1]];
    }
  }

  /** A name is kept exactly when some wanted entry carries it. */
  lemma {:induction false} KeptFromEarlier(st: Status, picked: seq<Plugin>, k: nat, name: string)
    requires k <= |picked|
    ensures HasName(Kept(st, picked, k), name)
       <==> exists j :: 0 <= j < k && picked[j].name == name && Wanted(st, picked, picked[j])
  {
    if k > 0 {
      var kept, p := Kept(st, picked, k - 1), picked[k - 1];
      KeptFromEarlier(st, picked, k - 1, name);
      HasNameAppend(kept, p, name);
    }
  }

  /** An entry whose name is already kept has an earlier entry that triggers whenever it does. */
  lemma EarlierEntryTriggers(st: Status, picked: seq<Plugin>, i: nat) returns (j: nat)
    requires i < |picked| && HasName(Kept(st, picked, i), picked[i].name)
    ensures j < i && (Triggers(st, picked, picked[i]) ==> Triggers(st, picked, picked[j]))
  {
    KeptFromEarlier(st, picked, i, picked[i].name);
    j :| 0 <= j < i && picked[j].name == picked[i].name && Wanted(st, picked, picked[j]);
    TwoEntries(picked, j, i);
  }

  lemma HasNameAppend(l: seq<Plugin>, p: Plugin, name: string)
    ensures HasName(l + [p], name) <==> HasName(l, name) || p.name == name
  {
  }

  lemma {:induction false} KeptIsNameUnique(st: Status, picked: seq<Plugin>, k: nat)
    requires k <= |picked|
    ensures NameUnique(Kept(st, picked, k))
    ensures Subsequence(Kept(st, picked, k), picked[..k])
  {
    if k > 0 {
      KeptIsNameUnique(st, picked, k - 1);
      var kept, p := Kept(st, picked, k - 1), picked[k - 1];
      assert picked[..k][..k - 1] == picked[..k - 1];
      assert (kept + [p])[..|kept|] == kept;
      assert forall q :: q in kept && !HasName(kept, p.name) ==> q.name != p.name;
    }
  }

  /** The filtered list is a name-unique subsequence of the picked list that avoids everything that failed. */
  lemma FilteredExactly(st: Status, picked: seq<Plugin>)
    ensures NameUnique(Filtered(st, picked))
    ensures Subsequence(Filtered(st, picked), picked)
    ensures forall p :: p in Filtered(st, picked) ==> p in picked && Wanted(st, picked, p)
    ensures forall n :: HasName(Filtered(st, picked), n) <==> exists p :: p in picked && p.name == n && Wanted(st, picked, p)
  {
    assert picked[..|picked|] == picked;
    KeptIsNameUnique(st, picked, |picked|);
    KeptMembersAreWanted(st, picked, |picked|);
    forall n
      ensures HasName(Filtered(st, picked), n) <==> exists p :: p in picked && p.name == n && Wanted(st, picked, p)
    {
      KeptFromEarlier(st, picked, |picked|, n);
    }
  }

  /** Which requested plugins the filter lets through, when no name is installed twice. One that has failed never; one
      that is installed, or the only request for its name, whenever it has not failed; of several requests for a name
      none of which is installed, the first that has not failed if the name is new, and none if it is not. */
  lemma FilterDecides(st: Status, picked: seq<Plugin>, i: nat)
    requires NameUnique(st.installed) && i < |picked|
    ensures
      var p := picked[i];
      var first := forall j :: 0 <= j < i && picked[j].name == p.name ==> picked[j] in st.failed;
      && (p in st.failed ==> p !in Filtered(st, picked))
      && (p in st.installed && p !in st.failed ==> p in Filtered(st, picked))
      && (Entries(picked, p.name) == 1 && p !in st.failed ==> p in Filtered(st, picked))
      && (!HasName(st.installed, p.name) && p !in st.failed && first ==> p in Filtered(st, picked))
      && (!HasName(st.installed, p.name) && !first && p !in picked[..i] ==> p !in Filtered(st, picked))
      && (p !in st.installed && HasName(st.installed, p.name) && Entries(picked, p.name) != 1 ==> p !in Filtered(st, picked))
  {
    var p := picked[i];
    FilteredExactly(st, picked);
    if p !in st.failed && (p in st.installed || Entries(picked, p.name) == 1) {
      assert Wanted(st, picked, p);
      assert HasName(Filtered(st, picked), p.name);
      var q :| q in Filtered(st, picked) && q.name == p.name;
      if Entries(picked, p.name) == 1 {
        SoleEntry(picked, p, q);
      } else {
        assert q in st.installed;
        SameNameSamePlugin(st.installed, p, q);
      }
    }
    if !HasName(st.installed, p.name) {
      NewNameDecides(st, picked, i);
    }
  }

  lemma NewNameDecides(st: Status, picked: seq<Plugin>, i: nat)
    requires i < |picked| && !HasName(st.installed, picked[i].name)
    ensures
      var p := picked[i];
      var first := forall j :: 0 <= j < i && picked[j].name == p.name ==> picked[j] in st.failed;
      && (p !in st.failed && first ==> p in Filtered(st, picked))
      && (!first && p !in picked[..i] ==> p !in Filtered(st, picked))
  {
    var p := picked[i];
    KeptFromEarlier(st, picked, i, p.name);
    KeptGrows(st, picked, i, |picked|);
    KeptGrows(st, picked, i + 1, |picked|);
    if HasName(Kept(st, picked, i), p.name) {
      var q :| q in Kept(st, picked, i) && q.name == p.name;
      KeptMembersAreWanted(st, picked, i);
      KeptIsNameUnique(st, picked, |picked|);
      if p in Filtered(st, picked) {
        SameNameSamePlugin(Filtered(st, picked), p, q);
      }
    } else {
      assert forall j :: 0 <= j < i && picked[j].name == p.name && picked[j] !in st.failed ==> Wanted(st, picked, picked[j]);
    }
  }

  lemma {:induction false} KeptGrows(st: Status, picked: seq<Plugin>, k: nat, n: nat)
    requires k <= n <= |picked|
    ensures forall p :: p in Kept(st, picked, k) ==> p in Kept(st, picked, n)
  {
    if k < n {
      KeptGrows(st, picked, k, n - 1);
    }
  }

  lemma SameNameSamePlugin(l: seq<Plugin>, p: Plugin, q: Plugin)
    requires NameUnique(l) && p in l && q in l && p.name == q.name
    ensures p == q
  {
    var i :| 0 <= i < |l| && l[i] == p;
    var j :| 0 <= j < |l| && l[j] == q;
    assert i < j || j < i || i == j;
  }

  /** What a list says about a status does not depend on the order of the list. */
  lemma ListOrderIrrelevant(st: Status, a: seq<Plugin>, b: seq<Plugin>)
    requires Permutation(a, b)
    ensures Updated(st, a) <==> Updated(st, b)
    ensures forall p :: Wanted(st, a, p) <==> Wanted(st, b, p)
    ensures forall n :: HasName(Filtered(st, a), n) <==> HasName(Filtered(st, b), n)
  {
    PermutationKeepsMembers(a, b);
    forall n ensures Entries(a, n) == Entries(b, n) {
      EntriesPermute(a, b, n);
    }
    assert forall n :: HasName(a, n) <==> HasName(b, n);
    assert forall p :: Triggers(st, a, p) <==> Triggers(st, b, p);
    assert forall p :: Wanted(st, a, p) <==> Wanted(st, b, p);
    FilteredExactly(st, a);
    FilteredExactly(st, b);
  }

  /** Whether a round reports an update, and which names it keeps, does not depend on the order of the request. */
  lemma UpdatedIgnoresOrder(parse: Parser, st: Status, a: seq<Plugin>, b: seq<Plugin>)
    requires Permutation(a, b)
    ensures Updated(st, Picked(parse, a)) <==> Updated(st, Picked(parse, b))
    ensures forall n :: HasName(Filtered(st, Picked(parse, a)), n) <==> HasName(Filtered(st, Picked(parse, b)), n)
  {
    PickedPermutes(parse, a, b);
    ListOrderIrrelevant(st, Picked(parse, a), Picked(parse, b));
  }

  // ----- the init container's list -----

  function Join(parts: seq<string>, separator: string): string {
    if parts == [] then ""
    else if |parts| == 1 then parts[0]
    else Join(parts[..|parts| - 1], separator) + separator + parts[|parts| - 1]
  }

  function Rendered(p: Plugin): string {
    p.name + ":" + p.version
  }

  function Env(installed: seq<Plugin>): string {
    Join(seq(|installed|, i requires 0 <= i < |installed| => Rendered(installed[i])), ",")
  }

  /** Joins the installed plugins for the init container; `ParsedEnv` reads the string back. */
  method BuildEnv(installed: seq<Plugin>) returns (r: string)
    ensures r == Env(installed)
    ensures ParsedEnv(r) == installed <==> Expressible(installed)
  {
    var env: seq<string> := [];
    for i := 0 to |installed|
      invariant |env| == i
      invariant forall j | 0 <= j < i :: env[j] == Rendered(installed[j])
    {
      env := env + [installed[i].name + ":" + installed[i].version];
    }
    assert env == seq(|installed|, i requires 0 <= i < |installed| => Rendered(installed[i]));
    r := Join(env, ",");
    EnvRoundTrip(installed);
  }

  // ----- reading the list back -----

  /** The pieces between the separators. */
  function Pieces(s: string, separator: char): (r: seq<string>)
    ensures r != []
  {
    if s == "" then [""]
    else
      var rest := Pieces(s[1..], separator);
      if s[0] == separator then [""] + rest else [[s[0]] + rest[0]] + rest[1..]
  }

  /** Name and version, parted at the first colon. */
  function AtColon(s: string): Plugin {
    if s == "" then Plugin("", "")
    else if s[0] == ':' then Plugin("", s[1..])
    else var p := AtColon(s[1..]); p.(name := [s[0]] + p.name)
  }

  function ParsedEnv(s: string): seq<Plugin> {
    if s == "" then []
    else
      var pieces := Pieces(s, ',');
      seq(|pieces|, i requires 0 <= i < |pieces| => AtColon(pieces[i]))
  }

  /** Names free of commas and colons, and versions free of commas. */
  ghost predicate Expressible(l: seq<Plugin>) {
    forall p :: p in l ==> ',' !in p.name && ':' !in p.name && ',' !in p.version
  }

  lemma {:induction false} PiecesHaveNoSeparator(s: string, separator: char)
    ensures forall piece :: piece in Pieces(s, separator) ==> separator !in piece
  {
    if s != "" {
      PiecesHaveNoSeparator(s[1..], separator);
      assert Pieces(s[1..], separator)[0] in Pieces(s[1..], separator);
    }
  }

  lemma {:induction false} OnePiece(s: string, separator: char)
    requires separator !in s
    ensures Pieces(s, separator) == [s]
  {
    if s != "" {
      assert s[0] in s && forall c :: c in s[1..] ==> c in s;
      OnePiece(s[1..], separator);
      assert [s[0]] + s[1..] == s;
    }
  }

  /** A last piece behind a separator. */
  lemma {:induction false} LastPiece(front: string, last: string, separator: char)
    requires separator !in last
    ensures Pieces(front + [separator] + last, separator) == Pieces(front, separator) + [last]
  {
    var s := front + [separator] + last;
    if front == "" {
      assert s[0] == separator && s[1..] == last;
      OnePiece(last, separator);
    } else {
      assert s[0] == front[0] && s[1..] == front[1..] + [separator] + last;
      LastPiece(front[1..], last, separator);
    }
  }

  lemma {:induction false} JoinedPieces(parts: seq<string>)
    requires parts != [] && forall part :: part in parts ==> ',' !in part
    ensures Pieces(Join(parts, ","), ',') == parts
  {
    assert parts[|parts| - 1] in parts;
    if |parts| == 1 {
      OnePiece(parts[0], ',');
    } else {
      var front, last := parts[..|parts| - 1], parts[|parts| - 1];
      JoinedPieces(front);
      LastPiece(Join(front, ","), last, ',');
      assert parts == front + [last];
    }
  }

  lemma {:induction false} ColonParts(name: string, version: string)
    requires ':' !in name
    ensures AtColon(name + ":" + version) == Plugin(name, version)
  {
    var s := name + ":" + version;
    if name == "" {
      assert s[0] == ':' && s[1..] == version;
    } else {
      assert name[0] in name && forall c :: c in name[1..] ==> c in name;
      assert s[0] == name[0] && s[1..] == name[1..] + ":" + version;
      ColonParts(name[1..], version);
    }
  }

  lemma {:induction false} PartedIsClean(s: string)
    ensures ':' !in AtColon(s).name
    ensures ',' !in s ==> ',' !in AtColon(s).name && ',' !in AtColon(s).version
  {
    if s != "" {
      PartedIsClean(s[1..]);
      assert s[0] in s && forall c :: c in s[1..] ==> c in s;
    }
  }

  lemma {:induction false} JoinIsNotEmpty(parts: seq<string>)
    requires parts != [] && forall part :: part in parts ==> part != ""
    ensures Join(parts, ",") != ""
  {
    assert parts[0] in parts;
  }

  /** The init container's list says what is installed, in order, if and only if no name holds a comma or a colon and
      no version a comma. */
  lemma EnvRoundTrip(installed: seq<Plugin>)
    ensures ParsedEnv(Env(installed)) == installed <==> Expressible(installed)
  {
    var env := Env(installed);
    var parts := seq(|installed|, i requires 0 <= i < |installed| => Rendered(installed[i]));
    if Expressible(installed) {
      if installed != [] {
        forall i | 0 <= i < |parts|
          ensures ',' !in parts[i] && parts[i] != "" && AtColon(parts[i]) == installed[i]
        {
          assert installed[i] in installed;
          ColonParts(installed[i].name, installed[i].version);
        }
        JoinedPieces(parts);
        JoinIsNotEmpty(parts);
        hide Pieces, AtColon, Join;
        assert ParsedEnv(env) == installed;
      }
    }
    if ParsedEnv(env) == installed {
      ParsedIsExpressible(env);
    }
  }

  lemma ParsedIsExpressible(s: string)
    ensures Expressible(ParsedEnv(s))
  {
    if s != "" {
      var pieces := Pieces(s, ',');
      PiecesHaveNoSeparator(s, ',');
      forall i | 0 <= i < |pieces|
        ensures ',' !in AtColon(pieces[i]).name && ':' !in AtColon(pieces[i]).name && ',' !in AtColon(pieces[i]).version
      {
        assert pieces[i] in pieces;
        PartedIsClean(pieces[i]);
      }
    }
  }

  /** So the string changes exactly when the list does. */
  lemma EnvIsInjective(a: seq<Plugin>, b: seq<Plugin>)
    requires Expressible(a) && Expressible(b)
    ensures Env(a) == Env(b) <==> a == b
  {
    EnvRoundTrip(a);
    EnvRoundTrip(b);
  }
}
