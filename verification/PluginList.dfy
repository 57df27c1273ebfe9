/** `PluginList` of the custom resource API: searches by name, by exact version and by newer version. */
module PluginList {
  import opened Wrappers
  import opened Seqs
  import Semver

  datatype Plugin = Plugin(name: string, version: string)

  /** Version parsing: no value for a string that is not a semantic version. */
  type Parser = string -> Option<Semver.Version>

  ghost predicate HasName(l: seq<Plugin>, name: string) {
    exists p :: p in l && p.name == name
  }

  /** How many entries of the list carry the name. Entries are counted, not versions. */
  function Entries(l: seq<Plugin>, name: string): nat {
    if l == [] then 0
    else Entries(l[..|l| - 1], name) + if l[|l| - 1].name == name then 1 else 0
  }

  predicate Parses(parse: Parser, p: Plugin) {
    parse(p.version).Some?
  }

  ghost predicate AllParse(parse: Parser, l: seq<Plugin>) {
    forall p :: p in l ==> Parses(parse, p)
  }

  predicate NewerThan(parse: Parser, q: Plugin, p: Plugin) {
    && q.name == p.name
    && Parses(parse, q) && Parses(parse, p)
    && Semver.Newer(parse(q.version).value, parse(p.version).value)
  }

  ghost predicate HasNewer(parse: Parser, l: seq<Plugin>, p: Plugin) {
    exists q :: q in l && NewerThan(parse, q, p)
  }

  method HasSomeVersionOf(l: seq<Plugin>, plugin: Plugin) returns (found: bool)
    ensures found <==> HasName(l, plugin.name)
  {
    for i := 0 to |l|
      invariant forall j | 0 <= j < i :: l[j].name != plugin.name
    {
      if l[i].name == plugin.name {
        return true;
      }
    }
    return false;
  }

  /** The first entry with the name, whatever its version. */
  method GetInstalledVersionOf(l: seq<Plugin>, plugin: Plugin) returns (r: Option<Plugin>)
    ensures r.Some? <==> HasName(l, plugin.name)
    ensures r.Some? ==>
      exists i :: 0 <= i < |l| && r.value == l[i] && l[i].name == plugin.name &&
                  forall j :: 0 <= j < i ==> l[j].name != plugin.name
  {
    for i := 0 to |l|
      invariant forall j | 0 <= j < i :: l[j].name != plugin.name
    {
      if l[i].name == plugin.name {
        return Some(l[i]);
      }
    }
    return None;
  }

  method HasExactVersionOf(l: seq<Plugin>, plugin: Plugin) returns (found: bool)
    ensures found <==> plugin in l
  {
    for i := 0 to |l|
      invariant plugin !in l[..i]
    {
      if l[i].name == plugin.name && l[i].version == plugin.version {
        assert l[i] == plugin;
        return true;
      }
    }
    return false;
  }

  /** A same-named entry that cannot be compared with the plugin comes before any newer one. */
  ghost predicate Stumbles(parse: Parser, l: seq<Plugin>, plugin: Plugin) {
    exists i :: 0 <= i < |l| && l[i].name == plugin.name && (!Parses(parse, l[i]) || !Parses(parse, plugin)) &&
                forall j :: 0 <= j < i ==> !NewerThan(parse, l[j], plugin)
  }

  method HasNewerVersionOf(parse: Parser, l: seq<Plugin>, plugin: Plugin) returns (r: Result<bool, string>)
    ensures r.Failure? <==> Stumbles(parse, l, plugin)
    ensures r.Success? ==> (r.value <==> HasNewer(parse, l, plugin))
  {
    for i := 0 to |l|
      invariant forall j | 0 <= j < i && l[j].name == plugin.name ::
        Parses(parse, l[j]) && Parses(parse, plugin) && !NewerThan(parse, l[j], plugin)
    {
      if l[i].name != plugin.name {
        continue;
      }
      var listedVersion := parse(l[i].version);
      if listedVersion.None? {
        return Failure("invalid version " + l[i].version);
      }
      var requestedVersion := parse(plugin.version);
      if requestedVersion.None? {
        return Failure("invalid version " + plugin.version);
      }
      if Semver.Compare(listedVersion.value, requestedVersion.value) == 1 {
        assert l[i] in l && NewerThan(parse, l[i], plugin);
        return Success(true);
      }
    }
    return Success(false);
  }

  /** An entry of the list that does not parse is itself a stumbling block, and there is no other kind. */
  lemma StumblesWithoutParse(parse: Parser, l: seq<Plugin>, plugin: Plugin)
    requires plugin in l
    ensures !Parses(parse, plugin) ==> Stumbles(parse, l, plugin)
    ensures Stumbles(parse, l, plugin) ==> !AllParse(parse, l)
  {
  }

  method VersionsOf(l: seq<Plugin>, plugin: Plugin) returns (n: nat)
    ensures n == Entries(l, plugin.name)
  {
    n := 0;
    for i := 0 to |l|
      invariant n == Entries(l[..i], plugin.name)
    {
      assert l[..i + 1][..i] == l[..i];
      if l[i].name == plugin.name {
        n := n + 1;
      }
    }
    assert l[..|l|] == l;
  }

  lemma {:induction false} EntriesAreFiltered(l: seq<Plugin>, name: string)
    ensures Entries(l, name) == |Filter(l, (p: Plugin) => p.name == name)|
  {
    if l != [] {
      EntriesAreFiltered(l[..|l| - 1], name);
      FilterAgrees(l[..|l| - 1], (p: Plugin) => p.name == name, (p: Plugin) => p.name == name);
    }
  }

  lemma EntriesPermute(a: seq<Plugin>, b: seq<Plugin>, name: string)
    requires Permutation(a, b)
    ensures Entries(a, name) == Entries(b, name)
  {
    var named := (p: Plugin) => p.name == name;
    EntriesAreFiltered(a, name);
    EntriesAreFiltered(b, name);
    FilterPermutes(a, b, named);
    PermutationKeepsMembers(Filter(a, named), Filter(b, named));
  }

  lemma {:induction false} EntriesOfPrefix(l: seq<Plugin>, k: nat, name: string)
    requires k <= |l|
    ensures Entries(l[..k], name) <= Entries(l, name)
    decreases |l|
  {
    if k < |l| {
      EntriesOfPrefix(l[..|l| - 1], k, name);
      assert l[..|l| - 1][..k] == l[..k];
    } else {
      assert l[..k] == l;
    }
  }

  lemma EntryCounts(l: seq<Plugin>, i: nat)
    requires i < |l|
    ensures Entries(l, l[i].name) >= Entries(l[..i], l[i].name) + 1
  {
    EntriesOfPrefix(l, i + 1, l[i].name);
    assert l[..i + 1][..i] == l[..i];
  }

  /** Two positions with the same name are two entries. */
  lemma TwoEntries(l: seq<Plugin>, i: nat, j: nat)
    requires i < j < |l| && l[i].name == l[j].name
    ensures Entries(l, l[i].name) >= 2
  {
    EntryCounts(l, j);
    EntryCounts(l[..j], i);
  }

  /** A name that occurs once identifies its entry. */
  lemma SoleEntry(l: seq<Plugin>, p: Plugin, q: Plugin)
    requires p in l && q in l && p.name == q.name && Entries(l, p.name) == 1
    ensures p == q
  {
    var i :| 0 <= i < |l| && l[i] == p;
    var j :| 0 <= j < |l| && l[j] == q;
    if i < j {
      TwoEntries(l, i, j);
    } else if j < i {
      TwoEntries(l, j, i);
    }
  }
}
