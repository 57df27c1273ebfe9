/** The process-wide registry of known dashboards and requested plugins, and the map it stands for. */
module ControllerConfig {
  import opened Wrappers
  import opened Seqs
  import opened PluginList

  /** A dashboard resource: its identity, what `UID()` and `Hash()` compute from it, and its spec. */
  datatype Dashboard = Dashboard(
    name: string, namespace: string, uid: string, hash: string, customFolder: string, plugins: seq<Plugin>)

  /** What the registry remembers of a submitted dashboard. */
  datatype DashboardRef = DashboardRef(
    name: string, namespace: string, uid: string, hash: string, folderId: int, folderName: string)

  /** Namespace and name, which the source joins with a slash. */
  datatype Key = Key(namespace: string, name: string)

  function KeyOf(d: Dashboard): Key {
    Key(d.namespace, d.name)
  }

  function RefKey(r: DashboardRef): Key {
    Key(r.namespace, r.name)
  }

  function DashboardId(k: Key): string {
    k.namespace + "/" + k.name
  }

  /** Namespaces are free of slashes, so the joined identifier is as good as the pair. */
  lemma {:induction false} DashboardIdIsInjective(a: Key, b: Key)
    requires '/' !in a.namespace && '/' !in b.namespace
    ensures DashboardId(a) == DashboardId(b) <==> a == b
  {
    if DashboardId(a) == DashboardId(b) {
      var id := DashboardId(a);
      var i, j := |a.namespace|, |b.namespace|;
      assert id[i] == '/' && id[j] == '/';
      assert forall k :: 0 <= k < i ==> id[k] == a.namespace[k];
      assert forall k :: 0 <= k < j ==> id[k] == b.namespace[k];
      assert a.namespace == id[..i] && b.namespace == id[..j];
      assert a.name == id[i + 1..] && b.name == id[j + 1..];
    }
  }

  // ----- the slice of references, on values -----

  function Index(refs: seq<DashboardRef>, uid: string): (r: Option<nat>)
    ensures r.Some? ==> r.value < |refs| && refs[r.value].uid == uid && forall j :: 0 <= j < r.value ==> refs[j].uid != uid
    ensures r.None? ==> forall j :: 0 <= j < |refs| ==> refs[j].uid != uid
  {
    if refs == [] then None
    else
      var i := Index(refs[..|refs| - 1], uid);
      if i.Some? then i
      else if refs[|refs| - 1].uid == uid then Some(|refs| - 1)
      else None
  }

  /** A new reference records the custom folder name of the resource; a replaced one the actual folder name. */
  function NewRef(d: Dashboard, folderId: int, folderName: string): DashboardRef {
    DashboardRef(d.name, d.namespace, d.uid, d.hash, folderId, folderName)
  }

  function Added(refs: seq<DashboardRef>, d: Dashboard, folderId: int, folderName: string): seq<DashboardRef> {
    match Index(refs, d.uid)
    case None => refs + [NewRef(d, folderId, d.customFolder)]
    case Some(i) => refs[i := NewRef(d, folderId, folderName)]
  }

  /** Swap-removal: the last reference takes the place of the removed one. */
  function Removed(refs: seq<DashboardRef>, uid: string): seq<DashboardRef> {
    match Index(refs, uid)
    case None => refs
    case Some(i) => refs[i := refs[|refs| - 1]][..|refs| - 1]
  }

  /** The first reference with a UID: it is overwritten in place under the actual folder name, or replaced by the last
      one; the others stay where they are. */
  lemma FirstReference(refs: seq<DashboardRef>, i: nat, d: Dashboard, folderId: int, folderName: string)
    requires i < |refs| && refs[i].uid == d.uid && forall j :: 0 <= j < i ==> refs[j].uid != d.uid
    ensures |Added(refs, d, folderId, folderName)| == |refs| && |Removed(refs, d.uid)| == |refs| - 1
    ensures Added(refs, d, folderId, folderName)[i] == DashboardRef(d.name, d.namespace, d.uid, d.hash, folderId, folderName)
    ensures i < |refs| - 1 ==> Removed(refs, d.uid)[i] == refs[|refs| - 1]
    ensures forall j :: 0 <= j < |refs| && j != i ==> Added(refs, d, folderId, folderName)[j] == refs[j]
    ensures forall j :: 0 <= j < |refs| - 1 && j != i ==> Removed(refs, d.uid)[j] == refs[j]
  {
  }

  /** Without one, a reference under the custom folder name goes to the end, and removal does nothing. */
  lemma NoReference(refs: seq<DashboardRef>, d: Dashboard, folderId: int, folderName: string)
    requires forall r :: r in refs ==> r.uid != d.uid
    ensures Added(refs, d, folderId, folderName) ==
      refs + [DashboardRef(d.name, d.namespace, d.uid, d.hash, folderId, d.customFolder)]
    ensures Removed(refs, d.uid) == refs
  {
  }

  function Invalidated(refs: seq<DashboardRef>): (r: seq<DashboardRef>)
    ensures |r| == |refs| && forall i :: 0 <= i < |refs| ==> r[i] == refs[i].(hash := "")
  {
    seq(|refs|, i requires 0 <= i < |refs| => refs[i].(hash := ""))
  }

  ghost predicate UniqueUids(refs: seq<DashboardRef>) {
    forall i, j :: 0 <= i < j < |refs| ==> refs[i].uid != refs[j].uid
  }

  // ----- the map it stands for -----

  ghost function AsMap(refs: seq<DashboardRef>): map<string, DashboardRef>
    requires UniqueUids(refs)
  {
    map r | r in refs :: r.uid := r
  }

  datatype Call = Add(d: Dashboard, folderId: int, folderName: string) | Remove(uid: string) | Invalidate

  ghost function OnSlice(refs: seq<DashboardRef>, c: Call): seq<DashboardRef> {
    match c
    case Add(d, folderId, folderName) => Added(refs, d, folderId, folderName)
    case Remove(uid) => Removed(refs, uid)
    case Invalidate => Invalidated(refs)
  }

  ghost function OnMap(m: map<string, DashboardRef>, c: Call): map<string, DashboardRef> {
    match c
    case Add(d, folderId, folderName) =>
      m[d.uid := NewRef(d, folderId, if d.uid in m then folderName else d.customFolder)]
    case Remove(uid) => m - {uid}
    case Invalidate => map u | u in m :: m[u].(hash := "")
  }

  lemma AddedMembers(refs: seq<DashboardRef>, d: Dashboard, folderId: int, folderName: string)
    requires UniqueUids(refs)
    ensures
      var added := NewRef(d, folderId, if Index(refs, d.uid).Some? then folderName else d.customFolder);
      forall r :: r in Added(refs, d, folderId, folderName) <==> r == added || (r in refs && r.uid != d.uid)
  {
    var after := Added(refs, d, folderId, folderName);
    var i := Index(refs, d.uid);
    assert after[if i.Some? then i.value else |refs|] in after;
    forall r | r in refs && r.uid != d.uid
      ensures r in after
    {
      var k :| 0 <= k < |refs| && refs[k] == r;
      assert after[k] == r;
    }
  }

  lemma AddRefines(refs: seq<DashboardRef>, d: Dashboard, folderId: int, folderName: string)
    requires UniqueUids(refs)
    ensures UniqueUids(Added(refs, d, folderId, folderName))
    ensures AsMap(Added(refs, d, folderId, folderName)) == OnMap(AsMap(refs), Add(d, folderId, folderName))
  {
    AddedMembers(refs, d, folderId, folderName);
    LookupIsMembership(refs, d.uid);
  }

  lemma LookupIsMembership(refs: seq<DashboardRef>, uid: string)
    requires UniqueUids(refs)
    ensures Index(refs, uid).Some? <==> uid in AsMap(refs)
    ensures uid in AsMap(refs) ==> refs[Index(refs, uid).value] == AsMap(refs)[uid]
  {
  }

  lemma RemovedMembers(refs: seq<DashboardRef>, uid: string)
    requires UniqueUids(refs)
    ensures UniqueUids(Removed(refs, uid))
    ensures forall r :: r in Removed(refs, uid) ==> r in refs && r.uid != uid
    ensures forall r :: r in refs && r.uid != uid ==> r in Removed(refs, uid)
  {
  }

  lemma RemoveRefines(refs: seq<DashboardRef>, uid: string)
    requires UniqueUids(refs)
    ensures UniqueUids(Removed(refs, uid))
    ensures AsMap(Removed(refs, uid)) == AsMap(refs) - {uid}
  {
    RemovedMembers(refs, uid);
    SameMembersSameMap(refs, Removed(refs, uid), uid);
  }

  lemma SameMembersSameMap(refs: seq<DashboardRef>, after: seq<DashboardRef>, uid: string)
    requires UniqueUids(refs) && UniqueUids(after)
    requires forall r :: r in after ==> r in refs && r.uid != uid
    requires forall r :: r in refs && r.uid != uid ==> r in after
    ensures AsMap(after) == AsMap(refs) - {uid}
  {
  }

  lemma InvalidateRefines(refs: seq<DashboardRef>)
    requires UniqueUids(refs)
    ensures UniqueUids(Invalidated(refs))
    ensures AsMap(Invalidated(refs)) == OnMap(AsMap(refs), Invalidate)
  {
  }

  ghost function SliceAfter(calls: seq<Call>): seq<DashboardRef> {
    if calls == [] then [] else OnSlice(SliceAfter(calls[..|calls| - 1]), calls[|calls| - 1])
  }

  ghost function MapAfter(calls: seq<Call>): map<string, DashboardRef> {
    if calls == [] then map[] else OnMap(MapAfter(calls[..|calls| - 1]), calls[|calls| - 1])
  }

  /** Under any sequence of calls the slice holds no UID twice and stands for the map: adding is update,
      swap-removal is deletion, and invalidation clears hashes only. */
  lemma {:induction false} SliceRefinesMap(calls: seq<Call>)
    ensures UniqueUids(SliceAfter(calls)) && AsMap(SliceAfter(calls)) == MapAfter(calls)
  {
    if calls != [] {
      var before := SliceAfter(calls[..|calls| - 1]);
      SliceRefinesMap(calls[..|calls| - 1]);
      match calls[|calls| - 1]
      case Add(d, folderId, folderName) => AddRefines(before, d, folderId, folderName);
      case Remove(uid) => RemoveRefines(before, uid);
      case Invalidate => InvalidateRefines(before);
    }
  }

  /** Lookup is membership, after any sequence of calls. */
  lemma LookupRefines(calls: seq<Call>, uid: string)
    ensures Index(SliceAfter(calls), uid).Some? <==> uid in MapAfter(calls)
    ensures uid in MapAfter(calls) ==> SliceAfter(calls)[Index(SliceAfter(calls), uid).value] == MapAfter(calls)[uid]
  {
    SliceRefinesMap(calls);
    LookupIsMembership(SliceAfter(calls), uid);
  }

  // ----- requested plugins -----

  ghost function Gathered(plugins: map<Key, seq<Plugin>>, order: seq<Key>): seq<Plugin>
    requires forall k :: k in order ==> k in plugins
  {
    if order == [] then []
    else Gathered(plugins, order[..|order| - 1]) + plugins[order[|order| - 1]]
  }

  ghost function Bag(plugins: map<Key, seq<Plugin>>, keys: set<Key>): multiset<Plugin>
    requires keys <= plugins.Keys
  {
    if keys == {} then multiset{}
    else
      var k :| k in keys;
      multiset(plugins[k]) + Bag(plugins, keys - {k})
  }

  lemma {:induction false} BagWithout(plugins: map<Key, seq<Plugin>>, keys: set<Key>, k: Key)
    requires keys <= plugins.Keys && k in keys
    ensures Bag(plugins, keys) == multiset(plugins[k]) + Bag(plugins, keys - {k})
  {
    var c :| c in keys && Bag(plugins, keys) == multiset(plugins[c]) + Bag(plugins, keys - {c});
    if c != k {
      BagWithout(plugins, keys - {c}, k);
      BagWithout(plugins, keys - {k}, c);
      assert keys - {c} - {k} == keys - {k} - {c};
    }
  }

  lemma {:induction false} GatheredIsBag(plugins: map<Key, seq<Plugin>>, order: seq<Key>, keys: set<Key>)
    requires keys <= plugins.Keys && Enumerates(order, keys)
    ensures multiset(Gathered(plugins, order)) == Bag(plugins, keys)
  {
    if order == [] {
      assert forall k :: k !in keys;
    } else {
      var rest, last := order[..|order| - 1], order[|order| - 1];
      assert order == rest + [last];
      assert last in order;
      GatheredIsBag(plugins, rest, keys - {last});
      BagWithout(plugins, keys, last);
    }
  }

  /** Two iterations over the same plugin requests differ in order only. */
  lemma GatheredInAnyOrder(plugins: map<Key, seq<Plugin>>, a: seq<Key>, b: seq<Key>)
    requires Enumerates(a, plugins.Keys) && Enumerates(b, plugins.Keys)
    ensures Permutation(Gathered(plugins, a), Gathered(plugins, b))
  {
    GatheredIsBag(plugins, a, plugins.Keys);
    GatheredIsBag(plugins, b, plugins.Keys);
  }

  // ----- the registry object -----

  class Config {
    var dashboards: seq<DashboardRef>
    var plugins: map<Key, seq<Plugin>>
    var dashboardsSynced: bool

    constructor ()
      ensures dashboards == [] && plugins == map[] && !dashboardsSynced
    {
      dashboards, plugins, dashboardsSynced := [], map[], false;
    }

    method HasDashboard(uid: string) returns (i: int, found: bool)
      ensures found <==> Index(dashboards, uid).Some?
      ensures i == if found then Index(dashboards, uid).value else -1
    {
      for k := 0 to |dashboards|
        invariant forall j | 0 <= j < k :: dashboards[j].uid != uid
      {
        if dashboards[k].uid == uid {
          return k, true;
        }
      }
      return -1, false;
    }

    method GetDashboards() returns (r: seq<DashboardRef>)
      ensures r == dashboards
    {
      return dashboards;
    }

    method AddDashboard(d: Dashboard, folderId: int, folderName: string)
      modifies this`dashboards
      ensures dashboards == Added(old(dashboards), d, folderId, folderName)
    {
      var i, known := HasDashboard(d.uid);
      if !known {
        dashboards := dashboards + [DashboardRef(d.name, d.namespace, d.uid, d.hash, folderId, d.customFolder)];
      } else {
        dashboards := dashboards[i := DashboardRef(d.name, d.namespace, d.uid, d.hash, folderId, folderName)];
      }
    }

    method RemoveDashboard(uid: string)
      modifies this`dashboards
      ensures dashboards == Removed(old(dashboards), uid)
    {
      var i, known := HasDashboard(uid);
      if known {
        var list := dashboards;
        list := list[i := list[|list| - 1]];
        list := list[..|list| - 1];
        dashboards := list;
      }
    }

    method InvalidateDashboards()
      modifies this`dashboards
      ensures dashboards == Invalidated(old(dashboards))
    {
      for k := 0 to |dashboards|
        invariant |dashboards| == |old(dashboards)|
        invariant forall j | 0 <= j < k :: dashboards[j] == old(dashboards)[j].(hash := "")
        invariant forall j | k <= j < |dashboards| :: dashboards[j] == old(dashboards)[j]
      {
        dashboards := dashboards[k := dashboards[k].(hash := "")];
      }
    }

    method SetPluginsFor(d: Dashboard)
      modifies this`plugins
      ensures plugins == old(plugins)[KeyOf(d) := d.plugins]
    {
      plugins := plugins[KeyOf(d) := d.plugins];
    }

    method RemovePluginsFor(namespace: string, name: string)
      modifies this`plugins
      ensures plugins == old(plugins) - {Key(namespace, name)}
    {
      plugins := plugins - {Key(namespace, name)};
    }

    /** The plugins of all dashboards, in the order in which the map happens to be visited. */
    method GetAllPlugins() returns (all: seq<Plugin>)
      ensures exists order :: Enumerates(order, plugins.Keys) && all == Gathered(plugins, order)
    {
      all := [];
      ghost var order: seq<Key> := [];
      var left := plugins.Keys;
      while left != {}
        invariant left <= plugins.Keys
        invariant Enumerates(order, plugins.Keys - left) && all == Gathered(plugins, order)
        decreases left
      {
        var k :| k in left;
        all := all + plugins[k];
        assert (order + [k])[..|order|] == order;
        order := order + [k];
        left := left - {k};
      }
      assert plugins.Keys - left == plugins.Keys;
    }
  }
}
