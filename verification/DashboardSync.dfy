/** One round of the dashboard controller: forget dashboards that are gone, submit new and changed ones, and
    clean up namespace folders that are no longer used. */
module DashboardSync {
  import opened Wrappers
  import opened PluginList
  import opened ControllerConfig
  import opened GrafanaClient

  /** The registry and Grafana, between two calls of the controller. */
  datatype World = World(refs: seq<DashboardRef>, plugins: map<Key, seq<Plugin>>, server: Server)

  /** The result of the rendering pipeline. */
  datatype Processed = Unchanged | Rendered | Broken

  datatype Labels = Match | Mismatch | LabelError

  /** What the environment does while one resource is processed. `obtain` and `render` are the two halves of the
      pipeline; the second pair is for the forced run. */
  datatype ItemEvents = ItemEvents(
    listing: Answer, creation: Answer, obtain: bool, render: bool, lookupFails: bool,
    obtainAgain: bool, renderAgain: bool, labels: Labels, post: Answer)

  datatype CleanEvents = CleanEvents(deleteDashboard: Answer, deleteFolder: Answer)

  datatype Events = Events(listFails: bool, item: nat -> ItemEvents, clean: nat -> CleanEvents)

  // ----- searches -----

  function FolderTitle(d: Dashboard): string {
    if d.customFolder != "" then d.customFolder else d.namespace
  }

  ghost predicate Live(r: DashboardRef, items: seq<Dashboard>) {
    exists d :: d in items && KeyOf(d) == RefKey(r)
  }

  method InNamespace(items: seq<Dashboard>, r: DashboardRef) returns (found: bool)
    ensures found <==> Live(r, items)
  {
    for i := 0 to |items|
      invariant forall j | 0 <= j < i :: KeyOf(items[j]) != RefKey(r)
    {
      if items[i].name == r.name && items[i].namespace == r.namespace {
        assert items[i] in items;
        return true;
      }
    }
    return false;
  }

  /** The first reference with the name and namespace of the resource. */
  function Find(refs: seq<DashboardRef>, k: Key): (r: Option<DashboardRef>)
    ensures r.Some? ==> r.value in refs && RefKey(r.value) == k
    ensures r.None? ==> forall q :: q in refs ==> RefKey(q) != k
  {
    if refs == [] then None
    else if RefKey(refs[0]) == k then Some(refs[0])
    else
      assert forall q :: q in refs ==> q == refs[0] || q in refs[1..];
      Find(refs[1..], k)
  }

  function KnownHash(refs: seq<DashboardRef>, k: Key): string {
    match Find(refs, k)
    case Some(r) => r.hash
    case None => ""
  }

  function KnownUid(refs: seq<DashboardRef>, k: Key): string {
    match Find(refs, k)
    case Some(r) => r.uid
    case None => ""
  }

  method FindHash(known: seq<DashboardRef>, d: Dashboard) returns (hash: string)
    ensures hash == KnownHash(known, KeyOf(d))
  {
    for i := 0 to |known|
      invariant Find(known, KeyOf(d)) == Find(known[i..], KeyOf(d))
    {
      if d.name == known[i].name && d.namespace == known[i].namespace {
        return known[i].hash;
      }
      assert known[i..][1..] == known[i + 1..];
    }
    return "";
  }

  method FindUid(known: seq<DashboardRef>, d: Dashboard) returns (uid: string)
    ensures uid == KnownUid(known, KeyOf(d))
  {
    for i := 0 to |known|
      invariant Find(known, KeyOf(d)) == Find(known[i..], KeyOf(d))
    {
      if d.name == known[i].name && d.namespace == known[i].namespace {
        return known[i].uid;
      }
      assert known[i..][1..] == known[i + 1..];
    }
    return "";
  }

  // ----- submitting -----

  /** The hash and force decision of the pipeline. */
  function Pipeline(hash: string, knownHash: string, force: bool, obtain: bool, render: bool): Processed {
    if !obtain then Broken
    else if hash == knownHash && !force then Unchanged
    else if !render then Broken
    else Rendered
  }

  ghost function SubmitItem(w: World, known: seq<DashboardRef>, d: Dashboard, e: ItemEvents): World {
    var title := FolderTitle(d);
    var folder := FolderFor(w.server, title, e.listing, e.creation);
    var w1 := w.(server := folder.0);
    var hash, uid := KnownHash(known, KeyOf(d)), KnownUid(known, KeyOf(d));
    var first := Pipeline(d.hash, hash, false, e.obtain, e.render);
    var again := Pipeline(d.hash, hash, true, e.obtainAgain, e.renderAgain);
    var gone := uid != "" && (e.lookupFails || uid !in w1.server.dashboards);
    if folder.1.None? || first.Broken? || (gone && again.Broken?) then w1
    else if (if gone then again else first).Unchanged? then w1.(plugins := w1.plugins[KeyOf(d) := d.plugins])
    else if !e.labels.Match? then w1
    else
      var post := Posted(w1.server, d.uid, d.hash, folder.1.value, e.post);
      if !post.1 then w1.(server := post.0)
      else World(Added(w1.refs, d, folder.1.value, title), w1.plugins[KeyOf(d) := d.plugins], post.0)
  }

  ghost function SubmitUpTo(w: World, known: seq<DashboardRef>, items: seq<Dashboard>, e: nat -> ItemEvents, k: nat): World
    requires k <= |items|
  {
    if k == 0 then w
    else SubmitItem(SubmitUpTo(w, known, items, e, k - 1), known, items[k - 1], e(k - 1))
  }

  // ----- forgetting -----

  ghost function StaleRefs(refs: seq<DashboardRef>, items: seq<Dashboard>): seq<DashboardRef> {
    if refs == [] then []
    else
      var last := refs[|refs| - 1];
      var rest := StaleRefs(refs[..|refs| - 1], items);
      if Live(last, items) then rest else rest + [last]
  }

  /** Folders named after their namespace belong to the operator; custom ones do not. */
  predicate Managed(r: DashboardRef) {
    r.folderName == "" || r.folderName == r.namespace
  }

  ghost function Forgotten(w: World, r: DashboardRef, answer: Answer): World {
    World(Removed(w.refs, r.uid), w.plugins - {RefKey(r)}, DashboardDeleted(w.server, r.uid, answer))
  }

  /** The deletion loop from position `k` on. It stops early at a managed folder that is still in use. */
  ghost function CleanFrom(w: World, stale: seq<DashboardRef>, e: nat -> CleanEvents, k: nat): World
    requires k <= |stale|
    decreases |stale| - k
  {
    if k == |stale| then w
    else
      var r := stale[k];
      var w1 := Forgotten(w, r, e(k).deleteDashboard);
      if !Managed(r) then CleanFrom(w1, stale, e, k + 1)
      else if !SafeToDeleteFolder(w1.refs, r.folderId) then w1
      else CleanFrom(w1.(server := FolderDeleted(w1.server, r.folderId, e(k).deleteFolder)), stale, e, k + 1)
  }

  ghost function Submitted(w: World, items: seq<Dashboard>, e: Events): World {
    SubmitUpTo(w, w.refs, items, e.item, |items|)
  }

  ghost function Round(w: World, items: seq<Dashboard>, e: Events): World {
    if e.listFails then w
    else CleanFrom(Submitted(w, items, e), StaleRefs(w.refs, items), e.clean, 0)
  }

  // ----- the controller -----

  class Reconciler {
    const config: Config
    const client: Client

    constructor (config: Config, client: Client)
      ensures this.config == config && this.client == client
    {
      this.config, this.client := config, client;
    }

    ghost function State(): World
      reads config, client
    {
      World(config.dashboards, config.plugins, client.server)
    }

    method SubmitDashboard(known: seq<DashboardRef>, d: Dashboard, e: ItemEvents)
      modifies config`dashboards, config`plugins, client
      ensures State() == SubmitItem(old(State()), known, d, e)
    {
      var folderName := d.namespace;
      if d.customFolder != "" {
        folderName := d.customFolder;
      }
      var folder := client.CreateOrUpdateFolder(folderName, e.listing, e.creation);
      if folder.None? {
        return;
      }
      var folderId := folder.value;
      var knownHash := FindHash(known, d);
      var knownUid := FindUid(known, d);
      var first := Pipeline(d.hash, knownHash, false, e.obtain, e.render);
      var processed := first;
      if knownUid != "" {
        var found := client.HasDashboard(knownUid, e.lookupFails);
        if !found {
          processed := Pipeline(d.hash, knownHash, true, e.obtainAgain, e.renderAgain);
          if processed.Broken? {
            return;
          }
        }
      }
      // The error of the first pipeline run is still pending after a forced one.
      if first.Broken? {
        return;
      }
      if processed.Unchanged? {
        config.SetPluginsFor(d);
        return;
      }
      if !e.labels.Match? {
        return;
      }
      var ok := client.CreateOrUpdateDashboard(d.uid, d.hash, folderId, e.post);
      if !ok {
        return;
      }
      config.AddDashboard(d, folderId, folderName);
      config.SetPluginsFor(d);
    }

    /** Known dashboards that are no longer found in the cluster. */
    method DashboardsToDelete(known: seq<DashboardRef>, items: seq<Dashboard>) returns (stale: seq<DashboardRef>)
      ensures stale == StaleRefs(known, items)
    {
      stale := [];
      for i := 0 to |known|
        invariant stale == StaleRefs(known[..i], items)
      {
        assert known[..i + 1][..i] == known[..i];
        var found := InNamespace(items, known[i]);
        if !found {
          stale := stale + [known[i]];
        }
      }
      assert known[..|known|] == known;
    }

    method ForgetDashboards(stale: seq<DashboardRef>, e: nat -> CleanEvents)
      modifies config, client
      ensures State() == CleanFrom(old(State()), stale, e, 0)
    {
      ghost var before := State();
      for k := 0 to |stale|
        invariant CleanFrom(before, stale, e, 0) == CleanFrom(State(), stale, e, k)
      {
        var dashboard := stale[k];
        client.DeleteDashboardByUID(dashboard.uid, e(k).deleteDashboard);
        config.RemovePluginsFor(dashboard.namespace, dashboard.name);
        config.RemoveDashboard(dashboard.uid);
        config.dashboardsSynced := true;
        var knownDashboards := config.GetDashboards();
        if dashboard.folderName == "" || dashboard.folderName == dashboard.namespace {
          var safe := client.SafeToDelete(knownDashboards, dashboard.folderId);
          if !safe {
            return;
          }
          client.DeleteFolder(dashboard.folderId, e(k).deleteFolder);
        }
      }
    }

    method ReconcileDashboards(items: seq<Dashboard>, e: Events)
      modifies config, client
      ensures State() == Round(old(State()), items, e)
    {
      var knownDashboards := config.GetDashboards();
      if e.listFails {
        return;
      }
      var dashboardsToDelete := DashboardsToDelete(knownDashboards, items);
      for i := 0 to |items|
        invariant State() == SubmitUpTo(old(State()), knownDashboards, items, e.item, i)
      {
        SubmitDashboard(knownDashboards, items[i], e.item(i));
      }
      ForgetDashboards(dashboardsToDelete, e.clean);
    }
  }
}
