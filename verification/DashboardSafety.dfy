/** What every dashboard round keeps, whatever the network and Grafana do: the registry holds no UID twice, stale
    references only go away, plugin requests follow references, and folder clean-up loses no registered dashboard. */
module DashboardSafety {
  import opened ControllerConfig
  import opened GrafanaClient
  import opened DashboardSync

  // ----- submitting one resource -----

  ghost predicate Adds(w: World, w': World, d: Dashboard, folderId: int) {
    && w'.refs == Added(w.refs, d, folderId, FolderTitle(d))
    && w'.plugins == w.plugins[KeyOf(d) := d.plugins]
  }

  /** Submitting a resource leaves the registry alone, refreshes the plugin request of a known one, or records it. */
  lemma SubmitItemCases(w: World, known: seq<DashboardRef>, d: Dashboard, e: ItemEvents)
    requires d.hash != ""
    ensures
      var w' := SubmitItem(w, known, d, e);
      || (w'.refs == w.refs && w'.plugins == w.plugins)
      || (w'.refs == w.refs && w'.plugins == w.plugins[KeyOf(d) := d.plugins] && Find(known, KeyOf(d)).Some?)
      || (exists folderId :: Adds(w, w', d, folderId))
  {
    var folder := FolderFor(w.server, FolderTitle(d), e.listing, e.creation).1;
    var w' := SubmitItem(w, known, d, e);
    if folder.Some? && !Adds(w, w', d, folder.value) {
      assert w'.refs == w.refs;
    }
  }

  // ----- unique UIDs -----

  lemma SubmitKeepsUnique(w: World, known: seq<DashboardRef>, d: Dashboard, e: ItemEvents)
    requires UniqueUids(w.refs) && d.hash != ""
    ensures UniqueUids(SubmitItem(w, known, d, e).refs)
    ensures forall r :: r in SubmitItem(w, known, d, e).refs ==> r in w.refs || (RefKey(r) == KeyOf(d) && r.uid == d.uid)
  {
    SubmitItemCases(w, known, d, e);
    var w' := SubmitItem(w, known, d, e);
    if w'.refs != w.refs {
      var folderId :| Adds(w, w', d, folderId);
      AddRefines(w.refs, d, folderId, FolderTitle(d));
      AddedMembers(w.refs, d, folderId, FolderTitle(d));
    }
  }

  ghost predicate Hashed(items: seq<Dashboard>) {
    forall d :: d in items ==> d.hash != ""
  }

  /** Every reference is either an old one or belongs to a resource of the list. */
  ghost predicate OldOrListed(before: seq<DashboardRef>, after: seq<DashboardRef>, items: seq<Dashboard>) {
    forall r :: r in after ==> r in before || Live(r, items)
  }

  lemma {:induction false} SubmitUpToKeepsUnique(w: World, known: seq<DashboardRef>, items: seq<Dashboard>, e: nat -> ItemEvents, k: nat)
    requires UniqueUids(w.refs) && Hashed(items) && k <= |items|
    ensures UniqueUids(SubmitUpTo(w, known, items, e, k).refs)
    ensures OldOrListed(w.refs, SubmitUpTo(w, known, items, e, k).refs, items)
  {
    if k > 0 {
      SubmitUpToKeepsUnique(w, known, items, e, k - 1);
      SubmitKeepsUnique(SubmitUpTo(w, known, items, e, k - 1), known, items[k - 1], e(k - 1));
      assert items[k - 1] in items;
    }
  }

  /** The deletion loop only removes references. */
  lemma {:induction false} CleanShrinks(w: World, stale: seq<DashboardRef>, e: nat -> CleanEvents, k: nat)
    requires UniqueUids(w.refs) && k <= |stale|
    ensures
      var w' := CleanFrom(w, stale, e, k);
      && UniqueUids(w'.refs)
      && (forall r :: r in w'.refs ==> r in w.refs)
      && (k < |stale| ==> forall r :: r in w'.refs ==> r.uid != stale[k].uid)
    decreases |stale| - k
  {
    if k < |stale| {
      var r := stale[k];
      var w1 := Forgotten(w, r, e(k).deleteDashboard);
      RemovedMembers(w.refs, r.uid);
      CleanShrinks(w1, stale, e, k + 1);
      CleanShrinks(w1.(server := FolderDeleted(w1.server, r.folderId, e(k).deleteFolder)), stale, e, k + 1);
    }
  }

  // ----- progress -----

  /** The known references whose resource is gone. */
  ghost function StaleSet(refs: seq<DashboardRef>, items: seq<Dashboard>): set<DashboardRef> {
    set r | r in refs && !Live(r, items)
  }

  lemma {:induction false} StaleRefsAreStale(refs: seq<DashboardRef>, items: seq<Dashboard>)
    ensures forall r :: r in StaleRefs(refs, items) <==> r in StaleSet(refs, items)
  {
    if refs != [] {
      StaleRefsAreStale(refs[..|refs| - 1], items);
      assert refs == refs[..|refs| - 1] + [refs[|refs| - 1]];
    }
  }

  /** Every round that lists the resources and starts with a stale reference ends with strictly fewer; no round
      adds one. No assumption on the answers of Grafana, and none on UIDs shared between resources. */
  lemma RoundMakesProgress(w: World, items: seq<Dashboard>, e: Events)
    requires UniqueUids(w.refs) && Hashed(items)
    ensures UniqueUids(Round(w, items, e).refs)
    ensures StaleSet(Round(w, items, e).refs, items) <= StaleSet(w.refs, items)
    ensures !e.listFails && StaleSet(w.refs, items) != {} ==>
      StaleSet(Round(w, items, e).refs, items) < StaleSet(w.refs, items)
  {
    if !e.listFails {
      var w1 := Submitted(w, items, e);
      var stale := StaleRefs(w.refs, items);
      SubmitUpToKeepsUnique(w, w.refs, items, e.item, |items|);
      CleanShrinks(w1, stale, e.clean, 0);
      StaleRefsAreStale(w.refs, items);
      if StaleSet(w.refs, items) != {} {
        var s :| s in StaleSet(w.refs, items);
        assert s in stale;
        assert stale[0] in stale;
        assert stale[0] in StaleSet(w.refs, items) && stale[0] !in StaleSet(Round(w, items, e).refs, items);
      }
    }
  }

  // ----- folder safety -----

  /** The requests the loop sends after position `from`, read off the log of the server. */
  ghost function SentSince(w: World, from: nat): seq<Write>
    requires from <= |w.server.writes|
  {
    w.server.writes[from..]
  }

  /** The request deletes a dashboard whose resource is gone, or the managed folder of one, and no reference
      in `refs` is in that folder. */
  ghost predicate CleanWrite(c: Write, stale: seq<DashboardRef>, refs: seq<DashboardRef>) {
    match c
    case DeleteFolder(id) => (exists r :: r in stale && Managed(r) && r.folderId == id) && SafeToDeleteFolder(refs, id)
    case DeleteDashboard(uid) => exists r :: r in stale && r.uid == uid
    case _ => false
  }

  /** The request log only grows. */
  lemma {:induction false} CleanLogGrows(w: World, stale: seq<DashboardRef>, e: nat -> CleanEvents, k: nat)
    requires k <= |stale|
    ensures w.server.writes <= CleanFrom(w, stale, e, k).server.writes
    decreases |stale| - k
  {
    if k < |stale| {
      var w1 := Forgotten(w, stale[k], e(k).deleteDashboard);
      CleanLogGrows(w1, stale, e, k + 1);
      CleanLogGrows(w1.(server := FolderDeleted(w1.server, stale[k].folderId, e(k).deleteFolder)), stale, e, k + 1);
    }
  }

  /** Over the whole deletion loop, a folder is deleted only when no reference that is still known at the end is
      in it; and only dashboards without a resource are deleted. */
  lemma {:induction false} FolderDeletionIsSafe(w: World, stale: seq<DashboardRef>, e: nat -> CleanEvents, k: nat)
    requires UniqueUids(w.refs) && k <= |stale|
    ensures w.server.writes <= CleanFrom(w, stale, e, k).server.writes
    ensures forall c :: c in SentSince(CleanFrom(w, stale, e, k), |w.server.writes|) ==>
      CleanWrite(c, stale, CleanFrom(w, stale, e, k).refs)
    decreases |stale| - k
  {
    CleanLogGrows(w, stale, e, k);
    if k < |stale| {
      var r := stale[k];
      var w1 := Forgotten(w, r, e(k).deleteDashboard);
      var w2 := w1.(server := FolderDeleted(w1.server, r.folderId, e(k).deleteFolder));
      var w' := CleanFrom(w, stale, e, k);
      CleanLogGrows(w1, stale, e, k + 1);
      CleanLogGrows(w2, stale, e, k + 1);
      RemovedMembers(w.refs, r.uid);
      assert w1.server.writes == w.server.writes + [DeleteDashboard(r.uid)];
      assert CleanWrite(DeleteDashboard(r.uid), stale, w'.refs);
      if !Managed(r) {
        assert w' == CleanFrom(w1, stale, e, k + 1);
        hide CleanFrom, CleanWrite, Removed, UniqueUids;
        FolderDeletionIsSafe(w1, stale, e, k + 1);
        SentAfterStep(w, w1, w', DeleteDashboard(r.uid));
      } else if SafeToDeleteFolder(w1.refs, r.folderId) {
        assert w' == CleanFrom(w2, stale, e, k + 1);
        CleanShrinks(w2, stale, e, k + 1);
        assert CleanWrite(DeleteFolder(r.folderId), stale, w'.refs);
        assert w2.server.writes == w1.server.writes + [DeleteFolder(r.folderId)];
        hide CleanFrom, CleanWrite, Removed, UniqueUids;
        FolderDeletionIsSafe(w2, stale, e, k + 1);
        SentAfterStep(w1, w2, w', DeleteFolder(r.folderId));
        SentAfterStep(w, w1, w', DeleteDashboard(r.uid));
      }
    }
  }

  lemma SentAfterStep(w: World, w1: World, w': World, c: Write)
    requires w1.server.writes == w.server.writes + [c]
    requires w1.server.writes <= w'.server.writes
    ensures w.server.writes <= w'.server.writes
    ensures SentSince(w', |w.server.writes|) == [c] + SentSince(w', |w1.server.writes|)
  {
  }

  /** The recorded folder of every reference is the folder its dashboard is in. */
  ghost predicate FoldersAccurate(w: World) {
    forall r :: r in w.refs && r.uid in w.server.dashboards ==> w.server.dashboards[r.uid].folderId == r.folderId
  }

  /** With accurate folder identifiers, no dashboard still in the registry is lost from Grafana by the loop,
      whatever becomes of the individual requests. */
  lemma {:induction false} CleanLosesNothing(w: World, stale: seq<DashboardRef>, e: nat -> CleanEvents, k: nat)
    requires UniqueUids(w.refs) && k <= |stale| && FoldersAccurate(w)
    ensures
      var w' := CleanFrom(w, stale, e, k);
      && FoldersAccurate(w')
      && (forall r :: r in w'.refs && r.uid in w.server.dashboards ==>
            r.uid in w'.server.dashboards && w'.server.dashboards[r.uid] == w.server.dashboards[r.uid])
    decreases |stale| - k
  {
    if k < |stale| {
      var r := stale[k];
      var w1 := Forgotten(w, r, e(k).deleteDashboard);
      RemovedMembers(w.refs, r.uid);
      assert FoldersAccurate(w1);
      if !Managed(r) {
        CleanLosesNothing(w1, stale, e, k + 1);
        CleanShrinks(w1, stale, e, k + 1);
      } else if SafeToDeleteFolder(w1.refs, r.folderId) {
        var w2 := w1.(server := FolderDeleted(w1.server, r.folderId, e(k).deleteFolder));
        assert FoldersAccurate(w2);
        CleanLosesNothing(w2, stale, e, k + 1);
        CleanShrinks(w2, stale, e, k + 1);
      }
    }
  }

  // ----- plugin requests follow references -----

  /** Who owns a UID. Generated UIDs hash the joined namespace and name, so this is an assumption. */
  type Owner = string -> Key

  ghost predicate OwnItems(owner: Owner, items: seq<Dashboard>) {
    forall d :: d in items ==> owner(d.uid) == KeyOf(d)
  }

  ghost predicate OwnRefs(owner: Owner, refs: seq<DashboardRef>) {
    forall r :: r in refs ==> owner(r.uid) == RefKey(r)
  }

  ghost predicate HasKey(refs: seq<DashboardRef>, k: Key) {
    exists r :: r in refs && RefKey(r) == k
  }

  /** Every plugin request belongs to a known dashboard. */
  ghost predicate RequestsAreKnown(w: World) {
    forall k :: k in w.plugins ==> HasKey(w.refs, k)
  }

  lemma AddKeepsKeys(owner: Owner, refs: seq<DashboardRef>, d: Dashboard, folderId: int, folderName: string)
    requires UniqueUids(refs) && OwnRefs(owner, refs) && owner(d.uid) == KeyOf(d)
    ensures UniqueUids(Added(refs, d, folderId, folderName)) && OwnRefs(owner, Added(refs, d, folderId, folderName))
    ensures forall k :: HasKey(refs, k) || k == KeyOf(d) ==> HasKey(Added(refs, d, folderId, folderName), k)
  {
    var after := Added(refs, d, folderId, folderName);
    AddRefines(refs, d, folderId, folderName);
    AddedMembers(refs, d, folderId, folderName);
    var added := NewRef(d, folderId, if Index(refs, d.uid).Some? then folderName else d.customFolder);
    assert added in after && RefKey(added) == KeyOf(d);
    forall k | HasKey(refs, k)
      ensures HasKey(after, k)
    {
      var r :| r in refs && RefKey(r) == k;
      assert r in after || RefKey(added) == k;
    }
  }

  lemma SubmitKeepsRequests(owner: Owner, w: World, known: seq<DashboardRef>, d: Dashboard, e: ItemEvents)
    requires d.hash != "" && owner(d.uid) == KeyOf(d)
    requires UniqueUids(w.refs) && OwnRefs(owner, w.refs) && RequestsAreKnown(w)
    requires forall r :: r in known ==> HasKey(w.refs, RefKey(r))
    ensures
      var w' := SubmitItem(w, known, d, e);
      && UniqueUids(w'.refs) && OwnRefs(owner, w'.refs) && RequestsAreKnown(w')
      && (forall r :: r in known ==> HasKey(w'.refs, RefKey(r)))
  {
    var w' := SubmitItem(w, known, d, e);
    SubmitItemCases(w, known, d, e);
    if w'.refs == w.refs && w'.plugins == w.plugins {
    } else if w'.refs == w.refs && w'.plugins == w.plugins[KeyOf(d) := d.plugins] && Find(known, KeyOf(d)).Some? {
    } else {
      var folderId :| Adds(w, w', d, folderId);
      AddKeepsKeys(owner, w.refs, d, folderId, FolderTitle(d));
    }
  }

  lemma {:induction false} SubmitUpToKeepsRequests(
    owner: Owner, w: World, known: seq<DashboardRef>, items: seq<Dashboard>, e: nat -> ItemEvents, k: nat)
    requires Hashed(items) && OwnItems(owner, items) && k <= |items|
    requires UniqueUids(w.refs) && OwnRefs(owner, w.refs) && RequestsAreKnown(w)
    requires forall r :: r in known ==> HasKey(w.refs, RefKey(r))
    ensures
      var w' := SubmitUpTo(w, known, items, e, k);
      && UniqueUids(w'.refs) && OwnRefs(owner, w'.refs) && RequestsAreKnown(w')
      && (forall r :: r in known ==> HasKey(w'.refs, RefKey(r)))
  {
    if k > 0 {
      SubmitUpToKeepsRequests(owner, w, known, items, e, k - 1);
      assert items[k - 1] in items;
      SubmitKeepsRequests(owner, SubmitUpTo(w, known, items, e, k - 1), known, items[k - 1], e(k - 1));
    }
  }

  lemma ForgetKeepsRequests(owner: Owner, w: World, r: DashboardRef, answer: Answer)
    requires UniqueUids(w.refs) && OwnRefs(owner, w.refs) && RequestsAreKnown(w) && owner(r.uid) == RefKey(r)
    ensures
      var w' := Forgotten(w, r, answer);
      UniqueUids(w'.refs) && OwnRefs(owner, w'.refs) && RequestsAreKnown(w')
  {
    RemovedMembers(w.refs, r.uid);
    var w' := Forgotten(w, r, answer);
    forall k | k in w'.plugins
      ensures HasKey(w'.refs, k)
    {
      var q :| q in w.refs && RefKey(q) == k;
      assert q.uid != r.uid;
    }
  }

  lemma {:induction false} CleanKeepsRequests(owner: Owner, w: World, stale: seq<DashboardRef>, e: nat -> CleanEvents, k: nat)
    requires UniqueUids(w.refs) && OwnRefs(owner, w.refs) && RequestsAreKnown(w) && OwnRefs(owner, stale) && k <= |stale|
    ensures
      var w' := CleanFrom(w, stale, e, k);
      UniqueUids(w'.refs) && OwnRefs(owner, w'.refs) && RequestsAreKnown(w')
    decreases |stale| - k
  {
    if k < |stale| {
      var r := stale[k];
      assert r in stale;
      ForgetKeepsRequests(owner, w, r, e(k).deleteDashboard);
      var w1 := Forgotten(w, r, e(k).deleteDashboard);
      CleanKeepsRequests(owner, w1, stale, e, k + 1);
      var w2 := w1.(server := FolderDeleted(w1.server, r.folderId, e(k).deleteFolder));
      assert RequestsAreKnown(w2);
      CleanKeepsRequests(owner, w2, stale, e, k + 1);
    }
  }

  lemma RoundKeepsRequests(owner: Owner, w: World, items: seq<Dashboard>, e: Events)
    requires Hashed(items) && OwnItems(owner, items)
    requires UniqueUids(w.refs) && OwnRefs(owner, w.refs) && RequestsAreKnown(w)
    ensures
      var w' := Round(w, items, e);
      UniqueUids(w'.refs) && OwnRefs(owner, w'.refs) && RequestsAreKnown(w')
  {
    SubmitUpToKeepsRequests(owner, w, w.refs, items, e.item, |items|);
    StaleRefsAreStale(w.refs, items);
    CleanKeepsRequests(owner, Submitted(w, items, e), StaleRefs(w.refs, items), e.clean, 0);
  }

  // ----- every run -----

  /** What can happen between two observations of the registry. `Cleanup` is also what a restart amounts to. */
  datatype Step =
    | Sync(items: seq<Dashboard>, events: Events)
    | InvalidateAll
    | Cleanup
    | External(server: Server)

  ghost function After(w: World, s: Step): World {
    match s
    case Sync(items, events) => Round(w, items, events)
    case InvalidateAll => w.(refs := Invalidated(w.refs))
    case Cleanup => w.(refs := [], plugins := map[])
    case External(server) => w.(server := server)
  }

  ghost function RunFrom(server: Server, steps: seq<Step>): World {
    if steps == [] then World([], map[], server)
    else After(RunFrom(server, steps[..|steps| - 1]), steps[|steps| - 1])
  }

  ghost predicate OwnSteps(owner: Owner, steps: seq<Step>) {
    forall s :: s in steps && s.Sync? ==> Hashed(s.items) && OwnItems(owner, s.items)
  }

  /** In every reachable state, with arbitrary resource lists, arbitrary faults and arbitrary changes to Grafana,
      the registry holds no UID twice and every plugin request belongs to a known dashboard. */
  lemma {:induction false} RequestsFollowDashboards(owner: Owner, server: Server, steps: seq<Step>)
    requires OwnSteps(owner, steps)
    ensures
      var w := RunFrom(server, steps);
      UniqueUids(w.refs) && OwnRefs(owner, w.refs) && RequestsAreKnown(w)
  {
    if steps != [] {
      var rest, last := steps[..|steps| - 1], steps[|steps| - 1];
      assert forall s :: s in rest ==> s in steps;
      RequestsFollowDashboards(owner, server, rest);
      var w := RunFrom(server, rest);
      assert last in steps;
      match last
      case Sync(items, events) =>
        RoundKeepsRequests(owner, w, items, events);
      case InvalidateAll =>
        InvalidateKeepsRequests(owner, w);
      case Cleanup =>
      case External(_) =>
    }
  }

  lemma InvalidateKeepsRequests(owner: Owner, w: World)
    requires UniqueUids(w.refs) && OwnRefs(owner, w.refs) && RequestsAreKnown(w)
    ensures
      var w' := w.(refs := Invalidated(w.refs));
      UniqueUids(w'.refs) && OwnRefs(owner, w'.refs) && RequestsAreKnown(w')
  {
  }
}
