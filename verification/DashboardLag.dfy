/** Fault-free rounds over a registry that need not agree with Grafana, as faults and edits may leave it: exactly which
    resources are current after a round. */
module DashboardLag {
  import opened Wrappers
  import opened PluginList
  import opened ControllerConfig
  import opened GrafanaClient
  import opened DashboardSync
  import opened DashboardSafety
  import opened DashboardConvergence
  import opened DashboardRuns
  import opened DashboardAside

  /** Grafana hands out folder identifiers in ascending order. */
  ghost predicate FreshIds(s: Server) {
    && (forall t :: t in s.folders ==> s.folders[t] < s.nextId)
    && (forall u :: u in s.dashboards ==> s.dashboards[u].folderId < s.nextId)
  }

  /** The reference is that of the resource as it is, and the resource is in Grafana as it should be, where the
      reference says. */
  predicate Matches(s: Server, r: DashboardRef, d: Dashboard) {
    && Records(r, d)
    && FolderTitle(d) in s.folders
    && d.uid in s.dashboards
    && s.dashboards[d.uid] == Stored(d.hash, s.folders[FolderTitle(d)])
    && r.folderId == s.folders[FolderTitle(d)]
  }

  /** The resource is taken for submitted, although no reference of it agrees with Grafana. */
  ghost predicate Lags(refs: seq<DashboardRef>, s: Server, d: Dashboard) {
    Skips(refs, s, d) && forall r :: r in refs ==> !Matches(s, r, d)
  }

  // ----- the resource itself -----

  lemma SkippedIsCurrent(w: World, d: Dashboard)
    requires FreshIds(w.server) && Presentable(d)
    ensures Current(Skipped(w, d), d) <==> exists r :: r in w.refs && Matches(w.server, r, d)
  {
    FolderIsThere(w.server, d);
    hide FolderFor, WithFolderOf;
    var w' := Skipped(w, d);
    if Current(w', d) {
      var r :| r in w.refs && Records(r, d) && r.folderId == w'.server.folders[FolderTitle(d)];
      assert Matches(w.server, r, d);
    }
  }

  lemma PostedIsCurrent(w: World, d: Dashboard)
    requires UniqueUids(w.refs) && Presentable(d)
    ensures Current(PostedWorld(w, d), d)
  {
    FolderIsThere(w.server, d);
    var id := WithFolderOf(w.server, d).folders[FolderTitle(d)];
    AddedMembers(w.refs, d, id, FolderTitle(d));
    var added := NewRef(d, id, if Index(w.refs, d.uid).Some? then FolderTitle(d) else d.customFolder);
    assert added in PostedWorld(w, d).refs && Records(added, d);
    hide Added, FolderFor;
  }

  /** After its fault-free submission a resource is current if and only if it does not lag. */
  lemma CurrentIffNotLagging(w: World, known: seq<DashboardRef>, d: Dashboard)
    requires UniqueUids(w.refs) && FreshIds(w.server) && Presentable(d)
    requires forall r :: RefKey(r) == KeyOf(d) ==> (r in known <==> r in w.refs)
    ensures Current(SubmitItem(w, known, d, CALM_ITEM), d) <==> !Lags(known, w.server, d)
  {
    CalmSubmission(w, known, d);
    hide SubmitItem, Current, Skipped, PostedWorld, FreshIds;
    SkippedIsCurrent(w, d);
    PostedIsCurrent(w, d);
    assert (exists r :: r in w.refs && Matches(w.server, r, d)) <==> exists r :: r in known && Matches(w.server, r, d);
  }

  // ----- the other resources -----

  lemma BesideKeepsCurrent(w: World, w': World, d: Dashboard)
    requires Beside(w, w', d) && FreshIds(w.server)
    ensures Current(w, d) <==> Current(w', d)
  {
    assert Near(w.refs, d, d.uid);
    assert forall r :: Records(r, d) ==> (r in w.refs <==> r in w'.refs);
    hide Find;
  }

  lemma BesideKeepsLag(w: World, w': World, d: Dashboard)
    requires Beside(w, w', d) && FreshIds(w.server)
    ensures Lags(w.refs, w.server, d) <==> Lags(w.refs, w'.server, d)
  {
    assert Near(w.refs, d, d.uid);
    var r := Find(w.refs, KeyOf(d));
    assert r.Some? ==> Near(w.refs, d, r.value.uid);
    assert Skips(w.refs, w.server, d) <==> Skips(w.refs, w'.server, d);
    assert forall q :: Matches(w.server, q, d) <==> Matches(w'.server, q, d);
    hide Find, Skips, Matches;
  }

  // ----- all submissions of a round -----

  lemma SubmissionIsFresh(w: World, known: seq<DashboardRef>, d: Dashboard)
    requires FreshIds(w.server) && Presentable(d)
    ensures FreshIds(SubmitItem(w, known, d, CALM_ITEM).server)
  {
    CalmSubmission(w, known, d);
    FolderIsThere(w.server, d);
    hide SubmitItem, FolderFor, WithFolderOf, Skips, Added;
  }

  lemma {:induction false} SubmissionsAreFresh(w: World, known: seq<DashboardRef>, items: seq<Dashboard>, e: Events, k: nat)
    requires k <= |items| && WellFormed(items) && Calm(e) && FreshIds(w.server)
    ensures FreshIds(SubmitUpTo(w, known, items, e.item, k).server)
  {
    hide WellFormed, FreshIds, Calm, SubmitItem;
    if k > 0 {
      SubmissionsAreFresh(w, known, items, e, k - 1);
      OtherKeys(items, k - 1);
      CalmNext(w, known, items, e, k - 1);
      SubmissionIsFresh(SubmitUpTo(w, known, items, e.item, k - 1), known, items[k - 1]);
    }
  }

  lemma BesideKeepsRefs(w: World, w': World, d: Dashboard)
    requires Beside(w, w', d)
    ensures forall r :: RefKey(r) == KeyOf(d) ==> (r in w.refs <==> r in w'.refs)
  {
  }

  lemma SubmittedIffNotLagging(w: World, items: seq<Dashboard>, e: Events, j: nat)
    requires WellFormed(items) && Calm(e) && Kept(w.refs, items) && FreshIds(w.server) && j < |items|
    ensures Current(Submitted(w, items, e), items[j]) <==> !Lags(w.refs, w.server, items[j])
  {
    hide SubmitItem, Beside, WellFormed, FreshIds, Calm, Current, Lags, SubmitUpTo, Unborrowed, UniqueUids;
    var d := items[j];
    var before := SubmitUpTo(w, w.refs, items, e.item, j);
    AroundItem(w, items, e, j);
    SubmissionsAreFresh(w, w.refs, items, e, j);
    SubmissionsAreFresh(w, w.refs, items, e, j + 1);
    BesideKeepsRefs(w, before, d);
    CurrentIffNotLagging(before, w.refs, d);
    BesideKeepsLag(w, before, d);
    BesideKeepsCurrent(SubmitUpTo(w, w.refs, items, e.item, j + 1), Submitted(w, items, e), d);
  }

  // ----- clean-up -----

  lemma ForgettingKeepsCurrent(w: World, r: DashboardRef, answer: Answer, d: Dashboard)
    requires UniqueUids(w.refs) && r.uid != d.uid && RefKey(r) != KeyOf(d)
    ensures UniqueUids(Forgotten(w, r, answer).refs)
    ensures Current(Forgotten(w, r, answer), d) <==> Current(w, d)
  {
    RemovedMembers(w.refs, r.uid);
    var w' := Forgotten(w, r, answer);
    assert forall q :: Records(q, d) ==> (q in w.refs <==> q in w'.refs);
    assert w'.server.folders == w.server.folders;
  }

  lemma FolderDeletionKeepsCurrentness(w: World, id: int, answer: Answer, d: Dashboard)
    requires SafeToDeleteFolder(w.refs, id)
    ensures Current(w.(server := FolderDeleted(w.server, id, answer)), d) <==> Current(w, d)
  {
  }

  lemma {:induction false} CleaningKeepsCurrent(w: World, stale: seq<DashboardRef>, e: nat -> CleanEvents, k: nat, d: Dashboard)
    requires UniqueUids(w.refs) && k <= |stale| && forall r :: r in stale ==> r.uid != d.uid && RefKey(r) != KeyOf(d)
    ensures Current(CleanFrom(w, stale, e, k), d) <==> Current(w, d)
    decreases |stale| - k
  {
    if k < |stale| {
      hide Current, Forgotten, FolderDeleted;
      var r := stale[k];
      var w1 := Forgotten(w, r, e(k).deleteDashboard);
      ForgettingKeepsCurrent(w, r, e(k).deleteDashboard, d);
      if !Managed(r) {
        CleaningKeepsCurrent(w1, stale, e, k + 1, d);
      } else if SafeToDeleteFolder(w1.refs, r.folderId) {
        FolderDeletionKeepsCurrentness(w1, r.folderId, e(k).deleteFolder, d);
        CleaningKeepsCurrent(w1.(server := FolderDeleted(w1.server, r.folderId, e(k).deleteFolder)), stale, e, k + 1, d);
      }
    }
  }

  // ----- one round -----

  lemma StaleIsElsewhere(refs: seq<DashboardRef>, items: seq<Dashboard>, d: Dashboard)
    requires Unborrowed(refs, items) && d in items
    ensures forall r :: r in StaleRefs(refs, items) ==> r.uid != d.uid && RefKey(r) != KeyOf(d)
  {
    StaleRefsAreStale(refs, items);
  }

  /** Exactness of a fault-free round from any registry with unique UIDs in which no resource finds its UID under
      another name, whether or not it agrees with Grafana: a resource is current afterwards if and only if it did not
      lag before. */
  lemma RoundMakesCurrentIff(w: World, items: seq<Dashboard>, e: Events, d: Dashboard)
    requires WellFormed(items) && Calm(e) && Kept(w.refs, items) && FreshIds(w.server) && d in items
    ensures Current(Round(w, items, e), d) <==> !Lags(w.refs, w.server, d)
  {
    assert !e.listFails;
    StaleIsElsewhere(w.refs, items, d);
    SubmissionsAreKept(w, w.refs, items, e, |items|);
    hide Current, Lags, WellFormed, Unborrowed, Calm, UniqueUids, FreshIds, SubmitUpTo, CleanFrom, StaleRefs;
    var j :| 0 <= j < |items| && items[j] == d;
    SubmittedIffNotLagging(w, items, e, j);
    CleaningKeepsCurrent(Submitted(w, items, e), StaleRefs(w.refs, items), e.clean, 0, d);
  }

  // ----- how a resource comes to lag -----

  /** An update that Grafana answers with status 503 is recorded as submitted, although the old content stays. */
  lemma UnavailableUpdateLags(w: World, d: Dashboard)
    requires Kept(w.refs, [d]) && Presentable(d)
    requires Find(w.refs, KeyOf(d)).Some? && Find(w.refs, KeyOf(d)).value.uid == d.uid && KnownHash(w.refs, KeyOf(d)) != d.hash
    requires d.uid in w.server.dashboards && w.server.dashboards[d.uid].content != d.hash
    ensures var w' := SubmitItem(w, w.refs, d, CALM_ITEM.(post := Unavailable)); Lags(w'.refs, w'.server, d)
  {
    var w' := SubmitItem(w, w.refs, d, CALM_ITEM.(post := Unavailable));
    FolderIsThere(w.server, d);
    var id := WithFolderOf(w.server, d).folders[FolderTitle(d)];
    var r := Find(w.refs, KeyOf(d)).value;
    assert w'.refs == Added(w.refs, d, id, FolderTitle(d)) && w'.server.dashboards == w.server.dashboards;
    var i := Index(w.refs, d.uid).value;
    UniqueRef(w.refs, r, w.refs[i]);
    FirstReplaced(w.refs, i, NewRef(d, id, FolderTitle(d)), KeyOf(d));
    assert w'.refs == w.refs[i := NewRef(d, id, FolderTitle(d))];
    hide SubmitItem, FolderFor;
  }

  /** And it stays so: a lagging resource whose folder is there is skipped by every later fault-free submission. */
  lemma LaggingIsSkipped(w: World, d: Dashboard)
    requires Presentable(d) && Lags(w.refs, w.server, d) && FolderTitle(d) in w.server.folders
    ensures
      var w' := SubmitItem(w, w.refs, d, CALM_ITEM);
      w' == w.(plugins := w.plugins[KeyOf(d) := d.plugins]) && Lags(w'.refs, w'.server, d)
  {
    CalmSubmission(w, w.refs, d);
    FolderIsThere(w.server, d);
  }

  /** A move to another folder that leaves the hash as it is goes unnoticed: the hash joins its parts without a
      separator, so it need not tell folder titles apart. */
  lemma EqualHashHidesMove(w: World, d: Dashboard, r: DashboardRef)
    requires UniqueUids(w.refs) && UidsFit(w.refs, [d]) && Presentable(d)
    requires r in w.refs && RefKey(r) == KeyOf(d) && r.hash == d.hash && d.uid in w.server.dashboards
    requires RefTitle(r) != FolderTitle(d)
    ensures Lags(w.refs, w.server, d) && !Current(SubmitItem(w, w.refs, d, CALM_ITEM), d)
  {
    assert d in [d];
    var first := Find(w.refs, KeyOf(d)).value;
    UniqueRef(w.refs, first, r);
    forall q | q in w.refs
      ensures !Matches(w.server, q, d)
    {
      if RefKey(q) == KeyOf(d) {
        UniqueRef(w.refs, q, r);
      }
    }
    CalmSubmission(w, w.refs, d);
  }

  // ----- the premises are reachable -----

  /** Folders have identifiers of their own, and 0 is not one that Grafana creates. */
  ghost predicate Numbered(s: Server) {
    FreshIds(s) && s.nextId > 0 && forall t, u :: t in s.folders && u in s.folders && s.folders[t] == s.folders[u] ==> t == u
  }

  lemma FolderForIsNumbered(s: Server, title: string, listing: Answer, creation: Answer)
    requires Numbered(s)
    ensures
      var (s1, id) := FolderFor(s, title, listing, creation);
      Numbered(s1) && (id.Some? ==> id.value < s1.nextId)
  {
  }

  lemma SubmissionIsNumbered(w: World, known: seq<DashboardRef>, d: Dashboard, e: ItemEvents)
    requires Numbered(w.server)
    ensures Numbered(SubmitItem(w, known, d, e).server)
  {
    FolderForIsNumbered(w.server, FolderTitle(d), e.listing, e.creation);
    hide FolderFor, Pipeline, Added, KnownHash, KnownUid;
  }

  lemma {:induction false} SubmissionsAreNumbered(w: World, known: seq<DashboardRef>, items: seq<Dashboard>, e: nat -> ItemEvents, k: nat)
    requires Numbered(w.server) && k <= |items|
    ensures Numbered(SubmitUpTo(w, known, items, e, k).server)
  {
    hide SubmitItem, Numbered;
    if k > 0 {
      SubmissionsAreNumbered(w, known, items, e, k - 1);
      SubmissionIsNumbered(SubmitUpTo(w, known, items, e, k - 1), known, items[k - 1], e(k - 1));
    }
  }

  lemma {:induction false} CleaningIsNumbered(w: World, stale: seq<DashboardRef>, e: nat -> CleanEvents, k: nat)
    requires Numbered(w.server) && k <= |stale|
    ensures Numbered(CleanFrom(w, stale, e, k).server)
    decreases |stale| - k
  {
    if k < |stale| {
      var w1 := Forgotten(w, stale[k], e(k).deleteDashboard);
      CleaningIsNumbered(w1, stale, e, k + 1);
      CleaningIsNumbered(w1.(server := FolderDeleted(w1.server, stale[k].folderId, e(k).deleteFolder)), stale, e, k + 1);
    }
  }

  lemma RoundIsNumbered(w: World, items: seq<Dashboard>, e: Events)
    requires Numbered(w.server)
    ensures Numbered(Round(w, items, e).server)
  {
    hide Numbered;
    SubmissionsAreNumbered(w, w.refs, items, e.item, |items|);
    CleaningIsNumbered(Submitted(w, items, e), StaleRefs(w.refs, items), e.clean, 0);
  }

  /** Any faults, any invalidations and restarts, and any changes to Grafana that keep its numbering. */
  ghost predicate AnyRun(pool: Pool, server: Server, steps: seq<Step>) {
    && Numbered(server)
    && (forall s :: s in steps && s.Sync? ==> DrawnFrom(pool, s.items))
    && (forall s :: s in steps && s.External? ==> Numbered(s.server))
  }

  lemma {:induction false} AnyRunKeeps(pool: Pool, server: Server, steps: seq<Step>)
    requires Distinguished(pool) && AnyRun(pool, server, steps)
    ensures
      var w := RunFrom(server, steps);
      UniqueUids(w.refs) && RecordedFrom(pool, w.refs) && Numbered(w.server)
  {
    hide Round, Numbered;
    if steps != [] {
      var rest, last := steps[..|steps| - 1], steps[|steps| - 1];
      assert last in steps && forall s :: s in rest ==> s in steps;
      AnyRunKeeps(pool, server, rest);
      var w := RunFrom(server, rest);
      match last
      case Sync(items, events) =>
        assert Hashed(items);
        RoundRecords(pool, w, items, events);
        RoundIsNumbered(w, items, events);
      case InvalidateAll => InvalidationKeepsRecords(pool, w.refs);
      case Cleanup =>
      case External(_) =>
    }
  }

  /** Every version of every resource has names and hashes, and no two resources share a UID. A resource may change
      its UID. */
  ghost predicate Distinguished(pool: Pool) {
    UidsIdentify(pool) && forall d :: d in pool ==> d.hash != "" && d.uid != "" && d.namespace != ""
  }

  lemma RecordedIsUnborrowed(pool: Pool, refs: seq<DashboardRef>, items: seq<Dashboard>)
    requires UidsIdentify(pool) && RecordedFrom(pool, refs) && DrawnFrom(pool, items)
    ensures Unborrowed(refs, items)
  {
    forall r, d | r in refs && d in items && r.uid == d.uid
      ensures RefKey(r) == KeyOf(d)
    {
      var a :| a in pool && RecordedFor(r, a);
      assert d in pool;
    }
  }

  /** From every state that any run reaches, with any faults: after a fault-free round a live resource is current if
      and only if it did not lag before. */
  lemma ReachableCurrentIff(pool: Pool, server: Server, steps: seq<Step>, items: seq<Dashboard>, e: Events, d: Dashboard)
    requires Distinguished(pool) && AnyRun(pool, server, steps)
    requires WellFormed(items) && DrawnFrom(pool, items) && Calm(e) && d in items
    ensures var w := RunFrom(server, steps);
      Current(Round(w, items, e), d) <==> !Lags(w.refs, w.server, d)
  {
    hide Round, Current, Lags, Calm;
    AnyRunKeeps(pool, server, steps);
    RecordedIsUnborrowed(pool, RunFrom(server, steps).refs, items);
    assert FreshIds(RunFrom(server, steps).server);
    RoundMakesCurrentIff(RunFrom(server, steps), items, e, d);
  }
}
