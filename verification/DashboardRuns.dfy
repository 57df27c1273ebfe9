/** Whole runs of the dashboard controller over a pool of resources: from every reachable state the rounds settle,
    and then the plugin requests are those of the live dashboards. */
module DashboardRuns {
  import opened Seqs
  import opened PluginList
  import opened ControllerConfig
  import opened GrafanaClient
  import opened DashboardSync
  import opened DashboardSafety
  import opened DashboardSubmission
  import opened DashboardRemoval
  import opened DashboardConvergence

  // ----- a pool of resources -----

  /** Every version of every resource that a run may see. */
  type Pool = set<Dashboard>

  ghost predicate UidsIdentify(pool: Pool) {
    forall a, b :: a in pool && b in pool && a.uid == b.uid ==> KeyOf(a) == KeyOf(b)
  }

  /** UIDs and keys identify one another: no resource ever changes its UID or takes that of another. */
  ghost predicate StableUids(pool: Pool) {
    && UidsIdentify(pool)
    && (forall d :: d in pool ==> d.hash != "" && d.uid != "" && d.namespace != "")
    && (forall a, b :: a in pool && b in pool && KeyOf(a) == KeyOf(b) ==> a.uid == b.uid)
  }

  /** Moreover, the hash tells folder titles of one resource apart. */
  ghost predicate Sound(pool: Pool) {
    && StableUids(pool)
    && (forall a, b :: a in pool && b in pool && KeyOf(a) == KeyOf(b) && a.hash == b.hash ==> FolderTitle(a) == FolderTitle(b))
  }

  ghost predicate DrawnFrom(pool: Pool, items: seq<Dashboard>) {
    forall d :: d in items ==> d in pool
  }

  ghost function OwnerOf(pool: Pool): Owner {
    uid => if exists d :: d in pool && d.uid == uid then
             var d :| d in pool && d.uid == uid; KeyOf(d)
           else Key("", "")
  }

  lemma OwnerOwns(pool: Pool, items: seq<Dashboard>)
    requires UidsIdentify(pool) && DrawnFrom(pool, items)
    ensures OwnItems(OwnerOf(pool), items)
  {
  }

  // ----- references come from the pool -----

  /** The reference was recorded for some version of a resource, and at most invalidated since. */
  ghost predicate RecordedFor(r: DashboardRef, a: Dashboard) {
    RefKey(r) == KeyOf(a) && r.uid == a.uid && (r.hash == a.hash || r.hash == "") && RefTitle(r) == FolderTitle(a)
  }

  ghost predicate RecordedFrom(pool: Pool, refs: seq<DashboardRef>) {
    forall r :: r in refs ==> exists a :: a in pool && RecordedFor(r, a)
  }

  lemma RecordedFits(pool: Pool, refs: seq<DashboardRef>, items: seq<Dashboard>)
    requires StableUids(pool) && RecordedFrom(pool, refs) && DrawnFrom(pool, items)
    ensures UidsFit(refs, items)
    ensures Sound(pool) ==> Fits(refs, items)
  {
    forall r, d | r in refs && d in items
      ensures RefKey(r) == KeyOf(d) <==> r.uid == d.uid
      ensures Sound(pool) && RefKey(r) == KeyOf(d) && r.hash == d.hash ==> RefTitle(r) == FolderTitle(d)
    {
      var a :| a in pool && RecordedFor(r, a);
      assert d in pool;
    }
  }

  lemma {:induction false} SubmitRecords(pool: Pool, w: World, known: seq<DashboardRef>, items: seq<Dashboard>, e: nat -> ItemEvents, k: nat)
    requires UniqueUids(w.refs) && RecordedFrom(pool, w.refs) && DrawnFrom(pool, items) && Hashed(items) && k <= |items|
    ensures UniqueUids(SubmitUpTo(w, known, items, e, k).refs)
    ensures RecordedFrom(pool, SubmitUpTo(w, known, items, e, k).refs)
  {
    hide SubmitItem;
    if k > 0 {
      SubmitRecords(pool, w, known, items, e, k - 1);
      var prev, d := SubmitUpTo(w, known, items, e, k - 1), items[k - 1];
      assert d in items;
      SubmitItemCases(prev, known, d, e(k - 1));
      var next := SubmitItem(prev, known, d, e(k - 1));
      if next.refs != prev.refs {
        var folderId :| Adds(prev, next, d, folderId);
        AddRefines(prev.refs, d, folderId, FolderTitle(d));
        AddedMembers(prev.refs, d, folderId, FolderTitle(d));
        AddedIsRecorded(pool, prev.refs, d, folderId);
      }
    }
  }

  lemma AddedIsRecorded(pool: Pool, refs: seq<DashboardRef>, d: Dashboard, folderId: int)
    requires UniqueUids(refs) && RecordedFrom(pool, refs) && d in pool
    ensures RecordedFrom(pool, Added(refs, d, folderId, FolderTitle(d)))
  {
    AddedMembers(refs, d, folderId, FolderTitle(d));
    var added := NewRef(d, folderId, if Index(refs, d.uid).Some? then FolderTitle(d) else d.customFolder);
    assert RecordedFor(added, d);
  }

  lemma RoundRecords(pool: Pool, w: World, items: seq<Dashboard>, e: Events)
    requires UniqueUids(w.refs) && RecordedFrom(pool, w.refs) && DrawnFrom(pool, items) && Hashed(items)
    ensures UniqueUids(Round(w, items, e).refs) && RecordedFrom(pool, Round(w, items, e).refs)
  {
    SubmitRecords(pool, w, w.refs, items, e.item, |items|);
    CleanShrinks(Submitted(w, items, e), StaleRefs(w.refs, items), e.clean, 0);
  }

  // ----- reachable states -----

  ghost predicate StepsFrom(pool: Pool, steps: seq<CalmStep>) {
    CalmSteps(steps) && forall s :: s in steps && s.CalmSync? ==> DrawnFrom(pool, s.items)
  }

  /** What holds in every state a fault-free run over the pool can reach. */
  ghost predicate Reachable(pool: Pool, w: World) {
    Coherent(w) && RecordedFrom(pool, w.refs) && OwnRefs(OwnerOf(pool), w.refs) && RequestsAreKnown(w)
  }

  lemma InvalidationKeepsReachable(pool: Pool, w: World)
    requires Sound(pool) && Reachable(pool, w)
    ensures Reachable(pool, w.(refs := Invalidated(w.refs)))
  {
    InvalidationKeepsCoherent(w);
    InvalidateKeepsRequests(OwnerOf(pool), w);
    InvalidationKeepsRecords(pool, w.refs);
  }

  lemma InvalidationKeepsRecords(pool: Pool, refs: seq<DashboardRef>)
    requires UniqueUids(refs) && RecordedFrom(pool, refs)
    ensures UniqueUids(Invalidated(refs)) && RecordedFrom(pool, Invalidated(refs))
  {
    forall r | r in Invalidated(refs)
      ensures exists a :: a in pool && RecordedFor(r, a)
    {
      var i :| 0 <= i < |refs| && Invalidated(refs)[i] == r;
      assert refs[i] in refs;
      var a :| a in pool && RecordedFor(refs[i], a);
      assert RecordedFor(r, a);
    }
  }

  lemma RoundKeepsReachable(pool: Pool, w: World, items: seq<Dashboard>, e: Events)
    requires Sound(pool) && Reachable(pool, w) && DrawnFrom(pool, items) && Calm(e)
    ensures Reachable(pool, Round(w, items, e))
  {
    assert Hashed(items) && forall d :: d in items ==> d.namespace != "";
    hide Round;
    CalmStepKeepsCoherent(w, CalmSync(items, e));
    RoundRecords(pool, w, items, e);
    OwnerOwns(pool, items);
    RoundKeepsRequests(OwnerOf(pool), w, items, e);
  }

  lemma {:induction false} RunsAreReachable(pool: Pool, server: Server, steps: seq<CalmStep>)
    requires Sound(pool) && StepsFrom(pool, steps)
    ensures Reachable(pool, CalmRun(server, steps))
  {
    if steps != [] {
      var rest, last := steps[..|steps| - 1], steps[|steps| - 1];
      assert last in steps;
      RunsAreReachable(pool, server, rest);
      var w := CalmRun(server, rest);
      match last
      case CalmSync(items, events) => RoundKeepsReachable(pool, w, items, events);
      case Console(uids, folderIds) => CalmStepKeepsCoherent(w, last);
      case InvalidateHashes => InvalidationKeepsReachable(pool, w);
      case Restart =>
    }
  }

  lemma {:induction false} RoundsKeepReachable(pool: Pool, w: World, lists: seq<seq<Dashboard>>, e: nat -> Events, k: nat)
    requires Sound(pool) && Reachable(pool, w) && k <= |lists|
    requires (forall l :: l in lists ==> DrawnFrom(pool, l)) && forall i :: Calm(e(i))
    ensures Reachable(pool, Rounds(w, lists, e, k))
  {
    hide Round, Reachable, Sound, Calm;
    if k > 0 {
      assert lists[k - 1] in lists;
      RoundsKeepReachable(pool, w, lists, e, k - 1);
      RoundKeepsReachable(pool, Rounds(w, lists, e, k - 1), lists[k - 1], e(k - 1));
    }
  }

  // ----- the plugin requests of a settled state -----

  /** The plugin lists of the resources, one after the other. */
  function PluginsOf(items: seq<Dashboard>): seq<Plugin> {
    if items == [] then [] else PluginsOf(items[..|items| - 1]) + items[|items| - 1].plugins
  }

  function KeysOf(items: seq<Dashboard>): (ks: seq<Key>)
    ensures |ks| == |items| && forall i :: 0 <= i < |items| ==> ks[i] == KeyOf(items[i])
  {
    seq(|items|, i requires 0 <= i < |items| => KeyOf(items[i]))
  }

  lemma {:induction false} GatheredByItems(plugins: map<Key, seq<Plugin>>, items: seq<Dashboard>)
    requires forall d :: d in items ==> KeyOf(d) in plugins && plugins[KeyOf(d)] == d.plugins
    ensures forall k :: k in KeysOf(items) ==> k in plugins
    ensures Gathered(plugins, KeysOf(items)) == PluginsOf(items)
  {
    forall k | k in KeysOf(items)
      ensures k in plugins
    {
      var i :| 0 <= i < |items| && KeysOf(items)[i] == k;
      assert items[i] in items;
    }
    if items != [] {
      var rest := items[..|items| - 1];
      assert items[|items| - 1] in items;
      GatheredByItems(plugins, rest);
      assert KeysOf(items)[..|items| - 1] == KeysOf(rest);
    }
  }

  /** The plugin requests are those of the resources, and no reference is stale. */
  ghost predicate Requesting(w: World, items: seq<Dashboard>) {
    && RequestsAreKnown(w) && StaleSet(w.refs, items) == {}
    && forall d :: d in items ==> KeyOf(d) in w.plugins && w.plugins[KeyOf(d)] == d.plugins
  }

  lemma RequestKeys(w: World, items: seq<Dashboard>)
    requires WellFormed(items) && Requesting(w, items)
    ensures Enumerates(KeysOf(items), w.plugins.Keys)
  {
    var ks := KeysOf(items);
    forall k
      ensures k in ks <==> k in w.plugins
    {
      if k in ks {
        var i :| 0 <= i < |items| && ks[i] == k;
        assert items[i] in items;
      }
      if k in w.plugins {
        var r :| r in w.refs && RefKey(r) == k;
        assert r !in StaleSet(w.refs, items);
        assert Live(r, items);
        var d :| d in items && KeyOf(d) == k;
        var i :| 0 <= i < |items| && items[i] == d;
        assert ks[i] == k;
      }
    }
  }

  lemma RequestsGather(w: World, items: seq<Dashboard>, order: seq<Key>)
    requires WellFormed(items) && Requesting(w, items)
    requires Enumerates(order, w.plugins.Keys)
    ensures Permutation(Gathered(w.plugins, order), PluginsOf(items))
  {
    RequestKeys(w, items);
    GatheredInAnyOrder(w.plugins, order, KeysOf(items));
    GatheredByItems(w.plugins, items);
  }

  /** Once the sync has settled, the gathered requests are, up to order, those of the resources. */
  lemma SettledGathers(w: World, items: seq<Dashboard>, order: seq<Key>)
    requires WellFormed(items) && Settled(w, items) && RequestsAreKnown(w)
    requires Enumerates(order, w.plugins.Keys)
    ensures Permutation(Gathered(w.plugins, order), PluginsOf(items))
  {
    assert forall d :: d in items ==> Current(w, d);
    RequestsGather(w, items, order);
  }

  /** The main result. From every state a fault-free run over the pool can reach, with any resources of the pool
      listed in any order: after as many rounds as there are stale references, and at least one, the state is
      settled, of the dashboards that were kept track of Grafana has exactly the live ones, further rounds change
      nothing, and the gathered plugin requests are, up to order, those of the live resources. */
  lemma ReachableDashboardsSettle(
    pool: Pool, server: Server, steps: seq<CalmStep>,
    items: seq<Dashboard>, lists: seq<seq<Dashboard>>, e: nat -> Events, k: nat)
    requires Sound(pool) && StepsFrom(pool, steps) && DrawnFrom(pool, items)
    requires SameItems(items, lists) && (forall i :: Calm(e(i)))
    requires 1 <= k < |lists| && |StaleSet(CalmRun(server, steps).refs, items)| <= k
    ensures
      var w := Rounds(CalmRun(server, steps), lists, e, k);
      && Settled(w, items)
      && OnlyLiveLeft(CalmRun(server, steps), w, items)
      && Rounds(CalmRun(server, steps), lists, e, k + 1) == w
      && forall order :: Enumerates(order, w.plugins.Keys) ==> Permutation(Gathered(w.plugins, order), PluginsOf(lists[k]))
  {
    hide Calm, Coherent, Round, Settled, OnlyLiveLeft;
    var start := CalmRun(server, steps);
    var w := Rounds(start, lists, e, k);
    RunsAreReachable(pool, server, steps);
    RecordedFits(pool, start.refs, items);
    DashboardsSettle(start, items, lists, e, k);
    RoundsKeepReachable(pool, start, lists, e, k);
    assert lists[k] in lists;
    SettledIgnoresOrder(w, items, lists[k]);
    forall order | Enumerates(order, w.plugins.Keys)
      ensures Permutation(Gathered(w.plugins, order), PluginsOf(lists[k]))
    {
      SettledGathers(w, lists[k], order);
    }
  }

  // ----- which dashboards are kept track of -----

  /** Unless the operator restarts, a fault-free run keeps track of every dashboard that was not in Grafana before it. */
  lemma {:induction false} RunTracks(server: Server, steps: seq<CalmStep>, uid: string)
    requires CalmSteps(steps) && (forall s :: s in steps ==> !s.Restart?) && uid !in server.dashboards
    ensures Tracked(CalmRun(server, steps), uid)
  {
    if steps != [] {
      var rest, last := steps[..|steps| - 1], steps[|steps| - 1];
      var w := CalmRun(server, rest);
      assert last in steps && forall s :: s in rest ==> s in steps;
      RunTracks(server, rest, uid);
      match last
      case CalmSync(items, events) =>
        CalmIsCarriedOut(events);
        hide Round;
        RoundTracks(w, items, events, uid);
      case Console(_, _) =>
      case InvalidateHashes => InvalidationKnows(w.refs, uid);
      case Restart =>
    }
  }

  lemma InvalidationKnows(refs: seq<DashboardRef>, uid: string)
    ensures Knows(Invalidated(refs), uid) <==> Knows(refs, uid)
  {
    var after := Invalidated(refs);
    if r :| r in refs && r.uid == uid {
      var i :| 0 <= i < |refs| && refs[i] == r;
      assert after[i] in after && after[i].uid == uid;
    }
  }

  /** So without restarts, a removed dashboard leaves Grafana: once settled, a UID that was not there before the run is
      there exactly when a live resource has it. */
  lemma RemovedDashboardsLeave(
    pool: Pool, server: Server, steps: seq<CalmStep>,
    items: seq<Dashboard>, lists: seq<seq<Dashboard>>, e: nat -> Events, k: nat, uid: string)
    requires Sound(pool) && StepsFrom(pool, steps) && DrawnFrom(pool, items)
    requires SameItems(items, lists) && (forall i :: Calm(e(i)))
    requires 1 <= k < |lists| && |StaleSet(CalmRun(server, steps).refs, items)| <= k
    requires (forall s :: s in steps ==> !s.Restart?) && uid !in server.dashboards
    ensures uid in Rounds(CalmRun(server, steps), lists, e, k).server.dashboards <==> exists d :: d in items && d.uid == uid
  {
    hide Calm, Rounds, CalmRun, StaleSet;
    RunTracks(server, steps, uid);
    ReachableDashboardsSettle(pool, server, steps, items, lists, e, k);
  }

  lemma NoneStaleAfterRound(w: World, items: seq<Dashboard>, e: Events, uid: string)
    requires UniqueUids(w.refs) && Hashed(items) && StaleSet(w.refs, items) == {} && uid in w.server.dashboards
    ensures UniqueUids(Round(w, items, e).refs) && StaleSet(Round(w, items, e).refs, items) == {}
    ensures uid in Round(w, items, e).server.dashboards
  {
    hide SubmitUpTo, StaleSet;
    RoundMakesProgress(w, items, e);
    NoneStale(w.refs, items);
    SubmissionsKeep(w, w.refs, items, e.item, |items|, uid);
  }

  /** After a restart the registry is empty, and a dashboard in Grafana whose resource is gone by then stays for good:
      no round over the remaining resources deletes it, with or without faults. */
  lemma {:induction false} RestartOrphans(w: World, items: seq<Dashboard>, lists: seq<seq<Dashboard>>, e: nat -> Events, k: nat, uid: string)
    requires SameItems(items, lists) && uid in w.server.dashboards && k <= |lists|
    ensures
      var now := Rounds(CalmAfter(w, Restart), lists, e, k);
      uid in now.server.dashboards && UniqueUids(now.refs) && StaleSet(now.refs, items) == {}
  {
    hide Round, Hashed;
    if k > 0 {
      RestartOrphans(w, items, lists, e, k - 1, uid);
      var before, l := Rounds(CalmAfter(w, Restart), lists, e, k - 1), lists[k - 1];
      assert l in lists;
      WellFormedIsHashed(l);
      StaleIgnoresOrder(before.refs, items, l);
      NoneStaleAfterRound(before, l, e(k - 1), uid);
      StaleIgnoresOrder(Round(before, l, e(k - 1)).refs, items, l);
    }
  }

  lemma SettledIgnoresOrder(w: World, items: seq<Dashboard>, l: seq<Dashboard>)
    requires Settled(w, items) && forall d :: d in l <==> d in items
    ensures Settled(w, l)
  {
  }

  // ----- what invalidation leads to -----

  /** When no hash is remembered, a fault-free round posts every live dashboard. */
  lemma ForgottenHashesArePosted(w: World, items: seq<Dashboard>, e: Events, d: Dashboard)
    requires WellFormed(items) && Calm(e) && d in items && forall r :: r in w.refs ==> r.hash == ""
    ensures w.server.writes <= Round(w, items, e).server.writes
    ensures exists folderId :: PostSent(Round(w, items, e), |w.server.writes|, d.uid, folderId)
  {
    var i :| 0 <= i < |items| && items[i] == d;
    var s := SubmitUpTo(w, w.refs, items, e.item, i).server;
    assert IsPosted(s, w.refs, d, e.item(i));
    ObtainedFolder(s, d, e.item(i));
    hide Round, IsPosted, PostSent, FolderFor;
    var id := FolderOf(s, d, e.item(i)).value;
    RoundPostsIff(w, items, e, d.uid, id);
    assert PostedAt(w, items, e.item, i, d.uid, id);
  }

  // ----- what becomes of shared UIDs -----

  const CALM := Events(false, (i: nat) => CALM_ITEM, (i: nat) => CleanEvents(Done, Done))

  const EMPTY := Server(map[], map[], 1, [])

  ghost predicate AnyStepsFrom(pool: Pool, steps: seq<Step>) {
    forall s :: s in steps && s.Sync? ==> DrawnFrom(pool, s.items)
  }

  /** Two resources that share a UID: the second takes over the reference of the first, whose plugin request stays. */
  lemma SharedUidOrphansRequest(a: Dashboard, b: Dashboard)
    requires a.hash != "" && a.uid != "" && a.namespace != "" && b.hash != "" && b.namespace != ""
    requires a.uid == b.uid && KeyOf(a) != KeyOf(b)
    ensures !RequestsAreKnown(RunFrom(EMPTY, [Sync([a, b], CALM)]))
  {
    var w0 := World([], map[], EMPTY);
    var w1 := SubmitItem(w0, [], a, CALM_ITEM);
    var w2 := SubmitItem(w1, [], b, CALM_ITEM);
    CalmSubmit(w0, [], a);
    CalmSubmit(w1, [], b);
    assert |w1.refs| == 1 && w1.refs[0].uid == a.uid;
    assert forall r :: r in w2.refs ==> RefKey(r) == KeyOf(b);
    assert KeyOf(a) in w2.plugins && !HasKey(w2.refs, KeyOf(a));
    var items := [a, b];
    assert SubmitUpTo(w0, [], items, CALM.item, 0) == w0;
    assert SubmitUpTo(w0, [], items, CALM.item, 1) == w1;
    assert SubmitUpTo(w0, [], items, CALM.item, 2) == w2;
    assert RunFrom(EMPTY, []) == w0;
    assert [Sync(items, CALM)][..0] == [];
    assert Round(w0, items, CALM) == w2;
  }

  /** Plugin requests belong to known dashboards in every run over a pool, faults included, exactly when no two
      resources of the pool share a UID. */
  lemma RequestsAreKnownIffUidsIdentify(pool: Pool)
    requires forall d :: d in pool ==> d.hash != "" && d.uid != "" && d.namespace != ""
    ensures (forall server: Server, steps: seq<Step> :: AnyStepsFrom(pool, steps) ==> RequestsAreKnown(RunFrom(server, steps)))
       <==> UidsIdentify(pool)
  {
    if UidsIdentify(pool) {
      forall server: Server, steps: seq<Step> | AnyStepsFrom(pool, steps)
        ensures RequestsAreKnown(RunFrom(server, steps))
      {
        forall s: Step | s in steps && s.Sync?
          ensures Hashed(s.items) && OwnItems(OwnerOf(pool), s.items)
        {
          OwnerOwns(pool, s.items);
        }
        RequestsFollowDashboards(OwnerOf(pool), server, steps);
      }
    } else {
      var a, b :| a in pool && b in pool && a.uid == b.uid && KeyOf(a) != KeyOf(b);
      SharedUidOrphansRequest(a, b);
      assert AnyStepsFrom(pool, [Sync([a, b], CALM)]);
    }
  }
}
