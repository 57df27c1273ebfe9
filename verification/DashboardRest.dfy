/** When fault-free dashboard rounds come to rest, from any registry with unique UIDs, however it came about: faults,
    edited UIDs, or moved folders. */
module DashboardRest {
  import opened Wrappers
  import opened PluginList
  import opened ControllerConfig
  import opened GrafanaClient
  import opened DashboardSync
  import opened DashboardSafety
  import opened DashboardRemoval
  import opened DashboardConvergence
  import opened DashboardRuns
  import DashboardSubmission
  import opened DashboardFolders
  import opened DashboardAside
  import opened DashboardLag

  /** The first known reference of the resource is absent, or carries its UID, or makes the round skip it. */
  predicate Restful(refs: seq<DashboardRef>, s: Server, d: Dashboard) {
    || Find(refs, KeyOf(d)).None?
    || Find(refs, KeyOf(d)).value.uid == d.uid
    || Skips(refs, s, d)
  }

  /** A fault-free submission changes nothing. */
  ghost predicate Quiet(w: World, d: Dashboard) {
    && FolderTitle(d) in w.server.folders
    && Skips(w.refs, w.server, d)
    && KeyOf(d) in w.plugins && w.plugins[KeyOf(d)] == d.plugins
  }

  lemma QuietSubmission(w: World, d: Dashboard)
    requires Presentable(d) && Quiet(w, d)
    ensures SubmitItem(w, w.refs, d, CALM_ITEM) == w
  {
    CalmSubmission(w, w.refs, d);
    FolderIsThere(w.server, d);
    assert w.plugins[KeyOf(d) := d.plugins] == w.plugins;
  }

  // ----- one resource -----

  lemma FirstAfterPost(w: World, items: seq<Dashboard>, d: Dashboard)
    requires Kept(w.refs, items) && d in items && Presentable(d)
    ensures
      var first, first' := Find(w.refs, KeyOf(d)), Find(PostedWorld(w, d).refs, KeyOf(d));
      if first.Some? && first.value.uid != d.uid then first' == first
      else first'.Some? && first'.value.uid == d.uid && first'.value.hash == d.hash
  {
    FolderIsThere(w.server, d);
    var id := WithFolderOf(w.server, d).folders[FolderTitle(d)];
    var first, k := Find(w.refs, KeyOf(d)), KeyOf(d);
    hide FolderFor, WithFolderOf;
    match Index(w.refs, d.uid)
    case None => FindAppended(w.refs, NewRef(d, id, d.customFolder), k);
    case Some(i) =>
      assert w.refs[i] in w.refs;
      FindReplaced(w.refs, i, NewRef(d, id, FolderTitle(d)), k);
      if first.Some? && first.value.uid == d.uid {
        UniqueRef(w.refs, first.value, w.refs[i]);
        FirstReplaced(w.refs, i, NewRef(d, id, FolderTitle(d)), k);
      }
  }

  /** After its submission a restful resource is quiet; any other is posted, and is no more restful than before. */
  lemma OwnSubmission(w: World, known: seq<DashboardRef>, items: seq<Dashboard>, d: Dashboard)
    requires Kept(w.refs, items) && d in items && Presentable(d) && Find(known, KeyOf(d)) == Find(w.refs, KeyOf(d))
    ensures
      var w' := SubmitItem(w, known, d, CALM_ITEM);
      && (Restful(known, w.server, d) ==> Quiet(w', d))
      && (!Restful(known, w.server, d) ==> !Restful(w'.refs, w'.server, d) && w' == PostedWorld(w, d))
  {
    CalmSubmission(w, known, d);
    FolderIsThere(w.server, d);
    FirstAfterPost(w, items, d);
    hide SubmitItem, FolderFor, Added, Find, WithFolderOf;
  }

  lemma BesideKeepsRest(w: World, w': World, d: Dashboard)
    requires Beside(w, w', d)
    ensures Restful(w.refs, w.server, d) <==> Restful(w'.refs, w'.server, d)
    ensures Quiet(w, d) ==> Quiet(w', d)
  {
    var r := Find(w.refs, KeyOf(d));
    assert r.Some? ==> Near(w.refs, d, r.value.uid);
    hide Find;
  }

  lemma BesideKeepsSkips(w: World, w': World, d: Dashboard)
    requires Beside(w, w', d)
    ensures Find(w'.refs, KeyOf(d)) == Find(w.refs, KeyOf(d))
    ensures Restful(w.refs, w'.server, d) <==> Restful(w.refs, w.server, d)
  {
    var r := Find(w.refs, KeyOf(d));
    assert r.Some? ==> Near(w.refs, d, r.value.uid);
    hide Find;
  }

  // ----- the submissions of a round -----

  ghost predicate Posts(w: World, from: nat, uid: string)
    requires from <= |w.server.writes|
  {
    exists id :: DashboardSubmission.PostSent(w, from, uid, id)
  }

  lemma SubmissionsDecide(w: World, items: seq<Dashboard>, e: Events, j: nat)
    requires WellFormed(items) && Calm(e) && Kept(w.refs, items) && j < |items|
    ensures
      var after := Submitted(w, items, e);
      && w.server.writes <= after.server.writes
      && (Restful(w.refs, w.server, items[j]) ==> Quiet(after, items[j]))
      && (!Restful(w.refs, w.server, items[j]) ==>
            !Restful(after.refs, after.server, items[j]) && Posts(after, |w.server.writes|, items[j].uid))
  {
    assert items[j] in items;
    var d := items[j];
    var before, after := SubmitUpTo(w, w.refs, items, e.item, j), SubmitUpTo(w, w.refs, items, e.item, j + 1);
    hide SubmitItem, Beside, WellFormed, Calm, SubmitUpTo, Kept, Restful, Quiet;
    AroundItem(w, items, e, j);
    BesideKeepsSkips(w, before, d);
    OwnSubmission(before, w.refs, items, d);
    BesideKeepsRest(after, Submitted(w, items, e), d);
    SubmissionsAskNothing(w, w.refs, items, e.item, |items|, 0);
    if !Restful(w.refs, w.server, d) {
      LoggedInOrder(w, w.refs, items, e.item, j);
      LoggedInOrder(w, w.refs, items, e.item, j + 1);
      PostIsLogged(w, before, after, Submitted(w, items, e), d);
    }
  }

  /** The log of a state in the middle of the submissions lies between those of the ends. */
  lemma LoggedInOrder(w: World, known: seq<DashboardRef>, items: seq<Dashboard>, e: nat -> ItemEvents, k: nat)
    requires k <= |items|
    ensures w.server.writes <= SubmitUpTo(w, known, items, e, k).server.writes <= SubmitUpTo(w, known, items, e, |items|).server.writes
    decreases |items| - k
  {
    hide SubmitItem;
    SubmissionsAskNothing(w, known, items, e, k, 0);
    if k < |items| {
      LoggedInOrder(w, known, items, e, k + 1);
      SubmissionAsksNothing(SubmitUpTo(w, known, items, e, k), known, items[k], e(k), 0);
    }
  }

  lemma PostIsLogged(w: World, before: World, after: World, end: World, d: Dashboard)
    requires Presentable(d) && after == PostedWorld(before, d)
    requires w.server.writes <= before.server.writes && after.server.writes <= end.server.writes
    ensures w.server.writes <= end.server.writes && Posts(end, |w.server.writes|, d.uid)
  {
    FolderIsThere(before.server, d);
    var s1 := WithFolderOf(before.server, d);
    var id := s1.folders[FolderTitle(d)];
    assert before.server.writes <= s1.writes && after.server.writes == s1.writes + [PostDashboard(d.uid, id)];
    hide FolderFor, WithFolderOf, PostedWorld;
    var n := |s1.writes|;
    assert end.server.writes[n] == PostDashboard(d.uid, id) && n >= |w.server.writes|;
    assert SentSince(end, |w.server.writes|)[n - |w.server.writes|] == PostDashboard(d.uid, id);
    assert DashboardSubmission.PostSent(end, |w.server.writes|, d.uid, id);
  }

  // ----- rounds -----

  /** In a round that starts without stale references, every restful resource becomes quiet, and every other one is
      posted and stays unrestful. */
  lemma RoundDecides(w: World, items: seq<Dashboard>, e: Events, d: Dashboard)
    requires WellFormed(items) && Calm(e) && Kept(w.refs, items) && StaleSet(w.refs, items) == {} && d in items
    ensures
      var w' := Round(w, items, e);
      && w.server.writes <= w'.server.writes
      && (Restful(w.refs, w.server, d) ==> Quiet(w', d))
      && (!Restful(w.refs, w.server, d) ==> !Restful(w'.refs, w'.server, d) && Posts(w', |w.server.writes|, d.uid))
  {
    assert !e.listFails && Round(w, items, e) == Submitted(w, items, e) by {
      NoneStale(w.refs, items);
    }
    hide Round, SubmitUpTo, Kept, WellFormed, Calm, Restful, Quiet;
    var j :| 0 <= j < |items| && items[j] == d;
    SubmissionsDecide(w, items, e, j);
  }

  lemma RoundIsKept(w: World, items: seq<Dashboard>, e: Events)
    requires WellFormed(items) && Calm(e) && Kept(w.refs, items)
    ensures Kept(Round(w, items, e).refs, items)
  {
    SubmissionsAreKept(w, w.refs, items, e, |items|);
    CleanShrinks(Submitted(w, items, e), StaleRefs(w.refs, items), e.clean, 0);
    hide CleanFrom, SubmitUpTo;
  }

  lemma QuietRound(w: World, items: seq<Dashboard>, e: Events)
    requires WellFormed(items) && Calm(e) && StaleSet(w.refs, items) == {} && forall d :: d in items ==> Quiet(w, d)
    ensures Round(w, items, e) == w
  {
    NoneStale(w.refs, items);
    QuietSubmissions(w, items, e, |items|);
  }

  lemma {:induction false} QuietSubmissions(w: World, items: seq<Dashboard>, e: Events, k: nat)
    requires WellFormed(items) && Calm(e) && (forall d :: d in items ==> Quiet(w, d)) && k <= |items|
    ensures SubmitUpTo(w, w.refs, items, e.item, k) == w
  {
    hide SubmitItem, WellFormed, Calm, Quiet;
    if k > 0 {
      QuietSubmissions(w, items, e, k - 1);
      OtherKeys(items, k - 1);
      assert items[k - 1] in items;
      CalmNext(w, w.refs, items, e, k - 1);
      QuietSubmission(w, items[k - 1]);
    }
  }

  // ----- repeated rounds -----

  lemma KeptIgnoresOrder(refs: seq<DashboardRef>, items: seq<Dashboard>, l: seq<Dashboard>)
    requires Kept(refs, items) && forall d :: d in l <==> d in items
    ensures Kept(refs, l)
  {
  }

  lemma {:induction false} RoundsAreKept(w: World, items: seq<Dashboard>, lists: seq<seq<Dashboard>>, e: nat -> Events, k: nat)
    requires Kept(w.refs, items) && SameItems(items, lists) && (forall i :: Calm(e(i))) && k <= |lists|
    ensures Kept(Rounds(w, lists, e, k).refs, items)
  {
    hide Round, Kept, Calm, WellFormed;
    if k > 0 {
      var l := lists[k - 1];
      assert l in lists;
      RoundsAreKept(w, items, lists, e, k - 1);
      KeptIgnoresOrder(Rounds(w, lists, e, k - 1).refs, items, l);
      RoundIsKept(Rounds(w, lists, e, k - 1), l, e(k - 1));
      KeptIgnoresOrder(Rounds(w, lists, e, k).refs, l, items);
    }
  }

  /** After as many fault-free rounds as there were stale references, none is left. */
  lemma NoneStaleLater(w: World, items: seq<Dashboard>, lists: seq<seq<Dashboard>>, e: nat -> Events, k: nat)
    requires UniqueUids(w.refs) && SameItems(items, lists) && (forall i :: Calm(e(i)))
    requires |StaleSet(w.refs, items)| <= k <= |lists|
    ensures StaleSet(Rounds(w, lists, e, k).refs, items) == {}
  {
    if k > 0 {
      assert lists[0] in lists;
      assert Hashed(items);
      assert forall i :: 0 <= i < k ==> !e(i).listFails;
      StaleRunOut(w, items, lists, e, k);
    }
  }

  /** The state after the first rounds, in the terms of the next one. */
  lemma RoundAmongRounds(w: World, items: seq<Dashboard>, lists: seq<seq<Dashboard>>, e: nat -> Events, k: nat)
    requires Kept(w.refs, items) && SameItems(items, lists) && (forall i :: Calm(e(i)))
    requires |StaleSet(w.refs, items)| <= k < |lists|
    ensures
      var now := Rounds(w, lists, e, k);
      && WellFormed(lists[k]) && Calm(e(k)) && (forall d :: d in lists[k] <==> d in items)
      && Kept(now.refs, lists[k]) && StaleSet(now.refs, lists[k]) == {}
      && Rounds(w, lists, e, k + 1) == Round(now, lists[k], e(k))
  {
    hide Round;
    assert lists[k] in lists;
    RoundsAreKept(w, items, lists, e, k);
    NoneStaleLater(w, items, lists, e, k);
    StaleIgnoresOrder(Rounds(w, lists, e, k).refs, items, lists[k]);
  }

  ghost predicate AllRestful(w: World, items: seq<Dashboard>) {
    forall d :: d in items ==> Restful(w.refs, w.server, d)
  }

  ghost predicate AllQuiet(w: World, items: seq<Dashboard>) {
    forall d :: d in items ==> Quiet(w, d)
  }

  /** From restful resources one round leads to rest, and further rounds change nothing. */
  lemma {:induction false} RestAfterOne(w: World, items: seq<Dashboard>, lists: seq<seq<Dashboard>>, e: nat -> Events, n: nat, k: nat)
    requires Kept(w.refs, items) && SameItems(items, lists) && (forall i :: Calm(e(i)))
    requires |StaleSet(w.refs, items)| <= n < k <= |lists| && AllRestful(Rounds(w, lists, e, n), items)
    ensures AllQuiet(Rounds(w, lists, e, k), items) && Rounds(w, lists, e, k) == Rounds(w, lists, e, n + 1)
  {
    hide Round, Rounds, Kept, Calm, SameItems, Restful, Quiet, StaleSet, WellFormed;
    var now, l := Rounds(w, lists, e, k - 1), lists[k - 1];
    RoundAmongRounds(w, items, lists, e, k - 1);
    if k == n + 1 {
      forall d | d in items
        ensures Quiet(Rounds(w, lists, e, k), d)
      {
        RoundDecides(now, l, e(k - 1), d);
      }
    } else {
      RestAfterOne(w, items, lists, e, n, k - 1);
      QuietRound(now, l, e(k - 1));
    }
  }

  /** A resource that is not restful is posted in every round. */
  lemma {:induction false} NeverRests(w: World, items: seq<Dashboard>, lists: seq<seq<Dashboard>>, e: nat -> Events, n: nat, k: nat, d: Dashboard)
    requires Kept(w.refs, items) && SameItems(items, lists) && (forall i :: Calm(e(i))) && d in items
    requires |StaleSet(w.refs, items)| <= n <= k < |lists|
    requires !Restful(Rounds(w, lists, e, n).refs, Rounds(w, lists, e, n).server, d)
    ensures
      var now, next := Rounds(w, lists, e, k), Rounds(w, lists, e, k + 1);
      && !Restful(now.refs, now.server, d) && !Restful(next.refs, next.server, d)
      && now.server.writes <= next.server.writes && Posts(next, |now.server.writes|, d.uid)
  {
    hide Round, Rounds, Kept, Calm, SameItems, Restful, StaleSet, WellFormed, Posts;
    RoundAmongRounds(w, items, lists, e, k);
    if k > n {
      NeverRests(w, items, lists, e, n, k - 1, d);
    }
    RoundDecides(Rounds(w, lists, e, k), lists[k], e(k), d);
  }

  /** Exactness: once as many fault-free rounds have run as there were stale references, the rounds come to rest after
      one more if and only if, by then, the first known reference of every live resource is absent, or carries its UID,
      or carries its hash while Grafana has the UID of the reference. Otherwise they never do. */
  lemma RestsIff(w: World, items: seq<Dashboard>, lists: seq<seq<Dashboard>>, e: nat -> Events, n: nat, k: nat)
    requires Kept(w.refs, items) && SameItems(items, lists) && (forall i :: Calm(e(i)))
    requires |StaleSet(w.refs, items)| <= n < k < |lists|
    ensures Rounds(w, lists, e, k + 1) == Rounds(w, lists, e, k) <==> AllRestful(Rounds(w, lists, e, n), items)
  {
    hide Round, Rounds, Kept, Calm, SameItems, Restful, StaleSet, Quiet;
    if AllRestful(Rounds(w, lists, e, n), items) {
      RestAfterOne(w, items, lists, e, n, k);
      RestAfterOne(w, items, lists, e, n, k + 1);
    } else {
      var now := Rounds(w, lists, e, n);
      var d :| d in items && !Restful(now.refs, now.server, d);
      NeverRests(w, items, lists, e, n, k, d);
    }
  }

  /** The same from every state that any run reaches, with any faults and edited UIDs, as long as no two resources
      share one. */
  lemma ReachableRestsIff(pool: Pool, server: Server, steps: seq<Step>, items: seq<Dashboard>,
                          lists: seq<seq<Dashboard>>, e: nat -> Events, n: nat, k: nat)
    requires Distinguished(pool) && AnyRun(pool, server, steps) && DrawnFrom(pool, items)
    requires SameItems(items, lists) && (forall i :: Calm(e(i)))
    requires |StaleSet(RunFrom(server, steps).refs, items)| <= n < k < |lists|
    ensures
      var w := RunFrom(server, steps);
      Rounds(w, lists, e, k + 1) == Rounds(w, lists, e, k) <==> AllRestful(Rounds(w, lists, e, n), items)
  {
    hide Rounds, Calm, SameItems, Restful, StaleSet, RunFrom;
    AnyRunKeeps(pool, server, steps);
    RecordedIsUnborrowed(pool, RunFrom(server, steps).refs, items);
    RestsIff(RunFrom(server, steps), items, lists, e, n, k);
  }

  // ----- stable UIDs -----

  lemma {:induction false} SubmissionsFit(w: World, known: seq<DashboardRef>, items: seq<Dashboard>, e: Events, k: nat)
    requires k <= |items| && WellFormed(items) && UniqueUids(w.refs) && UidsFit(w.refs, items)
    ensures UniqueUids(SubmitUpTo(w, known, items, e.item, k).refs) && UidsFit(SubmitUpTo(w, known, items, e.item, k).refs, items)
  {
    hide SubmitItem, UniqueUids, WellFormed;
    if k > 0 {
      var before, x := SubmitUpTo(w, known, items, e.item, k - 1), items[k - 1];
      SubmissionsFit(w, known, items, e, k - 1);
      OtherKeys(items, k - 1);
      SubmitKeepsUnique(before, known, x, e.item(k - 1));
      forall r, d | r in SubmitItem(before, known, x, e.item(k - 1)).refs && d in items
        ensures RefKey(r) == KeyOf(d) <==> r.uid == d.uid
      {
        if r !in before.refs && (KeyOf(x) == KeyOf(d) || x.uid == d.uid) {
          SameItem(items, x, d);
        }
      }
    }
  }

  lemma RoundFits(w: World, items: seq<Dashboard>, e: Events)
    requires WellFormed(items) && UniqueUids(w.refs) && UidsFit(w.refs, items)
    ensures UniqueUids(Round(w, items, e).refs) && UidsFit(Round(w, items, e).refs, items)
  {
    SubmissionsFit(w, w.refs, items, e, |items|);
    CleanShrinks(Submitted(w, items, e), StaleRefs(w.refs, items), e.clean, 0);
    hide CleanFrom, SubmitUpTo;
  }

  lemma {:induction false} RoundsFit(w: World, items: seq<Dashboard>, lists: seq<seq<Dashboard>>, e: nat -> Events, k: nat)
    requires UniqueUids(w.refs) && UidsFit(w.refs, items) && SameItems(items, lists) && k <= |lists|
    ensures UniqueUids(Rounds(w, lists, e, k).refs) && UidsFit(Rounds(w, lists, e, k).refs, items)
  {
    hide Round, UniqueUids, WellFormed;
    if k > 0 {
      assert lists[k - 1] in lists;
      RoundsFit(w, items, lists, e, k - 1);
      assert UidsFit(Rounds(w, lists, e, k - 1).refs, lists[k - 1]);
      RoundFits(Rounds(w, lists, e, k - 1), lists[k - 1], e(k - 1));
    }
  }

  /** The resource is known under its UID and with its hash, and Grafana has its UID. */
  ghost predicate Present(w: World, d: Dashboard) {
    && d.uid in w.server.dashboards
    && exists r :: r in w.refs && RefKey(r) == KeyOf(d) && r.uid == d.uid && r.hash == d.hash
  }

  /** With stable UIDs the rounds settle from whatever faults have left: after more fault-free rounds than there were
      stale references, every known reference is live, every live resource is recorded and present in Grafana, of the
      dashboards that the faults did not take out of sight no other one is, and further rounds change nothing. */
  lemma SettlesAfterFaults(w: World, items: seq<Dashboard>, lists: seq<seq<Dashboard>>, e: nat -> Events, k: nat)
    requires UniqueUids(w.refs) && UidsFit(w.refs, items) && SameItems(items, lists) && (forall i :: Calm(e(i)))
    requires |StaleSet(w.refs, items)| < k < |lists|
    ensures
      var settled := Rounds(w, lists, e, k);
      && StaleSet(settled.refs, items) == {}
      && (forall d :: d in items ==> Present(settled, d))
      && OnlyLiveLeft(w, settled, items)
      && Rounds(w, lists, e, k + 1) == settled
  {
    hide Round, Rounds, Calm, StaleSet;
    var n, settled := k - 1, Rounds(w, lists, e, k);
    NoneStaleLater(w, items, lists, e, k);
    RoundsFit(w, items, lists, e, n);
    RoundsFit(w, items, lists, e, k);
    FitsIsRestful(Rounds(w, lists, e, n), items);
    RestsIff(w, items, lists, e, n, k);
    RestAfterOne(w, items, lists, e, n, k);
    assert lists[0] in lists;
    forall d | d in items
      ensures Present(settled, d)
    {
      assert d in lists[0];
      QuietIsPresent(settled, items, d);
    }
    RemovedAreGone(w, items, lists, e, k);
  }

  lemma FitsIsRestful(w: World, items: seq<Dashboard>)
    requires UidsFit(w.refs, items)
    ensures Unborrowed(w.refs, items) && AllRestful(w, items)
  {
  }

  lemma QuietIsPresent(w: World, items: seq<Dashboard>, d: Dashboard)
    requires UidsFit(w.refs, items) && d in items && d.uid != "" && Quiet(w, d)
    ensures Present(w, d)
  {
  }

  // ----- an edited UID -----

  /** A user edits the UID in the JSON of a live dashboard. The old reference stays live and first, so without any
      fault the dashboard is posted again in every round. */
  lemma EditedUidNeverRests(server: Server, was: Dashboard, d: Dashboard, first: Events,
                            lists: seq<seq<Dashboard>>, e: nat -> Events, k: nat)
    requires Presentable(was) && Presentable(d) && KeyOf(was) == KeyOf(d) && was.uid != d.uid && was.hash != d.hash
    requires Calm(first) && SameItems([d], lists) && (forall i :: Calm(e(i))) && k < |lists|
    ensures
      var w := Round(World([], map[], server), [was], first);
      var now, next := Rounds(w, lists, e, k), Rounds(w, lists, e, k + 1);
      now.server.writes <= next.server.writes && Posts(next, |now.server.writes|, d.uid)
  {
    var empty := World([], map[], server);
    var w := Round(empty, [was], first);
    FirstRound(empty, was, first);
    var r :| w.refs == [r] && RefKey(r) == KeyOf(was) && r.uid == was.uid && r.hash == was.hash;
    hide Round, Rounds, Calm;
    assert Live(r, [d]) by { assert d in [d]; }
    assert StaleSet(w.refs, [d]) == {};
    assert Find(w.refs, KeyOf(d)) == Some(r);
    NeverRests(w, [d], lists, e, 0, k, d) by { assert Rounds(w, lists, e, 0) == w by { NoRounds(w, lists, e); } }
  }

  lemma NoRounds(w: World, lists: seq<seq<Dashboard>>, e: nat -> Events)
    ensures Rounds(w, lists, e, 0) == w
  {
  }

  lemma FirstRound(w: World, d: Dashboard, e: Events)
    requires w.refs == [] && Presentable(d) && Calm(e)
    ensures
      var w' := Round(w, [d], e);
      exists r :: w'.refs == [r] && RefKey(r) == KeyOf(d) && r.uid == d.uid && r.hash == d.hash
  {
    assert SubmitUpTo(w, w.refs, [d], e.item, 0) == w;
    CalmNext(w, w.refs, [d], e, 0);
    CalmSubmission(w, w.refs, d);
    FolderIsThere(w.server, d);
    var w' := PostedWorld(w, d);
    assert StaleRefs(w.refs, [d]) == [] && Round(w, [d], e) == w';
    assert w'.refs == [NewRef(d, WithFolderOf(w.server, d).folders[FolderTitle(d)], d.customFolder)];
  }
}
