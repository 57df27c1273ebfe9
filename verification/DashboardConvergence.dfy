/** When the dashboard rounds settle: over a fixed set of resources and without faults, every round removes a stale
    reference, and once none is left the next round changes nothing at all. */
module DashboardConvergence {
  import opened ControllerConfig
  import opened GrafanaClient
  import opened DashboardSync
  import opened DashboardSafety
  import opened DashboardRemoval

  // ----- premises -----

  const CALM_ITEM := ItemEvents(Done, Done, true, true, false, true, true, Match, Done)

  /** Every request succeeds, every resource renders, every namespace label matches. */
  ghost predicate Calm(e: Events) {
    && !e.listFails
    && (forall i :: e.item(i) == CALM_ITEM)
    && (forall i :: e.clean(i) == CleanEvents(Done, Done))
  }

  /** Distinct names, distinct UIDs, and what the API server and the hash functions guarantee. */
  ghost predicate WellFormed(items: seq<Dashboard>) {
    && (forall d :: d in items ==> d.hash != "" && d.uid != "" && d.namespace != "")
    && (forall i, j :: 0 <= i < j < |items| ==> KeyOf(items[i]) != KeyOf(items[j]) && items[i].uid != items[j].uid)
  }

  /** The title of the folder a reference was recorded under. */
  function RefTitle(r: DashboardRef): string {
    if r.folderName == "" then r.namespace else r.folderName
  }

  /** UIDs are stable and not shared. */
  ghost predicate UidsFit(refs: seq<DashboardRef>, items: seq<Dashboard>) {
    forall r, d :: r in refs && d in items ==> (RefKey(r) == KeyOf(d) <==> r.uid == d.uid)
  }

  /** Moreover, a current hash was recorded under the current folder title. */
  ghost predicate Fits(refs: seq<DashboardRef>, items: seq<Dashboard>) {
    && UidsFit(refs, items)
    && forall r, d :: r in refs && d in items && RefKey(r) == KeyOf(d) && r.hash == d.hash ==> RefTitle(r) == FolderTitle(d)
  }

  /** A reference whose dashboard is in Grafana records where it is, and its hash unless it was invalidated. */
  ghost predicate Accurate(s: Server, r: DashboardRef) {
    r.uid in s.dashboards ==>
      && RefTitle(r) in s.folders
      && s.folders[RefTitle(r)] == r.folderId
      && s.dashboards[r.uid].folderId == r.folderId
      && (r.hash != "" ==> s.dashboards[r.uid].content == r.hash)
  }

  ghost predicate Coherent(w: World) {
    UniqueUids(w.refs) && forall r :: r in w.refs ==> Accurate(w.server, r)
  }

  // ----- conclusions -----

  /** The reference records the resource with its current hash. */
  predicate Records(r: DashboardRef, d: Dashboard) {
    RefKey(r) == KeyOf(d) && r.uid == d.uid && r.hash == d.hash && RefTitle(r) == FolderTitle(d)
  }

  /** The resource is recorded, and in Grafana with its current contents in the folder of its title. */
  ghost predicate Current(w: World, d: Dashboard) {
    && FolderTitle(d) in w.server.folders
    && d.uid in w.server.dashboards
    && w.server.dashboards[d.uid] == Stored(d.hash, w.server.folders[FolderTitle(d)])
    && (exists r :: r in w.refs && Records(r, d) && r.folderId == w.server.folders[FolderTitle(d)])
    && KeyOf(d) in w.plugins && w.plugins[KeyOf(d)] == d.plugins
  }

  ghost predicate AllCurrent(w: World, items: seq<Dashboard>) {
    forall d :: d in items ==> Current(w, d)
  }

  ghost predicate Settled(w: World, items: seq<Dashboard>) {
    AllCurrent(w, items) && StaleSet(w.refs, items) == {}
  }

  // ----- submitting one resource without faults -----

  /** What a fault-free submission does: nothing but refresh the request of a current resource, or post it. */
  lemma CalmSubmit(w: World, known: seq<DashboardRef>, d: Dashboard)
    requires d.hash != "" && d.uid != "" && d.namespace != ""
    requires forall r :: r in known && RefKey(r) == KeyOf(d) ==> r.uid == d.uid
    ensures
      var w' := SubmitItem(w, known, d, CALM_ITEM);
      var s1 := FolderFor(w.server, FolderTitle(d), Done, Done).0;
      var folderId := s1.folders[FolderTitle(d)];
      && FolderTitle(d) in s1.folders
      && s1.dashboards == w.server.dashboards
      && (FolderTitle(d) in w.server.folders ==> s1 == w.server)
      && (FolderTitle(d) !in w.server.folders ==> s1.folders == w.server.folders[FolderTitle(d) := folderId])
      && w' == if KnownHash(known, KeyOf(d)) == d.hash && d.uid in w.server.dashboards
               then World(w.refs, w.plugins[KeyOf(d) := d.plugins], s1)
               else World(Added(w.refs, d, folderId, FolderTitle(d)), w.plugins[KeyOf(d) := d.plugins],
                          Posted(s1, d.uid, d.hash, folderId, Done).0)
  {
  }

  lemma AddedIsAccurate(s: Server, refs: seq<DashboardRef>, d: Dashboard, folderId: int)
    requires UniqueUids(refs) && (forall r :: r in refs ==> Accurate(s, r))
    requires d.namespace != "" && FolderTitle(d) in s.folders && s.folders[FolderTitle(d)] == folderId
    ensures
      var w' := World(Added(refs, d, folderId, FolderTitle(d)), map[], Posted(s, d.uid, d.hash, folderId, Done).0);
      && Coherent(w')
      && (exists r :: r in w'.refs && Records(r, d) && r.folderId == folderId)
      && (forall r :: r in refs && r.uid != d.uid ==> r in w'.refs)
      && (forall r :: r in w'.refs ==> Records(r, d) || r in refs)
  {
    AddRefines(refs, d, folderId, FolderTitle(d));
    AddedMembers(refs, d, folderId, FolderTitle(d));
    var added := NewRef(d, folderId, if Index(refs, d.uid).Some? then FolderTitle(d) else d.customFolder);
    assert added in Added(refs, d, folderId, FolderTitle(d)) && Records(added, d);
  }

  /** Creating a folder that was missing keeps every reference accurate. */
  lemma FolderKeepsAccurate(w: World, title: string)
    requires Coherent(w) && title != ""
    ensures Coherent(w.(server := FolderFor(w.server, title, Done, Done).0))
  {
  }

  lemma CalmSubmitKeepsCoherent(w: World, known: seq<DashboardRef>, d: Dashboard)
    requires Coherent(w) && d.namespace != ""
    ensures Coherent(SubmitItem(w, known, d, CALM_ITEM))
    ensures forall r :: r in w.refs && r.uid != d.uid ==> r in SubmitItem(w, known, d, CALM_ITEM).refs
    ensures forall r :: r in SubmitItem(w, known, d, CALM_ITEM).refs ==> Records(r, d) || r in w.refs
  {
    var s1 := FolderFor(w.server, FolderTitle(d), Done, Done).0;
    FolderKeepsAccurate(w, FolderTitle(d));
    assert FolderTitle(d) in s1.folders;
    var folderId := s1.folders[FolderTitle(d)];
    AddedIsAccurate(s1, w.refs, d, folderId);
    var w' := SubmitItem(w, known, d, CALM_ITEM);
    assert (w'.refs == w.refs && w'.server == s1)
        || (w'.refs == Added(w.refs, d, folderId, FolderTitle(d)) && w'.server == Posted(s1, d.uid, d.hash, folderId, Done).0);
  }

  /** A submitted resource is current, provided its known reference is still in the registry. */
  lemma CalmSubmitMakesCurrent(w: World, known: seq<DashboardRef>, items: seq<Dashboard>, d: Dashboard)
    requires Coherent(w) && WellFormed(items) && Fits(known, items) && d in items
    requires forall r :: r in known && r.uid == d.uid ==> r in w.refs
    ensures Current(SubmitItem(w, known, d, CALM_ITEM), d)
  {
    CalmSubmit(w, known, d);
    FolderKeepsAccurate(w, FolderTitle(d));
    var s1 := FolderFor(w.server, FolderTitle(d), Done, Done).0;
    AddedIsAccurate(s1, w.refs, d, s1.folders[FolderTitle(d)]);
    if KnownHash(known, KeyOf(d)) == d.hash && d.uid in w.server.dashboards {
      var r := Find(known, KeyOf(d)).value;
      assert r in w.refs && Accurate(w.server, r) && Records(r, d);
    }
  }

  /** Submitting one resource keeps the others current. */
  lemma CalmSubmitKeepsCurrent(w: World, known: seq<DashboardRef>, d: Dashboard, other: Dashboard)
    requires Coherent(w) && Current(w, other)
    requires d.hash != "" && d.uid != "" && d.namespace != ""
    requires forall r :: r in known && RefKey(r) == KeyOf(d) ==> r.uid == d.uid
    requires KeyOf(d) != KeyOf(other) && d.uid != other.uid
    ensures Current(SubmitItem(w, known, d, CALM_ITEM), other)
  {
    CalmSubmit(w, known, d);
    CalmSubmitKeepsCoherent(w, known, d);
    var r :| r in w.refs && Records(r, other) && r.folderId == w.server.folders[FolderTitle(other)];
    assert r in SubmitItem(w, known, d, CALM_ITEM).refs;
  }

  /** What holds after the first `k` resources of a round that started with the references `known`. */
  ghost predicate SubmittedSoFar(w: World, known: seq<DashboardRef>, items: seq<Dashboard>, k: nat)
    requires k <= |items|
  {
    && Coherent(w)
    && (forall j :: 0 <= j < k ==> Current(w, items[j]))
    && (forall r :: r in known && (forall j :: 0 <= j < k ==> r.uid != items[j].uid) ==> r in w.refs)
    && (forall r :: r in w.refs ==> r in known || exists j :: 0 <= j < k && Records(r, items[j]))
  }

  lemma {:induction false} CalmSubmitUpTo(w: World, items: seq<Dashboard>, e: Events, k: nat)
    requires Coherent(w) && WellFormed(items) && Fits(w.refs, items) && Calm(e) && k <= |items|
    ensures SubmittedSoFar(SubmitUpTo(w, w.refs, items, e.item, k), w.refs, items, k)
  {
    hide SubmitItem, SubmittedSoFar, Coherent, WellFormed, Fits;
    if k == 0 {
      NothingSubmitted(w, items);
    } else {
      CalmSubmitUpTo(w, items, e, k - 1);
      CalmSubmitNext(SubmitUpTo(w, w.refs, items, e.item, k - 1), w.refs, items, k - 1);
    }
  }

  lemma NothingSubmitted(w: World, items: seq<Dashboard>)
    requires Coherent(w)
    ensures SubmittedSoFar(w, w.refs, items, 0)
  {
  }

  lemma CalmSubmitNext(w: World, known: seq<DashboardRef>, items: seq<Dashboard>, k: nat)
    requires k < |items| && WellFormed(items) && Fits(known, items)
    requires SubmittedSoFar(w, known, items, k)
    ensures SubmittedSoFar(SubmitItem(w, known, items[k], CALM_ITEM), known, items, k + 1)
  {
    hide SubmitItem, Coherent, Current;
    var d := items[k];
    var w' := SubmitItem(w, known, d, CALM_ITEM);
    assert d in items;
    CalmSubmitKeepsCoherent(w, known, d);
    CalmSubmitMakesCurrent(w, known, items, d);
    forall j | 0 <= j < k
      ensures Current(w', items[j])
    {
      CalmSubmitKeepsCurrent(w, known, d, items[j]);
    }
    forall r | r in known && forall j :: 0 <= j < k + 1 ==> r.uid != items[j].uid
      ensures r in w'.refs
    {
      assert r.uid != items[k].uid;
      assert r in w.refs;
    }
  }

  // ----- cleaning up without faults -----

  lemma ForgetKeepsCurrent(w: World, r: DashboardRef, d: Dashboard)
    requires Coherent(w) && Current(w, d) && r.uid != d.uid && RefKey(r) != KeyOf(d)
    ensures Coherent(Forgotten(w, r, Done)) && Current(Forgotten(w, r, Done), d)
  {
    RemovedMembers(w.refs, r.uid);
    var q :| q in w.refs && Records(q, d) && q.folderId == w.server.folders[FolderTitle(d)];
    assert q in Forgotten(w, r, Done).refs;
  }

  lemma FolderDeletionKeepsCurrent(w: World, id: int, d: Dashboard)
    requires Coherent(w) && Current(w, d) && SafeToDeleteFolder(w.refs, id)
    ensures
      var w' := w.(server := FolderDeleted(w.server, id, Done));
      Coherent(w') && Current(w', d)
  {
  }

  lemma ForgetKeepsCoherent(w: World, r: DashboardRef)
    requires Coherent(w)
    ensures Coherent(Forgotten(w, r, Done))
    ensures SafeToDeleteFolder(Forgotten(w, r, Done).refs, r.folderId) ==>
      Coherent(Forgotten(w, r, Done).(server := FolderDeleted(Forgotten(w, r, Done).server, r.folderId, Done)))
  {
    RemovedMembers(w.refs, r.uid);
  }

  ghost predicate Unrelated(stale: seq<DashboardRef>, items: seq<Dashboard>) {
    forall r, d :: r in stale && d in items ==> r.uid != d.uid && RefKey(r) != KeyOf(d)
  }

  lemma {:induction false} CalmCleanKeepsCoherent(w: World, stale: seq<DashboardRef>, e: Events, k: nat)
    requires Coherent(w) && Calm(e) && k <= |stale|
    ensures Coherent(CleanFrom(w, stale, e.clean, k))
    decreases |stale| - k
  {
    if k < |stale| {
      var w1 := Forgotten(w, stale[k], Done);
      ForgetKeepsCoherent(w, stale[k]);
      CalmCleanKeepsCoherent(w1, stale, e, k + 1);
      if SafeToDeleteFolder(w1.refs, stale[k].folderId) {
        CalmCleanKeepsCoherent(w1.(server := FolderDeleted(w1.server, stale[k].folderId, Done)), stale, e, k + 1);
      }
    }
  }

  lemma {:induction false} CalmCleanKeepsCurrent(w: World, stale: seq<DashboardRef>, items: seq<Dashboard>, e: Events, k: nat)
    requires Coherent(w) && Calm(e) && k <= |stale| && Unrelated(stale, items) && AllCurrent(w, items)
    ensures AllCurrent(CleanFrom(w, stale, e.clean, k), items)
    decreases |stale| - k
  {
    if k < |stale| {
      var r := stale[k];
      assert r in stale;
      var w1 := Forgotten(w, r, Done);
      ForgetKeepsCoherent(w, r);
      forall d | d in items
        ensures Current(w1, d)
      {
        ForgetKeepsCurrent(w, r, d);
      }
      if !Managed(r) {
        CalmCleanKeepsCurrent(w1, stale, items, e, k + 1);
      } else if SafeToDeleteFolder(w1.refs, r.folderId) {
        var w2 := w1.(server := FolderDeleted(w1.server, r.folderId, Done));
        forall d | d in items
          ensures Current(w2, d)
        {
          FolderDeletionKeepsCurrent(w1, r.folderId, d);
        }
        CalmCleanKeepsCurrent(w2, stale, items, e, k + 1);
      }
    }
  }

  // ----- one round -----

  lemma WellFormedIsHashed(items: seq<Dashboard>)
    requires WellFormed(items)
    ensures Hashed(items)
  {
  }

  lemma SubmittedIsCurrent(w: World, known: seq<DashboardRef>, items: seq<Dashboard>)
    requires SubmittedSoFar(w, known, items, |items|)
    ensures Coherent(w) && AllCurrent(w, items)
  {
  }

  /** References after a round come from before it or record a resource, so the premises carry over. */
  lemma SubmittedFits(w: World, known: seq<DashboardRef>, items: seq<Dashboard>, after: seq<DashboardRef>)
    requires SubmittedSoFar(w, known, items, |items|) && WellFormed(items) && Fits(known, items)
    requires forall r :: r in after ==> r in w.refs
    ensures Fits(after, items)
  {
    hide Coherent, Current;
    forall r, d | r in after && d in items
      ensures RefKey(r) == KeyOf(d) <==> r.uid == d.uid
      ensures RefKey(r) == KeyOf(d) && r.hash == d.hash ==> RefTitle(r) == FolderTitle(d)
    {
      if r !in known {
        var j :| 0 <= j < |items| && Records(r, items[j]);
        var i :| 0 <= i < |items| && items[i] == d;
        assert i < j || i == j || j < i;
      }
    }
  }

  lemma StaleIsUnrelated(refs: seq<DashboardRef>, items: seq<Dashboard>)
    requires UidsFit(refs, items)
    ensures Unrelated(StaleRefs(refs, items), items)
  {
  }

  /** One fault-free round makes every resource current and keeps the premises of the next one. */
  lemma CalmRound(w: World, items: seq<Dashboard>, e: Events)
    requires Coherent(w) && WellFormed(items) && Fits(w.refs, items) && Calm(e)
    ensures
      var w' := Round(w, items, e);
      Coherent(w') && Fits(w'.refs, items) && AllCurrent(w', items)
  {
    var w1, stale := Submitted(w, items, e), StaleRefs(w.refs, items);
    assert UniqueUids(w1.refs) && SubmittedSoFar(w1, w.refs, items, |items|) by {
      CalmSubmitUpTo(w, items, e, |items|);
    }
    hide SubmittedSoFar, Fits, Coherent, WellFormed, AllCurrent, Unrelated, CleanFrom, StaleRefs;
    SubmittedIsCurrent(w1, w.refs, items);
    StaleIsUnrelated(w.refs, items);
    CalmCleanKeepsCoherent(w1, stale, e, 0);
    CalmCleanKeepsCurrent(w1, stale, items, e, 0);
    CleanShrinks(w1, stale, e.clean, 0);
    SubmittedFits(w1, w.refs, items, Round(w, items, e).refs);
  }

  /** A settled state is a fixed point: the round sends no write to Grafana and leaves the registry as it is. */
  lemma SettledIsFixed(w: World, items: seq<Dashboard>, e: Events)
    requires Coherent(w) && WellFormed(items) && Fits(w.refs, items) && Calm(e) && Settled(w, items)
    ensures Round(w, items, e) == w
  {
    StaleRefsAreStale(w.refs, items);
    NoneStale(w.refs, items);
    SettledSubmits(w, items, e, |items|);
  }

  lemma {:induction false} NoneStale(refs: seq<DashboardRef>, items: seq<Dashboard>)
    requires StaleSet(refs, items) == {}
    ensures StaleRefs(refs, items) == []
  {
    if refs != [] {
      assert refs[|refs| - 1] in refs;
      assert forall r :: r in refs[..|refs| - 1] ==> r in refs;
      assert forall r :: r in refs ==> r !in StaleSet(refs, items);
      NoneStale(refs[..|refs| - 1], items);
    }
  }

  lemma {:induction false} SettledSubmits(w: World, items: seq<Dashboard>, e: Events, k: nat)
    requires Coherent(w) && WellFormed(items) && Fits(w.refs, items) && Calm(e) && AllCurrent(w, items) && k <= |items|
    ensures SubmitUpTo(w, w.refs, items, e.item, k) == w
  {
    hide SubmitItem;
    if k > 0 {
      var d := items[k - 1];
      assert d in items;
      SettledSubmits(w, items, e, k - 1);
      SettledSubmit(w, items, d);
    }
  }

  lemma SettledSubmit(w: World, items: seq<Dashboard>, d: Dashboard)
    requires Coherent(w) && WellFormed(items) && Fits(w.refs, items) && d in items && Current(w, d)
    ensures SubmitItem(w, w.refs, d, CALM_ITEM) == w
  {
    hide SubmitItem;
    CalmSubmit(w, w.refs, d);
    CurrentIsKnown(w, items, d);
    assert w.plugins[KeyOf(d) := d.plugins] == w.plugins;
  }

  lemma CurrentIsKnown(w: World, items: seq<Dashboard>, d: Dashboard)
    requires UniqueUids(w.refs) && Fits(w.refs, items) && d in items && Current(w, d)
    ensures KnownHash(w.refs, KeyOf(d)) == d.hash
  {
  }

  // ----- repeated rounds -----

  /** Round `k` sees the resources in an order of its own. */
  ghost function Rounds(w: World, lists: seq<seq<Dashboard>>, e: nat -> Events, k: nat): World
    requires k <= |lists|
  {
    if k == 0 then w else Round(Rounds(w, lists, e, k - 1), lists[k - 1], e(k - 1))
  }

  /** Every list holds the same resources. */
  ghost predicate SameItems(items: seq<Dashboard>, lists: seq<seq<Dashboard>>) {
    forall l :: l in lists ==> WellFormed(l) && forall d :: d in l <==> d in items
  }

  lemma StaleIgnoresOrder(refs: seq<DashboardRef>, items: seq<Dashboard>, l: seq<Dashboard>)
    requires forall d :: d in l <==> d in items
    ensures StaleSet(refs, l) == StaleSet(refs, items)
  {
  }

  /** Stale references run out: with the resources listed in any order and whatever else fails, deletions in Grafana
      included, after `k` rounds none is left, or at least `k` are gone. */
  lemma {:induction false} StaleRunOut(w: World, items: seq<Dashboard>, lists: seq<seq<Dashboard>>, e: nat -> Events, k: nat)
    requires UniqueUids(w.refs) && Hashed(items) && k <= |lists|
    requires forall l :: l in lists ==> forall d :: d in l <==> d in items
    requires forall i :: 0 <= i < k ==> !e(i).listFails
    ensures UniqueUids(Rounds(w, lists, e, k).refs)
    ensures
      var left := StaleSet(Rounds(w, lists, e, k).refs, items);
      left == {} || |left| + k <= |StaleSet(w.refs, items)|
  {
    hide Round, StaleSet;
    if k > 0 {
      var before, l := Rounds(w, lists, e, k - 1), lists[k - 1];
      assert l in lists;
      StaleRunOut(w, items, lists, e, k - 1);
      RoundMakesProgress(before, l, e(k - 1));
      StaleIgnoresOrder(before.refs, items, l);
      StaleIgnoresOrder(Round(before, l, e(k - 1)).refs, items, l);
      if StaleSet(before.refs, items) != {} {
        ProperSubsetIsSmaller(StaleSet(Round(before, l, e(k - 1)).refs, items), StaleSet(before.refs, items));
      }
    }
  }

  lemma {:induction false} CalmRounds(w: World, items: seq<Dashboard>, lists: seq<seq<Dashboard>>, e: nat -> Events, k: nat)
    requires Coherent(w) && Fits(w.refs, items) && SameItems(items, lists) && (forall i :: Calm(e(i))) && k <= |lists|
    ensures Coherent(Rounds(w, lists, e, k)) && Fits(Rounds(w, lists, e, k).refs, items)
    ensures k > 0 ==> AllCurrent(Rounds(w, lists, e, k), items)
    ensures
      var left := StaleSet(Rounds(w, lists, e, k).refs, items);
      left == {} || |left| + k <= |StaleSet(w.refs, items)|
  {
    hide Round, Coherent, Fits, StaleSet, Calm, AllCurrent;
    if k > 0 {
      CalmRounds(w, items, lists, e, k - 1);
      assert lists[k - 1] in lists;
      CalmRoundInOrder(Rounds(w, lists, e, k - 1), items, lists[k - 1], e(k - 1));
    }
  }

  /** One round over the resources in another order. */
  lemma CalmRoundInOrder(w: World, items: seq<Dashboard>, l: seq<Dashboard>, e: Events)
    requires Coherent(w) && Fits(w.refs, items) && Calm(e)
    requires WellFormed(l) && forall d :: d in l <==> d in items
    ensures Coherent(Round(w, l, e)) && Fits(Round(w, l, e).refs, items) && AllCurrent(Round(w, l, e), items)
    ensures StaleSet(Round(w, l, e).refs, items) == {} || |StaleSet(Round(w, l, e).refs, items)| < |StaleSet(w.refs, items)|
  {
    hide Round, Coherent, Current;
    assert Fits(w.refs, l);
    WellFormedIsHashed(l);
    var w' := Round(w, l, e);
    CalmRound(w, l, e);
    assert UniqueUids(w.refs) by { CoherentIsUnique(w); }
    RoundMakesProgress(w, l, e);
    StaleIgnoresOrder(w.refs, items, l);
    StaleIgnoresOrder(w'.refs, items, l);
    if StaleSet(w.refs, items) != {} {
      ProperSubsetIsSmaller(StaleSet(w'.refs, items), StaleSet(w.refs, items));
    }
  }

  lemma CoherentIsUnique(w: World)
    requires Coherent(w)
    ensures UniqueUids(w.refs)
  {
  }

  lemma ProperSubsetIsSmaller(a: set<DashboardRef>, b: set<DashboardRef>)
    requires a < b
    ensures |a| < |b|
  {
    assert b == a + (b - a);
  }

  lemma CalmIsCarriedOut(e: Events)
    requires Calm(e)
    ensures CarriedOut(e)
  {
  }

  lemma {:induction false} RoundsTrack(w: World, lists: seq<seq<Dashboard>>, e: nat -> Events, k: nat, uid: string)
    requires Tracked(w, uid) && (forall i :: Calm(e(i))) && k <= |lists|
    ensures Tracked(Rounds(w, lists, e, k), uid)
  {
    hide Round, Tracked, Calm;
    if k > 0 {
      RoundsTrack(w, lists, e, k - 1, uid);
      CalmIsCarriedOut(e(k - 1));
      RoundTracks(Rounds(w, lists, e, k - 1), lists[k - 1], e(k - 1), uid);
    }
  }

  /** When no reference is stale any more and every resource is in Grafana, the removed ones are not. */
  lemma RemovedAreGone(w: World, items: seq<Dashboard>, lists: seq<seq<Dashboard>>, e: nat -> Events, k: nat)
    requires (forall i :: Calm(e(i))) && k <= |lists|
    requires
      var now := Rounds(w, lists, e, k);
      && StaleSet(now.refs, items) == {} && UidsFit(now.refs, items)
      && forall d :: d in items ==> d.uid in now.server.dashboards
    ensures OnlyLiveLeft(w, Rounds(w, lists, e, k), items)
  {
    hide Rounds, Calm, Tracked;
    var now := Rounds(w, lists, e, k);
    forall u | Tracked(w, u)
      ensures u in now.server.dashboards <==> exists d :: d in items && d.uid == u
    {
      RoundsTrack(w, lists, e, k, u);
      if u in now.server.dashboards {
        TrackedIsLive(now, items, u);
      }
    }
  }

  /** Dashboard convergence: over a fixed set of resources listed in any order, after as many fault-free rounds as
      there were stale references, and at least one, every known reference is live, every resource is recorded
      with its current hash and in Grafana, no removed one that was kept track of is, and every further round changes
      nothing. */
  lemma DashboardsSettle(w: World, items: seq<Dashboard>, lists: seq<seq<Dashboard>>, e: nat -> Events, k: nat)
    requires Coherent(w) && Fits(w.refs, items) && SameItems(items, lists) && (forall i :: Calm(e(i)))
    requires 1 <= k < |lists| && |StaleSet(w.refs, items)| <= k
    ensures Settled(Rounds(w, lists, e, k), items)
    ensures OnlyLiveLeft(w, Rounds(w, lists, e, k), items)
    ensures Rounds(w, lists, e, k + 1) == Rounds(w, lists, e, k)
  {
    hide Round, Coherent, Fits, OnlyLiveLeft;
    CalmRounds(w, items, lists, e, k);
    var now, l := Rounds(w, lists, e, k), lists[k];
    assert l in lists;
    StaleIgnoresOrder(now.refs, items, l);
    assert UidsFit(now.refs, items) by { FitsUids(now.refs, items); }
    RemovedAreGone(w, items, lists, e, k);
    hide Current;
    assert Fits(now.refs, l) by { FitsIgnoresOrder(now.refs, items, l); }
    SettledIsFixed(now, l, e(k));
  }

  lemma FitsUids(refs: seq<DashboardRef>, items: seq<Dashboard>)
    requires Fits(refs, items)
    ensures UidsFit(refs, items)
  {
  }

  lemma FitsIgnoresOrder(refs: seq<DashboardRef>, items: seq<Dashboard>, l: seq<Dashboard>)
    requires Fits(refs, items) && forall d :: d in l <==> d in items
    ensures Fits(refs, l)
  {
  }

  // ----- the premises are reachable -----

  /** A run without faults: any lists of resources, any deletions of dashboards and folders on the Grafana console,
      invalidation of the hashes, and restarts of the operator. */
  datatype CalmStep =
    | CalmSync(items: seq<Dashboard>, events: Events)
    | Console(uids: set<string>, folderIds: set<int>)
    | InvalidateHashes
    | Restart

  ghost function ConsoleDeleted(s: Server, uids: set<string>, folderIds: set<int>): Server {
    s.(dashboards := map u | u in s.dashboards && u !in uids && s.dashboards[u].folderId !in folderIds :: s.dashboards[u],
       folders := map t | t in s.folders && s.folders[t] !in folderIds :: s.folders[t])
  }

  ghost function CalmAfter(w: World, s: CalmStep): World {
    match s
    case CalmSync(items, events) => Round(w, items, events)
    case Console(uids, folderIds) => w.(server := ConsoleDeleted(w.server, uids, folderIds))
    case InvalidateHashes => w.(refs := Invalidated(w.refs))
    case Restart => w.(refs := [], plugins := map[])
  }

  ghost function CalmRun(server: Server, steps: seq<CalmStep>): World {
    if steps == [] then World([], map[], server)
    else CalmAfter(CalmRun(server, steps[..|steps| - 1]), steps[|steps| - 1])
  }

  ghost predicate CalmSteps(steps: seq<CalmStep>) {
    forall s :: s in steps && s.CalmSync? ==> Calm(s.events) && forall d :: d in s.items ==> d.namespace != ""
  }

  lemma {:induction false} CalmSubmitUpToKeepsCoherent(w: World, known: seq<DashboardRef>, items: seq<Dashboard>, e: Events, k: nat)
    requires Coherent(w) && Calm(e) && k <= |items| && forall d :: d in items ==> d.namespace != ""
    ensures Coherent(SubmitUpTo(w, known, items, e.item, k))
  {
    hide SubmitItem, Coherent;
    if k > 0 {
      assert items[k - 1] in items;
      CalmSubmitUpToKeepsCoherent(w, known, items, e, k - 1);
      CalmSubmitKeepsCoherent(SubmitUpTo(w, known, items, e.item, k - 1), known, items[k - 1]);
    }
  }

  lemma InvalidationKeepsCoherent(w: World)
    requires Coherent(w)
    ensures Coherent(w.(refs := Invalidated(w.refs)))
  {
    forall r | r in Invalidated(w.refs)
      ensures Accurate(w.server, r)
    {
      var i :| 0 <= i < |w.refs| && Invalidated(w.refs)[i] == r;
      assert Accurate(w.server, w.refs[i]);
    }
  }

  /** Every state of a fault-free run is coherent, whatever the resources were and whatever the console deleted. */
  lemma {:induction false} CalmRunsAreCoherent(server: Server, steps: seq<CalmStep>)
    requires CalmSteps(steps)
    ensures Coherent(CalmRun(server, steps))
  {
    hide Coherent, Round;
    if steps == [] {
      EmptyIsCoherent(server);
    } else {
      var rest, last := steps[..|steps| - 1], steps[|steps| - 1];
      assert last in steps;
      CalmRunsAreCoherent(server, rest);
      CalmStepKeepsCoherent(CalmRun(server, rest), last);
    }
  }

  lemma EmptyIsCoherent(server: Server)
    ensures Coherent(World([], map[], server))
  {
  }

  lemma CalmStepKeepsCoherent(w: World, s: CalmStep)
    requires Coherent(w)
    requires s.CalmSync? ==> Calm(s.events) && forall d :: d in s.items ==> d.namespace != ""
    ensures Coherent(CalmAfter(w, s))
  {
    match s
    case CalmSync(items, events) =>
      CalmSubmitUpToKeepsCoherent(w, w.refs, items, events, |items|);
      CalmCleanKeepsCoherent(Submitted(w, items, events), StaleRefs(w.refs, items), events, 0);
    case Console(uids, folderIds) =>
      assert forall r :: r in w.refs ==> Accurate(w.server, r);
    case InvalidateHashes =>
      InvalidationKeepsCoherent(w);
    case Restart =>
  }
}
