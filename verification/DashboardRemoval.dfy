/** What becomes of the dashboards that are removed from the cluster: which deletions a round requests, and when Grafana
    is rid of them. */
module DashboardRemoval {
  import opened ControllerConfig
  import opened GrafanaClient
  import opened DashboardSync
  import opened DashboardSafety
  import opened DashboardSubmission

  ghost predicate Knows(refs: seq<DashboardRef>, uid: string) {
    exists r :: r in refs && r.uid == uid
  }

  lemma AddedKnows(refs: seq<DashboardRef>, d: Dashboard, folderId: int, folderName: string, uid: string)
    ensures Knows(Added(refs, d, folderId, folderName), uid) <==> Knows(refs, uid) || uid == d.uid
  {
    var after := Added(refs, d, folderId, folderName);
    var i := Index(refs, d.uid);
    assert after[if i.Some? then i.value else |refs|].uid == d.uid;
    if r :| r in refs && r.uid == uid {
      var k :| 0 <= k < |refs| && refs[k] == r;
      assert after[k].uid == uid;
    }
    if r :| r in after && r.uid == uid && uid != d.uid {
      assert r in refs;
    }
  }

  lemma RemovedKnows(refs: seq<DashboardRef>, removed: string, uid: string)
    ensures Knows(Removed(refs, removed), uid) ==> Knows(refs, uid)
    ensures Knows(refs, uid) && uid != removed ==> Knows(Removed(refs, removed), uid)
  {
    var i, after := Index(refs, removed), Removed(refs, removed);
    if i.Some? {
      if r :| r in refs && r.uid == uid && uid != removed {
        var k :| 0 <= k < |refs| && refs[k] == r;
        assert after[if k == |refs| - 1 then i.value else k] == r;
      }
      assert forall r :: r in after ==> r in refs;
    }
  }

  // ----- the deletion loop -----

  /** The loop stores nothing. */
  lemma {:induction false} CleanStoresNothing(w: World, stale: seq<DashboardRef>, e: nat -> CleanEvents, k: nat, uid: string)
    requires k <= |stale| && uid !in w.server.dashboards
    ensures uid !in CleanFrom(w, stale, e, k).server.dashboards
    decreases |stale| - k
  {
    if k < |stale| {
      var w1 := Forgotten(w, stale[k], e(k).deleteDashboard);
      CleanStoresNothing(w1, stale, e, k + 1, uid);
      CleanStoresNothing(w1.(server := FolderDeleted(w1.server, stale[k].folderId, e(k).deleteFolder)), stale, e, k + 1, uid);
    }
  }

  /** Every deletion of a dashboard is carried out, whether or not the operator learns of it. */
  ghost predicate DeletionsCarriedOut(e: nat -> CleanEvents) {
    forall i :: e(i).deleteDashboard == Done || e(i).deleteDashboard == Lost
  }

  /** When deletions are carried out, the UIDs that the loop forgets are gone from Grafana. */
  lemma {:induction false} ForgottenAreGone(w: World, stale: seq<DashboardRef>, e: nat -> CleanEvents, k: nat, uid: string)
    requires k <= |stale| && DeletionsCarriedOut(e)
    requires Knows(w.refs, uid) && !Knows(CleanFrom(w, stale, e, k).refs, uid)
    ensures uid !in CleanFrom(w, stale, e, k).server.dashboards
    decreases |stale| - k
  {
    if k < |stale| {
      var r := stale[k];
      var w1 := Forgotten(w, r, e(k).deleteDashboard);
      var w2 := w1.(server := FolderDeleted(w1.server, r.folderId, e(k).deleteFolder));
      RemovedKnows(w.refs, r.uid, uid);
      if uid == r.uid {
        CleanStoresNothing(w1, stale, e, k + 1, uid);
        CleanStoresNothing(w2, stale, e, k + 1, uid);
      } else if !Managed(r) {
        ForgottenAreGone(w1, stale, e, k + 1, uid);
      } else if SafeToDeleteFolder(w1.refs, r.folderId) {
        ForgottenAreGone(w2, stale, e, k + 1, uid);
      }
    }
  }

  ghost predicate DeletionSent(w: World, from: nat, uid: string)
    requires from <= |w.server.writes|
  {
    DeleteDashboard(uid) in SentSince(w, from)
  }

  lemma DeletionAfterStep(w: World, w1: World, w': World, c: Write, uid: string)
    requires w1.server.writes == w.server.writes + [c] && w1.server.writes <= w'.server.writes
    ensures w.server.writes <= w'.server.writes
    ensures DeletionSent(w', |w.server.writes|, uid) <==> c == DeleteDashboard(uid) || DeletionSent(w', |w1.server.writes|, uid)
  {
    SentAfterStep(w, w1, w', c);
  }

  lemma NothingSent(w: World, uid: string)
    ensures !DeletionSent(w, |w.server.writes|, uid)
  {
  }

  /** Whatever the answers, the loop forgets a UID if and only if it requests the deletion of its dashboard. */
  lemma {:induction false} ForgottenIffSent(w: World, stale: seq<DashboardRef>, e: nat -> CleanEvents, k: nat, uid: string)
    requires k <= |stale| && UniqueUids(w.refs)
    ensures w.server.writes <= CleanFrom(w, stale, e, k).server.writes
    ensures Knows(w.refs, uid) ==>
      (!Knows(CleanFrom(w, stale, e, k).refs, uid) <==> DeletionSent(CleanFrom(w, stale, e, k), |w.server.writes|, uid))
    decreases |stale| - k
  {
    CleanLogGrows(w, stale, e, k);
    if k == |stale| {
      NothingSent(w, uid);
    } else {
      var r := stale[k];
      var w1 := Forgotten(w, r, e(k).deleteDashboard);
      var w2 := w1.(server := FolderDeleted(w1.server, r.folderId, e(k).deleteFolder));
      var w' := CleanFrom(w, stale, e, k);
      RemovedMembers(w.refs, r.uid);
      RemovedKnows(w.refs, r.uid, uid);
      CleanLogGrows(w1, stale, e, k + 1);
      CleanLogGrows(w2, stale, e, k + 1);
      CleanShrinks(w, stale, e, k);
      assert uid == r.uid ==> !Knows(w'.refs, uid);
      assert w1.server.writes == w.server.writes + [DeleteDashboard(r.uid)];
      assert w2.server.writes == w1.server.writes + [DeleteFolder(r.folderId)];
      assert w' == if !Managed(r) then CleanFrom(w1, stale, e, k + 1)
                   else if SafeToDeleteFolder(w1.refs, r.folderId) then CleanFrom(w2, stale, e, k + 1) else w1;
      hide CleanFrom, DeletionSent, Forgotten, FolderDeleted, Removed, SafeToDeleteFolder;
      DeletionAfterStep(w, w1, w', DeleteDashboard(r.uid), uid);
      if !Managed(r) {
        ForgottenIffSent(w1, stale, e, k + 1, uid);
      } else if SafeToDeleteFolder(w1.refs, r.folderId) {
        ForgottenIffSent(w2, stale, e, k + 1, uid);
        DeletionAfterStep(w1, w2, w', DeleteFolder(r.folderId), uid);
      } else {
        NothingSent(w1, uid);
      }
    }
  }

  // ----- the submissions -----

  /** A submission stores at most its own dashboard, deletes none, and forgets no UID. */
  lemma SubmissionKeeps(w: World, known: seq<DashboardRef>, d: Dashboard, e: ItemEvents, uid: string)
    ensures
      var w' := SubmitItem(w, known, d, e);
      && w.server.writes <= w'.server.writes
      && !DeletionSent(w', |w.server.writes|, uid)
      && (Knows(w.refs, uid) ==> Knows(w'.refs, uid))
      && (uid in w.server.dashboards ==> uid in w'.server.dashboards)
      && (uid in w'.server.dashboards ==> uid in w.server.dashboards || (uid == d.uid && (Knows(w'.refs, uid) || e.post == Lost)))
  {
    SubmissionDecides(w, known, d, e);
    SubmissionDeletesNothing(w, known, d, e, uid);
    hide SubmitItem;
    if IsRecorded(w.server, known, d, e) {
      AddedKnows(w.refs, d, FolderOf(w.server, d, e).value, FolderTitle(d), uid);
    }
    hide Added, Knows, IsRequested, Processes, Gone, FolderOf;
  }

  lemma SubmissionDeletesNothing(w: World, known: seq<DashboardRef>, d: Dashboard, e: ItemEvents, uid: string)
    ensures
      var w' := SubmitItem(w, known, d, e);
      w.server.writes <= w'.server.writes && !DeletionSent(w', |w.server.writes|, uid)
  {
    var (s1, id) := FolderFor(w.server, FolderTitle(d), e.listing, e.creation);
    FolderKeeps(w.server, FolderTitle(d), e.listing, e.creation);
    hide FolderFor, Pipeline, Added, KnownHash, KnownUid, FolderTitle;
    var w' := SubmitItem(w, known, d, e);
    assert w'.server == s1 || (id.Some? && w'.server == Posted(s1, d.uid, d.hash, id.value, e.post).0);
  }

  lemma FolderKeeps(s: Server, title: string, listing: Answer, creation: Answer)
    ensures
      var s1 := FolderFor(s, title, listing, creation).0;
      && s1.dashboards == s.dashboards
      && (s1.writes == s.writes || exists t :: s1.writes == s.writes + [CreateFolder(t)])
  {
    var t := if title == "" then NON_NAMESPACED_FOLDER else title;
    assert FolderFor(s, title, listing, creation).0.writes == s.writes
        || FolderFor(s, title, listing, creation).0.writes == s.writes + [CreateFolder(t)];
  }

  lemma SentInTwo(w: World, w1: World, w': World, uid: string)
    requires w.server.writes <= w1.server.writes <= w'.server.writes
    ensures DeletionSent(w', |w.server.writes|, uid) <==>
      DeletionSent(w1, |w.server.writes|, uid) || DeletionSent(w', |w1.server.writes|, uid)
  {
    var n, m := |w.server.writes|, |w1.server.writes|;
    assert w'.server.writes[n..] == w1.server.writes[n..] + w'.server.writes[m..];
  }

  lemma {:induction false} SubmissionsKeep(w: World, known: seq<DashboardRef>, items: seq<Dashboard>, e: nat -> ItemEvents, k: nat, uid: string)
    requires k <= |items|
    ensures
      var w' := SubmitUpTo(w, known, items, e, k);
      && w.server.writes <= w'.server.writes
      && !DeletionSent(w', |w.server.writes|, uid)
      && (Knows(w.refs, uid) ==> Knows(w'.refs, uid))
      && (uid in w.server.dashboards ==> uid in w'.server.dashboards)
  {
    hide SubmitItem, DeletionSent;
    if k == 0 {
      NothingSent(w, uid);
    } else {
      var before := SubmitUpTo(w, known, items, e, k - 1);
      SubmissionsKeep(w, known, items, e, k - 1, uid);
      SubmissionKeeps(before, known, items[k - 1], e(k - 1), uid);
      SentInTwo(w, before, SubmitUpTo(w, known, items, e, k), uid);
    }
  }

  /** Whatever the answers, a round forgets a known UID if and only if it requests the deletion of its dashboard. */
  lemma RoundForgetsIff(w: World, items: seq<Dashboard>, e: Events, uid: string)
    requires UniqueUids(w.refs) && Hashed(items) && Knows(w.refs, uid)
    ensures w.server.writes <= Round(w, items, e).server.writes
    ensures !Knows(Round(w, items, e).refs, uid) <==> DeletionSent(Round(w, items, e), |w.server.writes|, uid)
  {
    hide CleanFrom, SubmitUpTo, StaleRefs, DeletionSent;
    if e.listFails {
      NothingSent(w, uid);
    } else {
      var w1 := Submitted(w, items, e);
      SubmitUpToKeepsUnique(w, w.refs, items, e.item, |items|);
      SubmissionsKeep(w, w.refs, items, e.item, |items|, uid);
      ForgottenIffSent(w1, StaleRefs(w.refs, items), e.clean, 0, uid);
      SentInTwo(w, w1, Round(w, items, e), uid);
    }
  }

  // ----- dashboards that the operator keeps track of -----

  /** If Grafana has the dashboard, the operator knows it. */
  ghost predicate Tracked(w: World, uid: string) {
    uid in w.server.dashboards ==> Knows(w.refs, uid)
  }

  /** Deletions are carried out, and no dashboard is stored behind the back of the operator. */
  ghost predicate CarriedOut(e: Events) {
    DeletionsCarriedOut(e.clean) && forall i :: e.item(i).post != Lost
  }

  lemma {:induction false} SubmissionsTrack(w: World, known: seq<DashboardRef>, items: seq<Dashboard>, e: Events, k: nat, uid: string)
    requires k <= |items| && CarriedOut(e) && Tracked(w, uid)
    ensures Tracked(SubmitUpTo(w, known, items, e.item, k), uid)
  {
    hide SubmitItem, Knows;
    if k > 0 {
      SubmissionsTrack(w, known, items, e, k - 1, uid);
      SubmissionKeeps(SubmitUpTo(w, known, items, e.item, k - 1), known, items[k - 1], e.item(k - 1), uid);
    }
  }

  lemma CleanTracks(w: World, stale: seq<DashboardRef>, e: Events, uid: string)
    requires CarriedOut(e) && Tracked(w, uid)
    ensures Tracked(CleanFrom(w, stale, e.clean, 0), uid)
  {
    hide CleanFrom, Knows;
    var w' := CleanFrom(w, stale, e.clean, 0);
    if uid !in w.server.dashboards {
      CleanStoresNothing(w, stale, e.clean, 0, uid);
    } else if !Knows(w'.refs, uid) {
      ForgottenAreGone(w, stale, e.clean, 0, uid);
    }
  }

  lemma RoundTracks(w: World, items: seq<Dashboard>, e: Events, uid: string)
    requires CarriedOut(e) && Tracked(w, uid)
    ensures Tracked(Round(w, items, e), uid)
  {
    hide SubmitUpTo, CleanFrom, StaleRefs, Tracked, CarriedOut;
    SubmissionsTrack(w, w.refs, items, e, |items|, uid);
    CleanTracks(Submitted(w, items, e), StaleRefs(w.refs, items), e, uid);
  }

  /** Of the dashboards that the operator kept track of before, Grafana has exactly those of live resources after. */
  ghost predicate OnlyLiveLeft(before: World, after: World, items: seq<Dashboard>) {
    forall u :: Tracked(before, u) ==> (u in after.server.dashboards <==> exists d :: d in items && d.uid == u)
  }

  /** With no stale reference left, what is tracked is live. */
  lemma TrackedIsLive(w: World, items: seq<Dashboard>, uid: string)
    requires Tracked(w, uid) && uid in w.server.dashboards && StaleSet(w.refs, items) == {}
    requires forall r, d :: r in w.refs && d in items && RefKey(r) == KeyOf(d) ==> r.uid == d.uid
    ensures exists d :: d in items && d.uid == uid
  {
    var r :| r in w.refs && r.uid == uid;
    assert r !in StaleSet(w.refs, items);
    var d :| d in items && KeyOf(d) == RefKey(r);
    assert r.uid == d.uid;
  }
}
