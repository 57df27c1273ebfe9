/** Exactly when a resource is posted, recorded and requested, under any answers, and which posts a round logs. */
module DashboardSubmission {
  import opened Wrappers
  import opened ControllerConfig
  import opened GrafanaClient
  import opened DashboardSync
  import opened DashboardSafety

  // ----- the conditions, one by one -----

  /** The title the folder is listed under, or created under. */
  predicate FolderObtained(s: Server, d: Dashboard, e: ItemEvents) {
    var title := if d.customFolder == "" then d.namespace else d.customFolder;
    var created := if title == "" then "Non-Namespaced" else title;
    && (e.listing == Done || e.listing == Unavailable)
    && (|| (e.listing == Done && title in s.folders)
        || e.creation == Unavailable
        || (e.creation == Done && created !in s.folders))
  }

  /** The known dashboard is missing in Grafana, as far as the lookup tells. */
  predicate Gone(s: Server, known: seq<DashboardRef>, d: Dashboard, e: ItemEvents) {
    var uid := KnownUid(known, KeyOf(d));
    uid != "" && (e.lookupFails || uid !in s.dashboards)
  }

  predicate HashKnown(known: seq<DashboardRef>, d: Dashboard) {
    KnownHash(known, KeyOf(d)) == d.hash
  }

  /** The pipeline ends without an error: the first run, and for a missing dashboard the forced one. */
  predicate Processes(s: Server, known: seq<DashboardRef>, d: Dashboard, e: ItemEvents) {
    && FolderObtained(s, d, e)
    && e.obtain && (HashKnown(known, d) || e.render)
    && (Gone(s, known, d, e) ==> e.obtainAgain && e.renderAgain)
  }

  /** The resource is new, changed or missing, and its namespace labels match. */
  predicate IsPosted(s: Server, known: seq<DashboardRef>, d: Dashboard, e: ItemEvents) {
    Processes(s, known, d, e) && (Gone(s, known, d, e) || !HashKnown(known, d)) && e.labels == Match
  }

  predicate IsRecorded(s: Server, known: seq<DashboardRef>, d: Dashboard, e: ItemEvents) {
    IsPosted(s, known, d, e) && (e.post == Done || e.post == Unavailable)
  }

  predicate IsRequested(s: Server, known: seq<DashboardRef>, d: Dashboard, e: ItemEvents) {
    || IsRecorded(s, known, d, e)
    || (Processes(s, known, d, e) && !Gone(s, known, d, e) && HashKnown(known, d))
  }

  ghost predicate PostSent(w: World, from: nat, uid: string, folderId: int)
    requires from <= |w.server.writes|
  {
    PostDashboard(uid, folderId) in SentSince(w, from)
  }

  // ----- one submission -----

  ghost function FolderOf(s: Server, d: Dashboard, e: ItemEvents): Option<int> {
    FolderFor(s, FolderTitle(d), e.listing, e.creation).1
  }

  lemma ObtainedFolder(s: Server, d: Dashboard, e: ItemEvents)
    ensures
      var s1 := FolderFor(s, FolderTitle(d), e.listing, e.creation).0;
      && (FolderOf(s, d, e).Some? <==> FolderObtained(s, d, e))
      && s1.dashboards == s.dashboards
      && s.writes <= s1.writes && forall uid, id :: PostDashboard(uid, id) !in s1.writes[|s.writes|..]
  {
  }

  lemma ProcessesIff(s: Server, known: seq<DashboardRef>, d: Dashboard, e: ItemEvents)
    ensures
      var gone := Gone(s, known, d, e);
      var first := Pipeline(d.hash, KnownHash(known, KeyOf(d)), false, e.obtain, e.render);
      var again := Pipeline(d.hash, KnownHash(known, KeyOf(d)), true, e.obtainAgain, e.renderAgain);
      && (Processes(s, known, d, e) <==> FolderObtained(s, d, e) && !first.Broken? && !(gone && again.Broken?))
      && (Processes(s, known, d, e) ==> ((if gone then again else first).Unchanged? <==> !gone && HashKnown(known, d)))
  {
  }

  /** The whole effect of a submission, under any answers: what is posted, stored, recorded and requested, and exactly
      when. */
  lemma SubmissionDecides(w: World, known: seq<DashboardRef>, d: Dashboard, e: ItemEvents)
    ensures
      var w', s := SubmitItem(w, known, d, e), w.server;
      && w.server.writes <= w'.server.writes
      && (IsPosted(s, known, d, e) ==> FolderOf(s, d, e).Some?)
      && (forall uid, id :: PostSent(w', |s.writes|, uid, id) <==>
            IsPosted(s, known, d, e) && uid == d.uid && Some(id) == FolderOf(s, d, e))
      && w'.server.dashboards == (if IsPosted(s, known, d, e) && (e.post == Done || e.post == Lost)
           then s.dashboards[d.uid := Stored(d.hash, FolderOf(s, d, e).value)] else s.dashboards)
      && w'.refs == (if IsRecorded(s, known, d, e)
           then Added(w.refs, d, FolderOf(s, d, e).value, FolderTitle(d)) else w.refs)
      && w'.plugins == if IsRequested(s, known, d, e) then w.plugins[KeyOf(d) := d.plugins] else w.plugins
  {
    var w', s := SubmitItem(w, known, d, e), w.server;
    var s1 := FolderFor(s, FolderTitle(d), e.listing, e.creation).0;
    ObtainedFolder(s, d, e);
    ProcessesIff(s, known, d, e);
    hide FolderFor, FolderObtained, Processes, FolderTitle, KnownHash, KnownUid, Added;
    if IsPosted(s, known, d, e) {
      var id := FolderOf(s, d, e).value;
      assert w'.server.writes == s1.writes + [PostDashboard(d.uid, id)];
      assert SentSince(w', |s.writes|) == s1.writes[|s.writes|..] + [PostDashboard(d.uid, id)];
    } else {
      assert w'.server == s1;
    }
  }

  /** Without matching labels nothing is posted, stored or recorded. */
  lemma OnlyMatchingIsPosted(w: World, known: seq<DashboardRef>, d: Dashboard, e: ItemEvents)
    requires e.labels != Match
    ensures
      var w' := SubmitItem(w, known, d, e);
      && w'.refs == w.refs && w'.server.dashboards == w.server.dashboards
      && w.server.writes <= w'.server.writes
      && forall uid, id :: !PostSent(w', |w.server.writes|, uid, id)
  {
    hide SubmitItem;
    SubmissionDecides(w, known, d, e);
  }

  // ----- a round -----

  lemma PostsInTwo(w: World, w1: World, w': World, uid: string, id: int)
    requires w.server.writes <= w1.server.writes <= w'.server.writes
    ensures PostSent(w', |w.server.writes|, uid, id) <==>
      PostSent(w1, |w.server.writes|, uid, id) || PostSent(w', |w1.server.writes|, uid, id)
  {
    var n, m := |w.server.writes|, |w1.server.writes|;
    assert w'.server.writes[n..] == w1.server.writes[n..] + w'.server.writes[m..];
  }

  lemma NothingPosted(w: World, uid: string, id: int)
    ensures !PostSent(w, |w.server.writes|, uid, id)
  {
  }

  /** The resource at position `i` is posted when its turn comes. */
  ghost predicate PostedAt(w: World, items: seq<Dashboard>, e: nat -> ItemEvents, i: nat, uid: string, id: int)
    requires i < |items|
  {
    var s := SubmitUpTo(w, w.refs, items, e, i).server;
    IsPosted(s, w.refs, items[i], e(i)) && uid == items[i].uid && Some(id) == FolderOf(s, items[i], e(i))
  }

  lemma {:induction false} SubmissionsPostIff(w: World, items: seq<Dashboard>, e: nat -> ItemEvents, k: nat, uid: string, id: int)
    requires k <= |items|
    ensures w.server.writes <= SubmitUpTo(w, w.refs, items, e, k).server.writes
    ensures PostSent(SubmitUpTo(w, w.refs, items, e, k), |w.server.writes|, uid, id) <==>
      exists i :: 0 <= i < k && PostedAt(w, items, e, i, uid, id)
  {
    hide SubmitItem, PostSent, IsPosted, FolderOf;
    if k == 0 {
      NothingPosted(w, uid, id);
    } else {
      var before := SubmitUpTo(w, w.refs, items, e, k - 1);
      SubmissionsPostIff(w, items, e, k - 1, uid, id);
      SubmissionDecides(before, w.refs, items[k - 1], e(k - 1));
      assert PostSent(SubmitUpTo(w, w.refs, items, e, k), |before.server.writes|, uid, id) <==> PostedAt(w, items, e, k - 1, uid, id);
      hide PostedAt;
      PostsInTwo(w, before, SubmitUpTo(w, w.refs, items, e, k), uid, id);
    }
  }

  lemma {:induction false} CleanPostsNothing(w: World, stale: seq<DashboardRef>, e: nat -> CleanEvents, k: nat, uid: string, id: int)
    requires k <= |stale|
    ensures w.server.writes <= CleanFrom(w, stale, e, k).server.writes
    ensures !PostSent(CleanFrom(w, stale, e, k), |w.server.writes|, uid, id)
    decreases |stale| - k
  {
    if k < |stale| {
      var w1 := Forgotten(w, stale[k], e(k).deleteDashboard);
      var w2 := w1.(server := FolderDeleted(w1.server, stale[k].folderId, e(k).deleteFolder));
      CleanPostsNothing(w1, stale, e, k + 1, uid, id);
      CleanPostsNothing(w2, stale, e, k + 1, uid, id);
      var w' := CleanFrom(w, stale, e, k);
      assert w1.server.writes == w.server.writes + [DeleteDashboard(stale[k].uid)];
      assert w2.server.writes == w1.server.writes + [DeleteFolder(stale[k].folderId)];
      assert w' == w1 || w' == CleanFrom(w1, stale, e, k + 1) || w' == CleanFrom(w2, stale, e, k + 1);
      hide CleanFrom, Forgotten, FolderDeleted;
      if w' == CleanFrom(w2, stale, e, k + 1) {
        PostsInTwo(w1, w2, w', uid, id);
      }
      PostsInTwo(w, w1, w', uid, id);
    }
  }

  /** Whatever the answers, the posts that a round logs are those of the resources that are due when their turn comes:
      in particular only of resources whose namespace labels match. */
  lemma RoundPostsIff(w: World, items: seq<Dashboard>, e: Events, uid: string, id: int)
    ensures w.server.writes <= Round(w, items, e).server.writes
    ensures PostSent(Round(w, items, e), |w.server.writes|, uid, id) <==>
      !e.listFails && exists i :: 0 <= i < |items| && PostedAt(w, items, e.item, i, uid, id)
    ensures PostSent(Round(w, items, e), |w.server.writes|, uid, id) ==>
      exists i :: 0 <= i < |items| && items[i].uid == uid && e.item(i).labels == Match
  {
    hide CleanFrom, SubmitUpTo, StaleRefs, PostSent;
    if e.listFails {
      NothingPosted(w, uid, id);
    } else {
      var w1 := Submitted(w, items, e);
      SubmissionsPostIff(w, items, e.item, |items|, uid, id);
      CleanPostsNothing(w1, StaleRefs(w.refs, items), e.clean, 0, uid, id);
      PostsInTwo(w, w1, Round(w, items, e), uid, id);
    }
  }
}
