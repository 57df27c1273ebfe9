/** Exactly when the dashboard controller deletes a managed folder, and which folders it leaves behind. */
module DashboardFolders {
  import opened ControllerConfig
  import opened GrafanaClient
  import opened DashboardSync
  import opened DashboardSafety
  import opened DashboardConvergence
  import opened DashboardAside
  import opened DashboardLag

  // ----- the deletion loop -----

  /** Every reference in the folder of the `k`-th stale one is forgotten by then. */
  ghost predicate Emptied(refs: seq<DashboardRef>, stale: seq<DashboardRef>, k: nat)
    requires k < |stale|
  {
    forall r :: r in refs && r.folderId == stale[k].folderId ==> exists j :: 0 <= j <= k && stale[j].uid == r.uid
  }

  /** No earlier managed folder is still in use, which would end the loop. */
  ghost predicate Reached(refs: seq<DashboardRef>, stale: seq<DashboardRef>, k: nat)
    requires k <= |stale|
  {
    forall j :: 0 <= j < k && Managed(stale[j]) ==> Emptied(refs, stale, j)
  }

  /** The loop asks for the folder at its `k`-th reference. */
  ghost predicate DeletesAt(refs: seq<DashboardRef>, stale: seq<DashboardRef>, k: nat, id: int)
    requires k < |stale|
  {
    Managed(stale[k]) && stale[k].folderId == id && Emptied(refs, stale, k) && Reached(refs, stale, k)
  }

  /** What is left of the references `all` when the first `k` stale ones are forgotten. */
  ghost predicate Left(refs: seq<DashboardRef>, all: seq<DashboardRef>, stale: seq<DashboardRef>, k: nat)
    requires k <= |stale|
  {
    UniqueUids(refs) && forall r :: r in refs <==> r in all && forall j :: 0 <= j < k ==> stale[j].uid != r.uid
  }

  lemma LeftAfterForgetting(w: World, all: seq<DashboardRef>, stale: seq<DashboardRef>, k: nat, answer: Answer)
    requires k < |stale| && Left(w.refs, all, stale, k)
    ensures Left(Forgotten(w, stale[k], answer).refs, all, stale, k + 1)
    ensures SafeToDeleteFolder(Forgotten(w, stale[k], answer).refs, stale[k].folderId) <==> Emptied(all, stale, k)
  {
    RemovedMembers(w.refs, stale[k].uid);
    var w1 := Forgotten(w, stale[k], answer);
    assert Left(w1.refs, all, stale, k + 1);
    if Emptied(all, stale, k) {
      forall r | r in w1.refs
        ensures r.folderId != stale[k].folderId
      {
        assert r in all;
      }
    }
  }

  ghost predicate Asked(w: World, from: nat, id: int)
    requires from <= |w.server.writes|
  {
    DeleteFolder(id) in SentSince(w, from)
  }

  lemma AskedAfterStep(w: World, w1: World, w': World, c: Write, id: int)
    requires w1.server.writes == w.server.writes + [c] && w1.server.writes <= w'.server.writes
    ensures w.server.writes <= w'.server.writes
    ensures Asked(w', |w.server.writes|, id) <==> c == DeleteFolder(id) || Asked(w', |w1.server.writes|, id)
  {
    SentAfterStep(w, w1, w', c);
  }

  ghost predicate DeletesFrom(refs: seq<DashboardRef>, stale: seq<DashboardRef>, k: nat, id: int) {
    exists j :: k <= j < |stale| && DeletesAt(refs, stale, j, id)
  }

  lemma DeletesFromHere(refs: seq<DashboardRef>, stale: seq<DashboardRef>, k: nat, id: int)
    requires k < |stale| && Reached(refs, stale, k)
    ensures !Managed(stale[k]) || Emptied(refs, stale, k) ==> Reached(refs, stale, k + 1)
    ensures DeletesFrom(refs, stale, k, id) <==>
      if !Managed(stale[k]) then DeletesFrom(refs, stale, k + 1, id)
      else Emptied(refs, stale, k) && (stale[k].folderId == id || DeletesFrom(refs, stale, k + 1, id))
  {
    hide Emptied;
    assert DeletesAt(refs, stale, k, id) <==> Managed(stale[k]) && stale[k].folderId == id && Emptied(refs, stale, k);
    if Managed(stale[k]) && !Emptied(refs, stale, k) {
      assert forall j :: k < j < |stale| ==> !Reached(refs, stale, j);
    }
  }

  /** From position `k` on, a folder is asked for if and only if the loop gets to a managed reference that is the
      last of its folder. */
  lemma {:induction false} LoopDeletesIff(w: World, all: seq<DashboardRef>, stale: seq<DashboardRef>, e: nat -> CleanEvents, k: nat, id: int)
    requires k <= |stale| && Left(w.refs, all, stale, k) && Reached(all, stale, k)
    ensures w.server.writes <= CleanFrom(w, stale, e, k).server.writes
    ensures Asked(CleanFrom(w, stale, e, k), |w.server.writes|, id) <==> DeletesFrom(all, stale, k, id)
    decreases |stale| - k
  {
    CleanLogGrows(w, stale, e, k);
    if k < |stale| {
      var r := stale[k];
      var w1 := Forgotten(w, r, e(k).deleteDashboard);
      var w2 := w1.(server := FolderDeleted(w1.server, r.folderId, e(k).deleteFolder));
      var w' := CleanFrom(w, stale, e, k);
      LeftAfterForgetting(w, all, stale, k, e(k).deleteDashboard);
      CleanLogGrows(w1, stale, e, k + 1);
      CleanLogGrows(w2, stale, e, k + 1);
      assert w1.server.writes == w.server.writes + [DeleteDashboard(r.uid)];
      assert w2.server.writes == w1.server.writes + [DeleteFolder(r.folderId)];
      assert w' == if !Managed(r) then CleanFrom(w1, stale, e, k + 1)
                   else if Emptied(all, stale, k) then CleanFrom(w2, stale, e, k + 1) else w1;
      hide CleanFrom, Left, Emptied, Reached, Asked, Forgotten, FolderDeleted, DeletesFrom;
      DeletesFromHere(all, stale, k, id);
      AskedAfterStep(w, w1, w', DeleteDashboard(r.uid), id);
      if !Managed(r) {
        LoopDeletesIff(w1, all, stale, e, k + 1, id);
      } else if Emptied(all, stale, k) {
        LoopDeletesIff(w2, all, stale, e, k + 1, id);
        AskedAfterStep(w1, w2, w', DeleteFolder(r.folderId), id);
      } else {
        NothingAsked(w1, id);
      }
    } else {
      NothingAsked(w, id);
    }
  }

  lemma NothingAsked(w: World, id: int)
    ensures !Asked(w, |w.server.writes|, id)
  {
  }

  // ----- the whole round -----

  lemma FolderForAsks(s: Server, title: string, listing: Answer, creation: Answer)
    ensures
      var s1 := FolderFor(s, title, listing, creation).0;
      s1.writes == s.writes || exists t :: s1.writes == s.writes + [CreateFolder(t)]
  {
    var t := if title == "" then NON_NAMESPACED_FOLDER else title;
    assert FolderFor(s, title, listing, creation).0.writes == s.writes
        || FolderFor(s, title, listing, creation).0.writes == s.writes + [CreateFolder(t)];
  }

  lemma SubmissionServer(w: World, known: seq<DashboardRef>, d: Dashboard, e: ItemEvents)
    ensures
      var (s1, id) := FolderFor(w.server, FolderTitle(d), e.listing, e.creation);
      var s' := SubmitItem(w, known, d, e).server;
      s' == s1 || (id.Some? && s' == Posted(s1, d.uid, d.hash, id.value, e.post).0)
  {
    hide FolderFor, Posted, Pipeline, Added, KnownHash, KnownUid, FolderTitle;
  }

  /** Submissions create folders and store dashboards; they delete nothing. */
  lemma SubmissionAsksNothing(w: World, known: seq<DashboardRef>, d: Dashboard, e: ItemEvents, id: int)
    ensures w.server.writes <= SubmitItem(w, known, d, e).server.writes
    ensures !Asked(SubmitItem(w, known, d, e), |w.server.writes|, id)
  {
    SubmissionServer(w, known, d, e);
    FolderForAsks(w.server, FolderTitle(d), e.listing, e.creation);
    hide SubmitItem, FolderFor, FolderTitle;
  }

  lemma {:induction false} SubmissionsAskNothing(w: World, known: seq<DashboardRef>, items: seq<Dashboard>, e: nat -> ItemEvents, k: nat, id: int)
    requires k <= |items|
    ensures w.server.writes <= SubmitUpTo(w, known, items, e, k).server.writes
    ensures !Asked(SubmitUpTo(w, known, items, e, k), |w.server.writes|, id)
  {
    hide SubmitItem;
    if k > 0 {
      var before := SubmitUpTo(w, known, items, e, k - 1);
      SubmissionsAskNothing(w, known, items, e, k - 1, id);
      SubmissionAsksNothing(before, known, items[k - 1], e(k - 1), id);
      AskedInTwo(w, before, SubmitUpTo(w, known, items, e, k), id);
    }
  }

  lemma AskedInTwo(w: World, w1: World, w': World, id: int)
    requires w.server.writes <= w1.server.writes <= w'.server.writes
    ensures Asked(w', |w.server.writes|, id) <==> Asked(w1, |w.server.writes|, id) || Asked(w', |w1.server.writes|, id)
  {
    var n, m := |w.server.writes|, |w1.server.writes|;
    assert w'.server.writes[n..] == w1.server.writes[n..] + w'.server.writes[m..];
  }

  /** Exactness, under any faults: a round asks Grafana to delete a folder if and only if the resources are listed and
      the folder is that of a stale managed reference such that, among the references after the submissions, all in
      its folder are stale ones up to it, and so for every earlier stale managed reference. */
  lemma RoundDeletesFolderIff(w: World, items: seq<Dashboard>, e: Events, id: int)
    requires UniqueUids(w.refs) && Hashed(items)
    ensures w.server.writes <= Round(w, items, e).server.writes
    ensures Asked(Round(w, items, e), |w.server.writes|, id) <==>
      !e.listFails && DeletesFrom(Submitted(w, items, e).refs, StaleRefs(w.refs, items), 0, id)
  {
    hide CleanFrom, SubmitUpTo, DeletesFrom, Asked, StaleRefs;
    if e.listFails {
      NothingAsked(w, id);
    } else {
      var w1, stale := Submitted(w, items, e), StaleRefs(w.refs, items);
      SubmitUpToKeepsUnique(w, w.refs, items, e.item, |items|);
      SubmissionsAskNothing(w, w.refs, items, e.item, |items|, id);
      LoopDeletesIff(w1, w1.refs, stale, e.clean, 0, id);
      AskedInTwo(w, w1, Round(w, items, e), id);
    }
  }

  /** Only folders of removed dashboards that were recorded without a folder name or under that of their namespace are
      deleted: custom folders never. */
  lemma OnlyNamespaceFoldersGo(w: World, items: seq<Dashboard>, e: Events, id: int)
    requires UniqueUids(w.refs) && Hashed(items)
    ensures w.server.writes <= Round(w, items, e).server.writes
    ensures Asked(Round(w, items, e), |w.server.writes|, id) ==>
      exists r :: r in w.refs && !Live(r, items) && r.folderId == id && (r.folderName == "" || r.folderName == r.namespace)
  {
    hide Round, Asked;
    RoundDeletesFolderIff(w, items, e, id);
    if Asked(Round(w, items, e), |w.server.writes|, id) {
      var stale := StaleRefs(w.refs, items);
      var j :| 0 <= j < |stale| && DeletesAt(Submitted(w, items, e).refs, stale, j, id);
      StaleRefsAreStale(w.refs, items);
      assert stale[j] in stale;
    }
  }

  /** And they are when nothing else is in them: with one removed dashboard, its folder is deleted if and only if it is
      named after the namespace and no reference is left in it. */
  lemma SoleRemovalDeletesFolderIff(w: World, items: seq<Dashboard>, e: Events, r: DashboardRef)
    requires UniqueUids(w.refs) && Hashed(items) && !e.listFails && StaleRefs(w.refs, items) == [r]
    ensures w.server.writes <= Round(w, items, e).server.writes
    ensures Asked(Round(w, items, e), |w.server.writes|, r.folderId) <==>
      && (r.folderName == "" || r.folderName == r.namespace)
      && forall q :: q in Submitted(w, items, e).refs && q.folderId == r.folderId ==> q.uid == r.uid
  {
    hide Round, Asked, SubmitUpTo, Live;
    RoundDeletesFolderIff(w, items, e, r.folderId);
    var all, stale := Submitted(w, items, e).refs, StaleRefs(w.refs, items);
    hide StaleRefs;
    assert DeletesFrom(all, stale, 0, r.folderId) <==> DeletesAt(all, stale, 0, r.folderId);
    assert Emptied(all, stale, 0) <==> forall q :: q in all && q.folderId == r.folderId ==> q.uid == r.uid;
  }

  // ----- folders that stay -----

  lemma FolderStaysInLoopStep(s: Server, title: string, id: int, answer: Answer)
    requires title in s.folders && s.folders[title] != id
    ensures title in FolderDeleted(s, id, answer).folders && FolderDeleted(s, id, answer).folders[title] == s.folders[title]
  {
  }

  lemma {:induction false} FolderStaysInLoop(w: World, stale: seq<DashboardRef>, e: nat -> CleanEvents, k: nat, title: string)
    requires k <= |stale| && title in w.server.folders
    requires forall r :: r in stale && Managed(r) ==> r.folderId != w.server.folders[title]
    ensures
      var w' := CleanFrom(w, stale, e, k);
      title in w'.server.folders && w'.server.folders[title] == w.server.folders[title]
    decreases |stale| - k
  {
    hide FolderDeleted;
    if k < |stale| {
      var w1 := Forgotten(w, stale[k], e(k).deleteDashboard);
      assert w1.server.folders == w.server.folders;
      FolderStaysInLoop(w1, stale, e, k + 1, title);
      if Managed(stale[k]) {
        FolderStaysInLoopStep(w1.server, title, stale[k].folderId, e(k).deleteFolder);
        FolderStaysInLoop(w1.(server := FolderDeleted(w1.server, stale[k].folderId, e(k).deleteFolder)), stale, e, k + 1, title);
      }
    }
  }

  lemma SubmissionKeepsFolder(w: World, known: seq<DashboardRef>, d: Dashboard, e: ItemEvents, title: string)
    requires title in w.server.folders
    ensures
      var w' := SubmitItem(w, known, d, e);
      title in w'.server.folders && w'.server.folders[title] == w.server.folders[title]
  {
    hide Pipeline, Added, KnownHash, KnownUid, FolderTitle;
  }

  lemma {:induction false} SubmissionsKeepFolder(w: World, known: seq<DashboardRef>, items: seq<Dashboard>, e: nat -> ItemEvents, k: nat, title: string)
    requires k <= |items| && title in w.server.folders
    ensures
      var w' := SubmitUpTo(w, known, items, e, k);
      title in w'.server.folders && w'.server.folders[title] == w.server.folders[title]
  {
    hide SubmitItem;
    if k > 0 {
      SubmissionsKeepFolder(w, known, items, e, k - 1, title);
      SubmissionKeepsFolder(SubmitUpTo(w, known, items, e, k - 1), known, items[k - 1], e(k - 1), title);
    }
  }

  /** A folder in which no managed reference is stale stays, under any faults. */
  lemma FolderStays(w: World, items: seq<Dashboard>, e: Events, title: string)
    requires title in w.server.folders
    requires forall r :: r in StaleSet(w.refs, items) && Managed(r) ==> r.folderId != w.server.folders[title]
    ensures
      var w' := Round(w, items, e);
      title in w'.server.folders && w'.server.folders[title] == w.server.folders[title]
  {
    SubmissionsKeepFolder(w, w.refs, items, e.item, |items|, title);
    StaleRefsAreStale(w.refs, items);
    FolderStaysInLoop(Submitted(w, items, e), StaleRefs(w.refs, items), e.clean, 0, title);
  }

  // ----- folders that dashboards leave -----

  /** A folder that exists although no resource is assigned to it, with no reference in it other than those of
      resources that have moved on. */
  ghost predicate Abandoned(w: World, items: seq<Dashboard>, title: string) {
    && title in w.server.folders
    && (forall d :: d in items ==> FolderTitle(d) != title)
    && (forall r :: r in w.refs && r.folderId == w.server.folders[title] ==> Live(r, items))
  }

  ghost predicate Regular(w: World, items: seq<Dashboard>) {
    Coherent(w) && Fits(w.refs, items) && Numbered(w.server)
  }

  lemma LiveIsElsewhere(w: World, items: seq<Dashboard>, title: string, r: DashboardRef)
    requires Regular(w, items) && AllCurrent(w, items) && r in w.refs && Live(r, items)
    requires title in w.server.folders && forall d :: d in items ==> FolderTitle(d) != title
    ensures r.folderId != w.server.folders[title]
  {
    var d :| d in items && KeyOf(d) == RefKey(r);
    assert Current(w, d);
    var q :| q in w.refs && Records(q, d) && q.folderId == w.server.folders[FolderTitle(d)];
    UniqueRef(w.refs, q, r);
  }

  /** A fault-free round moves the remaining dashboards out of the folder and leaves the folder, empty. */
  lemma RoundLeavesAbandoned(w: World, items: seq<Dashboard>, l: seq<Dashboard>, e: Events, title: string)
    requires Regular(w, items) && Abandoned(w, items, title) && Calm(e)
    requires WellFormed(l) && forall d :: d in l <==> d in items
    ensures
      var w' := Round(w, l, e);
      && Regular(w', items) && Abandoned(w', items, title)
      && w'.server.folders[title] == w.server.folders[title]
      && SafeToDeleteFolder(w'.refs, w'.server.folders[title])
  {
    hide Round, Coherent, Numbered, Current, WellFormed, Fits, Calm;
    var w' := Round(w, l, e);
    CalmRoundInOrder(w, items, l, e);
    RoundIsNumbered(w, l, e);
    StaleIgnoresOrder(w.refs, items, l);
    FolderStays(w, l, e, title);
    WellFormedIsHashed(l);
    CoherentIsUnique(w);
    RoundMakesProgress(w, l, e);
    StaleIgnoresOrder(w'.refs, items, l);
    forall r | r in w'.refs
      ensures r.folderId != w.server.folders[title]
    {
      if Live(r, items) {
        LiveIsElsewhere(w', items, title, r);
      } else {
        assert r in StaleSet(w'.refs, items);
      }
    }
  }

  /** The documentation promises that a managed folder without dashboards is deleted. When the dashboards of a folder
      move to other folders, it is not: however many fault-free rounds follow, the folder stays, and is empty. */
  lemma {:induction false} MovedDashboardsLeaveTheirFolder(
    w: World, items: seq<Dashboard>, lists: seq<seq<Dashboard>>, e: nat -> Events, k: nat, title: string)
    requires Regular(w, items) && Abandoned(w, items, title) && SameItems(items, lists) && (forall i :: Calm(e(i)))
    requires k <= |lists|
    ensures
      var w' := Rounds(w, lists, e, k);
      && Regular(w', items) && Abandoned(w', items, title)
      && w'.server.folders[title] == w.server.folders[title]
      && (k > 0 ==> SafeToDeleteFolder(w'.refs, w.server.folders[title]))
  {
    hide Round, Regular, Calm;
    if k > 0 {
      assert lists[k - 1] in lists;
      MovedDashboardsLeaveTheirFolder(w, items, lists, e, k - 1, title);
      RoundLeavesAbandoned(Rounds(w, lists, e, k - 1), items, lists[k - 1], e(k - 1), title);
    }
  }
}
