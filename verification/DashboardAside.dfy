/** Fault-free submissions over any registry with unique UIDs in which no resource finds its UID under the name of
    another: what the submission of one resource does to it, and that it leaves the others alone. */
module DashboardAside {
  import opened Wrappers
  import opened PluginList
  import opened ControllerConfig
  import opened GrafanaClient
  import opened DashboardSync
  import opened DashboardSafety
  import opened DashboardConvergence

  /** No reference holds the UID of a resource under another name. */
  ghost predicate Unborrowed(refs: seq<DashboardRef>, items: seq<Dashboard>) {
    forall r, d :: r in refs && d in items && r.uid == d.uid ==> RefKey(r) == KeyOf(d)
  }

  ghost predicate Kept(refs: seq<DashboardRef>, items: seq<Dashboard>) {
    UniqueUids(refs) && Unborrowed(refs, items)
  }

  predicate Presentable(d: Dashboard) {
    d.hash != "" && d.uid != "" && d.namespace != ""
  }

  /** The first known reference of the resource carries its hash, and Grafana has the UID of that reference. */
  predicate Skips(refs: seq<DashboardRef>, s: Server, d: Dashboard) {
    match Find(refs, KeyOf(d))
    case None => false
    case Some(r) => r.hash == d.hash && (r.uid == "" || r.uid in s.dashboards)
  }

  /** The folder of the resource is there, under an identifier of its own. */
  ghost predicate Grown(s: Server, s1: Server) {
    && s.nextId <= s1.nextId && s1.dashboards == s.dashboards
    && (forall t :: t in s.folders ==> t in s1.folders && s1.folders[t] == s.folders[t])
    && (forall t :: t in s1.folders && t !in s.folders ==> s.nextId <= s1.folders[t] < s1.nextId)
  }

  ghost function WithFolderOf(s: Server, d: Dashboard): Server {
    FolderFor(s, FolderTitle(d), Done, Done).0
  }

  lemma FolderIsThere(s: Server, d: Dashboard)
    requires d.namespace != ""
    ensures Grown(s, WithFolderOf(s, d)) && FolderTitle(d) in WithFolderOf(s, d).folders
    ensures FolderFor(s, FolderTitle(d), Done, Done).1 == Some(WithFolderOf(s, d).folders[FolderTitle(d)])
    ensures FolderTitle(d) in s.folders ==> WithFolderOf(s, d) == s
  {
  }

  ghost function Skipped(w: World, d: Dashboard): World {
    World(w.refs, w.plugins[KeyOf(d) := d.plugins], WithFolderOf(w.server, d))
  }

  ghost function PostedWorld(w: World, d: Dashboard): World
    requires d.namespace != ""
  {
    FolderIsThere(w.server, d);
    var s1 := WithFolderOf(w.server, d);
    var id := s1.folders[FolderTitle(d)];
    World(Added(w.refs, d, id, FolderTitle(d)), w.plugins[KeyOf(d) := d.plugins], Posted(s1, d.uid, d.hash, id, Done).0)
  }

  /** A fault-free submission refreshes the request of a resource that is skipped, and posts any other. */
  lemma CalmSubmission(w: World, known: seq<DashboardRef>, d: Dashboard)
    requires Presentable(d)
    ensures SubmitItem(w, known, d, CALM_ITEM) == if Skips(known, w.server, d) then Skipped(w, d) else PostedWorld(w, d)
  {
    FolderIsThere(w.server, d);
    hide Added, Posted;
  }

  lemma UniqueRef(refs: seq<DashboardRef>, a: DashboardRef, b: DashboardRef)
    requires UniqueUids(refs) && a in refs && b in refs && a.uid == b.uid
    ensures a == b
  {
    var i :| 0 <= i < |refs| && refs[i] == a;
    var j :| 0 <= j < |refs| && refs[j] == b;
    assert i == j;
  }

  // ----- references of one key -----

  lemma {:induction false} FindSameKeys(a: seq<DashboardRef>, b: seq<DashboardRef>, k: Key)
    requires |a| == |b| && forall i :: 0 <= i < |a| ==> RefKey(a[i]) == RefKey(b[i]) && (RefKey(a[i]) == k ==> a[i] == b[i])
    ensures Find(a, k) == Find(b, k)
  {
    if a != [] && RefKey(a[0]) != k {
      FindSameKeys(a[1..], b[1..], k);
    }
  }

  lemma {:induction false} FindAppended(a: seq<DashboardRef>, r: DashboardRef, k: Key)
    ensures Find(a + [r], k) == if Find(a, k).Some? then Find(a, k) else if RefKey(r) == k then Some(r) else None
  {
    if a == [] {
      assert a + [r] == [r] && [r][1..] == [];
    } else {
      assert (a + [r])[0] == a[0] && (a + [r])[1..] == a[1..] + [r];
      FindAppended(a[1..], r, k);
    }
  }

  /** Replacing an entry by one of the same key: the first entry of the key stays, unless it is the replaced one. */
  lemma {:induction false} FindReplaced(a: seq<DashboardRef>, i: nat, r: DashboardRef, k: Key)
    requires i < |a| && RefKey(a[i]) == RefKey(r)
    ensures Find(a[i := r], k).Some? <==> Find(a, k).Some?
    ensures Find(a, k).Some? ==> Find(a[i := r], k) == Find(a, k) || (Find(a, k).value == a[i] && Find(a[i := r], k) == Some(r))
  {
    if i == 0 {
      assert a[0 := r][1..] == a[1..];
    } else {
      assert a[i := r][0] == a[0] && a[i := r][1..] == a[1..][i - 1 := r];
      FindReplaced(a[1..], i - 1, r, k);
    }
  }

  /** The first entry of a key can be replaced where it stands. */
  lemma {:induction false} FirstReplaced(a: seq<DashboardRef>, i: nat, r: DashboardRef, k: Key)
    requires UniqueUids(a) && i < |a| && Find(a, k) == Some(a[i]) && RefKey(r) == k
    ensures Find(a[i := r], k) == Some(r)
  {
    if RefKey(a[0]) == k {
      UniqueRef(a, a[0], a[i]);
      assert i == 0;
    } else {
      assert a[i := r][0] == a[0] && a[i := r][1..] == a[1..][i - 1 := r];
      FirstReplaced(a[1..], i - 1, r, k);
    }
  }

  lemma AddedIsKept(refs: seq<DashboardRef>, items: seq<Dashboard>, x: Dashboard, id: int)
    requires Kept(refs, items) && WellFormed(items) && x in items
    ensures Kept(Added(refs, x, id, FolderTitle(x)), items)
  {
    AddRefines(refs, x, id, FolderTitle(x));
    AddedMembers(refs, x, id, FolderTitle(x));
    hide Added;
    forall r, d | r in Added(refs, x, id, FolderTitle(x)) && d in items && r.uid == d.uid
      ensures RefKey(r) == KeyOf(d)
    {
      if r !in refs {
        SameItem(items, x, d);
      }
    }
  }

  lemma SameItem(items: seq<Dashboard>, a: Dashboard, b: Dashboard)
    requires WellFormed(items) && a in items && b in items && (a.uid == b.uid || KeyOf(a) == KeyOf(b))
    ensures a == b
  {
    var i :| 0 <= i < |items| && items[i] == a;
    var j :| 0 <= j < |items| && items[j] == b;
    assert i < j || j < i || i == j;
  }

  lemma AddedElsewhere(refs: seq<DashboardRef>, items: seq<Dashboard>, x: Dashboard, id: int, k: Key)
    requires Kept(refs, items) && x in items && KeyOf(x) != k
    ensures Find(Added(refs, x, id, FolderTitle(x)), k) == Find(refs, k)
    ensures forall r :: RefKey(r) == k ==> (r in refs <==> r in Added(refs, x, id, FolderTitle(x)))
  {
    AddedMembers(refs, x, id, FolderTitle(x));
    match Index(refs, x.uid)
    case None => FindAppended(refs, NewRef(x, id, x.customFolder), k);
    case Some(i) =>
      assert refs[i] in refs;
      FindReplaced(refs, i, NewRef(x, id, FolderTitle(x)), k);
  }

  // ----- the other resources -----

  ghost predicate Near(refs: seq<DashboardRef>, d: Dashboard, uid: string) {
    uid == d.uid || exists r :: r in refs && RefKey(r) == KeyOf(d) && r.uid == uid
  }

  predicate SameAt(s: Server, s': Server, uid: string) {
    (uid in s.dashboards <==> uid in s'.dashboards) && (uid in s.dashboards ==> s.dashboards[uid] == s'.dashboards[uid])
  }

  ghost predicate FoldersGrown(s: Server, s': Server) {
    && s.nextId <= s'.nextId
    && (forall t :: t in s.folders ==> t in s'.folders && s'.folders[t] == s.folders[t])
    && (forall t :: t in s'.folders && t !in s.folders ==> s'.folders[t] >= s.nextId)
  }

  /** Nothing that concerns the resource has changed from one state to the other. */
  ghost predicate Beside(w: World, w': World, d: Dashboard) {
    && Find(w'.refs, KeyOf(d)) == Find(w.refs, KeyOf(d))
    && (forall r :: RefKey(r) == KeyOf(d) ==> (r in w.refs <==> r in w'.refs))
    && (forall u :: Near(w.refs, d, u) ==> SameAt(w.server, w'.server, u))
    && FoldersGrown(w.server, w'.server)
    && (KeyOf(d) in w.plugins <==> KeyOf(d) in w'.plugins)
    && (KeyOf(d) in w.plugins ==> w.plugins[KeyOf(d)] == w'.plugins[KeyOf(d)])
  }

  lemma BesideItself(w: World, d: Dashboard)
    ensures Beside(w, w, d)
  {
  }

  lemma BesideTwice(a: World, b: World, c: World, d: Dashboard)
    requires Beside(a, b, d) && Beside(b, c, d)
    ensures Beside(a, c, d)
  {
    forall u | Near(a.refs, d, u)
      ensures SameAt(a.server, c.server, u)
    {
      assert Near(b.refs, d, u);
    }
    hide Near, SameAt;
  }

  lemma SkippedIsBeside(w: World, x: Dashboard, d: Dashboard)
    requires Presentable(x) && KeyOf(x) != KeyOf(d)
    ensures Beside(w, Skipped(w, x), d)
  {
    FolderIsThere(w.server, x);
    hide FolderFor, WithFolderOf;
  }

  lemma PostedIsBeside(w: World, items: seq<Dashboard>, x: Dashboard, d: Dashboard)
    requires Kept(w.refs, items) && WellFormed(items) && x in items && d in items && KeyOf(x) != KeyOf(d)
    ensures Beside(w, PostedWorld(w, x), d)
  {
    assert Presentable(x);
    FolderIsThere(w.server, x);
    var s1 := WithFolderOf(w.server, x);
    var id := s1.folders[FolderTitle(x)];
    AddedElsewhere(w.refs, items, x, id, KeyOf(d));
    forall u | Near(w.refs, d, u)
      ensures u != x.uid
    {
      if u == d.uid && u == x.uid {
        SameItem(items, x, d);
      }
    }
    assert forall u :: u != x.uid ==> SameAt(w.server, Posted(s1, x.uid, x.hash, id, Done).0, u);
    hide Near, SameAt, FolderFor, WithFolderOf, Added, Find;
  }

  lemma SubmissionIsBeside(w: World, known: seq<DashboardRef>, items: seq<Dashboard>, x: Dashboard, d: Dashboard)
    requires Kept(w.refs, items) && WellFormed(items) && x in items && d in items && KeyOf(x) != KeyOf(d)
    ensures Beside(w, SubmitItem(w, known, x, CALM_ITEM), d)
  {
    assert Presentable(x);
    CalmSubmission(w, known, x);
    hide SubmitItem, Beside, Skipped, PostedWorld, WellFormed;
    SkippedIsBeside(w, x, d);
    PostedIsBeside(w, items, x, d);
  }

  lemma SubmissionIsKept(w: World, known: seq<DashboardRef>, items: seq<Dashboard>, x: Dashboard)
    requires Kept(w.refs, items) && WellFormed(items) && x in items
    ensures Kept(SubmitItem(w, known, x, CALM_ITEM).refs, items)
  {
    assert Presentable(x);
    CalmSubmission(w, known, x);
    FolderIsThere(w.server, x);
    AddedIsKept(w.refs, items, x, WithFolderOf(w.server, x).folders[FolderTitle(x)]);
    hide SubmitItem, Kept, Skips, Added;
  }

  // ----- all submissions of a round -----

  lemma CalmNext(w: World, known: seq<DashboardRef>, items: seq<Dashboard>, e: Events, k: nat)
    requires Calm(e) && k < |items|
    ensures SubmitUpTo(w, known, items, e.item, k + 1) == SubmitItem(SubmitUpTo(w, known, items, e.item, k), known, items[k], CALM_ITEM)
  {
    hide SubmitItem;
  }

  lemma {:induction false} SubmissionsAreKept(w: World, known: seq<DashboardRef>, items: seq<Dashboard>, e: Events, k: nat)
    requires k <= |items| && WellFormed(items) && Calm(e) && Kept(w.refs, items)
    ensures Kept(SubmitUpTo(w, known, items, e.item, k).refs, items)
  {
    hide WellFormed, Calm, SubmitItem, Kept;
    if k > 0 {
      SubmissionsAreKept(w, known, items, e, k - 1);
      CalmNext(w, known, items, e, k - 1);
      assert items[k - 1] in items;
      SubmissionIsKept(SubmitUpTo(w, known, items, e.item, k - 1), known, items, items[k - 1]);
    }
  }

  lemma {:induction false} SubmissionsAreBeside(w: World, known: seq<DashboardRef>, items: seq<Dashboard>, e: Events, i: nat, k: nat, d: Dashboard)
    requires i <= k <= |items| && WellFormed(items) && Calm(e) && Kept(w.refs, items) && d in items
    requires forall j :: i <= j < k ==> KeyOf(items[j]) != KeyOf(d)
    ensures Beside(SubmitUpTo(w, known, items, e.item, i), SubmitUpTo(w, known, items, e.item, k), d)
  {
    hide WellFormed, Calm, SubmitUpTo, Kept, Beside;
    var from := SubmitUpTo(w, known, items, e.item, i);
    if i == k {
      BesideItself(from, d);
    } else {
      var before := SubmitUpTo(w, known, items, e.item, k - 1);
      SubmissionsAreBeside(w, known, items, e, i, k - 1, d);
      SubmissionsAreKept(w, known, items, e, k - 1);
      CalmNext(w, known, items, e, k - 1);
      assert items[k - 1] in items;
      SubmissionIsBeside(before, known, items, items[k - 1], d);
      BesideTwice(from, before, SubmitUpTo(w, known, items, e.item, k), d);
    }
  }

  lemma OtherKeys(items: seq<Dashboard>, j: nat)
    requires WellFormed(items) && j < |items|
    ensures Presentable(items[j]) && forall i :: 0 <= i < |items| && i != j ==> KeyOf(items[i]) != KeyOf(items[j])
  {
    assert items[j] in items;
  }

  /** Seen from one resource, a round of submissions is its own submission between two states that do not differ
      from its surroundings in what concerns it. */
  lemma AroundItem(w: World, items: seq<Dashboard>, e: Events, j: nat)
    requires WellFormed(items) && Calm(e) && Kept(w.refs, items) && j < |items|
    ensures
      var before, after := SubmitUpTo(w, w.refs, items, e.item, j), SubmitUpTo(w, w.refs, items, e.item, j + 1);
      && Presentable(items[j]) && Kept(before.refs, items)
      && Beside(w, before, items[j])
      && after == SubmitItem(before, w.refs, items[j], CALM_ITEM)
      && Beside(after, Submitted(w, items, e), items[j])
  {
    assert SubmitUpTo(w, w.refs, items, e.item, 0) == w && items[j] in items;
    hide SubmitItem, Beside, WellFormed, Calm, SubmitUpTo, Kept;
    OtherKeys(items, j);
    SubmissionsAreKept(w, w.refs, items, e, j);
    CalmNext(w, w.refs, items, e, j);
    SubmissionsAreBeside(w, w.refs, items, e, 0, j, items[j]);
    SubmissionsAreBeside(w, w.refs, items, e, j + 1, |items|, items[j]);
  }
}
