/** Repeated plugin consolidation: what every round keeps, and when the rounds stop reporting updates.
    Each round reads the requests from a Go map, so a run is a sequence of orders of the same requests. */
module PluginRounds {
  import opened Seqs
  import opened PluginList
  import opened PluginsHelper

  /** Whether the registry knows a plugin in that version. */
  type Registry = Plugin -> bool

  ghost function Rejects(accepts: Registry): Registry {
    p => !accepts(p)
  }

  /** The status after one round over a picked list: on an update both status lists are overwritten, and
      earlier failures are forgotten. */
  ghost function Next(accepts: Registry, st: Status, picked: seq<Plugin>): Status {
    if Updated(st, picked) then
      Status(Filter(Filtered(st, picked), accepts), Filter(Filtered(st, picked), Rejects(accepts)))
    else st
  }

  ghost function Round(parse: Parser, accepts: Registry, st: Status, requested: seq<Plugin>): Status {
    Next(accepts, st, Picked(parse, requested))
  }

  ghost function Picks(parse: Parser, orders: seq<seq<Plugin>>): seq<seq<Plugin>> {
    seq(|orders|, i requires 0 <= i < |orders| => Picked(parse, orders[i]))
  }

  /** The status before round `k` of a run over the picked lists. */
  ghost function Before(accepts: Registry, st: Status, picks: seq<seq<Plugin>>, k: nat): Status
    requires k <= |picks|
  {
    if k == 0 then st else Next(accepts, Before(accepts, st, picks, k - 1), picks[k - 1])
  }

  ghost predicate Reports(accepts: Registry, st: Status, picks: seq<seq<Plugin>>, k: nat)
    requires k < |picks|
  {
    Updated(Before(accepts, st, picks, k), picks[k])
  }

  /** Every list holds the same entries, each in an order of its own. */
  ghost predicate SameEntries(lists: seq<seq<Plugin>>) {
    forall i :: 0 <= i < |lists| ==> Permutation(lists[0], lists[i])
  }

  lemma PicksSameEntries(parse: Parser, orders: seq<seq<Plugin>>)
    requires SameEntries(orders)
    ensures SameEntries(Picks(parse, orders))
  {
    forall i | 0 <= i < |orders|
      ensures Permutation(Picks(parse, orders)[0], Picks(parse, orders)[i])
    {
      PickedPermutes(parse, orders[0], orders[i]);
    }
  }

  /** Exactly the first `c` rounds report an update; all later ones leave the status, and so the environment
      string of the init container, as they are. */
  ghost predicate SettlesAfter(accepts: Registry, st: Status, picks: seq<seq<Plugin>>, c: nat) {
    && (forall k :: 0 <= k < |picks| ==> (Reports(accepts, st, picks, k) <==> k < c))
    && (forall k :: c <= k <= |picks| ==> Before(accepts, st, picks, k) == Before(accepts, st, picks, c))
  }

  /** A round that reports nothing is followed by rounds that report nothing. */
  lemma {:induction false} QuietStaysQuiet(accepts: Registry, st: Status, picks: seq<seq<Plugin>>, c: nat, k: nat)
    requires SameEntries(picks)
    requires c <= k < |picks|
    requires !Reports(accepts, st, picks, c)
    ensures !Reports(accepts, st, picks, k)
    ensures Before(accepts, st, picks, k) == Before(accepts, st, picks, c)
    ensures Before(accepts, st, picks, k + 1) == Before(accepts, st, picks, c)
    decreases k
  {
    if c < k {
      QuietStaysQuiet(accepts, st, picks, c, k - 1);
      ListOrderIrrelevant(Before(accepts, st, picks, c), picks[0], picks[c]);
      ListOrderIrrelevant(Before(accepts, st, picks, c), picks[0], picks[k]);
    }
  }

  lemma SettlesWhenQuiet(accepts: Registry, st: Status, picks: seq<seq<Plugin>>, c: nat)
    requires SameEntries(picks)
    requires forall k :: 0 <= k < c && k < |picks| ==> Reports(accepts, st, picks, k)
    requires c < |picks| ==> !Reports(accepts, st, picks, c)
    ensures SettlesAfter(accepts, st, picks, c)
  {
    forall k | c <= k < |picks|
      ensures !Reports(accepts, st, picks, k)
      ensures Before(accepts, st, picks, k + 1) == Before(accepts, st, picks, c)
    {
      QuietStaysQuiet(accepts, st, picks, c, k);
    }
    forall k | c < k <= |picks|
      ensures Before(accepts, st, picks, k) == Before(accepts, st, picks, c)
    {
      assert !Reports(accepts, st, picks, k - 1);
    }
  }

  // ----- every request accepted -----

  lemma {:induction false} FilterNone(l: seq<Plugin>, keep: Registry)
    requires forall p :: p in l ==> !keep(p)
    ensures Filter(l, keep) == []
  {
    if l != [] {
      FilterNone(l[..|l| - 1], keep);
    }
  }

  /** With every request accepted, an updating round installs the filtered list and forgets the failures. */
  lemma AcceptedRound(accepts: Registry, st: Status, picked: seq<Plugin>)
    requires forall p :: p in picked ==> accepts(p)
    requires Updated(st, picked)
    ensures Next(accepts, st, picked) == Status(Filtered(st, picked), [])
  {
    FilteredExactly(st, picked);
    FilterKeepsAll(Filtered(st, picked), accepts);
    FilterNone(Filtered(st, picked), Rejects(accepts));
  }

  /** Installed plugins that all come from the request are kept, and every other requested name is added. */
  lemma SecondRoundCovers(st: Status, picked: seq<Plugin>)
    requires st.failed == []
    requires forall q :: q in st.installed ==> q in picked
    ensures forall p :: p in picked ==> HasName(Filtered(st, picked), p.name)
  {
    FilteredExactly(st, picked);
    forall p | p in picked
      ensures HasName(Filtered(st, picked), p.name)
    {
      if HasName(st.installed, p.name) {
        var q :| q in st.installed && q.name == p.name;
        assert Wanted(st, picked, q);
      } else {
        assert Wanted(st, picked, p);
      }
    }
  }

  lemma CoveredIsQuiet(st: Status, picked: seq<Plugin>)
    requires forall q :: q in st.installed ==> q in picked
    requires forall p :: p in picked ==> HasName(st.installed, p.name)
    ensures !Updated(st, picked)
  {
    forall p | p in picked
      ensures !Triggers(st, picked, p)
    {
      var q :| q in st.installed && q.name == p.name;
      if Entries(picked, p.name) == 1 {
        SoleEntry(picked, p, q);
      }
    }
  }

  lemma TwoUpdatesSuffice(accepts: Registry, st: Status, r0: seq<Plugin>, r1: seq<Plugin>, r2: seq<Plugin>)
    requires Permutation(r0, r1) && Permutation(r0, r2)
    requires forall p :: p in r0 ==> accepts(p)
    requires Updated(st, r0) && Updated(Next(accepts, st, r0), r1)
    ensures !Updated(Next(accepts, Next(accepts, st, r0), r1), r2)
  {
    PermutationKeepsMembers(r0, r1);
    PermutationKeepsMembers(r0, r2);
    var st1 := Status(Filtered(st, r0), []);
    var st2 := Status(Filtered(st1, r1), []);
    AcceptedRound(accepts, st, r0);
    AcceptedRound(accepts, st1, r1);
    FilteredExactly(st, r0);
    FilteredExactly(st1, r1);
    SecondRoundCovers(st1, r1);
    CoveredIsQuiet(st2, r2);
  }

  lemma AcceptedPicksSettle(accepts: Registry, st: Status, picks: seq<seq<Plugin>>) returns (c: nat)
    requires SameEntries(picks)
    requires |picks| > 0 ==> forall p :: p in picks[0] ==> accepts(p)
    ensures c <= 2
    ensures SettlesAfter(accepts, st, picks, c)
  {
    c := 0;
    while c < 2 && c < |picks| && Reports(accepts, st, picks, c)
      invariant c <= 2 && c <= |picks|
      invariant forall k :: 0 <= k < c ==> Reports(accepts, st, picks, k)
    {
      c := c + 1;
    }
    if c == 2 && c < |picks| {
      assert Reports(accepts, st, picks, 0) && Reports(accepts, st, picks, 1);
      assert Before(accepts, st, picks, 1) == Next(accepts, st, picks[0]);
      TwoUpdatesSuffice(accepts, st, picks[0], picks[1], picks[2]);
    }
    SettlesWhenQuiet(accepts, st, picks, c);
  }

  /** A run that has settled is up to date, whatever the registry answers. */
  lemma SettledIsUpToDate(accepts: Registry, st: Status, picks: seq<seq<Plugin>>, c: nat)
    requires SameEntries(picks) && SettlesAfter(accepts, st, picks, c) && c < |picks|
    ensures UpToDate(Before(accepts, st, picks, c), picks[0])
  {
    var rest := Before(accepts, st, picks, c);
    assert !Reports(accepts, st, picks, c);
    ListOrderIrrelevant(rest, picks[0], picks[c]);
    UpdatedIffNotUpToDate(rest, picks[0]);
  }

  /** After an update that the registry accepts, only picked plugins are installed and none has failed. */
  lemma UpdatedFromPicked(accepts: Registry, st: Status, picks: seq<seq<Plugin>>, c: nat)
    requires SameEntries(picks) && SettlesAfter(accepts, st, picks, c) && 1 <= c < |picks|
    requires forall p :: p in picks[0] ==> accepts(p)
    ensures Before(accepts, st, picks, c).failed == []
    ensures forall q :: q in Before(accepts, st, picks, c).installed ==> q in picks[0]
  {
    var before, picked := Before(accepts, st, picks, c - 1), picks[c - 1];
    assert Reports(accepts, st, picks, c - 1);
    PermutationKeepsMembers(picks[0], picked);
    AcceptedRound(accepts, before, picked);
    FilteredExactly(before, picked);
  }

  /** Every requested plugin is installed in some version, and in exactly its own if it is requested once. */
  ghost predicate InstallsAll(st: Status, requested: seq<Plugin>) {
    forall p :: p in requested ==>
      && HasName(st.installed, p.name)
      && (Entries(requested, p.name) == 1 ==> p in st.installed)
  }

  lemma UpToDateInstalls(parse: Parser, st: Status, requested: seq<Plugin>)
    requires UpToDate(st, Picked(parse, requested))
    ensures forall q :: q in st.installed ==> HasName(requested, q.name)
    ensures st.failed == [] ==> InstallsAll(st, requested)
  {
    hide Picked;
    forall q | q in st.installed
      ensures HasName(requested, q.name)
    {
      PickedKeepsNames(parse, requested, q.name);
    }
    if st.failed == [] {
      forall p | p in requested
        ensures HasName(st.installed, p.name)
        ensures Entries(requested, p.name) == 1 ==> p in st.installed
      {
        PickedKeepsNames(parse, requested, p.name);
        var best :| best in Picked(parse, requested) && best.name == p.name;
        if Entries(requested, p.name) == 1 {
          PickedMembers(parse, requested);
          SoleEntry(requested, p, best);
          PickedOnce(parse, requested, p);
        }
      }
    }
  }

  lemma PickedOnce(parse: Parser, requested: seq<Plugin>, p: Plugin)
    requires Entries(requested, p.name) == 1 && p in Picked(parse, requested)
    ensures Entries(Picked(parse, requested), p.name) == 1
  {
    var picked := Picked(parse, requested);
    if AllParse(parse, requested) {
      PickedFilters(parse, requested);
      FilterHasFewer(requested, Newest(parse, requested), p.name);
    }
    var i :| 0 <= i < |picked| && picked[i] == p;
    EntryCounts(picked, i);
  }

  lemma {:induction false} FilterHasFewer(l: seq<Plugin>, keep: Plugin -> bool, name: string)
    ensures Entries(Filter(l, keep), name) <= Entries(l, name)
  {
    if l != [] {
      var rest := Filter(l[..|l| - 1], keep);
      FilterHasFewer(l[..|l| - 1], keep, name);
      assert (rest + [l[|l| - 1]])[..|rest|] == rest;
    }
  }

  /** Plugin convergence: for any requests, in any order each round, and any starting status, if the registry
      accepts every requested plugin then at most the first two rounds report an update. After that nothing is
      installed that is not requested; and if there was an update, every requested plugin is installed, one that is
      requested once in exactly that version, and of several versions only the latest. */
  lemma AcceptedRequestsSettle(parse: Parser, accepts: Registry, st: Status, orders: seq<seq<Plugin>>) returns (c: nat)
    requires SameEntries(orders)
    requires forall o :: o in orders ==> forall p :: p in o ==> accepts(p)
    ensures c <= 2
    ensures SettlesAfter(accepts, st, Picks(parse, orders), c)
    ensures forall k :: c <= k <= |orders| ==>
      Env(Before(accepts, st, Picks(parse, orders), k).installed) == Env(Before(accepts, st, Picks(parse, orders), c).installed)
    ensures c < |orders| ==>
      forall q :: q in Before(accepts, st, Picks(parse, orders), c).installed ==> HasName(orders[0], q.name)
    ensures 1 <= c < |orders| ==>
      var rest := Before(accepts, st, Picks(parse, orders), c);
      && rest.failed == [] && InstallsAll(rest, orders[0])
      && forall q :: q in rest.installed ==> q in orders[0] && (AllParse(parse, orders[0]) ==> !HasNewer(parse, orders[0], q))
  {
    var picks := Picks(parse, orders);
    PicksSameEntries(parse, orders);
    if |orders| > 0 {
      assert orders[0] in orders;
      PickedMembers(parse, orders[0]);
    }
    c := AcceptedPicksSettle(accepts, st, picks);
    if c < |orders| {
      SettledIsUpToDate(accepts, st, picks, c);
      UpToDateInstalls(parse, Before(accepts, st, picks, c), orders[0]);
      if c >= 1 {
        UpdatedFromPicked(accepts, st, picks, c);
        if AllParse(parse, orders[0]) {
          LatestIsPicked(parse, orders[0]);
        }
      }
    }
  }

  lemma LatestIsPicked(parse: Parser, requested: seq<Plugin>)
    requires AllParse(parse, requested)
    ensures forall q :: q in Picked(parse, requested) ==> !HasNewer(parse, requested, q)
  {
    PickedFilters(parse, requested);
  }

  // ----- any registry, one version per name -----

  ghost predicate SingleVersion(l: seq<Plugin>) {
    forall p, q :: p in l && q in l && p.name == q.name ==> p == q
  }

  /** Among the requested plugins that the registry rejects, the status stands against some, but not all: for a
      plugin that is not installed that means it is one of the failed ones. */
  ghost predicate SplitsRejected(accepts: Registry, st: Status, picked: seq<Plugin>) {
    && (exists p :: p in picked && !accepts(p) && Wanted(st, picked, p))
    && (exists q :: q in picked && !accepts(q) && !Wanted(st, picked, q))
  }

  /** The plugin is listed where the registry's answer puts it. */
  predicate Placed(accepts: Registry, st: Status, p: Plugin) {
    if accepts(p) then p in st.installed else p in st.failed
  }

  ghost predicate AllPlaced(accepts: Registry, st: Status, picked: seq<Plugin>) {
    forall p :: p in picked ==> Placed(accepts, st, p)
  }

  /** Every listed plugin is requested and listed where the registry's answer puts it. */
  ghost predicate Consistent(accepts: Registry, st: Status, picked: seq<Plugin>) {
    && (forall p :: p in st.installed ==> p in picked && accepts(p))
    && (forall p :: p in st.failed ==> p in picked && !accepts(p))
  }

  lemma FilteredMembers(st: Status, picked: seq<Plugin>)
    requires SingleVersion(picked)
    ensures forall p :: p in Filtered(st, picked) <==> p in picked && Wanted(st, picked, p)
  {
    FilteredExactly(st, picked);
    forall p | p in picked && Wanted(st, picked, p)
      ensures p in Filtered(st, picked)
    {
      assert HasName(Filtered(st, picked), p.name);
    }
  }

  lemma FilteredIgnoresOrder(st: Status, a: seq<Plugin>, b: seq<Plugin>)
    requires Permutation(a, b) && SingleVersion(a)
    ensures SingleVersion(b)
    ensures forall p :: p in Filtered(st, a) <==> p in Filtered(st, b)
  {
    PermutationKeepsMembers(a, b);
    ListOrderIrrelevant(st, a, b);
    FilteredMembers(st, a);
    FilteredMembers(st, b);
  }

  /** An updating round over any order of `r0` places exactly the plugins of its filtered list. */
  lemma UpdatePlacesFiltered(accepts: Registry, st: Status, r0: seq<Plugin>, r: seq<Plugin>)
    requires Permutation(r0, r) && SingleVersion(r0)
    requires Updated(st, r)
    ensures Consistent(accepts, Next(accepts, st, r), r0)
    ensures forall p :: p in r0 ==> (Placed(accepts, Next(accepts, st, r), p) <==> p in Filtered(st, r0))
  {
    FilteredIgnoresOrder(st, r0, r);
    FilteredExactly(st, r0);
  }

  /** A consistent status is up to date exactly when everything requested is in place. */
  lemma ConsistentUpdated(accepts: Registry, st: Status, r0: seq<Plugin>, r: seq<Plugin>)
    requires Permutation(r0, r) && SingleVersion(r0) && Consistent(accepts, st, r0)
    ensures Updated(st, r) <==> !AllPlaced(accepts, st, r0)
  {
    ListOrderIrrelevant(st, r0, r);
    forall p | p in r0
      ensures Triggers(st, r0, p) <==> !Placed(accepts, st, p)
    {
      if HasName(st.installed, p.name) {
        assert p in st.installed;
      }
    }
    assert forall q :: q in st.installed ==> HasName(r0, q.name);
  }

  /** From a consistent status, an updating round keeps accepted plugins and swaps rejected ones in and out. */
  lemma UpdateSwapsRejected(accepts: Registry, st: Status, r0: seq<Plugin>, r: seq<Plugin>)
    requires Permutation(r0, r) && SingleVersion(r0) && Consistent(accepts, st, r0)
    requires Updated(st, r)
    ensures forall p :: p in r0 ==> (Placed(accepts, Next(accepts, st, r), p) <==> accepts(p) || !Placed(accepts, st, p))
  {
    UpdatePlacesFiltered(accepts, st, r0, r);
    FilteredMembers(st, r0);
    forall p | p in r0
      ensures Wanted(st, r0, p) <==> accepts(p) || !Placed(accepts, st, p)
    {
      if HasName(st.installed, p.name) {
        assert p in st.installed;
      }
    }
  }

  /** Some rejected plugins are in the failed list and some are not. */
  ghost predicate OutOfStep(accepts: Registry, st: Status, r0: seq<Plugin>) {
    && (exists p :: p in r0 && !accepts(p) && Placed(accepts, st, p))
    && (exists q :: q in r0 && !accepts(q) && !Placed(accepts, st, q))
  }

  /** Once the rejected plugins are out of step with one another, every round reports an update. */
  lemma {:induction false} SplitNeverSettles(accepts: Registry, st: Status, picks: seq<seq<Plugin>>, k: nat)
    requires SameEntries(picks) && k < |picks| && SingleVersion(picks[0])
    requires Reports(accepts, st, picks, 0) && SplitsRejected(accepts, st, picks[0])
    ensures Reports(accepts, st, picks, k)
    ensures k > 0 ==>
      && Consistent(accepts, Before(accepts, st, picks, k), picks[0])
      && OutOfStep(accepts, Before(accepts, st, picks, k), picks[0])
  {
    if k > 0 {
      var before, now := Before(accepts, st, picks, k - 1), Before(accepts, st, picks, k);
      SplitNeverSettles(accepts, st, picks, k - 1);
      UpdatePlacesFiltered(accepts, before, picks[0], picks[k - 1]);
      FilteredMembers(st, picks[0]);
      if k > 1 {
        UpdateSwapsRejected(accepts, before, picks[0], picks[k - 1]);
      }
      assert OutOfStep(accepts, now, picks[0]);
      ConsistentUpdated(accepts, now, picks[0], picks[k]);
    }
  }

  /** When the first filtered list does not split the rejected plugins, the third update is the last. */
  lemma ThreeUpdatesSuffice(accepts: Registry, st: Status, r0: seq<Plugin>, r1: seq<Plugin>, r2: seq<Plugin>, r3: seq<Plugin>)
    requires Permutation(r0, r1) && Permutation(r0, r2) && Permutation(r0, r3) && SingleVersion(r0)
    requires Updated(st, r0) && !SplitsRejected(accepts, st, r0)
    requires Updated(Next(accepts, st, r0), r1)
    requires Updated(Next(accepts, Next(accepts, st, r0), r1), r2)
    ensures !Updated(Next(accepts, Next(accepts, Next(accepts, st, r0), r1), r2), r3)
  {
    var st1 := Next(accepts, st, r0);
    var st2 := Next(accepts, st1, r1);
    var st3 := Next(accepts, st2, r2);
    UpdatePlacesFiltered(accepts, st, r0, r0);
    FilteredMembers(st, r0);
    assert !OutOfStep(accepts, st1, r0);
    UpdatePlacesFiltered(accepts, st1, r0, r1);
    UpdateSwapsRejected(accepts, st1, r0, r1);
    UpdatePlacesFiltered(accepts, st2, r0, r2);
    UpdateSwapsRejected(accepts, st2, r0, r2);
    ConsistentUpdated(accepts, st2, r0, r2);
    ConsistentUpdated(accepts, st3, r0, r3);
    // Before the third update only rejected plugins are out of place, and then all of them are.
    var q :| q in r0 && !Placed(accepts, st2, q);
    assert !accepts(q) && Placed(accepts, st1, q);
    forall p | p in r0
      ensures Placed(accepts, st3, p)
    {
      if !accepts(p) {
        assert Placed(accepts, st1, p);
        assert !Placed(accepts, st2, p);
      }
    }
  }

  lemma UnsplitSettles(accepts: Registry, st: Status, picks: seq<seq<Plugin>>) returns (c: nat)
    requires SameEntries(picks) && |picks| > 0 && SingleVersion(picks[0])
    requires !(Reports(accepts, st, picks, 0) && SplitsRejected(accepts, st, picks[0]))
    ensures c <= 3
    ensures SettlesAfter(accepts, st, picks, c)
  {
    c := 0;
    while c < 3 && c < |picks| && Reports(accepts, st, picks, c)
      invariant c <= 3 && c <= |picks|
      invariant forall k :: 0 <= k < c ==> Reports(accepts, st, picks, k)
    {
      c := c + 1;
    }
    if c == 3 && c < |picks| {
      assert Reports(accepts, st, picks, 0) && Reports(accepts, st, picks, 1) && Reports(accepts, st, picks, 2);
      assert Before(accepts, st, picks, 1) == Next(accepts, st, picks[0]);
      assert Before(accepts, st, picks, 2) == Next(accepts, Before(accepts, st, picks, 1), picks[1]);
      ThreeUpdatesSuffice(accepts, st, picks[0], picks[1], picks[2], picks[3]);
    }
    SettlesWhenQuiet(accepts, st, picks, c);
  }

  /** Whatever the registry answers, a run over one version per name keeps updating for ever exactly when its
      first round reports an update and its status splits the rejected plugins. Otherwise at most the first three
      rounds report one. */
  lemma NeverSettlesIffSplit(parse: Parser, accepts: Registry, st: Status, orders: seq<seq<Plugin>>)
    requires SameEntries(orders) && |orders| > 3
    requires SingleVersion(Picked(parse, orders[0]))
    ensures
      var picks := Picks(parse, orders);
      var split := Updated(st, picks[0]) && SplitsRejected(accepts, st, picks[0]);
      && ((forall k :: 0 <= k < |picks| ==> Reports(accepts, st, picks, k)) <==> split)
      && (!split ==> exists c: nat :: c <= 3 && SettlesAfter(accepts, st, picks, c))
  {
    var picks := Picks(parse, orders);
    PicksSameEntries(parse, orders);
    if Updated(st, picks[0]) && SplitsRejected(accepts, st, picks[0]) {
      forall k | 0 <= k < |picks|
        ensures Reports(accepts, st, picks, k)
      {
        SplitNeverSettles(accepts, st, picks, k);
      }
    } else {
      var c := UnsplitSettles(accepts, st, picks);
      assert !Reports(accepts, st, picks, 3);
    }
  }

  /** One entry per name and no earlier failure among them: a single updating round is enough, whatever the
      registry answers. */
  lemma FreshRequestsSettleAtOnce(parse: Parser, accepts: Registry, st: Status, orders: seq<seq<Plugin>>) returns (c: nat)
    requires SameEntries(orders) && |orders| > 0
    requires forall p :: p in Picked(parse, orders[0]) ==> Entries(Picked(parse, orders[0]), p.name) == 1 && p !in st.failed
    ensures c <= 1
    ensures SettlesAfter(accepts, st, Picks(parse, orders), c)
  {
    var picks := Picks(parse, orders);
    var r0 := picks[0];
    PicksSameEntries(parse, orders);
    forall p: Plugin, q: Plugin | p in r0 && q in r0 && p.name == q.name
      ensures p == q
    {
      SoleEntry(r0, p, q);
    }
    c := if Reports(accepts, st, picks, 0) then 1 else 0;
    if c == 1 && c < |picks| {
      assert Before(accepts, st, picks, 1) == Next(accepts, st, r0);
      UpdatePlacesFiltered(accepts, st, r0, r0);
      FilteredMembers(st, r0);
      assert AllPlaced(accepts, Next(accepts, st, r0), r0);
      ConsistentUpdated(accepts, Next(accepts, st, r0), r0, picks[1]);
    }
    SettlesWhenQuiet(accepts, st, picks, c);
  }

  /** A second source of endless updates, for any lists: two versions of one name that the registry does not know in
      any version. Once a round reports an update, all later ones do, whatever the orders. */
  lemma {:induction false} RivalsNeverSettle(accepts: Registry, st: Status, picks: seq<seq<Plugin>>, p: Plugin, q: Plugin, k: nat)
    requires SameEntries(picks) && k < |picks| && Reports(accepts, st, picks, 0)
    requires p in picks[0] && q in picks[0] && p != q && p.name == q.name
    requires forall r :: r in picks[0] && r.name == p.name ==> !accepts(r)
    ensures Reports(accepts, st, picks, k)
  {
    if k > 0 {
      var before, now := Before(accepts, st, picks, k - 1), Before(accepts, st, picks, k);
      RivalsNeverSettle(accepts, st, picks, p, q, k - 1);
      FilteredExactly(before, picks[k - 1]);
      PermutationKeepsMembers(picks[0], picks[k - 1]);
      assert !(p in Filtered(before, picks[k - 1]) && q in Filtered(before, picks[k - 1]));
      var free := if p in now.failed then q else p;
      assert free !in now.failed && !HasName(now.installed, free.name);
      assert Triggers(now, picks[0], free);
      ListOrderIrrelevant(now, picks[0], picks[k]);
    }
  }

  /** Two rejected plugins, one of them already in the failed list, trade places: each round reports an update
      and leads to the status the round before it started from. */
  lemma RejectedPairTradesPlaces(accepts: Registry, a: Plugin, b: Plugin, now: Plugin)
    requires a != b && !accepts(a) && !accepts(b) && (now == a || now == b)
    ensures Updated(Status([], [now]), [a, b])
    ensures Next(accepts, Status([], [now]), [a, b]) == Status([], [if now == a then b else a])
  {
    var st, other := Status([], [now]), if now == a then b else a;
    OnlyOtherFiltered(a, b, now);
    assert Triggers(st, [a, b], other) by {
      hide Filtered, Kept, Entries;
      assert other in [a, b];
    }
    assert other in [a, b];
    hide Filtered, Kept, Triggers, Wanted;
    FilterKeepsAll([other], Rejects(accepts));
    FilterNone([other], accepts);
  }

  lemma OnlyOtherFiltered(a: Plugin, b: Plugin, now: Plugin)
    requires a != b && (now == a || now == b)
    ensures Filtered(Status([], [now]), [a, b]) == [if now == a then b else a]
  {
    var st, picked := Status([], [now]), [a, b];
    assert Kept(st, picked, 0) == [];
    assert Wanted(st, picked, a) <==> now == b;
    assert Wanted(st, picked, b) <==> now == a;
    assert Kept(st, picked, 1) == if now == a then [] else [a];
    assert Kept(st, picked, 2) == [if now == a then b else a];
  }

  /** With several versions of one name the order of the requests decides: two rejected versions in front of an
      accepted one trade places in every round, and the accepted one in front ends the updates at once. */
  lemma OrderDecides(accepts: Registry, a: Plugin, b: Plugin, c: Plugin, now: Plugin)
    requires a.name == b.name == c.name && a != b && b != c && a != c && (now == a || now == b)
    requires !accepts(a) && !accepts(b) && accepts(c)
    ensures
      var st, other := Status([], [now]), if now == a then b else a;
      && Updated(st, [a, b, c]) && Next(accepts, st, [a, b, c]) == Status([], [other])
      && Next(accepts, st, [c, a, b]) == Status([c], [])
    ensures !Updated(Status([c], []), [a, b, c]) && !Updated(Status([c], []), [c, a, b])
  {
    hide Next, Updated;
    RejectedInFront(accepts, a, b, c, now);
    AcceptedInFront(accepts, a, b, c, now);
    QuietWithOneInstalled([a, b, c], c);
    QuietWithOneInstalled([c, a, b], c);
  }

  lemma RejectedInFront(accepts: Registry, a: Plugin, b: Plugin, c: Plugin, now: Plugin)
    requires a.name == b.name == c.name && a != b && (now == a || now == b) && !accepts(a) && !accepts(b)
    ensures Updated(Status([], [now]), [a, b, c])
    ensures Next(accepts, Status([], [now]), [a, b, c]) == Status([], [if now == a then b else a])
  {
    var st, other := Status([], [now]), if now == a then b else a;
    FirstWanted(st, a, b, c);
    NewTriggers(st, [a, b, c], other);
    hide Filtered, Triggers, Updated;
    FilterKeepsAll([other], Rejects(accepts));
    FilterNone([other], accepts);
  }

  lemma AcceptedInFront(accepts: Registry, a: Plugin, b: Plugin, c: Plugin, now: Plugin)
    requires a.name == b.name == c.name && a != c && b != c && (now == a || now == b) && accepts(c)
    ensures Next(accepts, Status([], [now]), [c, a, b]) == Status([c], [])
  {
    var st := Status([], [now]);
    FirstWanted(st, c, a, b);
    NewTriggers(st, [c, a, b], c);
    hide Filtered, Triggers, Updated;
    FilterKeepsAll([c], accepts);
    FilterNone([c], Rejects(accepts));
  }

  lemma NewTriggers(st: Status, picked: seq<Plugin>, p: Plugin)
    requires st.installed == [] && p in picked && p !in st.failed
    ensures Updated(st, picked)
  {
    assert Triggers(st, picked, p);
  }

  /** With nothing installed, the first of three entries of a name that has not failed is filtered. */
  lemma FirstWanted(st: Status, x: Plugin, y: Plugin, z: Plugin)
    requires x.name == y.name == z.name && x != y && st.installed == [] && |st.failed| == 1
    ensures Filtered(st, [x, y, z]) == [if st.failed[0] == x then y else x]
  {
    var picked := [x, y, z];
    assert Kept(st, picked, 0) == [];
    assert Wanted(st, picked, x) <==> st.failed[0] != x;
    assert Wanted(st, picked, y) <==> st.failed[0] != y;
    assert Kept(st, picked, 1) == if st.failed[0] == x then [] else [x];
    assert Kept(st, picked, 2) == [if st.failed[0] == x then y else x];
    assert Kept(st, picked, 3) == Kept(st, picked, 2);
  }

  lemma QuietWithOneInstalled(l: seq<Plugin>, c: Plugin)
    requires |l| == 3 && c in l && forall p :: p in l ==> p.name == c.name
    ensures !Updated(Status([c], []), l)
  {
    TwoEntries(l, 0, 1);
    assert l[0] in l;
  }

  // ----- what every run keeps -----

  /** One round of an unconstrained run: any requests, any registry answers. */
  datatype Input = Input(requested: seq<Plugin>, accepts: Registry)

  ghost function Run(parse: Parser, inputs: seq<Input>): Status {
    if inputs == [] then Status([], [])
    else
      var last := inputs[|inputs| - 1];
      Round(parse, last.accepts, Run(parse, inputs[..|inputs| - 1]), last.requested)
  }

  lemma NameUniquePermutes(a: seq<Plugin>, b: seq<Plugin>)
    requires NameUnique(a) && Permutation(a, b)
    ensures NameUnique(b)
  {
    forall i, j | 0 <= i < j < |b|
      ensures b[i].name != b[j].name
    {
      PermutationKeepsMembers(a, b);
      assert b[i] in a && b[j] in a;
      if b[i].name == b[j].name {
        var n := b[i].name;
        EntriesPermute(a, b, n);
        TwoEntries(b, i, j);
        EntriesOfUnique(a, n);
      }
    }
  }

  lemma {:induction false} EntriesOfUnique(l: seq<Plugin>, name: string)
    requires NameUnique(l)
    ensures Entries(l, name) <= 1
    ensures !HasName(l, name) ==> Entries(l, name) == 0
  {
    var named := (p: Plugin) => p.name == name;
    if l != [] {
      var rest, last := l[..|l| - 1], l[|l| - 1];
      assert l == rest + [last];
      EntriesOfUnique(rest, name);
      if last.name == name {
        assert !HasName(rest, name);
      }
      if HasName(rest, name) {
        var p :| p in rest && p.name == name;
        assert p in l;
      }
    }
  }

  /** An updating round splits the filtered list between the two status lists, each in the picked order and
      free of earlier failures; any other round changes nothing. */
  lemma RoundPartitions(accepts: Registry, st: Status, picked: seq<Plugin>)
    ensures !Updated(st, picked) ==> Next(accepts, st, picked) == st
    ensures Updated(st, picked) ==>
      var next := Next(accepts, st, picked);
      && Permutation(Filtered(st, picked), next.installed + next.failed)
      && Subsequence(next.installed, picked) && Subsequence(next.failed, picked)
      && (forall p :: p in next.installed ==> accepts(p) && p !in st.failed)
      && (forall p :: p in next.failed ==> !accepts(p) && p !in st.failed)
  {
    var kept := Filtered(st, picked);
    FilteredExactly(st, picked);
    FilterPartitions(kept, accepts, Rejects(accepts));
    PartIsSubsequence(kept, accepts, picked);
    PartIsSubsequence(kept, Rejects(accepts), picked);
  }

  lemma PartIsSubsequence(kept: seq<Plugin>, keep: Registry, picked: seq<Plugin>)
    requires Subsequence(kept, picked)
    ensures Subsequence(Filter(kept, keep), picked)
  {
  }

  /** In every run from an empty status, no plugin name occurs twice across the two status lists. */
  lemma {:induction false} StatusNamesUnique(parse: Parser, inputs: seq<Input>)
    ensures NameUnique(Run(parse, inputs).installed + Run(parse, inputs).failed)
  {
    if inputs != [] {
      var last := inputs[|inputs| - 1];
      var st := Run(parse, inputs[..|inputs| - 1]);
      StatusNamesUnique(parse, inputs[..|inputs| - 1]);
      RoundPartitions(last.accepts, st, Picked(parse, last.requested));
      var picked := Picked(parse, last.requested);
      if Updated(st, picked) {
        FilteredExactly(st, picked);
        NameUniquePermutes(Filtered(st, picked), Run(parse, inputs).installed + Run(parse, inputs).failed);
      }
    }
  }
}
