/** The dashboard controller and the plugin rounds of the Grafana controller at work together, in any interleaving:
    plugin rounds read the requests that dashboard rounds record, and updates clear the hashes that dashboard rounds
    compare. */
module Operator {
  import opened Seqs
  import opened PluginList
  import opened PluginsHelper
  import opened PluginRounds
  import opened ControllerConfig
  import opened DashboardSync
  import opened DashboardSafety
  import opened DashboardSubmission
  import opened DashboardRemoval
  import opened DashboardConvergence
  import opened DashboardRuns

  datatype Operator = Operator(world: World, status: Status)

  /** A dashboard round with its own order of the resources, or a plugin round with its own order of the requests. */
  datatype Turn = Dashboards(items: seq<Dashboard>, events: Events) | Plugins(order: seq<Key>)

  /** What stays fixed: how versions parse, what the registry knows, and the live resources. */
  datatype Setting = Setting(parse: Parser, accepts: Registry, pool: Pool, items: seq<Dashboard>)

  ghost predicate Proper(c: Setting) {
    && Sound(c.pool) && WellFormed(c.items) && DrawnFrom(c.pool, c.items)
    && forall p :: p in PluginsOf(c.items) ==> c.accepts(p)
  }

  ghost function Requested(o: Operator, order: seq<Key>): seq<Plugin> {
    if forall k :: k in order ==> k in o.world.plugins then Gathered(o.world.plugins, order) else []
  }

  ghost predicate Updates(c: Setting, o: Operator, t: Turn) {
    t.Plugins? && Updated(o.status, Picked(c.parse, Requested(o, t.order)))
  }

  ghost function After(c: Setting, o: Operator, t: Turn): Operator {
    match t
    case Dashboards(items, events) => o.(world := DashboardSync.Round(o.world, items, events))
    case Plugins(order) =>
      Operator(
        if Updates(c, o, t) then o.world.(refs := Invalidated(o.world.refs)) else o.world,
        Next(c.accepts, o.status, Picked(c.parse, Requested(o, order))))
  }

  /** The turn sees the live resources, without faults, or all current requests. */
  ghost predicate Possible(c: Setting, o: Operator, t: Turn) {
    match t
    case Dashboards(items, events) => Calm(events) && WellFormed(items) && forall d :: d in items <==> d in c.items
    case Plugins(order) => Enumerates(order, o.world.plugins.Keys)
  }

  ghost function Run(c: Setting, o: Operator, turns: seq<Turn>): Operator
    decreases |turns|
  {
    if turns == [] then o else Run(c, After(c, o, turns[0]), turns[1..])
  }

  ghost predicate Feasible(c: Setting, o: Operator, turns: seq<Turn>)
    decreases |turns|
  {
    turns == [] || (Possible(c, o, turns[0]) && Feasible(c, After(c, o, turns[0]), turns[1..]))
  }

  ghost function UpdateCount(c: Setting, o: Operator, turns: seq<Turn>): nat
    decreases |turns|
  {
    if turns == [] then 0
    else (if Updates(c, o, turns[0]) then 1 else 0) + UpdateCount(c, After(c, o, turns[0]), turns[1..])
  }

  function DashboardRounds(turns: seq<Turn>): nat {
    if turns == [] then 0 else (if turns[0].Dashboards? then 1 else 0) + DashboardRounds(turns[1..])
  }

  function PluginRoundsIn(turns: seq<Turn>): nat {
    if turns == [] then 0 else (if turns[0].Plugins? then 1 else 0) + PluginRoundsIn(turns[1..])
  }

  // ----- the dashboard side -----

  /** The references that are still stale, and one more round as long as some request may be missing. */
  ghost predicate Outstanding(c: Setting, o: Operator, left: nat) {
    && Reachable(c.pool, o.world)
    && |StaleSet(o.world.refs, c.items)| <= left
    && (left == 0 ==> Requesting(o.world, c.items))
  }

  lemma {:induction false} ImageIsNoLarger(s: set<DashboardRef>, t: set<DashboardRef>)
    requires t <= set r | r in s :: r.(hash := "")
    ensures |t| <= |s|
  {
    if s != {} {
      var r :| r in s;
      ImageIsNoLarger(s - {r}, t - {r.(hash := "")});
      assert |t| <= |t - {r.(hash := "")}| + 1;
    }
  }

  lemma InvalidationAddsNoStale(refs: seq<DashboardRef>, items: seq<Dashboard>)
    ensures |StaleSet(Invalidated(refs), items)| <= |StaleSet(refs, items)|
  {
    var s, t := StaleSet(refs, items), StaleSet(Invalidated(refs), items);
    forall r | r in t
      ensures r in set q | q in s :: q.(hash := "")
    {
      var i :| 0 <= i < |refs| && Invalidated(refs)[i] == r;
      assert refs[i] in s;
    }
    ImageIsNoLarger(s, t);
  }

  lemma DashboardTurn(c: Setting, o: Operator, left: nat, t: Turn)
    requires Proper(c) && Outstanding(c, o, left) && Possible(c, o, t) && t.Dashboards?
    ensures Outstanding(c, After(c, o, t), if left == 0 then 0 else left - 1)
    ensures left == 0 ==> Settled(After(c, o, t).world, c.items)
  {
    var w := o.world;
    var w' := DashboardSync.Round(w, t.items, t.events);
    assert DrawnFrom(c.pool, t.items);
    RoundKeepsReachable(c.pool, w, t.items, t.events);
    RecordedFits(c.pool, w.refs, c.items);
    assert Coherent(w) && UniqueUids(w.refs);
    hide DashboardSync.Round, Calm, Sound, Coherent, Current, Fits, WellFormed;
    CalmRoundInOrder(w, c.items, t.items, t.events);
    if StaleSet(w.refs, c.items) == {} {
      CalmKeepsFresh(w, c.items, t.items, t.events);
    }
    if StaleSet(w'.refs, c.items) == {} {
      RoundRequests(c, w');
    }
  }

  lemma RoundRequests(c: Setting, w: World)
    requires Reachable(c.pool, w) && AllCurrent(w, c.items) && StaleSet(w.refs, c.items) == {}
    ensures Requesting(w, c.items)
  {
  }

  lemma CalmKeepsFresh(w: World, items: seq<Dashboard>, l: seq<Dashboard>, e: Events)
    requires UniqueUids(w.refs) && WellFormed(l) && (forall d :: d in l <==> d in items)
    requires StaleSet(w.refs, items) == {}
    ensures StaleSet(DashboardSync.Round(w, l, e).refs, items) == {}
  {
    hide DashboardSync.Round;
    RoundMakesProgress(w, l, e);
    StaleIgnoresOrder(w.refs, items, l);
    StaleIgnoresOrder(DashboardSync.Round(w, l, e).refs, items, l);
  }

  lemma PluginTurn(c: Setting, o: Operator, left: nat, t: Turn)
    requires Proper(c) && Outstanding(c, o, left) && Possible(c, o, t) && t.Plugins?
    ensures Outstanding(c, After(c, o, t), left)
  {
    if Updates(c, o, t) {
      InvalidationKeepsReachable(c.pool, o.world);
      InvalidationAddsNoStale(o.world.refs, c.items);
    }
  }

  /** After an update the next dashboard round imports every live dashboard afresh. */
  lemma UpdateReimports(c: Setting, o: Operator, t: Turn, next: Turn, d: Dashboard)
    requires Updates(c, o, t) && next.Dashboards? && Possible(c, After(c, o, t), next) && d in c.items
    ensures
      var w, w' := After(c, o, t).world, After(c, After(c, o, t), next).world;
      && w.server == o.world.server && w.server.writes <= w'.server.writes
      && exists folderId :: PostSent(w', |w.server.writes|, d.uid, folderId)
  {
    hide DashboardSync.Round;
    ForgottenHashesArePosted(After(c, o, t).world, next.items, next.events, d);
  }

  // ----- the plugin side -----

  /** How many more updates the requests of the resources can cause. */
  ghost function Rank(c: Setting, st: Status): nat {
    var picked := Picked(c.parse, PluginsOf(c.items));
    if !Updated(st, picked) then 0
    else if st.failed == [] && forall q :: q in st.installed ==> q in picked then 1
    else 2
  }

  /** Each order of the requests updates the same statuses, and an update brings the status closer to rest. */
  lemma UpdateLowersRank(c: Setting, st: Status, requested: seq<Plugin>)
    requires Proper(c) && Permutation(requested, PluginsOf(c.items))
    ensures var picked := Picked(c.parse, requested);
      && (Updated(st, picked) <==> Rank(c, st) > 0)
      && (Updated(st, picked) ==> Rank(c, Next(c.accepts, st, picked)) < Rank(c, st))
  {
    var all, picked := PluginsOf(c.items), Picked(c.parse, requested);
    var r0 := Picked(c.parse, all);
    PickedPermutes(c.parse, requested, all);
    ListOrderIrrelevant(st, picked, r0);
    PermutationKeepsMembers(picked, r0);
    if Updated(st, picked) {
      PickedMembers(c.parse, all);
      AcceptedRound(c.accepts, st, picked);
      FilteredExactly(st, picked);
      var st' := Next(c.accepts, st, picked);
      if Rank(c, st) == 1 {
        SecondRoundCovers(st, picked);
        CoveredIsQuiet(st', r0);
      }
    }
  }

  // ----- runs -----

  function Minus(a: nat, b: nat): nat {
    if a < b then 0 else a - b
  }

  lemma {:induction false} DashboardsCatchUp(c: Setting, o: Operator, left: nat, turns: seq<Turn>)
    requires Proper(c) && Outstanding(c, o, left) && Feasible(c, o, turns)
    ensures Outstanding(c, Run(c, o, turns), Minus(left, DashboardRounds(turns)))
    decreases |turns|
  {
    hide Proper, Outstanding, Possible, After;
    if turns != [] {
      var t := turns[0];
      if t.Dashboards? {
        DashboardTurn(c, o, left, t);
        DashboardsCatchUp(c, After(c, o, t), Minus(left, 1), turns[1..]);
      } else {
        PluginTurn(c, o, left, t);
        DashboardsCatchUp(c, After(c, o, t), left, turns[1..]);
      }
    }
  }

  lemma RankAfterTurn(c: Setting, o: Operator, t: Turn)
    requires Proper(c) && Outstanding(c, o, 0) && Possible(c, o, t)
    ensures Outstanding(c, After(c, o, t), 0)
    ensures Updates(c, o, t) <==> t.Plugins? && Rank(c, o.status) > 0
    ensures if Updates(c, o, t) then Rank(c, After(c, o, t).status) < Rank(c, o.status) else After(c, o, t).status == o.status
  {
    match t
    case Dashboards(_, _) => DashboardTurn(c, o, 0, t);
    case Plugins(order) =>
      PluginTurn(c, o, 0, t);
      RequestsGather(o.world, c.items, order);
      UpdateLowersRank(c, o.status, Requested(o, order));
  }

  /** With the requests fixed up to order, at most two turns update; the rank runs out with the plugin rounds. */
  lemma {:induction false} UpdatesAreBounded(c: Setting, o: Operator, turns: seq<Turn>)
    requires Proper(c) && Outstanding(c, o, 0) && Feasible(c, o, turns)
    ensures UpdateCount(c, o, turns) <= Rank(c, o.status)
    ensures Outstanding(c, Run(c, o, turns), 0)
    ensures Rank(c, Run(c, o, turns).status) <= Minus(Rank(c, o.status), PluginRoundsIn(turns))
    decreases |turns|
  {
    hide Proper, Outstanding, Possible, After, Rank, Updates;
    if turns != [] {
      RankAfterTurn(c, o, turns[0]);
      UpdatesAreBounded(c, After(c, o, turns[0]), turns[1..]);
    }
  }

  ghost predicate AtRest(c: Setting, o: Operator) {
    Outstanding(c, o, 0) && Rank(c, o.status) == 0 && Settled(o.world, c.items)
  }

  lemma RestTurn(c: Setting, o: Operator, t: Turn)
    requires Proper(c) && AtRest(c, o) && Possible(c, o, t)
    ensures After(c, o, t) == o && !Updates(c, o, t)
  {
    RankAfterTurn(c, o, t);
    if t.Dashboards? {
      hide DashboardSync.Round, Current, Coherent;
      RecordedFits(c.pool, o.world.refs, c.items);
      FitsIgnoresOrder(o.world.refs, c.items, t.items);
      SettledIgnoresOrder(o.world, c.items, t.items);
      SettledIsFixed(o.world, t.items, t.events);
    }
  }

  lemma {:induction false} RestLasts(c: Setting, o: Operator, turns: seq<Turn>)
    requires Proper(c) && AtRest(c, o) && Feasible(c, o, turns)
    ensures Run(c, o, turns) == o && UpdateCount(c, o, turns) == 0
    decreases |turns|
  {
    hide Proper, AtRest, Possible, After, Updates;
    if turns != [] {
      RestTurn(c, o, turns[0]);
      RestLasts(c, o, turns[1..]);
    }
  }

  lemma SettlesOnceCaughtUp(c: Setting, o: Operator, b: seq<Turn>, d: Turn, z: seq<Turn>)
    requires Proper(c) && Outstanding(c, o, 0) && Feasible(c, o, b) && PluginRoundsIn(b) >= 2
    requires d.Dashboards? && Possible(c, Run(c, o, b), d)
    requires Feasible(c, After(c, Run(c, o, b), d), z)
    ensures UpdateCount(c, o, b) <= 2
    ensures AtRest(c, After(c, Run(c, o, b), d))
    ensures Run(c, After(c, Run(c, o, b), d), z) == After(c, Run(c, o, b), d)
    ensures UpdateCount(c, After(c, Run(c, o, b), d), z) == 0
  {
    hide Proper, Outstanding, Possible, Reachable, Settled, After, Feasible, Run, UpdateCount, PluginRoundsIn;
    UpdatesAreBounded(c, o, b);
    assert Rank(c, o.status) <= 2;
    hide Rank;
    DashboardTurn(c, Run(c, o, b), 0, d);
    RankAfterTurn(c, Run(c, o, b), d);
    hide Updates;
    RestLasts(c, After(c, Run(c, o, b), d), z);
  }

  // ----- what the state at rest is like -----

  /** What the operator keeps track of in Grafana it keeps track of in every run. */
  lemma {:induction false} RunTracks(c: Setting, o: Operator, turns: seq<Turn>, uid: string)
    requires Feasible(c, o, turns) && Tracked(o.world, uid)
    ensures Tracked(Run(c, o, turns).world, uid)
    decreases |turns|
  {
    hide Possible, After, Tracked;
    if turns != [] {
      TurnTracks(c, o, turns[0], uid);
      RunTracks(c, After(c, o, turns[0]), turns[1..], uid);
    }
  }

  lemma TurnTracks(c: Setting, o: Operator, t: Turn, uid: string)
    requires Possible(c, o, t) && Tracked(o.world, uid)
    ensures Tracked(After(c, o, t).world, uid)
  {
    match t
    case Dashboards(items, events) =>
      CalmIsCarriedOut(events);
      hide DashboardSync.Round;
      RoundTracks(o.world, items, events, uid);
    case Plugins(_) =>
      InvalidationKnows(o.world.refs, uid);
  }

  lemma RestingDashboards(c: Setting, before: World, o: Operator)
    requires Proper(c) && AtRest(c, o) && forall u :: Tracked(before, u) ==> Tracked(o.world, u)
    ensures OnlyLiveLeft(before, o.world, c.items)
  {
    hide Tracked, Coherent;
    RecordedFits(c.pool, o.world.refs, c.items);
    forall u | Tracked(before, u)
      ensures u in o.world.server.dashboards <==> exists d :: d in c.items && d.uid == u
    {
      if u in o.world.server.dashboards {
        TrackedIsLive(o.world, c.items, u);
      }
      if d :| d in c.items && d.uid == u {
        assert Current(o.world, d);
      }
    }
  }

  /** With the requests fixed, an update leaves no failed plugin, and no later turn brings one back. */
  lemma {:induction false} UpdatesClearFailures(c: Setting, o: Operator, turns: seq<Turn>)
    requires Proper(c) && Outstanding(c, o, 0) && Feasible(c, o, turns)
    requires o.status.failed == [] || UpdateCount(c, o, turns) > 0
    ensures Run(c, o, turns).status.failed == []
    decreases |turns|
  {
    hide Proper, Outstanding, Possible, After, Rank, Updates;
    if turns != [] {
      var t := turns[0];
      RankAfterTurn(c, o, t);
      if Updates(c, o, t) {
        UpdateClearsFailures(c, o, t);
      }
      UpdatesClearFailures(c, After(c, o, t), turns[1..]);
    }
  }

  lemma UpdateClearsFailures(c: Setting, o: Operator, t: Turn)
    requires Proper(c) && Outstanding(c, o, 0) && Possible(c, o, t) && Updates(c, o, t)
    ensures After(c, o, t).status.failed == []
  {
    var requested, all := Requested(o, t.order), PluginsOf(c.items);
    RequestsGather(o.world, c.items, t.order);
    PermutationKeepsMembers(requested, all);
    PickedMembers(c.parse, requested);
    AcceptedRound(c.accepts, o.status, Picked(c.parse, requested));
  }

  lemma DashboardTurnKeepsStatus(c: Setting, o: Operator, t: Turn)
    requires t.Dashboards?
    ensures After(c, o, t).status == o.status
  {
  }

  lemma RestingPlugins(c: Setting, o: Operator)
    requires AtRest(c, o)
    ensures forall q :: q in o.status.installed ==> HasName(PluginsOf(c.items), q.name)
    ensures o.status.failed == [] ==> InstallsAll(o.status, PluginsOf(c.items))
  {
    UpdatedIffNotUpToDate(o.status, Picked(c.parse, PluginsOf(c.items)));
    UpToDateInstalls(c.parse, o.status, PluginsOf(c.items));
  }

  /** The whole operator settles, from any reachable state and any status, under any interleaving: once there have
      been as many dashboard rounds as stale references, and at least one (`a`), at most two plugin rounds ever
      report an update; after two more plugin rounds (`b`) and one more dashboard round (`d`), every live dashboard
      is current in Grafana, no removed one that was kept track of is left there, nothing else is known, no plugin is
      installed that no live dashboard requests, every requested one is if there was an update or none had failed, and
      no further turn changes anything. */
  lemma OperatorSettles(c: Setting, o: Operator, a: seq<Turn>, b: seq<Turn>, d: Turn, z: seq<Turn>)
    requires Proper(c) && Reachable(c.pool, o.world) && Feasible(c, o, a)
    requires DashboardRounds(a) >= 1 && DashboardRounds(a) >= |StaleSet(o.world.refs, c.items)|
    requires Feasible(c, Run(c, o, a), b) && PluginRoundsIn(b) >= 2
    requires d.Dashboards? && Possible(c, Run(c, Run(c, o, a), b), d)
    requires Feasible(c, After(c, Run(c, Run(c, o, a), b), d), z)
    ensures UpdateCount(c, Run(c, o, a), b) <= 2
    ensures var rest := After(c, Run(c, Run(c, o, a), b), d);
      && Settled(rest.world, c.items) && OnlyLiveLeft(o.world, rest.world, c.items)
      && (forall q :: q in rest.status.installed ==> HasName(PluginsOf(c.items), q.name))
      && (Run(c, o, a).status.failed == [] || UpdateCount(c, Run(c, o, a), b) > 0 ==> InstallsAll(rest.status, PluginsOf(c.items)))
      && Run(c, rest, z) == rest && UpdateCount(c, rest, z) == 0
  {
    var stale := |StaleSet(o.world.refs, c.items)|;
    hide Proper, Possible, Reachable, Settled, After, Feasible, Run, UpdateCount, PluginRoundsIn, DashboardRounds;
    hide Tracked, OnlyLiveLeft, InstallsAll;
    DashboardsCatchUp(c, o, if stale == 0 then 1 else stale, a);
    var caughtUp, last := Run(c, o, a), Run(c, Run(c, o, a), b);
    SettlesOnceCaughtUp(c, caughtUp, b, d, z);
    var rest := After(c, last, d);
    forall u | Tracked(o.world, u)
      ensures Tracked(rest.world, u)
    {
      RunTracks(c, o, a, u);
      RunTracks(c, caughtUp, b, u);
      TurnTracks(c, last, d, u);
    }
    hide Outstanding, StaleSet;
    RestingDashboards(c, o.world, rest);
    RestingPlugins(c, rest);
    if caughtUp.status.failed == [] || UpdateCount(c, caughtUp, b) > 0 {
      UpdatesClearFailures(c, caughtUp, b);
      DashboardTurnKeepsStatus(c, last, d);
    }
  }
}
