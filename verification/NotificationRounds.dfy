/** What a round of the notification channel controller achieves when one namespace is watched, and what blocks it. */
module NotificationRounds {
  import opened Wrappers
  import opened NotificationConfig
  import opened NotificationSync

  ghost predicate KeptFor(lists: Lists, ns: string) {
    WellKept(lists) && lists.Keys <= {ns}
  }

  ghost predicate UniqueNames(ns: string, items: seq<Channel>) {
    && (forall c :: c in items ==> c.namespace == ns)
    && (forall i, j :: 0 <= i < j < |items| ==> items[i].name != items[j].name)
  }

  /** The registry and the cluster agree on the one namespace; resource names are unique in it. */
  ghost predicate OneNamespace(lists: Lists, ns: string, items: seq<Channel>) {
    KeptFor(lists, ns) && UniqueNames(ns, items)
  }

  ghost function RoundIn(w: World, ns: string, items: seq<Channel>, e: Events): (World, Outcome) {
    Round(w, ListFor(w.lists, ns), items, e)
  }

  ghost function RecordedHash(lists: Lists, k: Key): string {
    match Lookup(lists, k)
    case None => ""
    case Some(r) => r.hash
  }

  /** Not yet recorded in its present form. */
  ghost predicate Pending(lists: Lists, c: Channel) {
    c.matches && !c.body.NoJson? && !c.body.Malformed? && c.hash != RecordedHash(lists, KeyOf(c))
  }

  /** A pending channel that ends the function early. */
  ghost predicate Blocks(lists: Lists, c: Channel) {
    Pending(lists, c) && !c.body.HasUid?
  }

  ghost predicate Stale(lists: Lists, ns: string, items: seq<Channel>, r: Ref) {
    r in ListFor(lists, ns) && !InNamespace(items, r.name)
  }

  function RefOf(c: Channel): Ref
    requires c.body.HasUid?
  {
    Ref(c.name, c.namespace, c.body.uid, c.hash)
  }

  // ----- submitting -----

  lemma {:induction false} KnownHashIs(l: seq<Ref>, ns: string, lists: Lists, name: string)
    requires ListKept(ns, l)
    ensures Find(l, name).Some? ==> KnownHash(KeysOf(l), lists, name) == RecordedHash(lists, Key(ns, name))
    ensures Find(l, name).None? ==> KnownHash(KeysOf(l), lists, name) == ""
  {
    if l != [] && l[0].name != name {
      assert KeysOf(l)[1..] == KeysOf(l[1..]);
      assert Find(l[1..], name).Some? ==> Find(l[1..], name).value in l;
      KnownHashIs(l[1..], ns, lists, name);
    }
  }

  /** At most the entry of the channel changes, and then to its present form. */
  ghost predicate OneStep(before: Lists, after: Lists, c: Channel) {
    forall q: Key :: Lookup(after, q) == Lookup(before, q) || (q == KeyOf(c) && c.body.HasUid? && Lookup(after, q) == Some(RefOf(c)))
  }

  lemma AddIsOneStep(lists: Lists, ns: string, c: Channel)
    requires KeptFor(lists, ns) && c.namespace == ns && c.body.HasUid?
    ensures KeptFor(Recorded(lists, c, c.body.uid), ns) && OneStep(lists, Recorded(lists, c, c.body.uid), c)
  {
    var add := Add(Submitted(c.name, c.namespace, c.body.uid, c.hash));
    CallKeepsLists(lists, add);
    hide WellKept, Lookup, AddedTo;
    forall q: Key
      ensures Lookup(OnLists(lists, add), q) == if q == KeyOf(c) then Some(RefOf(c)) else Lookup(lists, q)
    {
      LookupAfterCall(lists, add, q);
    }
  }

  lemma SubmitIsOneStep(s: World, known: seq<Key>, ns: string, c: Channel, e: ItemEvents)
    requires KeptFor(s.lists, ns) && c.namespace == ns
    ensures var after := ChannelSubmitted(s, known, c, e).0.lists; KeptFor(after, ns) && OneStep(s.lists, after, c)
  {
    hide KeptFor, Recorded, Lookup, Written, KnownHash;
    if c.body.HasUid? {
      AddIsOneStep(s.lists, ns, c);
    }
  }

  ghost predicate Untouched(before: Lists, after: Lists, items: seq<Channel>, k: nat)
    requires k <= |items|
  {
    forall q: Key :: (forall i :: 0 <= i < k ==> KeyOf(items[i]) != q) ==> Lookup(after, q) == Lookup(before, q)
  }

  /** Every processed channel has its old entry or the one for its present form. */
  ghost predicate Advanced(before: Lists, after: Lists, items: seq<Channel>, k: nat)
    requires k <= |items|
  {
    forall i :: 0 <= i < k ==>
      || Lookup(after, KeyOf(items[i])) == Lookup(before, KeyOf(items[i]))
      || (items[i].body.HasUid? && Lookup(after, KeyOf(items[i])) == Some(RefOf(items[i])))
  }

  /** Names are unique, so a channel is compared with the hash that was recorded before the round. */
  lemma HashUntouched(before: Lists, now: Lists, ns: string, items: seq<Channel>, k: nat)
    requires OneNamespace(before, ns, items) && k < |items| && Untouched(before, now, items, k)
    ensures KnownHash(KeysOf(ListFor(before, ns)), now, items[k].name) == RecordedHash(before, KeyOf(items[k]))
  {
    assert items[k] in items && ListKept("", []);
    KnownHashIs(ListFor(before, ns), ns, now, items[k].name);
    assert Lookup(now, KeyOf(items[k])) == Lookup(before, KeyOf(items[k]));
  }

  lemma StepAdvances(before: Lists, now: Lists, next: Lists, ns: string, items: seq<Channel>, k: nat)
    requires UniqueNames(ns, items) && k < |items|
    requires Untouched(before, now, items, k) && Advanced(before, now, items, k) && OneStep(now, next, items[k])
    ensures Untouched(before, next, items, k + 1) && Advanced(before, next, items, k + 1)
  {
  }

  ghost function Known(w: World, ns: string): seq<Key> {
    KeysOf(ListFor(w.lists, ns))
  }

  ghost function Sent(w: World, ns: string, items: seq<Channel>, e: nat -> ItemEvents, k: nat): (World, Outcome)
    requires k <= |items|
  {
    SubmitUpTo(w, Known(w, ns), items, e, k)
  }

  lemma SentStep(w: World, ns: string, items: seq<Channel>, e: nat -> ItemEvents, k: nat)
    requires k < |items|
    ensures Sent(w, ns, items, e, 0) == (w, Going)
    ensures Sent(w, ns, items, e, k + 1) == var s := Sent(w, ns, items, e, k);
      if s.1.Going? then ChannelSubmitted(s.0, Known(w, ns), items[k], e(k)) else s
  {
  }

  lemma {:induction false} SubmitEntries(w: World, ns: string, items: seq<Channel>, e: nat -> ItemEvents, k: nat)
    requires OneNamespace(w.lists, ns, items) && k <= |items|
    ensures KeptFor(Sent(w, ns, items, e, k).0.lists, ns)
    ensures Advanced(w.lists, Sent(w, ns, items, e, k).0.lists, items, k)
    ensures Untouched(w.lists, Sent(w, ns, items, e, k).0.lists, items, k)
  {
    hide Lookup, KeptFor, ChannelSubmitted, Known;
    if k > 0 {
      SubmitEntries(w, ns, items, e, k - 1);
      var s := Sent(w, ns, items, e, k - 1);
      SentStep(w, ns, items, e, k - 1);
      if s.1.Going? {
        assert items[k - 1] in items;
        SubmitIsOneStep(s.0, Known(w, ns), ns, items[k - 1], e(k - 1));
        StepAdvances(w.lists, s.0.lists, Sent(w, ns, items, e, k).0.lists, ns, items, k - 1);
      }
    } else {
      assert w.lists == Sent(w, ns, items, e, k).0.lists;
    }
  }

  lemma HashWhenSent(w: World, ns: string, items: seq<Channel>, e: nat -> ItemEvents, k: nat)
    requires OneNamespace(w.lists, ns, items) && k < |items|
    ensures var lists := Sent(w, ns, items, e, k).0.lists;
      KnownHash(Known(w, ns), lists, items[k].name) == RecordedHash(w.lists, KeyOf(items[k])) == RecordedHash(lists, KeyOf(items[k]))
  {
    hide Sent, KnownHash, Lookup, Advanced, WellKept;
    var lists := Sent(w, ns, items, e, k).0.lists;
    SubmitEntries(w, ns, items, e, k);
    HashUntouched(w.lists, lists, ns, items, k);
    assert forall i :: 0 <= i < k ==> items[i].name != items[k].name;
    assert Lookup(lists, KeyOf(items[k])) == Lookup(w.lists, KeyOf(items[k]));
  }

  lemma StepOutcome(before: Lists, s: World, known: seq<Key>, c: Channel, e: ItemEvents)
    requires KnownHash(known, s.lists, c.name) == RecordedHash(before, KeyOf(c))
    ensures ChannelSubmitted(s, known, c, e).1.Going? <==> !Blocks(before, c)
  {
  }

  /** The function gets through the resources exactly when none of them blocks. */
  lemma {:induction false} SubmitOutcome(w: World, ns: string, items: seq<Channel>, e: nat -> ItemEvents, k: nat)
    requires OneNamespace(w.lists, ns, items) && k <= |items|
    ensures Sent(w, ns, items, e, k).1.Going? <==> forall i :: 0 <= i < k ==> !Blocks(w.lists, items[i])
  {
    hide OneNamespace, KnownHash, RecordedHash, ChannelSubmitted, Blocks, Known;
    if k > 0 {
      SentStep(w, ns, items, e, k - 1);
      SubmitOutcome(w, ns, items, e, k - 1);
      HashWhenSent(w, ns, items, e, k - 1);
      hide Sent;
      StepOutcome(w.lists, Sent(w, ns, items, e, k - 1).0, Known(w, ns), items[k - 1], e(k - 1));
    }
  }

  /** A channel that can be submitted. */
  predicate Sendable(c: Channel) {
    c.matches && c.body.HasUid?
  }

  lemma StepRecords(before: Lists, s: World, known: seq<Key>, c: Channel)
    requires WellKept(s.lists) && Sendable(c)
    requires KnownHash(known, s.lists, c.name) == RecordedHash(before, KeyOf(c)) == RecordedHash(s.lists, KeyOf(c))
    ensures RecordedHash(ChannelSubmitted(s, known, c, FAULT_FREE.item(0)).0.lists, KeyOf(c)) == c.hash
  {
    LookupAfterCall(s.lists, Add(Submitted(c.name, c.namespace, c.body.uid, c.hash)), KeyOf(c));
    hide WellKept, Lookup, KnownHash, AddedTo;
  }

  ghost predicate RecordedUpTo(lists: Lists, items: seq<Channel>, k: nat)
    requires k <= |items|
  {
    forall i :: 0 <= i < k && Sendable(items[i]) ==> RecordedHash(lists, KeyOf(items[i])) == items[i].hash
  }

  lemma RecordsMore(now: Lists, next: Lists, ns: string, items: seq<Channel>, k: nat)
    requires UniqueNames(ns, items) && k < |items| && OneStep(now, next, items[k]) && RecordedUpTo(now, items, k)
    requires Sendable(items[k]) ==> RecordedHash(next, KeyOf(items[k])) == items[k].hash
    ensures RecordedUpTo(next, items, k + 1)
  {
  }

  lemma SentRecords(w: World, ns: string, items: seq<Channel>, k: nat)
    requires OneNamespace(w.lists, ns, items) && k < |items| && Sent(w, ns, items, FAULT_FREE.item, k).1.Going?
    ensures var s, s' := Sent(w, ns, items, FAULT_FREE.item, k), Sent(w, ns, items, FAULT_FREE.item, k + 1);
      && OneStep(s.0.lists, s'.0.lists, items[k])
      && (Sendable(items[k]) ==> RecordedHash(s'.0.lists, KeyOf(items[k])) == items[k].hash)
  {
    var e, c := FAULT_FREE.item, items[k];
    assert c in items;
    SentStep(w, ns, items, e, k);
    SubmitEntries(w, ns, items, e, k);
    HashWhenSent(w, ns, items, e, k);
    hide Sent, Known, Lookup, WellKept, KnownHash, RecordedHash, Advanced, Untouched, ChannelSubmitted;
    var s := Sent(w, ns, items, e, k);
    SubmitIsOneStep(s.0, Known(w, ns), ns, c, e(k));
    if Sendable(c) {
      StepRecords(w.lists, s.0, Known(w, ns), c);
    }
  }

  lemma {:induction false} SubmitRecords(w: World, ns: string, items: seq<Channel>, k: nat)
    requires OneNamespace(w.lists, ns, items) && k <= |items| && forall i :: 0 <= i < k ==> !Blocks(w.lists, items[i])
    ensures RecordedUpTo(Sent(w, ns, items, FAULT_FREE.item, k).0.lists, items, k)
  {
    if k > 0 {
      SubmitRecords(w, ns, items, k - 1);
      SubmitOutcome(w, ns, items, FAULT_FREE.item, k - 1);
      SentRecords(w, ns, items, k - 1);
      hide Sent, Lookup, RecordedHash, Blocks, RecordedUpTo;
      RecordsMore(Sent(w, ns, items, FAULT_FREE.item, k - 1).0.lists, Sent(w, ns, items, FAULT_FREE.item, k).0.lists, ns, items, k - 1);
    }
  }

  // ----- deleting -----

  lemma {:induction false} StaleMembers(refs: seq<Ref>, items: seq<Channel>, r: Ref)
    ensures r in StaleRefs(refs, items) <==> r in refs && !InNamespace(items, r.name)
  {
    if refs != [] {
      StaleMembers(refs[..|refs| - 1], items, r);
      assert refs == refs[..|refs| - 1] + [refs[|refs| - 1]];
    }
  }

  lemma {:induction false} NothingStale(refs: seq<Ref>, items: seq<Channel>)
    requires forall i :: 0 <= i < |refs| ==> InNamespace(items, refs[i].name)
    ensures StaleRefs(refs, items) == []
  {
    if refs != [] {
      NothingStale(refs[..|refs| - 1], items);
    }
  }

  lemma DeleteEntry(lists: Lists, r: Ref, q: Key)
    requires WellKept(lists)
    ensures WellKept(Removed(lists, r.namespace, r.name)) && Removed(lists, r.namespace, r.name).Keys == lists.Keys
    ensures Lookup(Removed(lists, r.namespace, r.name), q) == if Key(r.namespace, r.name) == q then None else Lookup(lists, q)
  {
    hide Lookup, WellKept, RemovedFrom;
    CallKeepsLists(lists, Remove(r.namespace, r.name));
    LookupAfterCall(lists, Remove(r.namespace, r.name), q);
  }

  lemma {:induction false} DeleteEntries(w: World, stale: seq<Ref>, e: nat -> Answer, k: nat, q: Key)
    requires WellKept(w.lists) && k <= |stale|
    ensures WellKept(DeleteUpTo(w, stale, e, k).lists) && DeleteUpTo(w, stale, e, k).lists.Keys == w.lists.Keys
    ensures Lookup(DeleteUpTo(w, stale, e, k).lists, q) ==
      if exists i :: 0 <= i < k && Key(stale[i].namespace, stale[i].name) == q then None else Lookup(w.lists, q)
  {
    hide Lookup, WellKept, Removed, Deleted;
    if k > 0 {
      DeleteEntries(w, stale, e, k - 1, q);
      DeleteEntry(DeleteUpTo(w, stale, e, k - 1).lists, stale[k - 1], q);
    }
  }

  lemma {:induction false} DeleteServer(w: World, stale: seq<Ref>, e: nat -> Answer, k: nat, uid: string)
    requires k <= |stale|
    ensures var before, after := w.server.channels, DeleteUpTo(w, stale, e, k).server.channels;
      && (uid in after ==> uid in before && after[uid] == before[uid])
      && ((forall i :: 0 <= i < k ==> stale[i].uid != uid) ==> (uid in after <==> uid in before))
      && ((exists i :: 0 <= i < k && stale[i].uid == uid && !e(i).Failed?) ==> uid !in after)
  {
    if k > 0 {
      DeleteServer(w, stale, e, k - 1, uid);
    }
  }

  // ----- one round -----

  /** Without a blocking channel the registry keeps an entry for a name exactly as submission left it, and no entry
      for a name that is gone, whatever Grafana answers. */
  lemma RoundEntries(w: World, ns: string, items: seq<Channel>, e: Events, q: Key)
    requires OneNamespace(w.lists, ns, items) && !e.listFails && forall c :: c in items ==> !Blocks(w.lists, c)
    ensures var sent := Sent(w, ns, items, e.item, |items|);
      var after := RoundIn(w, ns, items, e);
      && after.1.Going? && KeptFor(after.0.lists, ns)
      && Lookup(after.0.lists, q) == if q.namespace == ns && InNamespace(items, q.name) then Lookup(sent.0.lists, q) else None
  {
    var refs := ListFor(w.lists, ns);
    var sent := Sent(w, ns, items, e.item, |items|);
    SubmitOutcome(w, ns, items, e.item, |items|);
    SubmitEntries(w, ns, items, e.item, |items|);
    var stale := StaleRefs(refs, items);
    DeleteEntries(sent.0, stale, e.deletion, |stale|, q);
    assert ListKept("", []);
    assert ListKept(ns, refs);
    if i :| 0 <= i < |stale| && Key(stale[i].namespace, stale[i].name) == q {
      StaleMembers(refs, items, stale[i]);
      assert stale[i] in stale;
    } else if q.namespace == ns && !InNamespace(items, q.name) && Lookup(w.lists, q).Some? {
      var r := Lookup(w.lists, q).value;
      StaleMembers(refs, items, r);
    } else if !(q.namespace == ns && InNamespace(items, q.name)) {
      assert forall i :: 0 <= i < |items| ==> items[i] in items;
      assert Lookup(sent.0.lists, q) == Lookup(w.lists, q);
    }
  }

  /** Nothing to send and nothing to delete. */
  ghost predicate Settled(lists: Lists, ns: string, items: seq<Channel>) {
    && (forall c :: c in items ==> !Pending(lists, c))
    && (forall r :: !Stale(lists, ns, items, r))
  }

  lemma StaleIsFound(lists: Lists, ns: string, items: seq<Channel>, r: Ref)
    requires KeptFor(lists, ns) && Stale(lists, ns, items, r)
    ensures Lookup(lists, Key(ns, r.name)) == Some(r)
  {
  }

  /** Without faults and without a blocking channel, one round records every channel that can be sent, with its
      current hash, and forgets every channel that is gone. */
  lemma OneRoundSettles(w: World, ns: string, items: seq<Channel>)
    requires OneNamespace(w.lists, ns, items) && forall c :: c in items ==> !Blocks(w.lists, c)
    ensures var after := RoundIn(w, ns, items, FAULT_FREE);
      && after.1.Going? && OneNamespace(after.0.lists, ns, items) && Settled(after.0.lists, ns, items)
      && (forall c :: c in items && Sendable(c) ==> RecordedHash(after.0.lists, KeyOf(c)) == c.hash)
  {
    var after, sent := RoundIn(w, ns, items, FAULT_FREE), Sent(w, ns, items, FAULT_FREE.item, |items|);
    RoundEntries(w, ns, items, FAULT_FREE, Key(ns, ""));
    SubmitEntries(w, ns, items, FAULT_FREE.item, |items|);
    SubmitRecords(w, ns, items, |items|);
    hide Lookup, KeptFor, Sent, RoundIn;
    forall c | c in items
      ensures !Pending(after.0.lists, c)
      ensures Sendable(c) ==> RecordedHash(after.0.lists, KeyOf(c)) == c.hash
    {
      RoundEntries(w, ns, items, FAULT_FREE, KeyOf(c));
      var i :| 0 <= i < |items| && items[i] == c;
      assert Lookup(sent.0.lists, KeyOf(items[i])) == Lookup(w.lists, KeyOf(items[i])) || c.body.HasUid?;
    }
    forall r
      ensures !Stale(after.0.lists, ns, items, r)
    {
      if Stale(after.0.lists, ns, items, r) {
        StaleIsFound(after.0.lists, ns, items, r);
        RoundEntries(w, ns, items, FAULT_FREE, Key(ns, r.name));
        assert false;
      }
    }
  }

  lemma {:induction false} NothingSent(w: World, ns: string, items: seq<Channel>, e: nat -> ItemEvents, k: nat)
    requires OneNamespace(w.lists, ns, items) && Settled(w.lists, ns, items) && k <= |items|
    ensures Sent(w, ns, items, e, k) == (w, Going)
  {
    if k > 0 {
      NothingSent(w, ns, items, e, k - 1);
      SentStep(w, ns, items, e, k - 1);
      HashWhenSent(w, ns, items, e, k - 1);
      assert !Pending(w.lists, items[k - 1]);
      hide Sent, Lookup, KnownHash, RecordedHash, Known;
    }
  }

  /** A settled round makes no call to Grafana and changes nothing, whatever the network is like. */
  lemma SettledIsFixed(w: World, ns: string, items: seq<Channel>, e: Events)
    requires OneNamespace(w.lists, ns, items) && Settled(w.lists, ns, items)
    ensures RoundIn(w, ns, items, e).0 == w
  {
    NothingSent(w, ns, items, e.item, |items|);
    var refs := ListFor(w.lists, ns);
    assert forall i :: 0 <= i < |refs| ==> !Stale(w.lists, ns, items, refs[i]);
    NothingStale(refs, items);
  }

  /** References to channels that are gone are all forgotten in a round, whatever Grafana answers, exactly when the
      listing succeeds and no resource blocks. */
  lemma ForgetsIffUnblocked(w: World, ns: string, items: seq<Channel>, e: Events)
    requires OneNamespace(w.lists, ns, items) && exists r :: Stale(w.lists, ns, items, r)
    ensures (forall r :: !Stale(RoundIn(w, ns, items, e).0.lists, ns, items, r)) <==>
      !e.listFails && forall c :: c in items ==> !Blocks(w.lists, c)
  {
    var after := RoundIn(w, ns, items, e).0;
    if !e.listFails && forall c :: c in items ==> !Blocks(w.lists, c) {
      forall r
        ensures !Stale(after.lists, ns, items, r)
      {
        RoundEntries(w, ns, items, e, Key(ns, r.name));
        if Stale(after.lists, ns, items, r) {
          StaleIsFound(after.lists, ns, items, r);
        }
      }
    } else {
      var r :| Stale(w.lists, ns, items, r);
      BlockedKeepsStale(w, ns, items, e, r);
    }
  }

  lemma BlockedKeepsStale(w: World, ns: string, items: seq<Channel>, e: Events, r: Ref)
    requires OneNamespace(w.lists, ns, items) && Stale(w.lists, ns, items, r)
    requires e.listFails || exists c :: c in items && Blocks(w.lists, c)
    ensures Stale(RoundIn(w, ns, items, e).0.lists, ns, items, r)
  {
    if !e.listFails {
      SubmitOutcome(w, ns, items, e.item, |items|);
      SubmitEntries(w, ns, items, e.item, |items|);
      StaleIsFound(w.lists, ns, items, r);
      var after := Sent(w, ns, items, e.item, |items|).0;
      assert forall i :: 0 <= i < |items| ==> items[i] in items;
      assert Lookup(after.lists, Key(ns, r.name)) == Lookup(w.lists, Key(ns, r.name));
    }
  }

  ghost function RunIn(w: World, ns: string, items: seq<Channel>, es: seq<Events>): World {
    if es == [] then w else RoundIn(RunIn(w, ns, items, es[..|es| - 1]), ns, items, es[|es| - 1]).0
  }

  /** While a blocking resource stays in the cluster it blocks every round: nothing that is gone is ever forgotten. */
  lemma {:induction false} BlockedForever(w: World, ns: string, items: seq<Channel>, es: seq<Events>, c: Channel, r: Ref)
    requires OneNamespace(w.lists, ns, items) && c in items && Blocks(w.lists, c) && Stale(w.lists, ns, items, r)
    ensures var after := RunIn(w, ns, items, es).lists;
      OneNamespace(after, ns, items) && Blocks(after, c) && Stale(after, ns, items, r)
  {
    if es != [] {
      var before, e := RunIn(w, ns, items, es[..|es| - 1]), es[|es| - 1];
      BlockedForever(w, ns, items, es[..|es| - 1], c, r);
      BlockedKeepsStale(before, ns, items, e, r);
      if !e.listFails {
        SubmitOutcome(before, ns, items, e.item, |items|);
        SubmitEntries(before, ns, items, e.item, |items|);
        var i :| 0 <= i < |items| && items[i] == c;
        var sent := Sent(before, ns, items, e.item, |items|).0;
        assert Lookup(sent.lists, KeyOf(items[i])) == Lookup(before.lists, KeyOf(items[i]));
      }
    }
  }

  // ----- what Grafana holds -----

  predicate Held(s: Server, c: Channel)
    requires c.body.HasUid?
  {
    c.body.uid in s.channels && s.channels[c.body.uid] == c.hash
  }

  /** UIDs are distinct, and what is recorded as sent is in Grafana. */
  ghost predicate Faithful(w: World, items: seq<Channel>) {
    && (forall i, j :: 0 <= i < j < |items| && Sendable(items[i]) && Sendable(items[j]) ==> items[i].body.uid != items[j].body.uid)
    && (forall c :: c in items && Sendable(c) && RecordedHash(w.lists, KeyOf(c)) == c.hash ==> Held(w.server, c))
  }

  predicate SameAt(s: Server, t: Server, uid: string) {
    (uid in s.channels <==> uid in t.channels) && (uid in s.channels ==> s.channels[uid] == t.channels[uid])
  }

  lemma StepHolds(s: World, known: seq<Key>, c: Channel, uid: string)
    requires Sendable(c) && KnownHash(known, s.lists, c.name) == c.hash ==> Held(s.server, c)
    ensures var after := ChannelSubmitted(s, known, c, FAULT_FREE.item(0)).0.server;
      && (Sendable(c) ==> Held(after, c))
      && (!(Sendable(c) && c.body.uid == uid) ==> SameAt(s.server, after, uid))
  {
  }

  lemma {:induction false} SubmitHolds(w: World, ns: string, items: seq<Channel>, k: nat, j: nat)
    requires OneNamespace(w.lists, ns, items) && k <= |items| && forall i :: 0 <= i < k ==> !Blocks(w.lists, items[i])
    requires Faithful(w, items) && j < |items| && Sendable(items[j])
    ensures var after := Sent(w, ns, items, FAULT_FREE.item, k).0.server;
      if j < k then Held(after, items[j]) else SameAt(w.server, after, items[j].body.uid)
  {
    hide OneNamespace, Sent, Known, KnownHash, RecordedHash, Blocks, ChannelSubmitted;
    SentStep(w, ns, items, FAULT_FREE.item, j);
    if k > 0 {
      var e, d, uid := FAULT_FREE.item, items[k - 1], items[j].body.uid;
      var s := Sent(w, ns, items, e, k - 1);
      SentStep(w, ns, items, e, k - 1);
      SubmitHolds(w, ns, items, k - 1, j);
      if Sendable(d) {
        SubmitHolds(w, ns, items, k - 1, k - 1);
      }
      SubmitOutcome(w, ns, items, e, k - 1);
      HashWhenSent(w, ns, items, e, k - 1);
      assert d in items && (j != k - 1 && Sendable(d) ==> uid != d.body.uid);
      hide Faithful;
      StepHolds(s.0, Known(w, ns), d, uid);
    }
  }

  /** After a round without faults a channel is in Grafana exactly when no forgotten reference carries its UID: a
      resource that is renamed with its UID kept is updated, deleted again, and recorded as up to date. */
  lemma HeldIffUidNotStale(w: World, ns: string, items: seq<Channel>, c: Channel)
    requires OneNamespace(w.lists, ns, items) && (forall d :: d in items ==> !Blocks(w.lists, d))
    requires Faithful(w, items) && c in items && Sendable(c)
    ensures Held(RoundIn(w, ns, items, FAULT_FREE).0.server, c) <==>
      forall r :: Stale(w.lists, ns, items, r) ==> r.uid != c.body.uid
  {
    var refs, sent := ListFor(w.lists, ns), Sent(w, ns, items, FAULT_FREE.item, |items|);
    SubmitOutcome(w, ns, items, FAULT_FREE.item, |items|);
    var j :| 0 <= j < |items| && items[j] == c;
    SubmitHolds(w, ns, items, |items|, j);
    var stale := StaleRefs(refs, items);
    DeleteServer(sent.0, stale, FAULT_FREE.deletion, |stale|, c.body.uid);
    if r :| Stale(w.lists, ns, items, r) && r.uid == c.body.uid {
      StaleMembers(refs, items, r);
      var i :| 0 <= i < |stale| && stale[i] == r;
      assert stale[i].uid == c.body.uid && !FAULT_FREE.deletion(i).Failed?;
    } else {
      forall i | 0 <= i < |stale|
        ensures stale[i].uid != c.body.uid
      {
        StaleMembers(refs, items, stale[i]);
        assert Stale(w.lists, ns, items, stale[i]);
      }
    }
  }

  /** So such rounds keep what is recorded true of Grafana exactly as long as no forgotten reference carries the UID
      of a channel that can be sent. */
  lemma FaithfulIffUidsNotStale(w: World, ns: string, items: seq<Channel>)
    requires OneNamespace(w.lists, ns, items) && (forall d :: d in items ==> !Blocks(w.lists, d)) && Faithful(w, items)
    ensures Faithful(RoundIn(w, ns, items, FAULT_FREE).0, items) <==>
      forall c, r :: c in items && Sendable(c) && Stale(w.lists, ns, items, r) ==> r.uid != c.body.uid
  {
    hide Blocks, Lookup, RoundIn, Held, Stale, OneNamespace;
    OneRoundSettles(w, ns, items);
    forall c | c in items && Sendable(c)
      ensures Held(RoundIn(w, ns, items, FAULT_FREE).0.server, c) <==>
        forall r :: Stale(w.lists, ns, items, r) ==> r.uid != c.body.uid
    {
      HeldIffUidNotStale(w, ns, items, c);
    }
  }
}
