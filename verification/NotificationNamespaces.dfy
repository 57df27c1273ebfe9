/** Notification channels in several namespaces: references are per namespace, but the search for a live channel goes
    by name alone, so a channel elsewhere can hide a missing one. */
module NotificationNamespaces {
  import opened Wrappers
  import opened Seqs
  import opened NotificationConfig
  import opened NotificationSync
  import opened NotificationRounds

  /** No resource has this namespace and name. */
  ghost predicate Missing(items: seq<Channel>, q: Key) {
    forall i :: 0 <= i < |items| ==> KeyOf(items[i]) != q
  }

  lemma StepKeepsOthers(s: World, known: seq<Key>, c: Channel, e: ItemEvents, q: Key)
    requires WellKept(s.lists) && KeyOf(c) != q
    ensures var after := ChannelSubmitted(s, known, c, e).0.lists; WellKept(after) && Lookup(after, q) == Lookup(s.lists, q)
  {
    hide WellKept, Lookup, KnownHash, Written, AddedTo;
    if c.body.HasUid? {
      var add := Add(Submitted(c.name, c.namespace, c.body.uid, c.hash));
      CallKeepsLists(s.lists, add);
      LookupAfterCall(s.lists, add, q);
    }
  }

  lemma {:induction false} SubmissionsKeepOthers(w: World, known: seq<Key>, items: seq<Channel>, e: nat -> ItemEvents, k: nat, q: Key)
    requires WellKept(w.lists) && k <= |items| && Missing(items, q)
    ensures var after := SubmitUpTo(w, known, items, e, k).0.lists; WellKept(after) && Lookup(after, q) == Lookup(w.lists, q)
  {
    hide WellKept, Lookup, ChannelSubmitted;
    if k > 0 {
      SubmissionsKeepOthers(w, known, items, e, k - 1, q);
      StepKeepsOthers(SubmitUpTo(w, known, items, e, k - 1).0, known, items[k - 1], e(k - 1), q);
    }
  }

  lemma {:induction false} ConcatenatedMembers(m: Lists, order: seq<string>, r: Ref)
    requires forall ns :: ns in order ==> ns in m
    ensures r in Concatenated(m, order) <==> exists ns :: ns in order && r in m[ns]
  {
    if order != [] {
      var rest, last := order[..|order| - 1], order[|order| - 1];
      assert order == rest + [last];
      ConcatenatedMembers(m, rest, r);
    }
  }

  /** A cluster-wide listing holds exactly the entries of the registry. */
  lemma ListedIsKnown(m: Lists, known: seq<Ref>, r: Ref)
    requires WellKept(m) && Listed(m, "", known)
    ensures r in known <==> Lookup(m, Key(r.namespace, r.name)) == Some(r)
  {
    var order :| Enumerates(order, m.Keys) && known == Concatenated(m, order);
    ConcatenatedMembers(m, order, r);
    if r in known {
      var ns :| ns in order && r in m[ns];
      assert ListKept(ns, m[ns]);
      var i :| 0 <= i < |m[ns]| && m[ns][i] == r;
      FindIs(m[ns], ns, i);
    }
    if Lookup(m, Key(r.namespace, r.name)) == Some(r) {
      assert r.namespace in order && r in m[r.namespace];
    }
  }

  lemma StaleIsMissing(m: Lists, known: seq<Ref>, items: seq<Channel>, q: Key)
    requires WellKept(m) && Listed(m, "", known)
    ensures
      var stale := StaleRefs(known, items);
      (exists i :: 0 <= i < |stale| && Key(stale[i].namespace, stale[i].name) == q) <==>
        Lookup(m, q).Some? && !InNamespace(items, q.name)
  {
    hide Lookup, WellKept, Listed;
    var stale := StaleRefs(known, items);
    if i :| 0 <= i < |stale| && Key(stale[i].namespace, stale[i].name) == q {
      StaleMembers(known, items, stale[i]);
      ListedIsKnown(m, known, stale[i]);
    }
    if Lookup(m, q).Some? && !InNamespace(items, q.name) {
      var r := Lookup(m, q).value;
      LookupHasKey(m, q);
      ListedIsKnown(m, known, r);
      StaleMembers(known, items, r);
      var i :| 0 <= i < |stale| && stale[i] == r;
      assert Key(stale[i].namespace, stale[i].name) == q;
    }
  }

  lemma LookupHasKey(m: Lists, q: Key)
    requires WellKept(m) && Lookup(m, q).Some?
    ensures Key(Lookup(m, q).value.namespace, Lookup(m, q).value.name) == q
  {
    assert ListKept(q.namespace, m[q.namespace]);
  }

  // ----- whether the function gets through -----

  /** A changed channel whose JSON is not a channel, or has no UID, given the hash it is compared with. */
  predicate Stops(c: Channel, hash: string) {
    c.matches && (c.body.Mistyped? || c.body.NoUid?) && c.hash != hash
  }

  /** The resource stops the function when compared with the hash that earlier resources leave for the first listed
      reference of its name. */
  ghost predicate StopsAt(w: World, known: seq<Key>, items: seq<Channel>, e: nat -> ItemEvents, i: nat)
    requires i < |items|
  {
    Stops(items[i], KnownHash(known, SubmitUpTo(w, known, items, e, i).0.lists, items[i].name))
  }

  /** In general the function gets through exactly when no resource stops it in its turn. */
  lemma {:induction false} GoingIff(w: World, known: seq<Key>, items: seq<Channel>, e: nat -> ItemEvents, k: nat)
    requires k <= |items|
    ensures SubmitUpTo(w, known, items, e, k).1.Going? <==> forall i :: 0 <= i < k ==> !StopsAt(w, known, items, e, i)
  {
    if k > 0 {
      GoingIff(w, known, items, e, k - 1);
      GoesOn(w, known, items, e, k);
      hide SubmitUpTo, StopsAt;
    }
  }

  lemma GoesOn(w: World, known: seq<Key>, items: seq<Channel>, e: nat -> ItemEvents, k: nat)
    requires 0 < k <= |items|
    ensures SubmitUpTo(w, known, items, e, k).1.Going? <==>
      SubmitUpTo(w, known, items, e, k - 1).1.Going? && !StopsAt(w, known, items, e, k - 1)
  {
    StopsOrGoes(SubmitUpTo(w, known, items, e, k - 1).0, known, items[k - 1], e(k - 1));
    hide ChannelSubmitted, KnownHash, Stops;
  }

  lemma StopsOrGoes(s: World, known: seq<Key>, c: Channel, e: ItemEvents)
    ensures ChannelSubmitted(s, known, c, e).1.Going? <==> !Stops(c, KnownHash(known, s.lists, c.name))
  {
    hide KnownHash, Written, Recorded;
  }

  ghost predicate DistinctNames(items: seq<Channel>) {
    forall i, j :: 0 <= i < j < |items| ==> items[i].name != items[j].name
  }

  /** References of a name that no processed resource has are as they were. */
  lemma {:induction false} SameHash(known: seq<Key>, before: Lists, now: Lists, name: string)
    requires forall k :: k in known && k.name == name ==> Lookup(now, k) == Lookup(before, k)
    ensures KnownHash(known, now, name) == KnownHash(known, before, name)
  {
    hide Lookup;
    if known != [] && known[0].name != name {
      assert forall k :: k in known[1..] ==> k in known;
      SameHash(known[1..], before, now, name);
    }
  }

  lemma {:induction false} SubmissionsKeepName(w: World, known: seq<Key>, items: seq<Channel>, e: nat -> ItemEvents, k: nat, q: Key)
    requires WellKept(w.lists) && k <= |items| && forall i :: 0 <= i < k ==> items[i].name != q.name
    ensures var after := SubmitUpTo(w, known, items, e, k).0.lists; WellKept(after) && Lookup(after, q) == Lookup(w.lists, q)
  {
    hide WellKept, Lookup, ChannelSubmitted;
    if k > 0 {
      SubmissionsKeepName(w, known, items, e, k - 1, q);
      StepKeepsOthers(SubmitUpTo(w, known, items, e, k - 1).0, known, items[k - 1], e(k - 1), q);
    }
  }

  /** With names that are distinct across namespaces: no channel stops the function when compared with the hash that is
      recorded before the round for the first listed reference of its name. */
  ghost predicate NoneStops(lists: Lists, known: seq<Key>, items: seq<Channel>) {
    forall i :: 0 <= i < |items| ==> !Stops(items[i], KnownHash(known, lists, items[i].name))
  }

  lemma GoingIffNoneStops(w: World, known: seq<Key>, items: seq<Channel>, e: nat -> ItemEvents)
    requires WellKept(w.lists) && DistinctNames(items)
    ensures SubmitUpTo(w, known, items, e, |items|).1.Going? <==> NoneStops(w.lists, known, items)
  {
    hide WellKept, Lookup, SubmitUpTo, Stops, KnownHash;
    GoingIff(w, known, items, e, |items|);
    forall i | 0 <= i < |items|
      ensures KnownHash(known, SubmitUpTo(w, known, items, e, i).0.lists, items[i].name) == KnownHash(known, w.lists, items[i].name)
    {
      forall k | k in known && k.name == items[i].name
        ensures Lookup(SubmitUpTo(w, known, items, e, i).0.lists, k) == Lookup(w.lists, k)
      {
        SubmissionsKeepName(w, known, items, e, i, k);
      }
      SameHash(known, w.lists, SubmitUpTo(w, known, items, e, i).0.lists, items[i].name);
    }
    assert forall i :: 0 <= i < |items| ==>
      (StopsAt(w, known, items, e, i) <==> Stops(items[i], KnownHash(known, w.lists, items[i].name)));
  }

  /** Exactness with any number of namespaces, resource names that are distinct across them, and any faults: a known
      channel that is missing from the cluster is forgotten by a cluster-wide round if and only if the listing succeeds,
      no resource stops the function, and none, in whatever namespace, has the name of the channel. */
  lemma MissingForgottenIff(w: World, known: seq<Ref>, items: seq<Channel>, e: Events, q: Key)
    requires WellKept(w.lists) && Listed(w.lists, "", known) && Lookup(w.lists, q).Some? && Missing(items, q)
    requires DistinctNames(items)
    ensures Lookup(Round(w, known, items, e).0.lists, q).None? <==>
      !e.listFails && NoneStops(w.lists, KeysOf(known), items) && !InNamespace(items, q.name)
  {
    hide Lookup, WellKept, Listed, StaleRefs, DeleteUpTo, Missing, SubmitUpTo, NoneStops;
    MissingForgottenByOutcome(w, known, items, e, q);
    GoingIffNoneStops(w, KeysOf(known), items, e.item);
  }

  /** With names that occur in several namespaces the same holds in terms of the outcome of the submissions, which
      `GoingIff` characterises. */
  lemma MissingForgottenByOutcome(w: World, known: seq<Ref>, items: seq<Channel>, e: Events, q: Key)
    requires WellKept(w.lists) && Listed(w.lists, "", known) && Lookup(w.lists, q).Some? && Missing(items, q)
    ensures Lookup(Round(w, known, items, e).0.lists, q).None? <==>
      Round(w, known, items, e).1.Going? && !InNamespace(items, q.name)
  {
    hide Lookup, WellKept, Listed, StaleRefs, DeleteUpTo, Missing, SubmitUpTo;
    if !e.listFails {
      var sent := SubmitUpTo(w, KeysOf(known), items, e.item, |items|);
      SubmissionsKeepOthers(w, KeysOf(known), items, e.item, |items|, q);
      if sent.1.Going? {
        var stale := StaleRefs(known, items);
        DeleteEntries(sent.0, stale, e.deletion, |stale|, q);
        StaleIsMissing(w.lists, known, items, q);
      }
    }
  }
}
