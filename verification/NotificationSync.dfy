/** One round of the notification channel controller: submit new and changed channels, then delete the channels
    that are gone. */
module NotificationSync {
  import opened Wrappers
  import opened NotificationConfig

  /** What the JSON of a resource amounts to: there is none, it does not parse, it parses but not as a channel, it is a
      channel without a UID, or one with a UID. */
  datatype Body = NoJson | Malformed | Mistyped | NoUid | HasUid(uid: string)

  /** A channel resource; `hash` is the hash of its JSON. */
  datatype Channel = Channel(namespace: string, name: string, matches: bool, hash: string, body: Body)

  datatype Request = Get(uid: string) | Create(uid: string) | Update(uid: string) | Delete(uid: string)

  /** Grafana holds channels by UID; the content is the hash of the JSON it was given. */
  datatype Server = Server(channels: map<string, string>, requests: seq<Request>)

  /** Done: carried out and confirmed. Failed: not carried out. Lost: carried out, but the caller sees an error. */
  datatype Answer = Done | Failed | Lost

  datatype ItemEvents = ItemEvents(lookupFails: bool, write: Answer)

  datatype Events = Events(listFails: bool, item: nat -> ItemEvents, deletion: nat -> Answer)

  const FAULT_FREE := Events(false, (_: nat) => ItemEvents(false, Done), (_: nat) => Done)

  datatype World = World(lists: Lists, server: Server)

  /** How the function ends: it goes on, it returns an error, or it dereferences a missing UID. */
  datatype Outcome = Going | Aborted | Panicked

  // ----- the client -----

  function Asked(s: Server, r: Request): Server {
    s.(requests := s.requests + [r])
  }

  function Stored(s: Server, uid: string, content: string): Server {
    s.(channels := s.channels[uid := content])
  }

  /** Grafana refuses to create a UID twice. */
  function Created(s: Server, uid: string, content: string, answer: Answer): (Server, bool) {
    var asked := Asked(s, Create(uid));
    if answer.Failed? || uid in s.channels then (asked, false) else (Stored(asked, uid, content), answer.Done?)
  }

  function Updated(s: Server, uid: string, content: string, answer: Answer): (Server, bool) {
    var asked := Asked(s, Update(uid));
    if answer.Failed? || uid !in s.channels then (asked, false) else (Stored(asked, uid, content), answer.Done?)
  }

  function Deleted(s: Server, uid: string, answer: Answer): Server {
    var asked := Asked(s, Delete(uid));
    if answer.Failed? then asked else asked.(channels := asked.channels - {uid})
  }

  class Client {
    var server: Server

    constructor (s: Server)
      ensures server == s
    {
      server := s;
    }

    method GetNotificationChannel(uid: string, fails: bool) returns (found: bool)
      modifies this
      ensures server == Asked(old(server), Get(uid))
      ensures found <==> !fails && uid in old(server).channels
    {
      server := Asked(server, Get(uid));
      found := !fails && uid in server.channels;
    }

    method CreateNotificationChannel(uid: string, content: string, answer: Answer) returns (ok: bool)
      modifies this
      ensures (server, ok) == Created(old(server), uid, content, answer)
    {
      server, ok := Created(server, uid, content, answer).0, Created(server, uid, content, answer).1;
    }

    method UpdateNotificationChannel(uid: string, content: string, answer: Answer) returns (ok: bool)
      modifies this
      ensures (server, ok) == Updated(old(server), uid, content, answer)
    {
      server, ok := Updated(server, uid, content, answer).0, Updated(server, uid, content, answer).1;
    }

    method DeleteNotificationChannelByUID(uid: string, answer: Answer)
      modifies this
      ensures server == Deleted(old(server), uid, answer)
    {
      server := Deleted(server, uid, answer);
    }
  }

  // ----- one round, on values -----

  function KeysOf(l: seq<Ref>): (r: seq<Key>)
    ensures |r| == |l| && forall i :: 0 <= i < |l| ==> r[i] == Key(l[i].namespace, l[i].name)
  {
    seq(|l|, i requires 0 <= i < |l| => Key(l[i].namespace, l[i].name))
  }

  function KeyOf(c: Channel): Key {
    Key(c.namespace, c.name)
  }

  ghost predicate InNamespace(items: seq<Channel>, name: string) {
    exists c :: c in items && c.name == name
  }

  /** The hash of the first known reference with that name, as it is at the time of asking: `known` shares its
      references with the registry, which may have updated them since. */
  ghost function KnownHash(known: seq<Key>, lists: Lists, name: string): string {
    if known == [] then ""
    else if known[0].name == name then
      match Lookup(lists, known[0])
      case None => ""
      case Some(r) => r.hash
    else KnownHash(known[1..], lists, name)
  }

  function Recorded(lists: Lists, c: Channel, uid: string): Lists {
    Added(lists, Submitted(c.name, c.namespace, uid, c.hash))
  }

  function Written(s: Server, c: Channel, uid: string, e: ItemEvents): (Server, bool) {
    var asked := Asked(s, Get(uid));
    if e.lookupFails || uid !in s.channels then Created(asked, uid, c.hash, e.write)
    else Updated(asked, uid, c.hash, e.write)
  }

  ghost function ChannelSubmitted(w: World, known: seq<Key>, c: Channel, e: ItemEvents): (World, Outcome) {
    if !c.matches || c.body.NoJson? || c.hash == KnownHash(known, w.lists, c.name) then (w, Going)
    else
      match c.body
      case Malformed => (w, Going)
      case Mistyped => (w, Aborted)
      case NoUid => (w, Panicked)
      case HasUid(uid) =>
        var (server, ok) := Written(w.server, c, uid, e);
        (World(if ok then Recorded(w.lists, c, uid) else w.lists, server), Going)
  }

  /** The whole effect of one submission, under any answers: a channel is sent when it matches, is new or changed, and
      its JSON holds a UID; other JSON is skipped, stops the loop or makes it panic. */
  lemma SubmissionDecides(w: World, known: seq<Key>, c: Channel, e: ItemEvents)
    ensures
      var (w', outcome) := ChannelSubmitted(w, known, c, e);
      var due := c.matches && !c.body.NoJson? && c.hash != KnownHash(known, w.lists, c.name);
      var sent := due && c.body.HasUid?;
      var found := sent && !e.lookupFails && c.body.uid in w.server.channels;
      var stored := sent && (e.write == Done || e.write == Lost) && (found || c.body.uid !in w.server.channels);
      && (outcome.Aborted? <==> due && c.body.Mistyped?)
      && (outcome.Panicked? <==> due && c.body.NoUid?)
      && w'.server.requests == w.server.requests +
           (if found then [Get(c.body.uid), Update(c.body.uid)] else if sent then [Get(c.body.uid), Create(c.body.uid)] else [])
      && w'.server.channels == (if stored then w.server.channels[c.body.uid := c.hash] else w.server.channels)
      && w'.lists == if stored && e.write == Done
           then OnLists(w.lists, Add(Submitted(c.name, c.namespace, c.body.uid, c.hash))) else w.lists
  {
    hide KnownHash, NotificationConfig.Added;
  }

  ghost function SubmitUpTo(w: World, known: seq<Key>, items: seq<Channel>, e: nat -> ItemEvents, k: nat): (World, Outcome)
    requires k <= |items|
  {
    if k == 0 then (w, Going)
    else
      var before := SubmitUpTo(w, known, items, e, k - 1);
      if before.1.Going? then ChannelSubmitted(before.0, known, items[k - 1], e(k - 1)) else before
  }

  ghost function StaleRefs(refs: seq<Ref>, items: seq<Channel>): seq<Ref> {
    if refs == [] then []
    else
      var last := refs[|refs| - 1];
      var rest := StaleRefs(refs[..|refs| - 1], items);
      if InNamespace(items, last.name) then rest else rest + [last]
  }

  /** The registry forgets a channel whether or not Grafana deleted it. */
  ghost function Forgotten(w: World, r: Ref, answer: Answer): World {
    World(Removed(w.lists, r.namespace, r.name), Deleted(w.server, r.uid, answer))
  }

  ghost function DeleteUpTo(w: World, stale: seq<Ref>, e: nat -> Answer, k: nat): World
    requires k <= |stale|
  {
    if k == 0 then w else Forgotten(DeleteUpTo(w, stale, e, k - 1), stale[k - 1], e(k - 1))
  }

  /** One deletion request for each stale channel, in order, whatever becomes of the earlier ones. */
  lemma {:induction false} DeletionsRequested(w: World, stale: seq<Ref>, e: nat -> Answer, k: nat)
    requires k <= |stale|
    ensures DeleteUpTo(w, stale, e, k).server.requests ==
      w.server.requests + seq(k, i requires 0 <= i < k => Delete(stale[i].uid))
  {
    if k > 0 {
      DeletionsRequested(w, stale, e, k - 1);
    }
  }

  ghost function Round(w: World, known: seq<Ref>, items: seq<Channel>, e: Events): (World, Outcome) {
    if e.listFails then (w, Aborted)
    else
      var sent := SubmitUpTo(w, KeysOf(known), items, e.item, |items|);
      if sent.1.Going? then
        var stale := StaleRefs(known, items);
        (DeleteUpTo(sent.0, stale, e.deletion, |stale|), Going)
      else sent
  }

  // ----- the controller -----

  lemma ObjectIsLookup(config: Config, r: ChannelRef)
    requires WellKept(config.View()) && r in config.Objects()
    ensures Lookup(config.View(), Key(r.namespace, r.name)) == Some(r.Value())
  {
    var ns, i :| ns in config.channels && 0 <= i < |config.channels[ns]| && config.channels[ns][i] == r;
    var l := config.View()[ns];
    assert l[i] == r.Value() && ListKept(ns, l);
    FindIs(l, ns, i);
  }

  method FindName(items: seq<Channel>, name: string) returns (found: bool)
    ensures found <==> InNamespace(items, name)
  {
    for i := 0 to |items|
      invariant forall j | 0 <= j < i :: items[j].name != name
    {
      if items[i].name == name {
        assert items[i] in items;
        return true;
      }
    }
    return false;
  }

  lemma AbortSticks(w: World, known: seq<Key>, items: seq<Channel>, e: nat -> ItemEvents, k: nat, n: nat)
    requires k <= n <= |items| && !SubmitUpTo(w, known, items, e, k).1.Going?
    ensures SubmitUpTo(w, known, items, e, n) == SubmitUpTo(w, known, items, e, k)
  {
  }

  class Reconciler {
    const config: Config
    const client: Client

    constructor (config: Config, client: Client)
      ensures this.config == config && this.client == client
    {
      this.config, this.client := config, client;
    }

    ghost function State(): World
      reads config, config.Objects(), client
    {
      World(config.View(), client.server)
    }

    ghost predicate Valid()
      reads config, config.Objects()
    {
      config.Valid() && WellKept(config.View())
    }

    method FindHash(known: seq<ChannelRef>, c: Channel) returns (hash: string)
      requires Valid() && forall r :: r in known ==> r in config.Objects()
      ensures hash == KnownHash(KeysOf(Values(known)), config.View(), c.name)
    {
      ghost var keys := KeysOf(Values(known));
      for i := 0 to |known|
        invariant KnownHash(keys, config.View(), c.name) == KnownHash(keys[i..], config.View(), c.name)
      {
        if c.name == known[i].name {
          ObjectIsLookup(config, known[i]);
          return known[i].hash;
        }
        assert keys[i..][1..] == keys[i + 1..];
      }
      return "";
    }

    method WriteChannel(c: Channel, uid: string, e: ItemEvents) returns (ok: bool)
      modifies client
      ensures (client.server, ok) == Written(old(client.server), c, uid, e)
    {
      var found := client.GetNotificationChannel(uid, e.lookupFails);
      if !found {
        ok := client.CreateNotificationChannel(uid, c.hash, e.write);
      } else {
        ok := client.UpdateNotificationChannel(uid, c.hash, e.write);
      }
    }

    /** Records the channel with the UID and hash that its status now has. */
    method ManageSuccess(c: Channel, uid: string)
      requires Valid()
      modifies config, config.Objects()
      ensures Valid() && old(config.Objects()) <= config.Objects() && fresh(config.Objects() - old(config.Objects()))
      ensures forall r :: r in old(config.Objects()) ==>
        r.name == old(r.name) && r.namespace == old(r.namespace) && (old(r.name) != c.name ==> r.Value() == old(r.Value()))
      ensures config.View() == Recorded(old(config.View()), c, uid)
    {
      var submitted := Submitted(c.name, c.namespace, uid, c.hash);
      CallKeepsLists(config.View(), Add(submitted));
      hide ListedOnce, WellKept, AddedTo;
      config.AddNotificationChannel(submitted);
    }

    method SendChannel(c: Channel, uid: string, e: ItemEvents)
      requires Valid()
      modifies config, config.Objects(), client
      ensures Valid() && old(config.Objects()) <= config.Objects() && fresh(config.Objects() - old(config.Objects()))
      ensures forall r :: r in old(config.Objects()) ==>
        r.name == old(r.name) && r.namespace == old(r.namespace) && (old(r.name) != c.name ==> r.Value() == old(r.Value()))
      ensures
        var (server, ok) := Written(old(client.server), c, uid, e);
        State() == World(if ok then Recorded(old(config.View()), c, uid) else old(config.View()), server)
    {
      hide ListedOnce, ListKept, Written, Recorded;
      var ok := WriteChannel(c, uid, e);
      if ok {
        ManageSuccess(c, uid);
      }
    }

    method SubmitChannel(known: seq<ChannelRef>, c: Channel, e: ItemEvents) returns (outcome: Outcome)
      requires Valid() && forall r :: r in known ==> r in config.Objects()
      modifies config, config.Objects(), client
      ensures Valid() && old(config.Objects()) <= config.Objects() && fresh(config.Objects() - old(config.Objects()))
      ensures KeysOf(Values(known)) == old(KeysOf(Values(known)))
      ensures forall r :: r in old(config.Objects()) && old(r.name) != c.name ==> r.Value() == old(r.Value())
      ensures (State(), outcome) == ChannelSubmitted(old(State()), old(KeysOf(Values(known))), c, e)
    {
      hide ListedOnce, ListKept, Written, Added, KnownHash;
      if !c.matches {
        return Going;
      }
      var knownHash := FindHash(known, c);
      if c.body.NoJson? || c.hash == knownHash || c.body.Malformed? {
        return Going;
      }
      if c.body.Mistyped? {
        return Aborted;
      }
      if c.body.NoUid? {
        return Panicked;
      }
      var uid := c.body.uid;
      SendChannel(c, uid, e);
      return Going;
    }

    method ChannelsToDelete(known: seq<ChannelRef>, items: seq<Channel>) returns (stale: seq<ChannelRef>)
      ensures Values(stale) == StaleRefs(Values(known), items)
      ensures forall r :: r in stale ==> r in known && !InNamespace(items, r.name)
    {
      stale := [];
      for i := 0 to |known|
        invariant Values(stale) == StaleRefs(Values(known[..i]), items)
        invariant forall r :: r in stale ==> r in known && !InNamespace(items, r.name)
      {
        assert Values(known[..i + 1])[..i] == Values(known[..i]);
        var found := FindName(items, known[i].name);
        if !found {
          assert Values(stale + [known[i]]) == Values(stale) + [known[i].Value()];
          stale := stale + [known[i]];
        }
      }
      assert known[..|known|] == known;
    }

    method DeleteChannel(r: ChannelRef, answer: Answer)
      requires Valid()
      modifies config, client
      ensures Valid() && config.Objects() <= old(config.Objects())
      ensures State() == Forgotten(old(State()), r.Value(), answer)
    {
      hide ListedOnce, WellKept, AddedTo, RemovedFrom, Deleted;
      CallKeepsLists(config.View(), Remove(r.namespace, r.name));
      client.DeleteNotificationChannelByUID(r.uid, answer);
      config.RemoveNotificationChannel(r.namespace, r.name);
    }

    method DeleteChannels(stale: seq<ChannelRef>, e: nat -> Answer)
      requires Valid()
      modifies config, client
      ensures Valid() && config.Objects() <= old(config.Objects())
      ensures State() == DeleteUpTo(old(State()), Values(stale), e, |stale|)
    {
      hide ListedOnce, WellKept, Forgotten, ViewOf;
      for k := 0 to |stale|
        invariant Valid() && config.Objects() <= old(config.Objects())
        invariant State() == DeleteUpTo(old(State()), Values(stale), e, k)
      {
        DeleteChannel(stale[k], e(k));
      }
    }

    method SubmitChannels(known: seq<ChannelRef>, items: seq<Channel>, e: nat -> ItemEvents) returns (outcome: Outcome)
      requires Valid() && forall r :: r in known ==> r in config.Objects()
      modifies config, config.Objects(), client
      ensures Valid() && old(config.Objects()) <= config.Objects() && fresh(config.Objects() - old(config.Objects()))
      ensures forall r :: r in old(config.Objects()) && !InNamespace(items, old(r.name)) ==> r.Value() == old(r.Value())
      ensures (State(), outcome) == SubmitUpTo(old(State()), old(KeysOf(Values(known))), items, e, |items|)
    {
      hide ListedOnce, WellKept, ChannelSubmitted, ViewOf, KeysOf;
      ghost var keys := KeysOf(Values(known));
      for i := 0 to |items|
        invariant Valid() && old(config.Objects()) <= config.Objects() && fresh(config.Objects() - old(config.Objects()))
        invariant KeysOf(Values(known)) == keys
        invariant forall r :: r in old(config.Objects()) && !InNamespace(items, old(r.name)) ==> r.Value() == old(r.Value())
        invariant (State(), Going) == SubmitUpTo(old(State()), keys, items, e, i)
      {
        assert items[i] in items && InNamespace(items, items[i].name);
        outcome := SubmitChannel(known, items[i], e(i));
        if !outcome.Going? {
          AbortSticks(old(State()), keys, items, e, i + 1, |items|);
          return;
        }
      }
      outcome := Going;
    }

    method ReconcileNotificationChannels(namespace: string, items: seq<Channel>, e: Events) returns (outcome: Outcome)
      requires Valid()
      modifies config, config.Objects(), client
      ensures Valid() && fresh(config.Objects() - old(config.Objects()))
      ensures exists known :: Listed(old(State()).lists, namespace, known) && (State(), outcome) == Round(old(State()), known, items, e)
    {
      hide ListedOnce, WellKept, SubmitUpTo, StaleRefs, DeleteUpTo, Listed;
      var known := config.GetNotificationChannels(namespace);
      ghost var listed := Values(known);
      if e.listFails {
        assert (State(), Aborted) == Round(old(State()), listed, items, e);
        return Aborted;
      }
      var channelsToDelete := ChannelsToDelete(known, items);
      ghost var stale := Values(channelsToDelete);
      outcome := SubmitChannels(known, items, e.item);
      if outcome.Going? {
        forall k | 0 <= k < |stale|
          ensures channelsToDelete[k].Value() == stale[k]
        {
          assert channelsToDelete[k] in channelsToDelete;
        }
        assert Values(channelsToDelete) == stale;
        DeleteChannels(channelsToDelete, e.deletion);
      }
      assert (State(), outcome) == Round(old(State()), listed, items, e);
    }
  }
}
