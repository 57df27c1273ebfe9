/** The registry of known notification channels: one list of references per namespace. References are objects that
    are updated in place, so the lists that callers hold see the updates. */
module NotificationConfig {
  import opened Wrappers
  import opened Seqs

  /** A reference, as a value. */
  datatype Ref = Ref(name: string, namespace: string, uid: string, hash: string)

  /** What a submitted channel brings along: its identity, and the UID and hash of its status. */
  datatype Submitted = Submitted(name: string, namespace: string, uid: string, hash: string)

  datatype Key = Key(namespace: string, name: string)

  type Lists = map<string, seq<Ref>>

  // ----- the lists, on values -----

  function IndexIn(l: seq<Ref>, name: string): (r: Option<nat>)
    ensures r.Some? ==> r.value < |l| && l[r.value].name == name && forall j :: 0 <= j < r.value ==> l[j].name != name
    ensures r.None? ==> forall j :: 0 <= j < |l| ==> l[j].name != name
  {
    if l == [] then None
    else
      var i := IndexIn(l[..|l| - 1], name);
      if i.Some? then i
      else if l[|l| - 1].name == name then Some(|l| - 1)
      else None
  }

  function ListFor(m: Lists, namespace: string): seq<Ref> {
    if namespace in m then m[namespace] else []
  }

  function NewRef(c: Submitted): Ref {
    Ref(c.name, c.namespace, c.uid, c.hash)
  }

  /** An existing reference keeps its name and takes over the rest. */
  function AddedTo(l: seq<Ref>, c: Submitted): seq<Ref> {
    match IndexIn(l, c.name)
    case None => l + [NewRef(c)]
    case Some(i) => l[i := l[i].(namespace := c.namespace, uid := c.uid, hash := c.hash)]
  }

  function RemovedFrom(l: seq<Ref>, name: string): seq<Ref> {
    match IndexIn(l, name)
    case None => l
    case Some(i) => l[i := l[|l| - 1]][..|l| - 1]
  }

  /** Removal puts the last reference in the place of the first one with the name, and leaves the others in place. */
  lemma RemovalSwaps(l: seq<Ref>, name: string, i: nat)
    requires i < |l| && l[i].name == name && forall j :: 0 <= j < i ==> l[j].name != name
    ensures |RemovedFrom(l, name)| == |l| - 1
    ensures forall j :: 0 <= j < |l| - 1 ==> RemovedFrom(l, name)[j] == if j == i then l[|l| - 1] else l[j]
  {
  }

  function Added(m: Lists, c: Submitted): Lists {
    m[c.namespace := AddedTo(ListFor(m, c.namespace), c)]
  }

  function Removed(m: Lists, namespace: string, name: string): Lists {
    if namespace in m then m[namespace := RemovedFrom(m[namespace], name)] else m
  }

  function ClearedList(l: seq<Ref>): (r: seq<Ref>)
    ensures |r| == |l| && forall i :: 0 <= i < |l| ==> r[i] == l[i].(hash := "")
  {
    seq(|l|, i requires 0 <= i < |l| => l[i].(hash := ""))
  }

  function Invalidated(m: Lists): Lists {
    map ns | ns in m :: ClearedList(m[ns])
  }

  // ----- the map they stand for -----

  ghost predicate ListKept(namespace: string, l: seq<Ref>) {
    && (forall i :: 0 <= i < |l| ==> l[i].namespace == namespace)
    && (forall i, j :: 0 <= i < j < |l| ==> l[i].name != l[j].name)
  }

  ghost predicate WellKept(m: Lists) {
    forall ns :: ns in m ==> ListKept(ns, m[ns])
  }

  function Find(l: seq<Ref>, name: string): (r: Option<Ref>)
    ensures r.Some? ==> r.value in l && r.value.name == name
    ensures r.None? ==> forall i :: 0 <= i < |l| ==> l[i].name != name
  {
    match IndexIn(l, name)
    case None => None
    case Some(i) => Some(l[i])
  }

  ghost function Lookup(m: Lists, k: Key): Option<Ref> {
    Find(ListFor(m, k.namespace), k.name)
  }

  datatype Call = Add(c: Submitted) | Remove(namespace: string, name: string) | Invalidate

  function OnLists(m: Lists, call: Call): Lists {
    match call
    case Add(c) => Added(m, c)
    case Remove(namespace, name) => Removed(m, namespace, name)
    case Invalidate => Invalidated(m)
  }

  function OnMap(m: map<Key, Ref>, call: Call): map<Key, Ref> {
    match call
    case Add(c) => m[Key(c.namespace, c.name) := NewRef(c)]
    case Remove(namespace, name) => m - {Key(namespace, name)}
    case Invalidate => map k | k in m :: m[k].(hash := "")
  }

  ghost function EntryOf(m: map<Key, Ref>, k: Key): Option<Ref> {
    if k in m then Some(m[k]) else None
  }

  /** The lists hold exactly the entries of the map. */
  ghost predicate StandsFor(lists: Lists, m: map<Key, Ref>) {
    WellKept(lists) && forall k :: Lookup(lists, k) == EntryOf(m, k)
  }

  lemma FindIs(l: seq<Ref>, namespace: string, i: nat)
    requires ListKept(namespace, l) && i < |l|
    ensures Find(l, l[i].name) == Some(l[i])
  {
  }

  lemma AddKeepsList(namespace: string, l: seq<Ref>, c: Submitted)
    requires ListKept(namespace, l) && c.namespace == namespace
    ensures ListKept(namespace, AddedTo(l, c))
  {
  }

  lemma AddedIsFound(namespace: string, l: seq<Ref>, c: Submitted, name: string)
    requires ListKept(namespace, l) && c.namespace == namespace
    ensures Find(AddedTo(l, c), name) == if name == c.name then Some(NewRef(c)) else Find(l, name)
  {
    var l' := AddedTo(l, c);
    AddKeepsList(namespace, l, c);
    hide ListKept;
    var i, j := IndexIn(l, c.name), IndexIn(l, name);
    if name == c.name {
      FindIs(l', namespace, if i.Some? then i.value else |l|);
    } else if j.Some? {
      FindIs(l', namespace, j.value);
    } else {
      assert forall x :: 0 <= x < |l'| ==> l'[x].name != name;
    }
  }

  lemma RemoveKeepsList(namespace: string, l: seq<Ref>, gone: string)
    requires ListKept(namespace, l)
    ensures ListKept(namespace, RemovedFrom(l, gone))
  {
  }

  lemma RemovedIsNotFound(namespace: string, l: seq<Ref>, gone: string, name: string)
    requires ListKept(namespace, l)
    ensures Find(RemovedFrom(l, gone), name) == if name == gone then None else Find(l, name)
  {
    var l' := RemovedFrom(l, gone);
    RemoveKeepsList(namespace, l, gone);
    var i, j := IndexIn(l, gone), IndexIn(l, name);
    if name != gone && i.Some? && j.Some? {
      FindIs(l', namespace, if j.value == |l| - 1 then i.value else j.value);
    }
  }

  lemma ClearKeepsList(namespace: string, l: seq<Ref>)
    requires ListKept(namespace, l)
    ensures ListKept(namespace, ClearedList(l))
  {
  }

  lemma ClearedIsFound(namespace: string, l: seq<Ref>, name: string)
    requires ListKept(namespace, l)
    ensures Find(l, name).None? ==> Find(ClearedList(l), name).None?
    ensures Find(l, name).Some? ==> Find(ClearedList(l), name) == Some(Find(l, name).value.(hash := ""))
  {
  }

  lemma CallKeepsLists(lists: Lists, call: Call)
    requires WellKept(lists)
    ensures WellKept(OnLists(lists, call))
  {
    forall ns | ns in OnLists(lists, call)
      ensures ListKept(ns, OnLists(lists, call)[ns])
    {
      var l := ListFor(lists, ns);
      assert ListKept(ns, l);
      hide ListKept, AddedTo, RemovedFrom, ClearedList;
      match call
      case Add(c) => if c.namespace == ns { AddKeepsList(ns, l, c); }
      case Remove(_, name) => RemoveKeepsList(ns, l, name);
      case Invalidate => ClearKeepsList(ns, l);
    }
  }

  /** What a call does to one entry. */
  ghost function Entry(before: Option<Ref>, k: Key, call: Call): Option<Ref> {
    match call
    case Add(c) => if k == Key(c.namespace, c.name) then Some(NewRef(c)) else before
    case Remove(namespace, name) => if k == Key(namespace, name) then None else before
    case Invalidate => if before.Some? then Some(before.value.(hash := "")) else None
  }

  lemma LookupAfterCall(lists: Lists, call: Call, k: Key)
    requires WellKept(lists)
    ensures Lookup(OnLists(lists, call), k) == Entry(Lookup(lists, k), k, call)
  {
    var l := ListFor(lists, k.namespace);
    assert ListKept(k.namespace, l);
    hide WellKept, ListKept, AddedTo, RemovedFrom, ClearedList, Find;
    match call
    case Add(c) =>
      if c.namespace == k.namespace {
        AddedIsFound(k.namespace, l, c, k.name);
      }
    case Remove(namespace, name) =>
      if namespace == k.namespace {
        RemovedIsNotFound(k.namespace, l, name, k.name);
      }
    case Invalidate =>
      ClearedIsFound(k.namespace, l, k.name);
  }

  lemma EntryAfterCall(m: map<Key, Ref>, call: Call, k: Key)
    ensures EntryOf(OnMap(m, call), k) == Entry(EntryOf(m, k), k, call)
  {
  }

  /** One call on the lists is the corresponding update of the map. */
  lemma CallRefines(lists: Lists, m: map<Key, Ref>, call: Call)
    requires StandsFor(lists, m)
    ensures StandsFor(OnLists(lists, call), OnMap(m, call))
  {
    CallKeepsLists(lists, call);
    hide OnLists, OnMap, Lookup, WellKept, Entry, EntryOf;
    forall k: Key
      ensures Lookup(OnLists(lists, call), k) == EntryOf(OnMap(m, call), k)
    {
      LookupAfterCall(lists, call, k);
      EntryAfterCall(m, call, k);
    }
  }

  ghost function ListsAfter(calls: seq<Call>): Lists {
    if calls == [] then map[] else OnLists(ListsAfter(calls[..|calls| - 1]), calls[|calls| - 1])
  }

  ghost function MapAfter(calls: seq<Call>): map<Key, Ref> {
    if calls == [] then map[] else OnMap(MapAfter(calls[..|calls| - 1]), calls[|calls| - 1])
  }

  /** Under any sequence of calls the lists stand for a map keyed by namespace and name: adding is update,
      swap-removal is deletion, invalidation clears hashes only, lookup is membership; no list has a name twice. */
  lemma {:induction false} ListsRefineMap(calls: seq<Call>)
    ensures StandsFor(ListsAfter(calls), MapAfter(calls))
  {
    if calls != [] {
      ListsRefineMap(calls[..|calls| - 1]);
      CallRefines(ListsAfter(calls[..|calls| - 1]), MapAfter(calls[..|calls| - 1]), calls[|calls| - 1]);
    }
  }

  // ----- listing -----

  ghost function Concatenated(m: Lists, order: seq<string>): seq<Ref>
    requires forall ns :: ns in order ==> ns in m
  {
    if order == [] then [] else Concatenated(m, order[..|order| - 1]) + m[order[|order| - 1]]
  }

  /** What a listing may answer: the list of the namespace, or all lists in some order. */
  ghost predicate Listed(m: Lists, namespace: string, known: seq<Ref>) {
    if namespace != "" then known == ListFor(m, namespace)
    else exists order :: Enumerates(order, m.Keys) && known == Concatenated(m, order)
  }

  /** With one watched namespace both ways of listing give the list of that namespace. */
  lemma OneNamespaceLists(m: Lists, namespace: string, known: seq<Ref>)
    requires m.Keys <= {namespace} && (Listed(m, namespace, known) || Listed(m, "", known))
    ensures known == ListFor(m, namespace)
  {
    if known != ListFor(m, namespace) {
      var order :| Enumerates(order, m.Keys) && known == Concatenated(m, order);
      OneNamespaceOrder(m, namespace, order);
    }
  }

  lemma OneNamespaceOrder(m: Lists, namespace: string, order: seq<string>)
    requires m.Keys <= {namespace} && Enumerates(order, m.Keys)
    ensures Concatenated(m, order) == ListFor(m, namespace)
  {
    if namespace in m {
      assert namespace in order;
      forall i | 0 <= i < |order|
        ensures order[i] == namespace
      {
        assert order[i] in order;
      }
      var first, last := order[0], order[|order| - 1];
      assert first == last;
      assert order == [namespace] && order[..0] == [];
    } else {
      assert m.Keys == {};
      EnumeratesNothing(order, m.Keys);
    }
  }

  // ----- the registry object -----

  class ChannelRef {
    var name: string
    var namespace: string
    var uid: string
    var hash: string

    constructor (c: Submitted)
      ensures Value() == NewRef(c)
    {
      name, namespace, uid, hash := c.name, c.namespace, c.uid, c.hash;
    }

    function Value(): Ref
      reads this
    {
      Ref(name, namespace, uid, hash)
    }
  }

  function Values(l: seq<ChannelRef>): (r: seq<Ref>)
    reads l
    ensures |r| == |l| && forall i :: 0 <= i < |l| ==> r[i] == l[i].Value()
  {
    seq(|l|, i requires 0 <= i < |l| reads l => l[i].Value())
  }

  /** No reference object is listed twice. */
  ghost predicate ListedOnce(m: map<string, seq<ChannelRef>>) {
    forall a, i, b, j :: a in m && 0 <= i < |m[a]| && b in m && 0 <= j < |m[b]| && !(a == b && i == j) ==> m[a][i] != m[b][j]
  }

  lemma AppendedOnce(m: map<string, seq<ChannelRef>>, namespace: string, l: seq<ChannelRef>, ref: ChannelRef)
    requires ListedOnce(m) && l == (if namespace in m then m[namespace] else [])
    requires forall a, i :: a in m && 0 <= i < |m[a]| ==> m[a][i] != ref
    ensures ListedOnce(m[namespace := l + [ref]])
  {
  }

  lemma SwappedOnce(m: map<string, seq<ChannelRef>>, namespace: string, i: nat)
    requires ListedOnce(m) && namespace in m && i < |m[namespace]|
    ensures ListedOnce(m[namespace := m[namespace][i := m[namespace][|m[namespace]| - 1]][..|m[namespace]| - 1]])
  {
  }

  ghost function ObjectsOf(m: map<string, seq<ChannelRef>>): set<ChannelRef> {
    set ns, i | ns in m && 0 <= i < |m[ns]| :: m[ns][i]
  }

  ghost function ViewOf(m: map<string, seq<ChannelRef>>): Lists
    reads ObjectsOf(m)
  {
    map ns | ns in m :: Values(m[ns])
  }

  lemma ViewWithList(m: map<string, seq<ChannelRef>>, namespace: string, l: seq<ChannelRef>)
    ensures ViewOf(m[namespace := l]) == ViewOf(m)[namespace := Values(l)]
    ensures ObjectsOf(m[namespace := l]) <= ObjectsOf(m) + set r | r in l
    ensures namespace in m && (forall r :: r in l ==> r in m[namespace]) ==> ObjectsOf(m[namespace := l]) <= ObjectsOf(m)
    ensures (namespace in m ==> m[namespace] <= l) ==> ObjectsOf(m) <= ObjectsOf(m[namespace := l])
  {
    if namespace in m ==> m[namespace] <= l {
      forall ns, i | ns in m && 0 <= i < |m[ns]|
        ensures m[ns][i] in ObjectsOf(m[namespace := l])
      {
        assert m[namespace := l][ns][i] == m[ns][i];
      }
    }
  }

  lemma SwappedValues(l: seq<ChannelRef>, i: nat, name: string)
    requires IndexIn(Values(l), name) == Some(i)
    ensures Values(l[i := l[|l| - 1]][..|l| - 1]) == RemovedFrom(Values(l), name)
  {
  }

  class Config {
    var channels: map<string, seq<ChannelRef>>

    constructor ()
      ensures channels == map[] && Valid() && View() == map[]
    {
      channels := map[];
    }

    ghost function Objects(): set<ChannelRef>
      reads this
    {
      ObjectsOf(channels)
    }

    ghost predicate Valid()
      reads this
    {
      ListedOnce(channels)
    }

    ghost function View(): Lists
      reads this, Objects()
    {
      ViewOf(channels)
    }

    method HasNotificationChannel(namespace: string, name: string) returns (i: int, found: bool)
      ensures found <==> IndexIn(ListFor(View(), namespace), name).Some?
      ensures i == if found then IndexIn(ListFor(View(), namespace), name).value else -1
    {
      if namespace in channels {
        var l := channels[namespace];
        for k := 0 to |l|
          invariant forall j | 0 <= j < k :: l[j].name != name
        {
          if l[k].name == name {
            return k, true;
          }
        }
      }
      return -1, false;
    }

    method SetList(namespace: string, l: seq<ChannelRef>)
      requires ListedOnce(channels[namespace := l])
      modifies this
      ensures Valid() && View() == old(View())[namespace := Values(l)]
      ensures Objects() <= old(Objects()) + set r | r in l
      ensures namespace in old(channels) && (forall r :: r in l ==> r in old(channels)[namespace]) ==> Objects() <= old(Objects())
      ensures (namespace in old(channels) ==> old(channels)[namespace] <= l) ==> old(Objects()) <= Objects()
    {
      ViewWithList(channels, namespace, l);
      hide ListedOnce, ViewOf, ObjectsOf;
      channels := channels[namespace := l];
    }

    method AppendReference(c: Submitted)
      requires Valid()
      modifies this
      ensures Valid() && old(Objects()) <= Objects() && fresh(Objects() - old(Objects()))
      ensures View() == old(View())[c.namespace := old(ListFor(View(), c.namespace)) + [NewRef(c)]]
    {
      var l := if c.namespace in channels then channels[c.namespace] else [];
      assert ListFor(View(), c.namespace) == Values(l);
      var ref := new ChannelRef(c);
      AppendedOnce(channels, c.namespace, l, ref);
      assert Values(l + [ref]) == Values(l) + [NewRef(c)];
      assert forall r :: r in l ==> r in Objects();
      hide ListedOnce, ViewOf, ObjectsOf;
      SetList(c.namespace, l + [ref]);
    }

    method UpdateReference(i: nat, c: Submitted)
      requires Valid() && c.namespace in channels && i < |channels[c.namespace]|
      modifies Objects()
      ensures Valid() && forall r :: r in Objects() ==> r.name == old(r.name)
      ensures forall r :: r in Objects() && r != channels[c.namespace][i] ==> r.Value() == old(r.Value())
      ensures View() == old(View())[c.namespace := old(View())[c.namespace][i :=
        old(View())[c.namespace][i].(namespace := c.namespace, uid := c.uid, hash := c.hash)]]
    {
      var ref := channels[c.namespace][i];
      ref.namespace := c.namespace;
      ref.uid := c.uid;
      ref.hash := c.hash;
      ghost var was := old(View())[c.namespace];
      ghost var now := was[i := was[i].(namespace := c.namespace, uid := c.uid, hash := c.hash)];
      forall j | 0 <= j < |was|
        ensures channels[c.namespace][j].Value() == now[j]
      {
        assert j != i ==> channels[c.namespace][j] != ref;
      }
      assert Values(channels[c.namespace]) == now;
      forall ns | ns in channels && ns != c.namespace
        ensures Values(channels[ns]) == old(Values(channels[ns]))
      {
        assert forall j :: 0 <= j < |channels[ns]| ==> channels[ns][j] != ref;
      }
    }

    method AddNotificationChannel(c: Submitted)
      requires Valid()
      modifies this, Objects()
      ensures Valid() && old(Objects()) <= Objects() && fresh(Objects() - old(Objects()))
      ensures forall r :: r in old(Objects()) ==> r.name == old(r.name) && (r.name != c.name ==> r.Value() == old(r.Value()))
      ensures old(WellKept(View())) ==> forall r :: r in old(Objects()) ==> r.namespace == old(r.namespace)
      ensures View() == Added(old(View()), c)
    {
      var i, known := HasNotificationChannel(c.namespace, c.name);
      if !known {
        AppendReference(c);
      } else {
        assert old(WellKept(View())) ==> View()[c.namespace][i].namespace == c.namespace;
        UpdateReference(i, c);
      }
    }

    method RemoveAt(namespace: string, i: nat, name: string)
      requires Valid() && namespace in channels && IndexIn(Values(channels[namespace]), name) == Some(i)
      modifies this
      ensures Valid() && Objects() <= old(Objects())
      ensures View() == old(View())[namespace := RemovedFrom(old(View())[namespace], name)]
    {
      SwappedOnce(channels, namespace, i);
      var list := channels[namespace];
      SwappedValues(list, i, name);
      hide ListedOnce, IndexIn, RemovedFrom;
      list := list[i := list[|list| - 1]];
      list := list[..|list| - 1];
      SetList(namespace, list);
    }

    method RemoveNotificationChannel(namespace: string, name: string)
      requires Valid()
      modifies this
      ensures Valid() && Objects() <= old(Objects())
      ensures View() == Removed(old(View()), namespace, name)
    {
      var i, known := HasNotificationChannel(namespace, name);
      if known {
        hide ListedOnce, IndexIn, RemovedFrom;
        RemoveAt(namespace, i, name);
      } else if namespace in channels {
        assert View() == old(View())[namespace := old(View())[namespace]];
      }
    }

    method ClearHashes(list: seq<ChannelRef>)
      modifies list
      ensures forall r :: r in list ==> r.Value() == old(r.Value()).(hash := "")
    {
      for k := 0 to |list|
        invariant forall r :: r in list ==> r.Value() == old(r.Value()) || r.Value() == old(r.Value()).(hash := "")
        invariant forall j :: 0 <= j < k ==> list[j].hash == ""
      {
        list[k].hash := "";
      }
    }

    method ClearNamespace(namespace: string)
      requires Valid() && namespace in channels
      modifies channels[namespace]
      ensures Values(channels[namespace]) == ClearedList(old(Values(channels[namespace])))
      ensures forall ns :: ns in channels && ns != namespace ==> Values(channels[ns]) == old(Values(channels[ns]))
    {
      ClearHashes(channels[namespace]);
      forall ns | ns in channels && ns != namespace
        ensures Values(channels[ns]) == old(Values(channels[ns]))
      {
        assert forall j :: 0 <= j < |channels[ns]| ==> channels[ns][j] !in channels[namespace];
      }
    }

    /** Clears the hash of every reference, through the lists that hold it. */
    method InvalidateNotificationChannels()
      requires Valid()
      modifies Objects()
      ensures Valid() && View() == Invalidated(old(View()))
    {
      hide ListedOnce, ClearedList, Values;
      var left := channels.Keys;
      while left != {}
        invariant left <= channels.Keys
        invariant forall ns :: ns in left ==> Values(channels[ns]) == old(Values(channels[ns]))
        invariant forall ns :: ns in channels && ns !in left ==> Values(channels[ns]) == ClearedList(old(Values(channels[ns])))
        decreases left
      {
        var ns :| ns in left;
        assert forall r :: r in channels[ns] ==> r in Objects();
        ClearNamespace(ns);
        left := left - {ns};
      }
    }

    /** The references of a namespace, or of all of them in the order in which the map happens to be visited. The
        caller shares the reference objects with the registry. */
    method GetNotificationChannels(namespace: string) returns (known: seq<ChannelRef>)
      ensures forall r :: r in known ==> r in Objects()
      ensures Listed(View(), namespace, Values(known))
    {
      if namespace != "" {
        return if namespace in channels then channels[namespace] else [];
      }
      known := [];
      ghost var order: seq<string> := [];
      var left := channels.Keys;
      while left != {}
        invariant left <= channels.Keys && forall r :: r in known ==> r in Objects()
        invariant Enumerates(order, channels.Keys - left) && Values(known) == Concatenated(View(), order)
        decreases left
      {
        var ns :| ns in left;
        assert Values(known + channels[ns]) == Values(known) + Values(channels[ns]);
        known := known + channels[ns];
        assert (order + [ns])[..|order|] == order;
        order := order + [ns];
        left := left - {ns};
      }
      assert channels.Keys - left == View().Keys;
    }
  }
}
