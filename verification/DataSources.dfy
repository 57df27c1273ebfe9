/** The data source controller: Grafana should hold data sources for the first URL of every resource and no others.
    The controller keeps no registry; it compares URLs with what Grafana lists. */
module DataSources {
  /** A data source in Grafana; the identifier is assigned by Grafana. */
  datatype Source = Source(uid: nat, url: string)

  datatype Request = Create(url: string) | Delete(uid: nat)

  datatype Server = Server(sources: seq<Source>, nextUid: nat, requests: seq<Request>)

  /** A resource lists the URLs of its entries. The controller looks at the first one only. */
  datatype Resource = Resource(urls: seq<string>)

  /** Which calls succeed; creations and deletions are numbered by the position of what they are about. */
  datatype Events = Events(listing: bool, resources: bool, creation: nat -> bool, deletion: nat -> bool)

  const FAULT_FREE := Events(true, true, (_: nat) => true, (_: nat) => true)

  /** How the function ends: completed, with an error, or by indexing an empty list of entries. */
  datatype Outcome = Completed | Refused | Panicked

  // ----- Grafana -----

  ghost predicate WellFormed(s: Server) {
    && (forall i :: 0 <= i < |s.sources| ==> s.sources[i].uid < s.nextUid)
    && (forall i, j :: 0 <= i < j < |s.sources| ==> s.sources[i].uid != s.sources[j].uid)
  }

  function Created(s: Server, url: string, ok: bool): Server {
    var asked := s.(requests := s.requests + [Create(url)]);
    if ok then asked.(sources := s.sources + [Source(s.nextUid, url)], nextUid := s.nextUid + 1) else asked
  }

  function Without(sources: seq<Source>, uid: nat): seq<Source> {
    if sources == [] then []
    else
      var rest := Without(sources[..|sources| - 1], uid);
      if sources[|sources| - 1].uid == uid then rest else rest + [sources[|sources| - 1]]
  }

  function Deleted(s: Server, uid: nat, ok: bool): Server {
    var asked := s.(requests := s.requests + [Delete(uid)]);
    if ok then asked.(sources := Without(s.sources, uid)) else asked
  }

  class Client {
    var server: Server

    constructor (s: Server)
      ensures server == s
    {
      server := s;
    }

    /** The caller ignores a failure, which then reads as an empty list. */
    method GetDatasourceList(ok: bool) returns (sources: seq<Source>)
      ensures sources == if ok then server.sources else []
    {
      return if ok then server.sources else [];
    }

    method CreateGrafanaDatasource(url: string, ok: bool)
      modifies this
      ensures server == Created(old(server), url, ok)
    {
      server := Created(server, url, ok);
    }

    method DeleteDatasourceByUID(uid: nat, ok: bool)
      modifies this
      ensures server == Deleted(old(server), uid, ok)
    {
      server := Deleted(server, uid, ok);
    }
  }

  // ----- one round, on values -----

  function Urls(sources: seq<Source>): (r: seq<string>)
    ensures |r| == |sources| && forall i :: 0 <= i < |sources| ==> r[i] == sources[i].url
  {
    seq(|sources|, i requires 0 <= i < |sources| => sources[i].url)
  }

  /** The first URLs of the resources up to the first resource without entries. */
  function FirstUrls(items: seq<Resource>): seq<string> {
    if items == [] || items[0].urls == [] then [] else [items[0].urls[0]] + FirstUrls(items[1..])
  }

  function CreateUpTo(s: Server, known: seq<string>, wanted: seq<string>, ok: nat -> bool, k: nat): Server
    requires k <= |wanted|
  {
    if k == 0 then s
    else
      var before := CreateUpTo(s, known, wanted, ok, k - 1);
      if wanted[k - 1] in known then before else Created(before, wanted[k - 1], ok(k - 1))
  }

  function Unwanted(known: seq<Source>, wanted: seq<string>): seq<Source> {
    if known == [] then []
    else
      var last := known[|known| - 1];
      var rest := Unwanted(known[..|known| - 1], wanted);
      if last.url in wanted then rest else rest + [last]
  }

  function DeleteUpTo(s: Server, unwanted: seq<Source>, ok: nat -> bool, k: nat): Server
    requires k <= |unwanted|
  {
    if k == 0 then s else Deleted(DeleteUpTo(s, unwanted, ok, k - 1), unwanted[k - 1].uid, ok(k - 1))
  }

  function Round(s: Server, items: seq<Resource>, e: Events): (Server, Outcome) {
    var known := if e.listing then s.sources else [];
    var wanted := FirstUrls(items);
    if !e.resources then (s, Refused)
    else
      var s1 := CreateUpTo(s, Urls(known), wanted, e.creation, |wanted|);
      if |wanted| < |items| then (s1, Panicked)
      else
        var unwanted := Unwanted(known, wanted);
        (DeleteUpTo(s1, unwanted, e.deletion, |unwanted|), Completed)
  }

  // ----- the controller -----

  method CheckDup(known: seq<string>, item: string) returns (found: bool)
    ensures found <==> item in known
  {
    for i := 0 to |known|
      invariant item !in known[..i]
    {
      if item == known[i] {
        return true;
      }
    }
    return false;
  }

  lemma {:induction false} FirstUrlsUpTo(items: seq<Resource>, k: nat)
    requires k <= |items| && forall i :: 0 <= i < k ==> items[i].urls != []
    ensures |FirstUrls(items)| >= k && forall i :: 0 <= i < k ==> FirstUrls(items)[i] == items[i].urls[0]
    ensures k < |items| && items[k].urls == [] ==> |FirstUrls(items)| == k
    ensures |FirstUrls(items)| <= |items|
  {
    if items != [] && items[0].urls != [] {
      FirstUrlsUpTo(items[1..], if k == 0 then 0 else k - 1);
    }
  }

  class Reconciler {
    const client: Client

    constructor (client: Client)
      ensures this.client == client
    {
      this.client := client;
    }

    method SourcesToDelete(known: seq<Source>, wanted: seq<string>) returns (unwanted: seq<Source>)
      ensures unwanted == Unwanted(known, wanted)
    {
      unwanted := [];
      for i := 0 to |known|
        invariant unwanted == Unwanted(known[..i], wanted)
      {
        assert known[..i + 1][..i] == known[..i];
        var found := CheckDup(wanted, known[i].url);
        if !found {
          unwanted := unwanted + [known[i]];
        }
      }
      assert known[..|known|] == known;
    }

    method CreateMissing(knownUrls: seq<string>, items: seq<Resource>, ok: nat -> bool) returns (wanted: seq<string>)
      modifies client
      ensures wanted == FirstUrls(items)
      ensures client.server == CreateUpTo(old(client.server), knownUrls, wanted, ok, |wanted|)
    {
      hide Created;
      wanted := [];
      ghost var all := FirstUrls(items);
      for i := 0 to |items|
        invariant forall j :: 0 <= j < i ==> items[j].urls != []
        invariant i <= |all| && wanted == all[..i]
        invariant client.server == CreateUpTo(old(client.server), knownUrls, all, ok, i)
      {
        FirstUrlsUpTo(items, i);
        if items[i].urls == [] {
          return;
        }
        FirstUrlsUpTo(items, i + 1);
        hide FirstUrls;
        wanted := wanted + [items[i].urls[0]];
        var duplicate := CheckDup(knownUrls, items[i].urls[0]);
        if duplicate {
          continue;
        }
        client.CreateGrafanaDatasource(items[i].urls[0], ok(i));
      }
      FirstUrlsUpTo(items, |items|);
    }

    method DeleteUnwanted(unwanted: seq<Source>, ok: nat -> bool)
      modifies client
      ensures client.server == DeleteUpTo(old(client.server), unwanted, ok, |unwanted|)
    {
      for i := 0 to |unwanted|
        invariant client.server == DeleteUpTo(old(client.server), unwanted, ok, i)
      {
        client.DeleteDatasourceByUID(unwanted[i].uid, ok(i));
      }
    }

    method ReconcileDataSources(items: seq<Resource>, e: Events) returns (outcome: Outcome)
      modifies client
      ensures (client.server, outcome) == Round(old(client.server), items, e)
    {
      var known := client.GetDatasourceList(e.listing);
      if !e.resources {
        return Refused;
      }
      var knownUrls: seq<string> := [];
      for i := 0 to |known|
        invariant knownUrls == Urls(known)[..i]
      {
        knownUrls := knownUrls + [known[i].url];
      }
      assert knownUrls == Urls(known);
      var wanted := CreateMissing(knownUrls, items, e.creation);
      // The source has no guard here: it indexes the empty list of entries.
      if |wanted| < |items| {
        return Panicked;
      }
      var unwanted := SourcesToDelete(known, wanted);
      DeleteUnwanted(unwanted, e.deletion);
      outcome := Completed;
    }
  }

  // ----- what a round achieves -----

  ghost predicate Complete(items: seq<Resource>) {
    forall i :: 0 <= i < |items| ==> items[i].urls != []
  }

  /** How many data sources Grafana holds for a URL. */
  function Holding(sources: seq<Source>, url: string): nat {
    multiset(Urls(sources))[url]
  }

  lemma HoldingSome(sources: seq<Source>, url: string)
    ensures Holding(sources, url) > 0 <==> exists x :: x in sources && x.url == url
  {
  }

  lemma HoldingMore(sources: seq<Source>, x: Source, url: string)
    ensures Holding(sources + [x], url) == Holding(sources, url) + if x.url == url then 1 else 0
  {
    assert Urls(sources + [x]) == Urls(sources) + [x.url];
  }

  lemma CompleteUrls(items: seq<Resource>)
    ensures |FirstUrls(items)| <= |items|
    ensures |FirstUrls(items)| == |items| <==> Complete(items)
  {
  }

  ghost function FirstEmpty(items: seq<Resource>): (i: nat)
    requires !Complete(items)
    ensures i < |items| && items[i].urls == [] && forall j :: 0 <= j < i ==> items[j].urls != []
  {
    if items[0].urls == [] then 0
    else
      assert !Complete(items[1..]) by {
        var i :| 0 <= i < |items| && items[i].urls == [];
        assert items[1..][i - 1].urls == [];
      }
      1 + FirstEmpty(items[1..])
  }

  /** Creation adds data sources with fresh identifiers, for wanted URLs that were not known. */
  lemma {:induction false} CreateAdds(s: Server, known: seq<string>, wanted: seq<string>, ok: nat -> bool, k: nat)
    requires k <= |wanted|
    ensures var after := CreateUpTo(s, known, wanted, ok, k);
      && s.sources <= after.sources && s.nextUid <= after.nextUid
      && (forall x :: x in after.sources ==> x in s.sources || (x.uid >= s.nextUid && x.url in wanted && x.url !in known))
  {
    if k > 0 {
      CreateAdds(s, known, wanted, ok, k - 1);
    }
  }

  lemma {:induction false} CreateWellFormed(s: Server, known: seq<string>, wanted: seq<string>, ok: nat -> bool, k: nat)
    requires WellFormed(s) && k <= |wanted|
    ensures WellFormed(CreateUpTo(s, known, wanted, ok, k))
  {
    if k > 0 {
      CreateWellFormed(s, known, wanted, ok, k - 1);
    }
  }

  lemma {:induction false} CreateHolding(s: Server, known: seq<string>, wanted: seq<string>, ok: nat -> bool, k: nat, url: string)
    requires k <= |wanted| && forall i :: 0 <= i < k ==> ok(i)
    ensures Holding(CreateUpTo(s, known, wanted, ok, k).sources, url) ==
      Holding(s.sources, url) + if url in known then 0 else multiset(wanted[..k])[url]
  {
    if k > 0 {
      var before := CreateUpTo(s, known, wanted, ok, k - 1);
      CreateHolding(s, known, wanted, ok, k - 1, url);
      HoldingMore(before.sources, Source(before.nextUid, wanted[k - 1]), url);
      assert wanted[..k] == wanted[..k - 1] + [wanted[k - 1]];
      hide Holding;
    }
  }

  lemma {:induction false} WithoutKeeps(sources: seq<Source>, uid: nat, x: Source)
    ensures x in Without(sources, uid) <==> x in sources && x.uid != uid
  {
    if sources != [] {
      WithoutKeeps(sources[..|sources| - 1], uid, x);
      assert sources == sources[..|sources| - 1] + [sources[|sources| - 1]];
    }
  }

  lemma {:induction false} WithoutHolding(sources: seq<Source>, uid: nat, url: string)
    requires forall x :: x in sources && x.uid == uid ==> x.url != url
    ensures Holding(Without(sources, uid), url) == Holding(sources, url)
  {
    if sources != [] {
      var rest, last := sources[..|sources| - 1], sources[|sources| - 1];
      WithoutHolding(rest, uid, url);
      HoldingMore(rest, last, url);
      HoldingMore(Without(rest, uid), last, url);
      assert sources == rest + [last];
      hide Holding;
    }
  }

  lemma {:induction false} WithoutUnique(sources: seq<Source>, uid: nat)
    requires forall i, j :: 0 <= i < j < |sources| ==> sources[i].uid != sources[j].uid
    ensures forall i, j :: 0 <= i < j < |Without(sources, uid)| ==> Without(sources, uid)[i].uid != Without(sources, uid)[j].uid
  {
    if sources != [] {
      var rest, last := sources[..|sources| - 1], sources[|sources| - 1];
      WithoutUnique(rest, uid);
      forall x | x in Without(rest, uid)
        ensures x.uid != last.uid
      {
        WithoutKeeps(rest, uid, x);
      }
    }
  }

  lemma {:induction false} DeleteKeeps(s: Server, unwanted: seq<Source>, ok: nat -> bool, k: nat, x: Source)
    requires k <= |unwanted|
    ensures x in DeleteUpTo(s, unwanted, ok, k).sources <==>
      x in s.sources && forall i :: 0 <= i < k && unwanted[i].uid == x.uid ==> !ok(i)
  {
    if k > 0 {
      DeleteKeeps(s, unwanted, ok, k - 1, x);
      WithoutKeeps(DeleteUpTo(s, unwanted, ok, k - 1).sources, unwanted[k - 1].uid, x);
    }
  }

  lemma {:induction false} DeleteWellFormed(s: Server, unwanted: seq<Source>, ok: nat -> bool, k: nat)
    requires k <= |unwanted| && WellFormed(s)
    ensures WellFormed(DeleteUpTo(s, unwanted, ok, k))
  {
    if k > 0 {
      var before := DeleteUpTo(s, unwanted, ok, k - 1);
      DeleteWellFormed(s, unwanted, ok, k - 1);
      WithoutUnique(before.sources, unwanted[k - 1].uid);
      forall x | x in Without(before.sources, unwanted[k - 1].uid)
        ensures x.uid < s.nextUid
      {
        WithoutKeeps(before.sources, unwanted[k - 1].uid, x);
        DeleteNext(s, unwanted, ok, k - 1);
      }
      DeleteNext(s, unwanted, ok, k);
    }
  }

  lemma {:induction false} DeleteNext(s: Server, unwanted: seq<Source>, ok: nat -> bool, k: nat)
    requires k <= |unwanted|
    ensures DeleteUpTo(s, unwanted, ok, k).nextUid == s.nextUid
  {
    if k > 0 {
      DeleteNext(s, unwanted, ok, k - 1);
    }
  }

  lemma {:induction false} DeleteHolding(s: Server, unwanted: seq<Source>, ok: nat -> bool, k: nat, url: string)
    requires k <= |unwanted|
    requires forall x, i :: x in s.sources && 0 <= i < k && unwanted[i].uid == x.uid ==> x.url != url
    ensures Holding(DeleteUpTo(s, unwanted, ok, k).sources, url) == Holding(s.sources, url)
  {
    if k > 0 {
      var before := DeleteUpTo(s, unwanted, ok, k - 1).sources;
      DeleteHolding(s, unwanted, ok, k - 1, url);
      forall x | x in before && x.uid == unwanted[k - 1].uid
        ensures x.url != url
      {
        DeleteKeeps(s, unwanted, ok, k - 1, x);
      }
      WithoutHolding(before, unwanted[k - 1].uid, url);
    }
  }

  lemma {:induction false} UnwantedMembers(known: seq<Source>, wanted: seq<string>, x: Source)
    ensures x in Unwanted(known, wanted) <==> x in known && x.url !in wanted
  {
    if known != [] {
      UnwantedMembers(known[..|known| - 1], wanted, x);
      assert known == known[..|known| - 1] + [known[|known| - 1]];
    }
  }

  lemma UniqueUid(s: Server, x: Source, y: Source)
    requires WellFormed(s) && x in s.sources && y in s.sources && x.uid == y.uid
    ensures x == y
  {
  }

  lemma RoundWellFormed(s: Server, items: seq<Resource>, e: Events)
    requires WellFormed(s)
    ensures WellFormed(Round(s, items, e).0)
  {
    var known, wanted := if e.listing then s.sources else [], FirstUrls(items);
    CreateWellFormed(s, Urls(known), wanted, e.creation, |wanted|);
    var s1 := CreateUpTo(s, Urls(known), wanted, e.creation, |wanted|);
    DeleteWellFormed(s1, Unwanted(known, wanted), e.deletion, |Unwanted(known, wanted)|);
  }

  /** Under any faults, a data source goes only if its URL is not wanted by any resource, everything was listed, every
      resource has an entry, and its own deletion succeeds; so a failed listing deletes nothing. */
  lemma GoneIff(s: Server, items: seq<Resource>, e: Events, x: Source)
    requires WellFormed(s) && x in s.sources
    ensures x !in Round(s, items, e).0.sources <==>
      && e.listing && e.resources && Complete(items)
      && (forall r :: r in items ==> x.url != r.urls[0])
      && (exists i :: 0 <= i < |Unwanted(s.sources, FirstUrls(items))| && Unwanted(s.sources, FirstUrls(items))[i] == x && e.deletion(i))
  {
    var known, wanted := if e.listing then s.sources else [], FirstUrls(items);
    var s1 := CreateUpTo(s, Urls(known), wanted, e.creation, |wanted|);
    CreateAdds(s, Urls(known), wanted, e.creation, |wanted|);
    CompleteUrls(items);
    var unwanted := Unwanted(known, wanted);
    DeleteKeeps(s1, unwanted, e.deletion, |unwanted|, x);
    UnwantedMembers(s.sources, wanted, x);
    forall i | 0 <= i < |unwanted| && unwanted[i].uid == x.uid
      ensures unwanted[i] == x
    {
      UnwantedMembers(known, wanted, unwanted[i]);
      UniqueUid(s, x, unwanted[i]);
    }
    if Complete(items) {
      FirstUrlsUpTo(items, |items|);
      WantedIsFirst(items, x.url);
    }
  }

  lemma WantedIsFirst(items: seq<Resource>, url: string)
    requires Complete(items)
    ensures url in FirstUrls(items) <==> exists r :: r in items && r.urls[0] == url
  {
  }

  ghost function Deletions(s1: Server, known: seq<Source>, wanted: seq<string>): Server {
    DeleteUpTo(s1, Unwanted(known, wanted), FAULT_FREE.deletion, |Unwanted(known, wanted)|)
  }

  lemma WantedStay(s1: Server, known: seq<Source>, wanted: seq<string>, url: string)
    requires WellFormed(s1) && known <= s1.sources && url in wanted
    ensures Holding(Deletions(s1, known, wanted).sources, url) == Holding(s1.sources, url)
  {
    var unwanted := Unwanted(known, wanted);
    forall x, i | x in s1.sources && 0 <= i < |unwanted| && unwanted[i].uid == x.uid
      ensures x.url != url
    {
      UnwantedMembers(known, wanted, unwanted[i]);
      UniqueUid(s1, x, unwanted[i]);
    }
    DeleteHolding(s1, unwanted, FAULT_FREE.deletion, |unwanted|, url);
  }

  lemma UnwantedGo(s1: Server, known: seq<Source>, wanted: seq<string>, url: string)
    requires url !in wanted && forall x :: x in s1.sources ==> x in known || x.url in wanted
    ensures Holding(Deletions(s1, known, wanted).sources, url) == 0
  {
    var unwanted := Unwanted(known, wanted);
    forall x | x in Deletions(s1, known, wanted).sources
      ensures x.url != url
    {
      DeleteKeeps(s1, unwanted, FAULT_FREE.deletion, |unwanted|, x);
      UnwantedMembers(known, wanted, x);
    }
    HoldingSome(Deletions(s1, known, wanted).sources, url);
  }

  /** A round without faults, from any state of Grafana: unwanted URLs disappear, wanted ones that were there keep
      their data sources, and the others get one for every resource that asks for them. */
  lemma RoundHolds(s: Server, items: seq<Resource>, url: string)
    requires WellFormed(s) && Complete(items)
    ensures Holding(Round(s, items, FAULT_FREE).0.sources, url) ==
      if url !in FirstUrls(items) then 0
      else if Holding(s.sources, url) > 0 then Holding(s.sources, url)
      else multiset(FirstUrls(items))[url]
  {
    var wanted := FirstUrls(items);
    var s1 := CreateUpTo(s, Urls(s.sources), wanted, FAULT_FREE.creation, |wanted|);
    CompleteUrls(items);
    CreateAdds(s, Urls(s.sources), wanted, FAULT_FREE.creation, |wanted|);
    CreateWellFormed(s, Urls(s.sources), wanted, FAULT_FREE.creation, |wanted|);
    assert Round(s, items, FAULT_FREE).0 == Deletions(s1, s.sources, wanted);
    hide Round, Deletions, WellFormed;
    if url in wanted {
      CreateHolding(s, Urls(s.sources), wanted, FAULT_FREE.creation, |wanted|, url);
      assert wanted[..|wanted|] == wanted;
      WantedStay(s1, s.sources, wanted, url);
    } else {
      UnwantedGo(s1, s.sources, wanted, url);
    }
  }

  /** Grafana's URLs are exactly the first URLs of the resources. */
  ghost predicate InStep(s: Server, items: seq<Resource>) {
    forall url :: url in Urls(s.sources) <==> url in FirstUrls(items)
  }

  lemma OneRoundSuffices(s: Server, items: seq<Resource>)
    requires WellFormed(s) && Complete(items)
    ensures InStep(Round(s, items, FAULT_FREE).0, items)
  {
    forall url: string
      ensures url in Urls(Round(s, items, FAULT_FREE).0.sources) <==> url in FirstUrls(items)
    {
      RoundHolds(s, items, url);
    }
  }

  lemma {:induction false} RequestsGrow(s: Server, known: seq<string>, wanted: seq<string>, ok: nat -> bool, k: nat)
    requires k <= |wanted|
    ensures var after := CreateUpTo(s, known, wanted, ok, k);
      && |after.requests| >= |s.requests|
      && (|after.requests| == |s.requests| <==> forall i :: 0 <= i < k ==> wanted[i] in known)
      && (|after.requests| == |s.requests| ==> after == s)
  {
    if k > 0 {
      RequestsGrow(s, known, wanted, ok, k - 1);
    }
  }

  lemma {:induction false} DeleteRequests(s: Server, unwanted: seq<Source>, ok: nat -> bool, k: nat)
    requires k <= |unwanted|
    ensures |DeleteUpTo(s, unwanted, ok, k).requests| == |s.requests| + k
  {
    if k > 0 {
      DeleteRequests(s, unwanted, ok, k - 1);
    }
  }

  ghost predicate CreatesFirst(l: seq<Request>) {
    forall i, j :: 0 <= i < j < |l| && l[i].Delete? ==> l[j].Delete?
  }

  lemma {:induction false} CreationsAsk(s: Server, known: seq<string>, wanted: seq<string>, ok: nat -> bool, k: nat)
    requires k <= |wanted|
    ensures
      var all := CreateUpTo(s, known, wanted, ok, k).requests;
      && s.requests <= all
      && (forall r :: r in all[|s.requests|..] ==> r.Create?)
      && (forall url :: Create(url) in all[|s.requests|..] <==> url in wanted[..k] && url !in known)
  {
    if k > 0 {
      CreationsAsk(s, known, wanted, ok, k - 1);
      var before, after := CreateUpTo(s, known, wanted, ok, k - 1).requests, CreateUpTo(s, known, wanted, ok, k).requests;
      assert wanted[..k] == wanted[..k - 1] + [wanted[k - 1]];
      if wanted[k - 1] !in known {
        assert after[|s.requests|..] == before[|s.requests|..] + [Create(wanted[k - 1])];
      }
    }
  }

  lemma {:induction false} DeletionsAsk(s: Server, unwanted: seq<Source>, ok: nat -> bool, k: nat)
    requires k <= |unwanted|
    ensures DeleteUpTo(s, unwanted, ok, k).requests == s.requests + DeletionsOf(unwanted[..k])
  {
    if k > 0 {
      DeletionsAsk(s, unwanted, ok, k - 1);
      assert DeletionsOf(unwanted[..k]) == DeletionsOf(unwanted[..k - 1]) + [Delete(unwanted[k - 1].uid)];
    }
  }

  /** What a round asks of Grafana, under any answers: a creation for every wanted URL that was not listed, then, if
      every resource has an entry, a deletion of every listed source whose URL is not wanted. */
  lemma RoundAsks(s: Server, items: seq<Resource>, e: Events)
    requires e.resources
    ensures
      var listed, all := if e.listing then s.sources else [], Round(s, items, e).0.requests;
      && s.requests <= all && CreatesFirst(all[|s.requests|..])
      && (forall url :: Create(url) in all[|s.requests|..] <==> url in FirstUrls(items) && forall x :: x in listed ==> x.url != url)
      && (forall uid :: Delete(uid) in all[|s.requests|..] <==>
            Complete(items) && exists x :: x in listed && x.uid == uid && x.url !in FirstUrls(items))
  {
    var listed, wanted := if e.listing then s.sources else [], FirstUrls(items);
    hide CreateUpTo, Unwanted, Urls, FirstUrls, DeletionsOf, Round, Complete, CreatesFirst;
    CreationsOfMissing(s, listed, wanted, e.creation);
    DeletionsOfUnwanted(listed, wanted);
    RoundRequests(s, items, e);
    var created := CreateUpTo(s, Urls(listed), wanted, e.creation, |wanted|).requests[|s.requests|..];
    var deleted := if Complete(items) then DeletionsOf(Unwanted(listed, wanted)) else [];
    assert Round(s, items, e).0.requests[|s.requests|..] == created + deleted;
    CreationsThenDeletions(created, deleted);
  }

  lemma CreationsOfMissing(s: Server, listed: seq<Source>, wanted: seq<string>, ok: nat -> bool)
    ensures
      var all := CreateUpTo(s, Urls(listed), wanted, ok, |wanted|).requests;
      && s.requests <= all
      && (forall r :: r in all[|s.requests|..] ==> r.Create?)
      && (forall url :: Create(url) in all[|s.requests|..] <==> url in wanted && forall x :: x in listed ==> x.url != url)
  {
    hide CreateUpTo, Urls;
    CreationsAsk(s, Urls(listed), wanted, ok, |wanted|);
    assert wanted[..|wanted|] == wanted;
    var created := CreateUpTo(s, Urls(listed), wanted, ok, |wanted|).requests[|s.requests|..];
    forall url
      ensures Create(url) in created <==> url in wanted && forall x :: x in listed ==> x.url != url
    {
      UrlsOf(listed, url);
    }
  }

  lemma CreationsThenDeletions(created: seq<Request>, deleted: seq<Request>)
    requires (forall r :: r in created ==> r.Create?) && forall r :: r in deleted ==> r.Delete?
    ensures CreatesFirst(created + deleted)
    ensures forall url :: Create(url) in created + deleted <==> Create(url) in created
    ensures forall uid :: Delete(uid) in created + deleted <==> Delete(uid) in deleted
  {
    var l := created + deleted;
    forall i | 0 <= i < |created|
      ensures l[i].Create?
    {
      assert created[i] in created;
    }
    forall i | |created| <= i < |l|
      ensures l[i].Delete?
    {
      assert deleted[i - |created|] in deleted;
    }
  }

  lemma RoundRequests(s: Server, items: seq<Resource>, e: Events)
    requires e.resources
    ensures
      var listed, wanted := if e.listing then s.sources else [], FirstUrls(items);
      Round(s, items, e).0.requests == CreateUpTo(s, Urls(listed), wanted, e.creation, |wanted|).requests +
        if Complete(items) then DeletionsOf(Unwanted(listed, wanted)) else []
  {
    var listed, wanted := if e.listing then s.sources else [], FirstUrls(items);
    var s1, unwanted := CreateUpTo(s, Urls(listed), wanted, e.creation, |wanted|), Unwanted(listed, wanted);
    CompleteUrls(items);
    DeletionsAsk(s1, unwanted, e.deletion, |unwanted|);
    assert unwanted[..|unwanted|] == unwanted;
    hide CreateUpTo, DeleteUpTo, Unwanted, Urls, FirstUrls, DeletionsOf;
  }

  function DeletionsOf(unwanted: seq<Source>): (r: seq<Request>)
    ensures forall q :: q in r ==> q.Delete?
  {
    seq(|unwanted|, i requires 0 <= i < |unwanted| => Delete(unwanted[i].uid))
  }

  lemma DeletionsOfUnwanted(listed: seq<Source>, wanted: seq<string>)
    ensures forall uid :: Delete(uid) in DeletionsOf(Unwanted(listed, wanted)) <==>
      exists x :: x in listed && x.uid == uid && x.url !in wanted
  {
    var unwanted := Unwanted(listed, wanted);
    var deletions := DeletionsOf(unwanted);
    forall x
      ensures x in unwanted <==> x in listed && x.url !in wanted
    {
      UnwantedMembers(listed, wanted, x);
    }
    hide Unwanted;
    forall uid
      ensures Delete(uid) in deletions <==> exists x :: x in unwanted && x.uid == uid
    {
      if x :| x in unwanted && x.uid == uid {
        var i :| 0 <= i < |unwanted| && unwanted[i] == x;
        assert deletions[i] == Delete(uid);
      }
    }
  }

  lemma UrlsOf(l: seq<Source>, url: string)
    ensures url !in Urls(l) <==> forall x :: x in l ==> x.url != url
  {
    if x :| x in l && x.url == url {
      var i :| 0 <= i < |l| && l[i] == x;
      assert Urls(l)[i] == url;
    }
  }

  /** How a round ends: with an error when the resources are not listed, by panicking when one has no entry. */
  lemma OutcomeIs(s: Server, items: seq<Resource>, e: Events)
    ensures Round(s, items, e).1.Refused? <==> !e.resources
    ensures Round(s, items, e).1.Panicked? <==> e.resources && exists r :: r in items && r.urls == []
    ensures !e.resources ==> Round(s, items, e).0 == s
  {
    CompleteUrls(items);
    assert Complete(items) <==> forall r :: r in items ==> r.urls != [];
  }

  /** A round that sees everything asks Grafana to change something exactly when the two sides disagree. */
  lemma QuietIffInStep(s: Server, items: seq<Resource>, e: Events)
    requires e.listing && e.resources && Complete(items)
    ensures Round(s, items, e).0 == s <==> InStep(s, items)
  {
    var known, wanted := Urls(s.sources), FirstUrls(items);
    var unwanted := Unwanted(s.sources, wanted);
    CompleteUrls(items);
    RequestsGrow(s, known, wanted, e.creation, |wanted|);
    var s1 := CreateUpTo(s, known, wanted, e.creation, |wanted|);
    DeleteRequests(s1, unwanted, e.deletion, |unwanted|);
    forall i | 0 <= i < |known|
      ensures s.sources[i] in unwanted <==> known[i] !in wanted
    {
      UnwantedMembers(s.sources, wanted, s.sources[i]);
    }
    if unwanted != [] {
      UnwantedMembers(s.sources, wanted, unwanted[0]);
      var i :| 0 <= i < |s.sources| && s.sources[i] == unwanted[0];
      assert known[i] !in wanted && known[i] in known;
    }
  }

  /** When Grafana's list cannot be read but its other calls work, every resource is created once more. */
  lemma UnreadListDuplicates(s: Server, items: seq<Resource>, e: Events, url: string)
    requires !e.listing && e.resources && forall i :: e.creation(i)
    ensures Holding(Round(s, items, e).0.sources, url) == Holding(s.sources, url) + multiset(FirstUrls(items))[url]
  {
    CreateHolding(s, [], FirstUrls(items), e.creation, |FirstUrls(items)|, url);
    assert FirstUrls(items)[..|FirstUrls(items)|] == FirstUrls(items) && Urls([]) == [];
  }

  /** Only the first entry of a resource plays a role: lists that agree in the first entries give the same round. */
  lemma OtherEntriesIgnored(s: Server, a: seq<Resource>, b: seq<Resource>, e: Events)
    requires |a| == |b| && forall i :: 0 <= i < |a| ==> a[i].urls[..Least(1, |a[i].urls|)] == b[i].urls[..Least(1, |b[i].urls|)]
    ensures Round(s, a, e) == Round(s, b, e)
  {
    SameFirstUrls(a, b);
  }

  function Least(m: nat, n: nat): (r: nat)
    ensures r <= m && r <= n
  {
    if m < n then m else n
  }

  lemma {:induction false} SameFirstUrls(a: seq<Resource>, b: seq<Resource>)
    requires |a| == |b| && forall i :: 0 <= i < |a| ==> a[i].urls[..Least(1, |a[i].urls|)] == b[i].urls[..Least(1, |b[i].urls|)]
    ensures FirstUrls(a) == FirstUrls(b)
  {
    if a != [] {
      var x, y := a[0].urls, b[0].urls;
      assert x[..Least(1, |x|)] == y[..Least(1, |y|)];
      assert x != [] && y != [] ==> x[..1][0] == y[..1][0];
      SameFirstUrls(a[1..], b[1..]);
    }
  }

  // ----- two namespaces -----

  /** The controller lists the resources of one namespace and deletes what they do not want. Rounds for two namespaces
      take turns. */
  ghost function Alternating(s: Server, a: seq<Resource>, b: seq<Resource>, n: nat): Server {
    if n == 0 then s else Round(Alternating(s, a, b, n - 1), if n % 2 == 1 then a else b, FAULT_FREE).0
  }

  ghost predicate SameUrls(a: seq<Resource>, b: seq<Resource>) {
    forall url :: url in FirstUrls(a) <==> url in FirstUrls(b)
  }

  lemma {:induction false} AlternatingInStep(s: Server, a: seq<Resource>, b: seq<Resource>, n: nat)
    requires WellFormed(s) && Complete(a) && Complete(b)
    ensures WellFormed(Alternating(s, a, b, n))
    ensures n > 0 ==> InStep(Alternating(s, a, b, n), if n % 2 == 1 then a else b)
  {
    hide WellFormed, Complete, InStep, Round;
    if n > 0 {
      var before, l := Alternating(s, a, b, n - 1), if n % 2 == 1 then a else b;
      AlternatingInStep(s, a, b, n - 1);
      RoundWellFormed(before, l, FAULT_FREE);
      OneRoundSuffices(before, l);
    }
  }

  /** The turns come to rest if and only if both namespaces want the same URLs; otherwise each undoes the other for
      ever. */
  lemma TurnsRestIff(s: Server, a: seq<Resource>, b: seq<Resource>, n: nat)
    requires WellFormed(s) && Complete(a) && Complete(b) && n > 0
    ensures Alternating(s, a, b, n + 1) == Alternating(s, a, b, n) <==> SameUrls(a, b)
  {
    hide WellFormed, Complete, Round;
    AlternatingInStep(s, a, b, n);
    QuietIffInStep(Alternating(s, a, b, n), if n % 2 == 1 then b else a, FAULT_FREE);
  }
}
