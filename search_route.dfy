/** The product-search endpoint (app/api/home-depot/route.ts): one cache
    key per query, and the order-preserving fan-out over the queries.

    In the source every query's callback runs, up to its first `await`,
    before any search result arrives: the reads happen one after another,
    in query order, each at its own clock reading `readAt(i)`, and every
    miss has already started its search before any result is written. The
    model therefore has two phases: read every key, then search and write
    the misses. */
module SearchRoute {
  import opened Wrappers
  import opened Json
  import opened TtlCache
  import opened Endpoint

  const DefaultTtl: nat := 3600000
  const MissingKeyError := "Missing SERPAPI_KEY"

  /** The cache key `{ q, storeZip, storeId }`. */
  datatype SearchKey = SearchKey(q: Json, storeZip: string, storeId: string)

  /** The body's `parsedItems`, `storeZip` and `storeId`, the `cache` query
      parameter and the `x-cache-bust` header. */
  datatype SearchRequest = SearchRequest(
    parsedItems: Json, storeZip: string, storeId: string,
    cacheParam: Option<string>, cacheBust: Option<string>)

  type Entries = map<SearchKey, Entry<Json>>

  /** The search call the callback at position `i` makes for (q, storeZip,
      storeId): its raw JSON result, or the message of what it threw. The
      position makes each call independent, so two copies of a query in
      one batch may get different results. */
  type Search = (nat, Json, string, string) -> Result<Json, string>

  /** How one query was answered: from the cache, or by a search call. */
  datatype Outcome = Cached(value: Json) | Fetched(result: Result<Json, string>)

  predicate Failed(o: Outcome) {
    o.Fetched? && o.result.Err?
  }

  predicate Written(o: Outcome) {
    o.Fetched? && o.result.Ok?
  }

  /** The value a successful outcome contributes to the reply. */
  function Payload(o: Outcome): Json {
    match o
    case Cached(v) => v
    case Fetched(r) => if r.Ok? then r.value else JNull
  }

  /** A new search cache; the TTL setting defaults to one hour. */
  method NewCache(setting: Option<nat>) returns (c: Cache<SearchKey, Json>)
    ensures fresh(c) && c.entries == map[]
    ensures c.ttl == if setting.Some? then setting.value else 3600000
  {
    c := new Cache(setting.GetOr(DefaultTtl));
  }

  /** Distinct queries, or distinct stores, never share a cache entry. */
  lemma KeyInjective(q1: Json, z1: string, s1: string, q2: Json, z2: string, s2: string)
    ensures SearchKey(q1, z1, s1) == SearchKey(q2, z2, s2) <==> q1 == q2 && z1 == z2 && s1 == s2
  {
  }

  /** The queries of a non-empty array; anything else has none. */
  function Queries(items: Json): seq<Json> {
    if items.JArr? then items.elems else []
  }

  function Keys(qs: seq<Json>, zip: string, id: string): seq<SearchKey> {
    seq(|qs|, i requires 0 <= i < |qs| => SearchKey(qs[i], zip, id))
  }

  /** Phase one: what each query's read returned (nothing under bypass).
      Read `i` happens at `readAt(i)`, on the cache the earlier reads left. */
  function Probes(m: Entries, ks: seq<SearchKey>, readAt: nat -> int, bypass: bool): seq<Option<Json>> {
    seq(|ks|, i requires 0 <= i < |ks| =>
      if bypass then None else Lookup(PurgeAll(m, ks[..i], readAt), ks[i], readAt(i)))
  }

  /** The cache after phase one: expired entries that were read are deleted. */
  function AfterProbes(m: Entries, ks: seq<SearchKey>, readAt: nat -> int, bypass: bool): Entries {
    if bypass then m else PurgeAll(m, ks, readAt)
  }

  /** Phase two: a hit is answered from the cache, a miss by a search call. */
  function Outcomes(qs: seq<Json>, probes: seq<Option<Json>>, zip: string, id: string, search: Search): seq<Outcome>
    requires |probes| == |qs|
  {
    seq(|qs|, i requires 0 <= i < |qs| =>
      if probes[i].Some? then Cached(probes[i].value) else Fetched(search(i, qs[i], zip, id)))
  }

  /** The queries handed to the search call among the first `n`, in order. */
  function Asked(qs: seq<Json>, probes: seq<Option<Json>>, n: nat): seq<Json>
    requires n <= |qs| == |probes|
  {
    if n == 0 then []
    else Asked(qs, probes, n - 1) + (if probes[n - 1].None? then [qs[n - 1]] else [])
  }

  /** The cache after the first `n` outcomes: each successful search is
      written at the time `doneAt` it finished; failures write nothing. */
  function StoreFetched(m: Entries, ks: seq<SearchKey>, outs: seq<Outcome>, doneAt: nat -> int, ttl: nat, n: nat): Entries
    requires n <= |ks| == |outs|
  {
    if n == 0 then m
    else
      var prev := StoreFetched(m, ks, outs, doneAt, ttl, n - 1);
      if Written(outs[n - 1]) then Store(prev, ks[n - 1], outs[n - 1].result.value, doneAt(n - 1), ttl)
      else prev
  }

  /** `Promise.all`: every value in input order, or the error of a failed
      search (the first one, in input order) and no partial list. */
  function Collect(outs: seq<Outcome>): (r: Result<seq<Json>, string>)
    ensures r.Err? <==> exists i :: 0 <= i < |outs| && Failed(outs[i])
    ensures r.Err? ==> exists i :: (0 <= i < |outs| && outs[i] == Fetched(Err(r.error))
                                    && forall j :: 0 <= j < i ==> !Failed(outs[j]))
    ensures r.Ok? ==> |r.value| == |outs| && forall i :: 0 <= i < |outs| ==> r.value[i] == Payload(outs[i])
  {
    if outs == [] then Ok([])
    else if Failed(outs[0]) then Err(outs[0].result.error)
    else
      var rest := Collect(outs[1..]);
      assert forall i :: 1 <= i < |outs| ==> outs[i] == outs[1..][i - 1];
      match rest
      case Err(e) =>
        assert exists i :: (1 <= i < |outs| && outs[i] == Fetched(Err(e))
                            && forall j :: 0 <= j < i ==> !Failed(outs[j])) by {
          var i :| (0 <= i < |outs[1..]| && outs[1..][i] == Fetched(Err(e))
                    && forall j :: 0 <= j < i ==> !Failed(outs[1..][j]));
          assert forall j :: 0 <= j < i + 1 ==> !Failed(outs[j]) by {
            forall j | 0 <= j < i + 1 ensures !Failed(outs[j]) {
              if j > 0 { assert outs[j] == outs[1..][j - 1]; }
            }
          }
          assert outs[i + 1] == Fetched(Err(e));
        }
        Err(e)
      case Ok(vs) => Ok([Payload(outs[0])] + vs)
  }

  /** The outcome of one request: the reply (an `Err` is a 500), the cache
      afterwards, and the queries handed to the search call. */
  datatype Handled = Handled(reply: Result<seq<Json>, string>, entries: Entries, asked: seq<Json>)

  /** `POST` as a function of the cache before the request. */
  function Handle(m: Entries, ttl: nat, apiKey: Option<string>, req: SearchRequest, search: Search,
                  readAt: nat -> int, doneAt: nat -> int): Handled
  {
    if !EnvSet(apiKey) then Handled(Err(MissingKeyError), m, [])
    else
      var qs := Queries(req.parsedItems);
      if qs == [] then Handled(Ok([]), m, [])
      else
        var bypass := Bypass(req.cacheParam, req.cacheBust);
        var ks := Keys(qs, req.storeZip, req.storeId);
        var probes := Probes(m, ks, readAt, bypass);
        var outs := Outcomes(qs, probes, req.storeZip, req.storeId, search);
        Handled(Collect(outs),
                StoreFetched(AfterProbes(m, ks, readAt, bypass), ks, outs, doneAt, ttl, |ks|),
                Asked(qs, probes, |qs|))
  }

  /** Phase one: read every key in order, read `i` at time `readAt(i)`,
      unless bypassed. */
  method ReadAll(cache: Cache<SearchKey, Json>, ks: seq<SearchKey>, readAt: nat -> int, bypass: bool)
    returns (probes: seq<Option<Json>>)
    modifies cache
    ensures probes == Probes(old(cache.entries), ks, readAt, bypass)
    ensures cache.entries == AfterProbes(old(cache.entries), ks, readAt, bypass)
  {
    ghost var m0 := cache.entries;
    ghost var all := Probes(m0, ks, readAt, bypass);
    probes := [];
    var i := 0;
    while i < |ks|
      invariant 0 <= i <= |ks|
      invariant probes == all[..i]
      invariant cache.entries == AfterProbes(m0, ks[..i], readAt, bypass)
    {
      var probe := None;
      if !bypass {
        probe := cache.Read(ks[i], readAt(i));
      }
      assert ks[..i + 1][..i] == ks[..i];
      probes := probes + [probe];
      i := i + 1;
    }
    assert ks[..|ks|] == ks;
    assert probes == all;
  }

  /** Phase two: answer hits from their probe, search the misses in order
      and write each successful result when it finishes. */
  method FetchAll(cache: Cache<SearchKey, Json>, qs: seq<Json>, ks: seq<SearchKey>, probes: seq<Option<Json>>,
                  zip: string, id: string, search: Search, doneAt: nat -> int)
    returns (outs: seq<Outcome>, asked: seq<Json>)
    requires |ks| == |qs| == |probes|
    modifies cache
    ensures outs == Outcomes(qs, probes, zip, id, search)
    ensures asked == Asked(qs, probes, |qs|)
    ensures cache.entries == StoreFetched(old(cache.entries), ks, outs, doneAt, cache.ttl, |ks|)
  {
    ghost var m0 := cache.entries;
    ghost var all := Outcomes(qs, probes, zip, id, search);
    outs := [];
    asked := [];
    var i := 0;
    while i < |ks|
      invariant 0 <= i <= |ks|
      invariant outs == all[..i]
      invariant asked == Asked(qs, probes, i)
      invariant cache.entries == StoreFetched(m0, ks, all, doneAt, cache.ttl, i)
    {
      var out;
      if probes[i].Some? {
        out := Cached(probes[i].value);
      } else {
        var result := search(i, qs[i], zip, id);
        asked := asked + [qs[i]];
        if result.Ok? {
          cache.Write(ks[i], result.value, doneAt(i));
        }
        out := Fetched(result);
      }
      outs := outs + [out];
      i := i + 1;
    }
    assert outs == all;
  }

  /** The handler, against the cache object it owns: a loop of reads, then
      a loop of searches and writes for the misses. */
  method Post(cache: Cache<SearchKey, Json>, apiKey: Option<string>, req: SearchRequest, search: Search,
              readAt: nat -> int, doneAt: nat -> int)
    returns (reply: Result<seq<Json>, string>, asked: seq<Json>)
    modifies cache
    ensures Handled(reply, cache.entries, asked) == Handle(old(cache.entries), cache.ttl, apiKey, req, search, readAt, doneAt)
  {
    if !EnvSet(apiKey) {
      return Err(MissingKeyError), [];
    }
    var qs := Queries(req.parsedItems);
    if qs == [] {
      return Ok([]), [];
    }
    var bypass := Bypass(req.cacheParam, req.cacheBust);
    var ks := Keys(qs, req.storeZip, req.storeId);
    var probes := ReadAll(cache, ks, readAt, bypass);
    var outs;
    outs, asked := FetchAll(cache, qs, ks, probes, req.storeZip, req.storeId, search, doneAt);
    reply := Collect(outs);
  }

  /** With a clock that does not go backwards, read `i` sees exactly what
      a read of the cache as it was at the start of the request would see
      at `readAt(i)`: earlier reads only delete entries already expired. */
  lemma ProbeFromStart(m: Entries, ks: seq<SearchKey>, readAt: nat -> int, bypass: bool, i: nat)
    requires Monotone(readAt, |ks|) && i < |ks|
    ensures Probes(m, ks, readAt, bypass)[i] == if bypass then None else Lookup(m, ks[i], readAt(i))
  {
    assert forall j :: 0 <= j < |ks[..i]| ==> readAt(j) <= readAt(i);
    LookupAfterPurgeAll(m, ks[..i], readAt, ks[i], readAt(i));
  }

  /** Without the key the request fails before the body, the cache or the
      search call is used. */
  lemma MissingKeyFailsFast(m: Entries, ttl: nat, apiKey: Option<string>, req: SearchRequest, search: Search,
                            readAt: nat -> int, doneAt: nat -> int)
    requires !EnvSet(apiKey)
    ensures Handle(m, ttl, apiKey, req, search, readAt, doneAt) == Handled(Err("Missing SERPAPI_KEY"), m, [])
  {
  }

  /** `parsedItems` that is not an array, or is empty, yields `[]` without
      touching the cache or calling the search. */
  lemma EmptyShortCircuit(m: Entries, ttl: nat, apiKey: Option<string>, req: SearchRequest, search: Search,
                          readAt: nat -> int, doneAt: nat -> int)
    requires EnvSet(apiKey)
    requires !req.parsedItems.JArr? || req.parsedItems.elems == []
    ensures Handle(m, ttl, apiKey, req, search, readAt, doneAt) == Handled(Ok([]), m, [])
  {
  }

  /** The reply has one value per query, in query order: the cached value
      live at that query's read, without bypass, otherwise that query's
      own search result unmodified. */
  lemma ResultsInOrder(m: Entries, ttl: nat, apiKey: Option<string>, req: SearchRequest, search: Search,
                       readAt: nat -> int, doneAt: nat -> int)
    requires EnvSet(apiKey) && Monotone(readAt, |Queries(req.parsedItems)|)
    requires Handle(m, ttl, apiKey, req, search, readAt, doneAt).reply.Ok?
    ensures var qs, vs := Queries(req.parsedItems), Handle(m, ttl, apiKey, req, search, readAt, doneAt).reply.value;
      && |vs| == |qs|
      && forall i :: 0 <= i < |qs| ==>
        var hit := if Bypass(req.cacheParam, req.cacheBust) then None
                   else Lookup(m, SearchKey(qs[i], req.storeZip, req.storeId), readAt(i));
        if hit.Some? then vs[i] == hit.value else search(i, qs[i], req.storeZip, req.storeId) == Ok(vs[i])
  {
    var qs := Queries(req.parsedItems);
    if qs != [] {
      var bypass := Bypass(req.cacheParam, req.cacheBust);
      var ks := Keys(qs, req.storeZip, req.storeId);
      var probes := Probes(m, ks, readAt, bypass);
      var outs := Outcomes(qs, probes, req.storeZip, req.storeId, search);
      forall i | 0 <= i < |qs|
        ensures probes[i] == if bypass then None else Lookup(m, SearchKey(qs[i], req.storeZip, req.storeId), readAt(i))
      {
        ProbeFromStart(m, ks, readAt, bypass, i);
      }
      forall i | 0 <= i < |qs| && probes[i].None?
        ensures search(i, qs[i], req.storeZip, req.storeId).Ok?
      {
        assert !Failed(outs[i]);
      }
    }
  }

  /** One failed search makes the whole reply an error: the reply is an
      error exactly when some query missed and its search failed, and the
      error is that of the first such query. */
  lemma AnyFailureFailsBatch(m: Entries, ttl: nat, apiKey: Option<string>, req: SearchRequest, search: Search,
                             readAt: nat -> int, doneAt: nat -> int)
    requires EnvSet(apiKey) && Queries(req.parsedItems) != []
    ensures var qs, h := Queries(req.parsedItems), Handle(m, ttl, apiKey, req, search, readAt, doneAt);
      var probes := Probes(m, Keys(qs, req.storeZip, req.storeId), readAt, Bypass(req.cacheParam, req.cacheBust));
      && (h.reply.Err? <==> exists i :: 0 <= i < |qs| && probes[i].None? && search(i, qs[i], req.storeZip, req.storeId).Err?)
      && (h.reply.Err? ==> exists i :: (0 <= i < |qs| && probes[i].None?
                                        && search(i, qs[i], req.storeZip, req.storeId) == Err(h.reply.error)
                                        && forall j :: 0 <= j < i ==> probes[j].Some? || search(j, qs[j], req.storeZip, req.storeId).Ok?))
  {
    var qs := Queries(req.parsedItems);
    var probes := Probes(m, Keys(qs, req.storeZip, req.storeId), readAt, Bypass(req.cacheParam, req.cacheBust));
    var outs := Outcomes(qs, probes, req.storeZip, req.storeId, search);
    assert forall i :: 0 <= i < |qs| ==> (Failed(outs[i]) <==> probes[i].None? && search(i, qs[i], req.storeZip, req.storeId).Err?);
    assert forall i :: 0 <= i < |qs| && probes[i].None? ==> outs[i] == Fetched(search(i, qs[i], req.storeZip, req.storeId));
  }

  /** Every query handed to the search call missed. */
  lemma {:induction false} AskedMissed(qs: seq<Json>, probes: seq<Option<Json>>, n: nat)
    requires n <= |qs| == |probes|
    ensures forall x :: x in Asked(qs, probes, n) ==> exists j :: 0 <= j < n && qs[j] == x && probes[j].None?
  {
    if n > 0 {
      AskedMissed(qs, probes, n - 1);
    }
  }

  /** A query whose read finds a live entry, without bypass, is answered
      from the cache with that entry's value, and costs no search call. */
  lemma LiveHitNotSearched(m: Entries, ttl: nat, apiKey: Option<string>, req: SearchRequest, search: Search,
                           readAt: nat -> int, doneAt: nat -> int, i: nat, v: Json)
    requires EnvSet(apiKey) && !Bypass(req.cacheParam, req.cacheBust)
    requires i < |Queries(req.parsedItems)| && Monotone(readAt, |Queries(req.parsedItems)|)
    requires Lookup(m, SearchKey(Queries(req.parsedItems)[i], req.storeZip, req.storeId), readAt(i)) == Some(v)
    ensures var qs := Queries(req.parsedItems);
      var probes := Probes(m, Keys(qs, req.storeZip, req.storeId), readAt, false);
      && Outcomes(qs, probes, req.storeZip, req.storeId, search)[i] == Cached(v)
      && |Handle(m, ttl, apiKey, req, search, readAt, doneAt).asked| < |qs|
  {
    var qs := Queries(req.parsedItems);
    var ks := Keys(qs, req.storeZip, req.storeId);
    var probes := Probes(m, ks, readAt, false);
    ProbeFromStart(m, ks, readAt, false, i);
    AskedSkipsHit(qs, probes, |qs|, i);
  }

  /** A hit among the first `n` positions means fewer than `n` search calls. */
  lemma {:induction false} AskedSkipsHit(qs: seq<Json>, probes: seq<Option<Json>>, n: nat, i: nat)
    requires n <= |qs| == |probes| && i < n && probes[i].Some?
    ensures |Asked(qs, probes, n)| < n
  {
    if n - 1 > i {
      AskedSkipsHit(qs, probes, n - 1, i);
    } else {
      AskedAtMost(qs, probes, n - 1);
    }
  }

  /** At most one search call per position. */
  lemma {:induction false} AskedAtMost(qs: seq<Json>, probes: seq<Option<Json>>, n: nat)
    requires n <= |qs| == |probes|
    ensures |Asked(qs, probes, n)| <= n
  {
    if n > 0 {
      AskedAtMost(qs, probes, n - 1);
    }
  }

  /** Each read takes its own clock reading: a later copy of a query whose
      entry expired between the two reads misses and is searched, although
      the earlier copy was a hit. */
  lemma ExpiredBetweenDuplicates(m: Entries, ttl: nat, apiKey: Option<string>, req: SearchRequest, search: Search,
                                 readAt: nat -> int, doneAt: nat -> int, i: nat, j: nat)
    requires EnvSet(apiKey) && !Bypass(req.cacheParam, req.cacheBust)
    requires i < j < |Queries(req.parsedItems)| && Monotone(readAt, |Queries(req.parsedItems)|)
    requires Queries(req.parsedItems)[i] == Queries(req.parsedItems)[j]
    requires var k := SearchKey(Queries(req.parsedItems)[i], req.storeZip, req.storeId);
      k in m && readAt(i) <= m[k].expiresAt < readAt(j)
    ensures var qs := Queries(req.parsedItems);
      var k := SearchKey(qs[i], req.storeZip, req.storeId);
      var outs := Outcomes(qs, Probes(m, Keys(qs, req.storeZip, req.storeId), readAt, false), req.storeZip, req.storeId, search);
      && outs[i] == Cached(m[k].value)
      && outs[j] == Fetched(search(j, qs[j], req.storeZip, req.storeId))
  {
    var qs := Queries(req.parsedItems);
    var ks := Keys(qs, req.storeZip, req.storeId);
    ProbeFromStart(m, ks, readAt, false, i);
    ProbeFromStart(m, ks, readAt, false, j);
  }

  /** Two copies of a query that is not cached at the first copy's read
      both miss and both are searched, by independent calls. */
  lemma DuplicatesBothMiss(m: Entries, ttl: nat, apiKey: Option<string>, req: SearchRequest, search: Search,
                           readAt: nat -> int, doneAt: nat -> int, i: nat, j: nat)
    requires EnvSet(apiKey)
    requires i < j < |Queries(req.parsedItems)| && Monotone(readAt, |Queries(req.parsedItems)|)
    requires Queries(req.parsedItems)[i] == Queries(req.parsedItems)[j]
    requires Bypass(req.cacheParam, req.cacheBust)
          || Lookup(m, SearchKey(Queries(req.parsedItems)[i], req.storeZip, req.storeId), readAt(i)).None?
    ensures var qs := Queries(req.parsedItems);
      var probes := Probes(m, Keys(qs, req.storeZip, req.storeId), readAt, Bypass(req.cacheParam, req.cacheBust));
      var outs := Outcomes(qs, probes, req.storeZip, req.storeId, search);
      && outs[i] == Fetched(search(i, qs[i], req.storeZip, req.storeId))
      && outs[j] == Fetched(search(j, qs[j], req.storeZip, req.storeId))
      && |Handle(m, ttl, apiKey, req, search, readAt, doneAt).asked| >= 2
  {
    var qs := Queries(req.parsedItems);
    var bypass := Bypass(req.cacheParam, req.cacheBust);
    var ks := Keys(qs, req.storeZip, req.storeId);
    var probes := Probes(m, ks, readAt, bypass);
    ProbeFromStart(m, ks, readAt, bypass, i);
    ProbeFromStart(m, ks, readAt, bypass, j);
    AskedCount(qs, probes, |qs|, i, j);
  }

  lemma {:induction false} AskedCount(qs: seq<Json>, probes: seq<Option<Json>>, n: nat, i: nat, j: nat)
    requires n <= |qs| == |probes|
    requires i < j < n && probes[i].None? && probes[j].None?
    ensures |Asked(qs, probes, n)| >= 2
  {
    AskedGrows(qs, probes, j, i);
    AskedGrows(qs, probes, n, j);
  }

  /** Each miss among the first `n` adds one query to what was asked. */
  lemma {:induction false} AskedGrows(qs: seq<Json>, probes: seq<Option<Json>>, n: nat, i: nat)
    requires n <= |qs| == |probes| && i < n && probes[i].None?
    ensures |Asked(qs, probes, n)| >= |Asked(qs, probes, i)| + 1
  {
    if n - 1 > i {
      AskedGrows(qs, probes, n - 1, i);
    }
    AskedMonotone(qs, probes, n - 1, i);
  }

  lemma {:induction false} AskedMonotone(qs: seq<Json>, probes: seq<Option<Json>>, n: nat, i: nat)
    requires i <= n <= |qs| == |probes|
    ensures |Asked(qs, probes, n)| >= |Asked(qs, probes, i)|
    decreases n
  {
    if n > i {
      AskedMonotone(qs, probes, n - 1, i);
    }
  }

  /** The writes leave untouched every key that no successful search among
      the first `n` wrote: hits and failed searches write nothing. */
  lemma {:induction false} StoreFetchedUntouched(m: Entries, ks: seq<SearchKey>, outs: seq<Outcome>,
                                                 doneAt: nat -> int, ttl: nat, n: nat, k: SearchKey)
    requires n <= |ks| == |outs|
    requires forall j :: 0 <= j < n && Written(outs[j]) ==> ks[j] != k
    ensures var s := StoreFetched(m, ks, outs, doneAt, ttl, n);
      (k in s <==> k in m) && (k in m ==> s[k] == m[k])
  {
    if n > 0 {
      StoreFetchedUntouched(m, ks, outs, doneAt, ttl, n - 1, k);
    }
  }

  /** A successful search is written under its key with expiry
      `doneAt(i) + ttl`, unless a later copy of the same key overwrites it. */
  lemma {:induction false} StoreFetchedLatest(m: Entries, ks: seq<SearchKey>, outs: seq<Outcome>,
                                              doneAt: nat -> int, ttl: nat, n: nat, i: nat)
    requires i < n <= |ks| == |outs|
    requires Written(outs[i])
    requires forall j :: i < j < n && Written(outs[j]) ==> ks[j] != ks[i]
    ensures var s := StoreFetched(m, ks, outs, doneAt, ttl, n);
      ks[i] in s && s[ks[i]] == Entry(outs[i].result.value, doneAt(i) + ttl)
  {
    if n - 1 > i {
      StoreFetchedLatest(m, ks, outs, doneAt, ttl, n - 1, i);
    }
  }

  /** On a miss (or bypass) the raw result of a query's own search is
      written under its key and can be read back until `doneAt(i) + ttl`,
      provided the query does not recur later in the batch; this holds even
      when another query's search fails the reply. */
  lemma FetchedIsWritten(m: Entries, ttl: nat, apiKey: Option<string>, req: SearchRequest, search: Search,
                         readAt: nat -> int, doneAt: nat -> int, i: nat, t: int)
    requires EnvSet(apiKey)
    requires i < |Queries(req.parsedItems)| && Monotone(readAt, |Queries(req.parsedItems)|)
    requires forall j :: i < j < |Queries(req.parsedItems)| ==> Queries(req.parsedItems)[j] != Queries(req.parsedItems)[i]
    requires var q := Queries(req.parsedItems)[i];
      && (Bypass(req.cacheParam, req.cacheBust) || Lookup(m, SearchKey(q, req.storeZip, req.storeId), readAt(i)).None?)
      && search(i, q, req.storeZip, req.storeId).Ok?
    requires t <= doneAt(i) + ttl
    ensures var q := Queries(req.parsedItems)[i];
      Lookup(Handle(m, ttl, apiKey, req, search, readAt, doneAt).entries, SearchKey(q, req.storeZip, req.storeId), t)
        == Some(search(i, q, req.storeZip, req.storeId).value)
  {
    var qs := Queries(req.parsedItems);
    var bypass := Bypass(req.cacheParam, req.cacheBust);
    var ks := Keys(qs, req.storeZip, req.storeId);
    var probes := Probes(m, ks, readAt, bypass);
    var outs := Outcomes(qs, probes, req.storeZip, req.storeId, search);
    ProbeFromStart(m, ks, readAt, bypass, i);
    StoreFetchedLatest(AfterProbes(m, ks, readAt, bypass), ks, outs, doneAt, ttl, |ks|, i);
  }

  /** Under bypass the cache contents do not affect the reply or the
      searches made: a pre-seeded entry is ignored. */
  lemma BypassIgnoresCache(m1: Entries, m2: Entries, ttl: nat, apiKey: Option<string>, req: SearchRequest,
                           search: Search, readAt: nat -> int, doneAt: nat -> int)
    requires Bypass(req.cacheParam, req.cacheBust)
    ensures Handle(m1, ttl, apiKey, req, search, readAt, doneAt).reply == Handle(m2, ttl, apiKey, req, search, readAt, doneAt).reply
    ensures Handle(m1, ttl, apiKey, req, search, readAt, doneAt).asked == Handle(m2, ttl, apiKey, req, search, readAt, doneAt).asked
  {
    var qs := Queries(req.parsedItems);
    var ks := Keys(qs, req.storeZip, req.storeId);
    assert Probes(m1, ks, readAt, true) == Probes(m2, ks, readAt, true);
  }
}
