/**
 * The `GET /api/search` handler (src/app/api/search/route.js): a second,
 * route-level registry that keeps each search's promise under the trimmed,
 * lower-cased query and removes it one second after the promise settles.
 *
 * Query validation is done by a schema that is not part of this model; the
 * handler receives its verdict as `validated` (the accepted query, or
 * `None`). The scheduled removal is a deadline that `Tick` enforces.
 */
module SearchRoute {
  import opened Wrappers
  import opened Text
  import opened CatalogRecords
  import opened CatalogClient

  /** How long a settled search stays registered, in milliseconds. */
  const ResidencyMs: int := 1000

  /** The route's key is exactly the catalog cache key without its "search:" prefix. */
  lemma RouteKeyMatchesCacheKey(query: string)
    ensures SearchKey(query) == "search:" + NormalizeQuery(query)
  {
    TrimLowerCommute(query);
  }

  /** A registered search: the promise, and once it has settled, when it will be removed. */
  datatype Entry = Entry(promise: Lookup, removeAt: Option<int>)

  /** How a request is answered so far: rejected at once, or awaiting a promise. */
  datatype Handling = InvalidQuery | Awaits(lookup: Lookup)

  datatype Response = Response(status: int, products: seq<Summary>, message: Option<string>)

  /** The HTTP response once the awaited search has settled. */
  function Respond(o: Outcome): (r: Response)
    requires o.Resolved? ==> o.data.SearchData?
    ensures r.status == 200 <==> o.Resolved?
    ensures r.status == 200 ==> r.products == o.data.results && r.message.None?
    ensures r.status != 200 ==> r.status == 500 && r.products == [] && r.message == Some(ErrorMessage(o.error))
  {
    match o
    case Resolved(data) => Response(200, data.results, None)
    case Rejected(e) => Response(500, [], Some(ErrorMessage(e)))
  }

  /** The answer to a query the schema rejected. */
  const BadRequest: Response := Response(400, [], Some("Invalid query parameter"))

  class SearchHandler {
    /** `pendingSearches`. */
    var pendingSearches: map<string, Entry>
    /** The queries passed to `searchProducts`, in call order. */
    var searchCalls: seq<string>

    /** Registry keys are always normalised. */
    ghost predicate Valid()
      reads this
    {
      forall k :: k in pendingSearches ==> IsTrimmed(k) && HasNoUpper(k)
    }

    constructor ()
      ensures Valid() && pendingSearches == map[] && searchCalls == []
    {
      pendingSearches := map[];
      searchCalls := [];
    }

    /** `GET` up to the point where it awaits a search promise. */
    method Get(validated: Option<string>, catalog: Catalog, now: int) returns (h: Handling)
      requires Valid() && catalog.Valid()
      modifies this, catalog
      ensures Valid() && catalog.Valid()
      ensures validated.None? ==>
        h == InvalidQuery && pendingSearches == old(pendingSearches) && searchCalls == old(searchCalls)
        && unchanged(catalog)
      ensures validated.Some? && NormalizeQuery(validated.value) in old(pendingSearches) ==>
        h == Awaits(old(pendingSearches)[NormalizeQuery(validated.value)].promise)
        && pendingSearches == old(pendingSearches) && searchCalls == old(searchCalls)
        && unchanged(catalog)
      ensures validated.Some? && NormalizeQuery(validated.value) !in old(pendingSearches) ==>
        h.Awaits?
        && pendingSearches == old(pendingSearches)[NormalizeQuery(validated.value) := Entry(h.lookup, None)]
        && searchCalls == old(searchCalls) + [validated.value]
        && catalog.cache == old(catalog.cache) && catalog.settled == old(catalog.settled)
      ensures validated.Some? && NormalizeQuery(validated.value) !in old(pendingSearches) ==>
        var key := SearchKey(validated.value);
        if key in old(catalog.cache) && IsCacheValid(Some(old(catalog.cache)[key]), now) then
          h.lookup == FromCache(old(catalog.cache)[key].data)
          && catalog.pending == old(catalog.pending) && catalog.nextId == old(catalog.nextId)
        else if key in old(catalog.pending) then
          h.lookup == Awaiting(old(catalog.pending)[key])
          && catalog.pending == old(catalog.pending) && catalog.nextId == old(catalog.nextId)
        else
          h.lookup == Awaiting(old(catalog.nextId))
          && catalog.pending == old(catalog.pending)[key := old(catalog.nextId)]
          && catalog.requests == old(catalog.requests)[old(catalog.nextId) := SearchRequest(key, validated.value)]
          && catalog.nextId == old(catalog.nextId) + 1
    {
      if validated.None? {
        return InvalidQuery;
      }
      var query := validated.value;
      var key := NormalizeQuery(query);
      if key in pendingSearches {
        return Awaits(pendingSearches[key].promise);
      }
      var l := catalog.SearchProducts(query, now);
      searchCalls := searchCalls + [query];
      pendingSearches := pendingSearches[key := Entry(l, None)];
      h := Awaits(l);
    }

    /** The promise registered under `key` has settled: its removal is scheduled `ResidencyMs` later. */
    method PromiseSettled(key: string, catalog: Catalog, now: int)
      requires Valid()
      requires key in pendingSearches && pendingSearches[key].removeAt.None?
      requires catalog.Observe(pendingSearches[key].promise).Some?
      modifies this
      ensures Valid() && searchCalls == old(searchCalls)
      ensures pendingSearches == old(pendingSearches)[key := old(pendingSearches)[key].(removeAt := Some(now + ResidencyMs))]
    {
      pendingSearches := pendingSearches[key := pendingSearches[key].(removeAt := Some(now + ResidencyMs))];
    }

    /** Timers fire: every entry whose removal time has come is deleted, and nothing else. */
    method Tick(now: int)
      requires Valid()
      modifies this
      ensures Valid() && searchCalls == old(searchCalls)
      ensures forall k :: k in pendingSearches <==>
        k in old(pendingSearches) && !(old(pendingSearches)[k].removeAt.Some? && old(pendingSearches)[k].removeAt.value <= now)
      ensures forall k :: k in pendingSearches ==> pendingSearches[k] == old(pendingSearches)[k]
    {
      pendingSearches := map k | k in pendingSearches
                                 && !(pendingSearches[k].removeAt.Some? && pendingSearches[k].removeAt.value <= now)
                               :: pendingSearches[k];
    }
  }

  /**
   * Two requests whose queries differ only in case and spacing: while the
   * first is registered the second reuses its promise; searchProducts runs once.
   */
  method DuplicateRequests(q1: string, q2: string, now: int)
    returns (h1: Handling, h2: Handling, calls: nat, upstreamCalls: nat)
    requires NormalizeQuery(q1) == NormalizeQuery(q2)
    ensures h1 == h2 == Awaits(Awaiting(0)) && calls == 1 && upstreamCalls == 1
  {
    var catalog := new Catalog();
    var route := new SearchHandler();
    h1 := route.Get(Some(q1), catalog, now);
    h2 := route.Get(Some(q2), catalog, now);
    calls := |route.searchCalls|;
    upstreamCalls := catalog.nextId;
  }

  /** A first search for `query` on a fresh route and catalog: one registration, one upstream request. */
  method FirstSearch(query: string, t: int) returns (catalog: Catalog, route: SearchHandler)
    ensures fresh(catalog) && fresh(route) && catalog.Valid() && route.Valid()
    ensures route.pendingSearches == map[NormalizeQuery(query) := Entry(Awaiting(0), None)]
    ensures route.searchCalls == [query]
    ensures catalog.cache == map[] && catalog.settled == map[] && catalog.nextId == 1
    ensures catalog.pending == map[SearchKey(query) := 0]
    ensures catalog.requests == map[0 := SearchRequest(SearchKey(query), query)]
  {
    catalog := new Catalog();
    route := new SearchHandler();
    var first := route.Get(Some(query), catalog, t);
  }

  /** A first search for `query`, answered with `hits` at time `t`: registered until `t + ResidencyMs`, and cached. */
  method SettledSearch(query: string, hits: seq<RawHit>, t: int) returns (catalog: Catalog, route: SearchHandler)
    ensures fresh(catalog) && fresh(route) && catalog.Valid() && route.Valid()
    ensures route.pendingSearches == map[NormalizeQuery(query) := Entry(Awaiting(0), Some(t + ResidencyMs))]
    ensures route.searchCalls == [query]
    ensures catalog.cache == map[SearchKey(query) := CacheEntry(SearchData(SearchResults(hits)), t)]
    ensures catalog.pending == map[] && catalog.nextId == 1
  {
    catalog, route := FirstSearch(query, t);
    var o := catalog.SettleSearch(0, SearchReply(Some(SearchBody(Some(hits)))), t);
    assert 0 in catalog.settled;
    route.PromiseSettled(NormalizeQuery(query), catalog, t);
  }

  /**
   * A settled search stays registered for one second: a repeat just before
   * the deadline reuses it; a repeat at the deadline calls searchProducts
   * again, which the catalog then answers from its cache.
   */
  method ResidencyWindow(query: string, hits: seq<RawHit>, t: int, wait: int)
    returns (again: Handling, calls: nat, upstreamCalls: nat)
    requires 0 <= wait < CacheTtl
    ensures wait < ResidencyMs ==> again == Awaits(Awaiting(0)) && calls == 1
    ensures wait >= ResidencyMs ==> again == Awaits(FromCache(SearchData(SearchResults(hits)))) && calls == 2
    ensures upstreamCalls == 1
  {
    var catalog, route := SettledSearch(query, hits, t);
    var key := NormalizeQuery(query);
    route.Tick(t + wait);
    assert wait < ResidencyMs ==> key in route.pendingSearches && route.pendingSearches[key].promise == Awaiting(0);
    assert wait >= ResidencyMs ==> key !in route.pendingSearches;
    again := route.Get(Some(query), catalog, t + wait);
    calls := |route.searchCalls|;
    upstreamCalls := catalog.nextId;
  }
}
