/**
 * The cache and the pending-request registry of the Open Food Facts client
 * (`searchProducts` and `getProductById` in src/lib/openfoodfacts.js).
 *
 * Both registries are module-level maps in the source; here they are fields
 * of one `Catalog` object. A request's promise is identified by a number;
 * the upstream reply arrives later as a separate `Settle...` event, and a
 * caller that holds `Awaiting(id)` observes whatever request `id` settled
 * with. Time is passed in as milliseconds.
 */
module CatalogClient {
  import opened Wrappers
  import opened Text
  import opened CatalogRecords

  /** Five minutes, in milliseconds. */
  const CacheTtl: int := 5 * 60 * 1000

  /** `getCacheKey('search', query.toLowerCase().trim())`. */
  function SearchKey(query: string): (k: string)
    ensures |k| >= 7 && k[..7] == "search:" && IsTrimmed(k[7..]) && HasNoUpper(k[7..])
  {
    TrimLowerCommute(query);
    var k := "search:" + Trim(ToLower(query));
    assert k[7..] == ToLower(Trim(query));
    k
  }

  /** `getCacheKey('product', id)`: the identifier is used as given. */
  function ProductKey(id: string): (k: string)
    ensures |k| == |id| + 8 && k[..8] == "product:" && k[8..] == id
  {
    "product:" + id
  }

  /** A search key and a product key are never the same string. */
  lemma KeysNeverCollide(query: string, id: string)
    ensures SearchKey(query) != ProductKey(id)
  {
    assert SearchKey(query)[0] == 's' && ProductKey(id)[0] == 'p';
  }

  /** Queries that differ only in letter case or surrounding whitespace share one key. */
  lemma SearchKeyIgnoresCaseAndSpacing(query: string)
    ensures SearchKey(query) == SearchKey(Trim(query)) == SearchKey(ToLower(query))
  {
    TrimLowerCommute(query);
    TrimLowerCommute(Trim(query));
    TrimIdempotent(query);
    assert ToLower(ToLower(query)) == ToLower(query);
    TrimLowerCommute(ToLower(query));
  }

  datatype CachedData = SearchData(results: seq<Summary>) | ProductData(product: Product)

  datatype CacheEntry = CacheEntry(data: CachedData, timestamp: int)

  /** `isCacheValid`: an entry exists and is younger than the TTL (strictly). */
  predicate IsCacheValid(entry: Option<CacheEntry>, now: int) {
    entry.Some? && now - entry.value.timestamp < CacheTtl
  }

  /**
   * A cached entry is served for exactly the TTL: valid up to one millisecond
   * before `timestamp + CacheTtl`, stale from then on, and never valid again
   * once stale; a missing entry is never valid.
   */
  lemma CacheEntryLifetime(e: CacheEntry, now1: int, now2: int)
    requires now1 <= now2
    ensures !IsCacheValid(None, now1)
    ensures IsCacheValid(Some(e), e.timestamp + CacheTtl - 1) && !IsCacheValid(Some(e), e.timestamp + CacheTtl)
    ensures IsCacheValid(Some(e), now2) ==> IsCacheValid(Some(e), now1)
    ensures IsCacheValid(Some(e), now1) <==> now1 < e.timestamp + CacheTtl
  {
  }

  datatype CatalogError = TooManyRequests | SearchFailed | FetchFailed

  function ErrorMessage(e: CatalogError): string {
    match e
    case TooManyRequests => "Too many requests. Please wait a moment and try again."
    case SearchFailed => "Failed to search products"
    case FetchFailed => "Failed to fetch product details"
  }

  /** How a request's promise settles. */
  datatype Outcome = Resolved(data: CachedData) | Rejected(error: CatalogError)

  /** What a caller receives: cached data at once, or the promise of request `id`. */
  datatype Lookup = FromCache(data: CachedData) | Awaiting(id: nat)

  /** The request behind a promise, with the cache key its completion uses. */
  datatype Request =
    | SearchRequest(key: string, query: string)
    | ProductRequest(key: string, productId: string)

  // ----- upstream replies (axios resolves with a body or rejects, with or without an HTTP status) -----

  datatype SearchBody = SearchBody(products: Option<seq<RawHit>>)
  datatype SearchResponse = SearchReply(body: Option<SearchBody>) | SearchHttpError(status: Option<int>)

  datatype ProductBody = ProductBody(status: Option<int>, product: Option<RawProduct>)
  datatype ProductResponse = ProductReply(body: Option<ProductBody>) | ProductHttpError(status: Option<int>)

  /** What the request body does on completion: the promise's outcome, and whether it writes the cache and clears the pending key. */
  datatype Completion = Completion(outcome: Outcome, store: bool, release: bool)

  /** A search reply without a `products` list is the empty result. */
  predicate IsEmptySearchReply(r: SearchResponse) {
    r.SearchReply? && (r.body.None? || r.body.value.products.None?)
  }

  /** Completion of a search request. */
  function SearchCompletion(r: SearchResponse): (c: Completion)
    ensures c.outcome.Resolved? <==> r.SearchReply?
    ensures c.outcome.Resolved? ==> c.outcome.data.SearchData?
    ensures IsEmptySearchReply(r) ==> c.outcome == Resolved(SearchData([])) && !c.store && !c.release
    ensures r.SearchReply? && !IsEmptySearchReply(r) ==>
      (c.store && c.release && c.outcome.data.results == SearchResults(r.body.value.products.value))
    ensures r.SearchHttpError? ==>
      (!c.store && c.release
       && (c.outcome.error == TooManyRequests <==> r.status == Some(429))
       && (c.outcome.error != TooManyRequests ==> c.outcome.error == SearchFailed))
  {
    match r
    case SearchReply(body) =>
      if body.None? || body.value.products.None? then Completion(Resolved(SearchData([])), false, false)
      else Completion(Resolved(SearchData(SearchResults(body.value.products.value))), true, true)
    case SearchHttpError(status) =>
      Completion(Rejected(if status == Some(429) then TooManyRequests else SearchFailed), false, true)
  }

  /**
   * Completion of a by-code request. "Product not found" (no body, or
   * `status === 0`) and a body without a product are caught and rethrown as
   * the generic error; only an HTTP 429 is reported differently.
   */
  function ProductCompletion(r: ProductResponse): (c: Completion)
    ensures c.release
    ensures c.store <==> c.outcome.Resolved?
    ensures c.outcome.Resolved? <==>
      r.ProductReply? && r.body.Some? && r.body.value.status != Some(0) && r.body.value.product.Some?
    ensures c.outcome.Resolved? ==> c.outcome.data == ProductData(NormalizeProduct(r.body.value.product.value))
    ensures c.outcome.Rejected? ==>
      ((c.outcome.error == TooManyRequests <==> r == ProductHttpError(Some(429)))
       && (c.outcome.error != TooManyRequests ==> c.outcome.error == FetchFailed))
  {
    match r
    case ProductReply(body) =>
      if body.None? || body.value.status == Some(0) || body.value.product.None? then
        Completion(Rejected(FetchFailed), false, true)
      else
        Completion(Resolved(ProductData(NormalizeProduct(body.value.product.value))), true, true)
    case ProductHttpError(status) =>
      Completion(Rejected(if status == Some(429) then TooManyRequests else FetchFailed), false, true)
  }

  class Catalog {
    /** `cache`: key to stored data and the time it was stored. */
    var cache: map<string, CacheEntry>
    /** `pendingRequests`: key to the promise registered for it. */
    var pending: map<string, nat>
    /** Every promise created so far and the request it runs. */
    var requests: map<nat, Request>
    /** The promises that have settled, with their outcomes. */
    var settled: map<nat, Outcome>
    var nextId: nat

    /**
     * Every registered promise belongs to its key, and every promise still
     * in flight is the one registered under its key: at most one request per
     * key is ever in flight.
     */
    ghost predicate Valid()
      reads this
    {
      && (forall id :: id in requests ==> id < nextId)
      && (forall id :: id in settled ==> id in requests)
      && (forall k :: k in pending ==> pending[k] in requests && requests[pending[k]].key == k)
      && (forall id :: id in requests && id !in settled ==>
            requests[id].key in pending && pending[requests[id].key] == id)
    }

    constructor ()
      ensures Valid()
      ensures cache == map[] && pending == map[] && requests == map[] && settled == map[] && nextId == 0
    {
      cache, pending, requests, settled, nextId := map[], map[], map[], map[], 0;
    }

    /** What a holder of `l` has received so far: cached data, a settled outcome, or nothing yet. */
    function Observe(l: Lookup): Option<Outcome>
      reads this
    {
      match l
      case FromCache(data) => Some(Resolved(data))
      case Awaiting(id) => if id in settled then Some(settled[id]) else None
    }

    /** The common prologue: a valid cache hit, else the pending promise, else a new request. */
    method Begin(req: Request, now: int) returns (r: Lookup)
      requires Valid()
      modifies this
      ensures Valid()
      ensures cache == old(cache) && settled == old(settled)
      ensures var key := req.key;
        if key in old(cache) && IsCacheValid(Some(old(cache)[key]), now) then
          r == FromCache(old(cache)[key].data)
          && pending == old(pending) && requests == old(requests) && nextId == old(nextId)
        else if key in old(pending) then
          r == Awaiting(old(pending)[key])
          && pending == old(pending) && requests == old(requests) && nextId == old(nextId)
        else
          r == Awaiting(old(nextId))
          && pending == old(pending)[key := old(nextId)]
          && requests == old(requests)[old(nextId) := req]
          && nextId == old(nextId) + 1
    {
      var key := req.key;
      if key in cache && IsCacheValid(Some(cache[key]), now) {
        return FromCache(cache[key].data);
      }
      if key in pending {
        return Awaiting(pending[key]);
      }
      var id := nextId;
      requests := requests[id := req];
      pending := pending[key := id];
      nextId := nextId + 1;
      r := Awaiting(id);
    }

    /** `searchProducts(query)` up to the point where it awaits the network. */
    method SearchProducts(query: string, now: int) returns (r: Lookup)
      requires Valid()
      modifies this
      ensures Valid()
      ensures cache == old(cache) && settled == old(settled)
      ensures var key := SearchKey(query);
        if key in old(cache) && IsCacheValid(Some(old(cache)[key]), now) then
          r == FromCache(old(cache)[key].data)
          && pending == old(pending) && requests == old(requests) && nextId == old(nextId)
        else if key in old(pending) then
          r == Awaiting(old(pending)[key])
          && pending == old(pending) && requests == old(requests) && nextId == old(nextId)
        else
          r == Awaiting(old(nextId))
          && pending == old(pending)[key := old(nextId)]
          && requests == old(requests)[old(nextId) := SearchRequest(key, query)]
          && nextId == old(nextId) + 1
    {
      r := Begin(SearchRequest(SearchKey(query), query), now);
    }

    /** `getProductById(id)` up to the point where it awaits the network. */
    method GetProductById(productId: string, now: int) returns (r: Lookup)
      requires Valid()
      modifies this
      ensures Valid()
      ensures cache == old(cache) && settled == old(settled)
      ensures var key := ProductKey(productId);
        if key in old(cache) && IsCacheValid(Some(old(cache)[key]), now) then
          r == FromCache(old(cache)[key].data)
          && pending == old(pending) && requests == old(requests) && nextId == old(nextId)
        else if key in old(pending) then
          r == Awaiting(old(pending)[key])
          && pending == old(pending) && requests == old(requests) && nextId == old(nextId)
        else
          r == Awaiting(old(nextId))
          && pending == old(pending)[key := old(nextId)]
          && requests == old(requests)[old(nextId) := ProductRequest(key, productId)]
          && nextId == old(nextId) + 1
    {
      r := Begin(ProductRequest(ProductKey(productId), productId), now);
    }

    /** The request body's completion: settle the promise, then store and release as `c` says. */
    method Complete(id: nat, c: Completion, now: int)
      requires Valid() && id in requests && id !in settled
      requires c.store ==> c.outcome.Resolved?
      modifies this
      ensures Valid()
      ensures var key := old(requests)[id].key;
        && settled == old(settled)[id := c.outcome]
        && cache == (if c.store then old(cache)[key := CacheEntry(c.outcome.data, now)] else old(cache))
        && pending == (if c.release then old(pending) - {key} else old(pending))
        && requests == old(requests) && nextId == old(nextId)
    {
      var key := requests[id].key;
      settled := settled[id := c.outcome];
      if c.store {
        cache := cache[key := CacheEntry(c.outcome.data, now)];
      }
      if c.release {
        pending := pending - {key};
      }
    }

    /** The upstream search reply for request `id` arrives at time `now`. */
    method SettleSearch(id: nat, response: SearchResponse, now: int) returns (o: Outcome)
      requires Valid() && id in requests && requests[id].SearchRequest? && id !in settled
      modifies this
      ensures Valid()
      ensures var c := SearchCompletion(response); var key := old(requests)[id].key;
        && o == c.outcome
        && settled == old(settled)[id := o]
        && cache == (if c.store then old(cache)[key := CacheEntry(o.data, now)] else old(cache))
        && pending == (if c.release then old(pending) - {key} else old(pending))
        && requests == old(requests) && nextId == old(nextId)
    {
      var c := SearchCompletion(response);
      Complete(id, c, now);
      o := c.outcome;
    }

    /** The upstream by-code reply for request `id` arrives at time `now`. */
    method SettleProduct(id: nat, response: ProductResponse, now: int) returns (o: Outcome)
      requires Valid() && id in requests && requests[id].ProductRequest? && id !in settled
      modifies this
      ensures Valid()
      ensures var c := ProductCompletion(response); var key := old(requests)[id].key;
        && o == c.outcome
        && settled == old(settled)[id := o]
        && cache == (if c.store then old(cache)[key := CacheEntry(o.data, now)] else old(cache))
        && pending == old(pending) - {key}
        && requests == old(requests) && nextId == old(nextId)
    {
      var c := ProductCompletion(response);
      Complete(id, c, now);
      o := c.outcome;
    }
  }

  /** In a valid catalog no two requests for the same key are in flight at once. */
  lemma AtMostOneInFlight(c: Catalog, id1: nat, id2: nat)
    requires c.Valid()
    requires id1 in c.requests && id1 !in c.settled
    requires id2 in c.requests && id2 !in c.settled
    requires c.requests[id1].key == c.requests[id2].key
    ensures id1 == id2
  {
  }

  // ----- scenarios over a fresh catalog -----

  /** Two searches that normalise alike, issued before any reply, share one upstream request. */
  method CoalescedSearches(q1: string, q2: string, t1: int, t2: int)
    returns (r1: Lookup, r2: Lookup, upstreamCalls: nat)
    requires Trim(ToLower(q1)) == Trim(ToLower(q2))
    ensures r1 == r2 == Awaiting(0) && upstreamCalls == 1
  {
    var c := new Catalog();
    r1 := c.SearchProducts(q1, t1);
    r2 := c.SearchProducts(q2, t2);
    upstreamCalls := c.nextId;
  }

  /** A successful search is answered from the cache, with no new request, until the TTL has elapsed. */
  method RepeatedSearch(query: string, hits: seq<RawHit>, t0: int, t1: int)
    returns (second: Lookup, upstreamCalls: nat)
    ensures t1 - t0 < CacheTtl ==> second == FromCache(SearchData(SearchResults(hits))) && upstreamCalls == 1
    ensures t1 - t0 >= CacheTtl ==> second == Awaiting(1) && upstreamCalls == 2
  {
    var c := new Catalog();
    var first := c.SearchProducts(query, t0);
    var o := c.SettleSearch(0, SearchReply(Some(SearchBody(Some(hits)))), t0);
    second := c.SearchProducts(query, t1);
    upstreamCalls := c.nextId;
  }

  /**
   * A reply without `products` resolves to `[]` but leaves the pending entry
   * behind and caches nothing: every later search for that key, at any
   * time, gets the same settled `[]` and never reaches the network again.
   */
  method EmptyReplyPinsKey(query: string, again: string, t0: int, t1: int)
    returns (later: Lookup, seen: Option<Outcome>, upstreamCalls: nat)
    requires Trim(ToLower(again)) == Trim(ToLower(query))
    ensures later == Awaiting(0) && seen == Some(Resolved(SearchData([]))) && upstreamCalls == 1
  {
    var c := new Catalog();
    var first := c.SearchProducts(query, t0);
    var o := c.SettleSearch(0, SearchReply(None), t0);
    later := c.SearchProducts(again, t1);
    seen := c.Observe(later);
    upstreamCalls := c.nextId;
  }

  /** A failed search clears its pending entry, so the next search issues a fresh request. */
  method RetryAfterFailure(query: string, status: Option<int>, t0: int, t1: int)
    returns (o: Outcome, later: Lookup, upstreamCalls: nat)
    ensures o == Rejected(if status == Some(429) then TooManyRequests else SearchFailed)
    ensures later == Awaiting(1) && upstreamCalls == 2
  {
    var c := new Catalog();
    var first := c.SearchProducts(query, t0);
    o := c.SettleSearch(0, SearchHttpError(status), t0);
    later := c.SearchProducts(query, t1);
    upstreamCalls := c.nextId;
  }
}
