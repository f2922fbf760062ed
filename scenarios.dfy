/** Client code that drives the cache and the request wrapper through
    short sequences of calls and states what the caller observes. Each
    proof uses only the contracts of the operations it calls. */
module Scenarios {
  import opened Json
  import opened Cache
  import opened Server

  /** Two requests for the same URL, the second within the TTL of the
      first: the second returns the first response and asks no upstream,
      whatever that upstream would now answer. */
  method CachePrecedence(ttlMinutes: nat, url: string, first: Payload, second: Outcome,
                         t1: int, t2: int)
    returns (r1: Payload, r2: Payload, fetched1: bool, fetched2: bool)
    requires "Error" !in first
    requires t1 <= t2 <= t1 + ttlMinutes * 60
    ensures fetched1 && r1 == first
    ensures !fetched2 && r2 == first
  {
    var cache := new CacheManager(ttlMinutes);
    r1, fetched1 := MakeRequest(cache, url, true, t1, Ok(first), t1);
    r2, fetched2 := MakeRequest(cache, url, true, t2, second, t2);
  }

  /** The same at the level of a tool handler: a second news request for
      the same ticker within the TTL replies as the first did and asks no
      upstream. A current-price request, which bypasses the cache, asks the
      upstream every time. */
  method ToolCachePrecedence(ttlMinutes: nat, base: string, ticker: string, first: Payload,
                             second: Outcome, t1: int, t2: int)
    returns (reply1: Reply, reply2: Reply, fetched2: bool, priceFetched: bool)
    requires "Error" !in first
    requires t1 <= t2 <= t1 + ttlMinutes * 60
    ensures reply1 == Render(CompanyNews(ticker), first)
    ensures !fetched2 && reply2 == reply1
    ensures priceFetched
  {
    var cache := new CacheManager(ttlMinutes);
    var fetched1, priceReply;
    reply1, fetched1 := CallTool(cache, base, CompanyNews(ticker), t1, Ok(first), t1);
    reply2, fetched2 := CallTool(cache, base, CompanyNews(ticker), t2, second, t2);
    priceReply, priceFetched := CallTool(cache, base, CurrentStockPrice(ticker), t2, second, t2);
  }

  /** Entry "A" stored at 0, entry "B" at half the TTL, both read at 1.1 TTLs:
      "A" has expired and is dropped by the read, "B" is returned; a sweep
      afterwards finds nothing left to clean, because the read removed "A". */
  method ReadsThenStats(ttlMinutes: nat) returns (a: Option<Payload>, b: Option<Payload>, s: CacheStats)
    requires ttlMinutes >= 1
    ensures a == None
    ensures b == Some(map["v" := JNum(2)])
    ensures s.totalEntries == 1 && s.expiredCleaned == 0 && s.activeEntries == 1
  {
    var cache := new CacheManager(ttlMinutes);
    cache.Set("A", map["v" := JNum(1)], 0);
    cache.Set("B", map["v" := JNum(2)], 30 * ttlMinutes);
    a := cache.Get("A", 66 * ttlMinutes);
    b := cache.Get("B", 66 * ttlMinutes);
    assert cache.entries == map["B" := Entry(map["v" := JNum(2)], 30 * ttlMinutes)];
    s := cache.Stats(66 * ttlMinutes);
  }

  /** The same two entries, swept before any read: the sweep cleans "A". */
  method StatsThenReads(ttlMinutes: nat) returns (s: CacheStats, a: Option<Payload>, b: Option<Payload>)
    requires ttlMinutes >= 1
    ensures s.totalEntries == 2 && s.expiredCleaned == 1 && s.activeEntries == 1
    ensures a == None
    ensures b == Some(map["v" := JNum(2)])
  {
    var cache := new CacheManager(ttlMinutes);
    cache.Set("A", map["v" := JNum(1)], 0);
    cache.Set("B", map["v" := JNum(2)], 30 * ttlMinutes);
    ghost var before := cache.entries;
    assert |before| == 2 by {
      assert before.Keys == {"A", "B"};
    }
    assert ExpiredKeys(before, cache.ttlSeconds, 66 * ttlMinutes) == {"A"};
    s := cache.Stats(66 * ttlMinutes);
    a := cache.Get("A", 66 * ttlMinutes);
    b := cache.Get("B", 66 * ttlMinutes);
  }

  /** An entry read back exactly one TTL after it was stored is still live;
      one second later it is gone. */
  method ExpiryBoundaryScenario(ttlMinutes: nat, key: string, data: Payload, t: int)
    returns (atBoundary: Option<Payload>, after: Option<Payload>)
    ensures atBoundary == Some(data)
    ensures after == None
  {
    var cache := new CacheManager(ttlMinutes);
    cache.Set(key, data, t);
    atBoundary := cache.Get(key, t + ttlMinutes * 60);
    after := cache.Get(key, t + ttlMinutes * 60 + 1);
  }

  /** An HTTP 404 is reported in the fixed error shape and is not stored. */
  method HttpErrorNotCached(url: string, body: string) returns (r: Payload, later: Option<Payload>)
    ensures r == map["Error" := JStr("HTTP 404 error: " + body)]
    ensures later == None
  {
    var cache := new CacheManager(10);
    var fetched;
    assert Decimal.IntToString(404) == "404";
    assert FailureMessage(HttpStatus(404, body)) == "HTTP 404 error: " + body;
    r, fetched := MakeRequest(cache, url, true, 0, HttpStatus(404, body), 0);
    later := cache.Get(url, 0);
  }

  /** A 2xx body that carries an "Error" field is returned as it is, but not stored. */
  method ErrorBodyNotCached(url: string, body: Payload) returns (r: Payload, later: Option<Payload>)
    requires "Error" in body
    ensures r == body
    ensures later == None
  {
    var cache := new CacheManager(10);
    var fetched;
    r, fetched := MakeRequest(cache, url, true, 0, Ok(body), 0);
    later := cache.Get(url, 0);
  }

  /** After `Clear`, no key that was stored can be read back. */
  method ClearForgets(key: string, data: Payload, t: int) returns (before: Option<Payload>, after: Option<Payload>)
    ensures before == Some(data)
    ensures after == None
  {
    var cache := new CacheManager(10);
    cache.Set(key, data, t);
    before := cache.Get(key, t);
    cache.Clear();
    after := cache.Get(key, t);
  }

  /** Two `Stats` calls at the same instant: the second cleans nothing and
      sees the size the first left. */
  method StatsTwice(cache: CacheManager, now: int) returns (first: CacheStats, second: CacheStats)
    modifies cache
    ensures second.expiredCleaned == 0
    ensures second.totalEntries == first.activeEntries == second.activeEntries
  {
    first := cache.Stats(now);
    SweepIdempotent(old(cache.entries), cache.ttlSeconds, now);
    second := cache.Stats(now);
  }
}
