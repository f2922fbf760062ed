/** The request wrapper and the tool handlers of the MCP server: the cache
    policy of `make_request`, the uniform `{"Error": ...}` shape of failed
    fetches, the URL each tool builds and the extraction of one named field
    with a fixed "not found" reply. The network call is an `Outcome` input. */
module Server {
  import opened Json
  import opened Decimal
  import opened Cache

  /** How the upstream GET ended. */
  datatype Outcome =
    | Ok(payload: Payload)                 // a 2xx response whose body parsed as an object
    | HttpStatus(code: int, body: string)  // `raise_for_status` rejected the status
    | Timeout                              // the client's timeout fired
    | Other(message: string)               // any other exception, with its `str(e)`

  /** The payload every failure is reported as. */
  function ErrorPayload(message: string): Payload {
    map["Error" := JStr(message)]
  }

  /** The message put under "Error" for each kind of failure. */
  function FailureMessage(o: Outcome): string
    requires !o.Ok?
  {
    match o
    case HttpStatus(code, body) => "HTTP " + IntToString(code) + " error: " + body
    case Timeout => "Request timeout"
    case Other(message) => "Unexpected error: " + message
  }

  /** What `make_request` returns once it has consulted the upstream. */
  function Response(o: Outcome): (r: Payload)
    ensures o.Ok? ==> r == o.payload
    ensures !o.Ok? ==> r.Keys == {"Error"} && r["Error"] == JStr(FailureMessage(o))
  {
    if o.Ok? then o.payload else ErrorPayload(FailureMessage(o))
  }

  /** Only a successful payload without an "Error" field is ever stored, and only when caching is on. */
  predicate Cacheable(useCache: bool, o: Outcome) {
    useCache && o.Ok? && "Error" !in o.payload
  }

  /** No stored entry holds an error-shaped payload. */
  predicate NoErrorCached(m: map<string, Entry>) {
    forall k :: k in m ==> "Error" !in m[k].data
  }

  /** What `make_request` returns, given the cache contents it starts from. */
  function RequestResult(m: map<string, Entry>, ttl: int, url: string, useCache: bool,
                         lookupAt: int, fetch: Outcome): Payload
  {
    var hit := if useCache then Lookup(m, ttl, url, lookupAt) else None;
    if hit.Some? then hit.value else Response(fetch)
  }

  /** The cache contents `make_request` leaves, given those it starts from:
      unchanged on a hit or with caching off; on a miss the stale entry (if
      any) is gone, and a cacheable result is stored stamped `storeAt`. */
  function RequestEntries(m: map<string, Entry>, ttl: int, url: string, useCache: bool,
                          lookupAt: int, fetch: Outcome, storeAt: int): (r: map<string, Entry>)
    ensures r - {url} == m - {url}
    ensures !(useCache && Lookup(m, ttl, url, lookupAt).None?) ==> r == m
    ensures Cacheable(useCache, fetch) && Lookup(m, ttl, url, lookupAt).None? ==>
              url in r && r[url] == Entry(fetch.payload, storeAt)
    ensures useCache && !Cacheable(useCache, fetch) && Lookup(m, ttl, url, lookupAt).None? ==> url !in r
    ensures NoErrorCached(m) ==> NoErrorCached(r)
  {
    if !useCache || Lookup(m, ttl, url, lookupAt).Some? then m
    else if Cacheable(useCache, fetch) then m[url := Entry(fetch.payload, storeAt)]
    else m - {url}
  }

  /** `make_request`. `lookupAt` is the clock at the cache read, `storeAt`
      the clock when the response has arrived; `fetch` is what the upstream
      would answer, and `fetched` says whether it was asked at all. */
  method MakeRequest(cache: CacheManager, url: string, useCache: bool,
                     lookupAt: int, fetch: Outcome, storeAt: int)
    returns (r: Payload, fetched: bool)
    modifies cache
    ensures r == RequestResult(old(cache.entries), cache.ttlSeconds, url, useCache, lookupAt, fetch)
    ensures cache.entries == RequestEntries(old(cache.entries), cache.ttlSeconds, url, useCache,
                                            lookupAt, fetch, storeAt)
    // the upstream is asked exactly when there is no usable cache hit
    ensures fetched <==> !(useCache && Lookup(old(cache.entries), cache.ttlSeconds, url, lookupAt).Some?)
    // a hit is returned as stored and the upstream is not asked
    ensures useCache && Lookup(old(cache.entries), cache.ttlSeconds, url, lookupAt).Some? ==>
              !fetched && r == Lookup(old(cache.entries), cache.ttlSeconds, url, lookupAt).value
              && cache.entries == old(cache.entries)
    // otherwise the upstream is asked and its outcome, shaped, is returned
    ensures !(useCache && Lookup(old(cache.entries), cache.ttlSeconds, url, lookupAt).Some?) ==>
              fetched && r == Response(fetch)
    // without caching the cache is neither read nor written
    ensures !useCache ==> cache.entries == old(cache.entries)
    // on a miss the stale entry (if any) is gone, and the result is stored only if cacheable
    ensures useCache && Lookup(old(cache.entries), cache.ttlSeconds, url, lookupAt).None? ==>
              cache.entries == if Cacheable(useCache, fetch)
                               then old(cache.entries)[url := Entry(fetch.payload, storeAt)]
                               else old(cache.entries) - {url}
    // no other key is touched
    ensures cache.entries - {url} == old(cache.entries) - {url}
    ensures NoErrorCached(old(cache.entries)) ==> NoErrorCached(cache.entries)
  {
    if useCache {
      var cached := cache.Get(url, lookupAt);
      if cached.Some? {
        return cached.value, false;
      }
    }
    fetched := true;
    match fetch
    case Ok(data) =>
      if useCache && "Error" !in data {
        cache.Set(url, data, storeAt);
      }
      r := data;
    case _ =>
      r := ErrorPayload(FailureMessage(fetch));
  }

  /** The three kinds of failure, and the details each carries, can be told
      apart from the message alone. */
  lemma FailureMessageInjective(a: Outcome, b: Outcome)
    requires !a.Ok? && !b.Ok?
    ensures FailureMessage(a) == FailureMessage(b) ==> a == b
  {
    var s, t := FailureMessage(a), FailureMessage(b);
    if s == t {
      match a
      case HttpStatus(c1, b1) =>
        assert s[0] == 'H';
        var HttpStatus(c2, b2) := b;
        HttpMessageSplit(c1, b1, c2, b2);
      case Timeout =>
        assert s[0] == 'R';
      case Other(m1) =>
        assert s[0] == 'U';
        var Other(m2) := b;
        assert m1 == s[18..] == t[18..] == m2;
    }
  }

  lemma HttpMessageSplit(c1: int, b1: string, c2: int, b2: string)
    requires "HTTP " + IntToString(c1) + " error: " + b1 == "HTTP " + IntToString(c2) + " error: " + b2
    ensures c1 == c2 && b1 == b2
  {
    var s := "HTTP " + IntToString(c1) + " error: " + b1;
    var i1, i2 := IntToString(c1), IntToString(c2);
    NoSpaceInInt(c1);
    NoSpaceInInt(c2);
    assert forall k :: 0 <= k < |i1| ==> s[5 + k] == i1[k];
    assert forall k :: 0 <= k < |i2| ==> s[5 + k] == i2[k];
    assert s[5 + |i1|] == ' ' && s[5 + |i2|] == ' ';
    assert |i1| == |i2|;
    assert i1 == s[5..5 + |i1|] == i2;
    IntToStringInjective(c1, c2);
    assert b1 == s[5 + |i1| + 8..] == b2;
  }

  lemma NoSpaceInInt(n: int)
    ensures forall k :: 0 <= k < |IntToString(n)| ==> IntToString(n)[k] != ' '
  {
  }

  // ---------------------------------------------------------------------
  // Tool handlers

  /** One call of a registered tool, with its arguments. */
  datatype Tool =
    | IncomeStatements(ticker: string, period: string, limit: int)
    | BalanceSheets(ticker: string, period: string, limit: int)
    | CashFlowStatements(ticker: string, period: string, limit: int)
    | CurrentStockPrice(ticker: string)
    | HistoricalStockPrices(ticker: string, startDate: string, endDate: string,
                            interval: string, intervalMultiplier: int)
    | CompanyNews(ticker: string)
    | AvailableCryptoTickers
    | CryptoPrices(ticker: string, startDate: string, endDate: string,
                   interval: string, intervalMultiplier: int)
    | HistoricalCryptoPrices(ticker: string, startDate: string, endDate: string,
                             interval: string, intervalMultiplier: int)
    | CurrentCryptoPrice(ticker: string)
    | SecFilings(ticker: string, limit: int, filingType: Option<string>)

  /** The reply a handler gives: its fixed sentinel text, or the extracted
      value that it pretty-prints as JSON text. */
  datatype Reply = NotFound(text: string) | Content(value: Json)

  function FinancialsQuery(ticker: string, period: string, limit: int): string {
    "?ticker=" + ticker + "&period=" + period + "&limit=" + IntToString(limit)
  }

  function PriceQuery(ticker: string, startDate: string, endDate: string,
                      interval: string, intervalMultiplier: int): string {
    "?ticker=" + ticker + "&interval=" + interval
      + "&interval_multiplier=" + IntToString(intervalMultiplier)
      + "&start_date=" + startDate + "&end_date=" + endDate
  }

  /** Python's `if filing_type:` on `str | None`. */
  predicate HasFilingType(filingType: Option<string>) {
    filingType.Some? && filingType.value != ""
  }

  /** The URL (the cache key) a tool call requests. */
  function Url(base: string, tool: Tool): string {
    match tool
    case IncomeStatements(t, p, l) => base + "/financials/income-statements/" + FinancialsQuery(t, p, l)
    case BalanceSheets(t, p, l) => base + "/financials/balance-sheets/" + FinancialsQuery(t, p, l)
    case CashFlowStatements(t, p, l) => base + "/financials/cash-flow-statements/" + FinancialsQuery(t, p, l)
    case CurrentStockPrice(t) => base + "/prices/snapshot/?ticker=" + t
    case HistoricalStockPrices(t, s, e, i, m) => base + "/prices/" + PriceQuery(t, s, e, i, m)
    case CompanyNews(t) => base + "/news/?ticker=" + t
    case AvailableCryptoTickers => base + "/crypto/prices/tickers"
    case CryptoPrices(t, s, e, i, m) => base + "/crypto/prices/" + PriceQuery(t, s, e, i, m)
    case HistoricalCryptoPrices(t, s, e, i, m) => base + "/crypto/prices/" + PriceQuery(t, s, e, i, m)
    case CurrentCryptoPrice(t) => base + "/crypto/prices/snapshot/?ticker=" + t
    case SecFilings(t, l, ft) =>
      base + "/filings/?ticker=" + t + "&limit=" + IntToString(l)
        + (if HasFilingType(ft) then "&filing_type=" + ft.value else "")
  }

  /** The two current-price tools serve near-real-time data and bypass the cache. */
  predicate UsesCache(tool: Tool) {
    !(tool.CurrentStockPrice? || tool.CurrentCryptoPrice?)
  }

  /** The response field a tool extracts. */
  function Field(tool: Tool): string {
    match tool
    case IncomeStatements(_, _, _) => "income_statements"
    case BalanceSheets(_, _, _) => "balance_sheets"
    case CashFlowStatements(_, _, _) => "cash_flow_statements"
    case CurrentStockPrice(_) => "snapshot"
    case HistoricalStockPrices(_, _, _, _, _) => "prices"
    case CompanyNews(_) => "news"
    case AvailableCryptoTickers => "tickers"
    case CryptoPrices(_, _, _, _, _) => "prices"
    case HistoricalCryptoPrices(_, _, _, _, _) => "prices"
    case CurrentCryptoPrice(_) => "snapshot"
    case SecFilings(_, _, _) => "filings"
  }

  /** The default `data.get` falls back to: `{}` for snapshots, `[]` otherwise. */
  function FieldDefault(tool: Tool): Json {
    if tool.CurrentStockPrice? || tool.CurrentCryptoPrice? then JObj(map[]) else JArr([])
  }

  /** The fixed text a tool replies with when it finds nothing. */
  function Sentinel(tool: Tool): string {
    match tool
    case IncomeStatements(_, _, _) => "Unable to fetch income statements or no income statements found."
    case BalanceSheets(_, _, _) => "Unable to fetch balance sheets or no balance sheets found."
    case CashFlowStatements(_, _, _) => "Unable to fetch cash flow statements or no cash flow statements found."
    case CurrentStockPrice(_) => "Unable to fetch current price or no current price found."
    case HistoricalStockPrices(_, _, _, _, _) => "Unable to fetch prices or no prices found."
    case CompanyNews(_) => "Unable to fetch news or no news found."
    case AvailableCryptoTickers =>
      "Unable to fetch available crypto tickers or no available crypto tickers found."
    case CryptoPrices(_, _, _, _, _) => "Unable to fetch prices or no prices found."
    case HistoricalCryptoPrices(_, _, _, _, _) => "Unable to fetch prices or no prices found."
    case CurrentCryptoPrice(_) => "Unable to fetch current price or no current price found."
    case SecFilings(_, _, _) => "Unable to fetch SEC filings or no SEC filings found."
  }

  /** The shared handler rule: an empty result, or a missing or falsy
      field, gives the sentinel. */
  function Extract(data: Payload, field: string, default: Json, sentinel: string): Reply {
    if data == map[] then NotFound(sentinel)
    else
      var v := GetOr(data, field, default);
      if !Truthy(v) then NotFound(sentinel) else Content(v)
  }

  /** What a handler replies for the payload `make_request` gave it. The
      crypto-tickers handler checks only for an empty result; the filings
      handler skips that check and tests only the field. */
  function Render(tool: Tool, data: Payload): Reply {
    match tool
    case AvailableCryptoTickers =>
      if data == map[] then NotFound(Sentinel(tool)) else Content(GetOr(data, "tickers", JArr([])))
    case SecFilings(_, _, _) =>
      var v := GetOr(data, "filings", JArr([]));
      if !Truthy(v) then NotFound(Sentinel(tool)) else Content(v)
    case _ =>
      Extract(data, Field(tool), FieldDefault(tool), Sentinel(tool))
  }

  /** Every handler except the crypto-tickers one replies with the field's
      value exactly when the field is present and truthy, and with its
      sentinel otherwise. */
  lemma RenderRule(tool: Tool, data: Payload)
    requires !tool.AvailableCryptoTickers?
    ensures Render(tool, data) ==
              if Field(tool) in data && Truthy(data[Field(tool)])
              then Content(data[Field(tool)]) else NotFound(Sentinel(tool))
  {
    var field, default := Field(tool), FieldDefault(tool);
    assert !Truthy(default);
    if data == map[] {
      assert field !in data;
    }
  }

  /** The crypto-tickers handler replies with the sentinel only for an empty
      result, and otherwise with the field, or `[]` when it is missing. */
  lemma TickersRule(data: Payload)
    ensures Render(AvailableCryptoTickers, data) ==
              if data == map[] then NotFound(Sentinel(AvailableCryptoTickers))
              else if "tickers" in data then Content(data["tickers"])
              else Content(JArr([]))
  {
  }

  /** A failed fetch reaches every handler but the crypto-tickers one as its
      sentinel: the error message is not shown. */
  lemma FailureRendersSentinel(tool: Tool, o: Outcome)
    requires !o.Ok? && !tool.AvailableCryptoTickers?
    ensures Render(tool, Response(o)) == NotFound(Sentinel(tool))
  {
    RenderRule(tool, Response(o));
  }

  /** The crypto-tickers handler turns a failed fetch into an empty list. */
  lemma TickersFailureRendersEmptyList(o: Outcome)
    requires !o.Ok?
    ensures Render(AvailableCryptoTickers, Response(o)) == Content(JArr([]))
  {
  }

  /** The filings URL gains `&filing_type=<t>` exactly when a non-empty type is given. */
  lemma FilingsUrlSuffix(base: string, ticker: string, limit: int, filingType: Option<string>)
    ensures !HasFilingType(filingType) ==>
              Url(base, SecFilings(ticker, limit, filingType))
              == base + "/filings/?ticker=" + ticker + "&limit=" + IntToString(limit)
    ensures HasFilingType(filingType) ==>
              Url(base, SecFilings(ticker, limit, filingType))
              == Url(base, SecFilings(ticker, limit, None)) + "&filing_type=" + filingType.value
  {
  }

  /** Requests with different filters use different cache keys; an empty
      filter is the same request as none. */
  lemma FilingTypeSeparatesKeys(base: string, ticker: string, limit: int, f1: Option<string>, f2: Option<string>)
    ensures Url(base, SecFilings(ticker, limit, f1)) == Url(base, SecFilings(ticker, limit, f2))
            <==> (HasFilingType(f1) == HasFilingType(f2) && (HasFilingType(f1) ==> f1.value == f2.value))
  {
    var u0 := Url(base, SecFilings(ticker, limit, None));
    var u1, u2 := Url(base, SecFilings(ticker, limit, f1)), Url(base, SecFilings(ticker, limit, f2));
    if HasFilingType(f1) && HasFilingType(f2) && u1 == u2 {
      assert f1.value == u1[|u0| + 13..] == u2[|u0| + 13..] == f2.value;
    }
  }

  /** The two historical crypto tools request the same URL, so they share cache entries. */
  lemma CryptoPriceToolsShareUrl(base: string, t: string, s: string, e: string, i: string, m: int,
                                 data: Payload)
    ensures Url(base, CryptoPrices(t, s, e, i, m)) == Url(base, HistoricalCryptoPrices(t, s, e, i, m))
    ensures Render(CryptoPrices(t, s, e, i, m), data) == Render(HistoricalCryptoPrices(t, s, e, i, m), data)
  {
  }

  /** A tool handler: build the URL, call `make_request`, render the field. */
  method CallTool(cache: CacheManager, base: string, tool: Tool,
                  lookupAt: int, fetch: Outcome, storeAt: int)
    returns (reply: Reply, fetched: bool)
    modifies cache
    ensures reply == Render(tool, RequestResult(old(cache.entries), cache.ttlSeconds,
                                                Url(base, tool), UsesCache(tool), lookupAt, fetch))
    ensures cache.entries == RequestEntries(old(cache.entries), cache.ttlSeconds, Url(base, tool),
                                            UsesCache(tool), lookupAt, fetch, storeAt)
    ensures fetched <==> !(UsesCache(tool) &&
                           Lookup(old(cache.entries), cache.ttlSeconds, Url(base, tool), lookupAt).Some?)
    ensures !UsesCache(tool) ==> fetched && cache.entries == old(cache.entries)
    ensures cache.entries - {Url(base, tool)} == old(cache.entries) - {Url(base, tool)}
    ensures NoErrorCached(old(cache.entries)) ==> NoErrorCached(cache.entries)
  {
    var data;
    data, fetched := MakeRequest(cache, Url(base, tool), UsesCache(tool), lookupAt, fetch, storeAt);
    reply := Render(tool, data);
  }
}
