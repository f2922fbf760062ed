# Financial-datasets MCP server: TTL cache and request policy in Dafny

This project models the core of a model-context-protocol server that exposes
a financial-data REST API as tools. The server keeps an in-process
time-to-live (TTL) cache of upstream responses, keyed by request URL.

- `cache_manager.dfy` (module `Cache`) models `CacheManager`. The class
  `Cache.CacheManager` holds `entries: map<string, Entry>`. Each `Entry` is a
  payload plus the clock reading at which it was stored. `ttlSeconds` is set
  once to `ttl_minutes * 60`. `Get` deletes an expired entry when it reads it.
  `CleanupExpired` deletes every expired entry in a loop over the expired
  keys. `Stats` sweeps as a side effect and reports the sizes before and
  after. An entry is expired only when its age strictly exceeds the TTL.
  The pure functions `Lookup`, `ExpiredKeys` and `Sweep` state what the
  methods compute, and the lemmas beside them prove the properties.
- `server.dfy` (module `Server`) models the caching policy and error shaping
  of `make_request` as the method `MakeRequest`, which acts on a
  `CacheManager`. It also models the URL each tool handler builds, whether the
  handler uses the cache, and the rule that picks one field or the handler's
  fixed "not found" text (`Render`). The upstream GET is an input `Outcome`:
  `Ok(payload)`, `HttpStatus(code, body)`, `Timeout` or `Other(message)`.
  The out-parameter `fetched` says whether the upstream was asked.
- `json.dfy` (module `Json`) holds the parsed-JSON value type, `Payload` (a
  JSON object) and Python truthiness. `decimal.dfy` (module `Decimal`)
  renders integers as `str(n)` does, with a parser and a round-trip proof.
- `scenarios.dfy` (module `Scenarios`) holds client methods. Each drives the
  cache or the request wrapper through a short call sequence and states what
  the caller sees.

Clock readings (`time.time()`) are explicit integer parameters. `make_request`
reads the clock twice: `lookupAt` for the cache read and `storeAt` for the
store after the response arrives.

Behaviours of the code worth knowing:

- Reading an expired key deletes it (cache_manager.py:22-25). So with "A"
  expired and "B" live, a `stats` after reading both reports
  `expired_cleaned == 0` (`Scenarios.ReadsThenStats`). A `stats` before the
  reads reports 1 (`Scenarios.StatsThenReads`).
- Every handler except `get_available_crypto_tickers` turns an error payload
  into its sentinel. That one checks only `not data` (server.py:296), so it
  replies `[]` (`Server.TickersFailureRendersEmptyList`).
- `get_sec_filings` has no empty-result check. `Server.RenderRule` shows it
  still replies exactly as the shared rule does.

`get_crypto_prices` and `get_historical_crypto_prices` build the same URL, so
they share cache entries (`Server.CryptoPriceToolsShareUrl`).

## Model

| member | source | states |
|---|---|---|
| Cache.CacheManager.constructor | cache_manager.py:8-10 | starts empty, with `ttlSeconds == ttlMinutes * 60` |
| Cache.Expired | cache_manager.py:12-14 | the definition of `_is_expired`: an entry is expired iff its age `now - timestamp` strictly exceeds the TTL |
| Cache.ExpiryBoundary | cache_manager.py:12-14 | the expiry test is strict: an entry aged exactly the TTL is live; it is expired iff `now > timestamp + ttl` |
| Cache.ExpiryMonotone | cache_manager.py:12-14 | once expired, an entry stays expired as the clock advances |
| Cache.Lookup | cache_manager.py:16-27 | a read yields data iff the key is present and not expired, and then it is exactly the stored data |
| Cache.CacheManager.Get | cache_manager.py:16-27 | missing key: `None`, cache unchanged; expired: `None`, exactly that key removed; live: its stored data, cache unchanged |
| Cache.CacheManager.Set | cache_manager.py:29-34 | the entry for `key` is replaced wholesale by `(data, now)`, others unchanged; with `ttlSeconds >= 0` an immediate read returns `data` |
| Cache.LookupAfterStore | cache_manager.py:14-34 | after a store, the key reads back its data exactly while the age is at most the TTL; reads of other keys are unaffected |
| Cache.CacheManager.Clear | cache_manager.py:36-38 | the cache is empty, so every later read of any key at any time returns `None` |
| Cache.ExpiredKeys | cache_manager.py:42-45 | the collected keys are exactly the present keys whose entries are expired |
| Cache.Sweep | cache_manager.py:40-50 | after a sweep, a key is present iff it was present and live, with its entry unchanged |
| Cache.CacheManager.CleanupExpired | cache_manager.py:40-50 | the new contents are the sweep of the old; the count returned is the number of expired keys, and the drop in size |
| Cache.SweepRemovesExpired | cache_manager.py:47-50 | a sweep removes exactly the expired keys, and the size drops by their number |
| Cache.SweepIdempotent | cache_manager.py:40-55 | a second sweep at the same instant finds no expired key and changes nothing |
| Cache.SweepPreservesLookups | cache_manager.py:16-27 | a sweep changes no read result: every key reads the same before and after |
| Cache.CacheManager.Stats | cache_manager.py:52-63 | sweeps; `total_entries` is the size before, `expired_cleaned` the number swept, `active_entries` the size after and equal to their difference, and `ttl_seconds` the TTL |
| Scenarios.StatsTwice | cache_manager.py:52-63 | a second `stats` at the same instant reports `expired_cleaned == 0` and the size the first left |
| Scenarios.ReadsThenStats | cache_manager.py:16-63 | "A" stored at 0 and "B" at half the TTL, both read at 1.1 TTLs: "A" is `None`, "B" its data; a later `stats` cleans nothing |
| Scenarios.StatsThenReads | cache_manager.py:16-63 | the same entries swept first: `stats` reports 2 total, 1 cleaned, 1 active; then "A" is `None` and "B" its data |
| Scenarios.ExpiryBoundaryScenario | cache_manager.py:12-34 | a stored entry read exactly one TTL later is returned, and one second later it is `None` |
| Scenarios.ClearForgets | cache_manager.py:36-38 | a key readable before `clear` reads `None` after it |
| Server.ErrorPayload | server.py:61-69 | the definition: the object with the single key "Error" holding the message |
| Server.FailureMessage | server.py:59-67 | the definition: `HTTP <status> error: <body>`, `Request timeout`, or `Unexpected error: <msg>`, by failure kind |
| Server.Response | server.py:56-69 | a success returns the payload unchanged; any failure returns an object whose only key is "Error", holding the failure's message |
| Server.FailureMessageInjective | server.py:58-69 | the messages `HTTP <status> error: <body>`, `Request timeout` and `Unexpected error: <msg>` determine the failure and its details |
| Server.RequestResult | server.py:30-69 | the definition of the value `make_request` returns: the cached data on a live hit with caching on, otherwise the shaped fetch outcome |
| Server.RequestEntries | server.py:30-56 | the cache after `make_request`: unchanged on a hit or with caching off; on a miss the stale entry is gone and a cacheable payload is stored stamped `storeAt`; no other key changes; no error payload is ever added |
| Server.MakeRequest | server.py:27-69 | the result is `RequestResult` and the new cache `RequestEntries`; the upstream is asked iff there is no live hit with caching on; with caching on and a live hit: the cached value, no fetch, cache unchanged; otherwise: a fetch and the shaped outcome; stored only when caching is on and the payload has no "Error" key; with caching off the cache is untouched; no other key changes; a cache holding no error payload never gains one |
| Scenarios.CachePrecedence | server.py:30-56 | two requests for one URL within the TTL: the second returns the first response and asks no upstream |
| Scenarios.HttpErrorNotCached | server.py:58-61 | an HTTP 404 returns `{"Error": "HTTP 404 error: <body>"}` and leaves no entry for the URL |
| Scenarios.ErrorBodyNotCached | server.py:48-56 | a 2xx body containing "Error" is returned as it is and not stored |
| Json.Truthy | server.py:120-127 | the definition of Python's `not` on JSON values: null, false, 0, "", [] and {} are falsy |
| Json.GetOr | server.py:124 | `d.get(key, default)`: the stored value when the key is present, the default otherwise |
| Server.Extract | server.py:119-131 | the definition of the shared handler rule: an empty result, or a missing or falsy field, gives the sentinel, otherwise the field |
| Server.Render | server.py:119-131 | the definition of each handler's reply: the shared rule, the crypto-tickers variant (server.py:295-303) and the filings variant (server.py:420-428) |
| Server.Url | server.py:116 | the definition of each tool's URL template (server.py:116, 149, 181, 208, 244, 270, 292, 318, 354, 381, 413-415) |
| Server.UsesCache | server.py:209 | the definition: only the two current-price tools (server.py:209, 382) call `make_request` with `use_cache=False` |
| Server.RenderRule | server.py:119-131 | every handler but the crypto-tickers one replies with the field's value iff it is present and truthy, and otherwise with its fixed sentinel |
| Server.TickersRule | server.py:295-303 | the crypto-tickers handler gives its sentinel only for an empty result, otherwise the field or `[]` |
| Server.FailureRendersSentinel | server.py:120-128 | every failed fetch reaches a handler other than crypto-tickers as that handler's sentinel |
| Server.TickersFailureRendersEmptyList | server.py:296-303 | a failed fetch reaches the crypto-tickers handler as an empty list |
| Server.FilingsUrlSuffix | server.py:413-415 | the filings URL is `…/filings/?ticker=<t>&limit=<n>`, plus `&filing_type=<f>` exactly when the filing type is non-empty |
| Server.FilingTypeSeparatesKeys | server.py:413-415 | two filings calls share a cache key iff both have no filter (None or empty) or both have the same filter |
| Server.CryptoPriceToolsShareUrl | server.py:318-354 | the two historical crypto price tools request the same URL and reply alike to every payload |
| Server.CallTool | server.py:116-131 | a handler replies with the rendering of what `make_request` returns for its URL; the new cache is `RequestEntries` for that URL and the tool's cache flag; it fetches iff there is no live hit with caching on; the current-price handlers never read or write the cache |
| Scenarios.ToolCachePrecedence | server.py:263-283 | a second news request within the TTL replies as the first and asks no upstream; a current-price request always asks it |
| Decimal.IntToString | server.py:116 | f-string `{n}` on an int: non-empty, a leading `-` iff negative, otherwise digits only |
| Decimal.IntRoundTrip | server.py:116 | the decimal rendering of an integer query parameter or status code parses back to that integer |
| Decimal.IntToStringInjective | server.py:413 | distinct limits render as distinct text |

## Left out

- The HTTP client, request headers, the API key and its missing-key warning, timeouts and `raise_for_status` (server.py:36-46): network I/O, modelled only as the `Outcome` input.
- A 2xx body that parses to a JSON value other than an object: `Payload` is always an object, so `"Error" not in data` on a list and the handlers' `data.get` on a non-dict are not modelled.
- async/await interleaving and two concurrent misses for the same key: each call is atomic and sequential.
- Float timestamps and float timeouts: clock readings are integers.
- `json.dumps(..., indent=2)`: a handler's reply is the extracted value (`Content`), not its text.
- Aliasing: `get` returns a reference to the cached dict; payloads here are immutable values.
- Dictionary iteration order in `cleanup_expired`: the expired keys are a set, since their order does not affect the outcome.
- Tool registration, the `/health`, `/cache/status`, `/cache/clear` and `/cache/cleanup` routes and their timestamps: thin forwarding over the cache methods plus I/O.
- Transport selection and logging setup (server.py:15-20, 484-499), and logging calls throughout.
- Cache.CacheManager.CleanupExpired: judges every entry at one clock reading `now`, whereas `cleanup_expired` reads `time.time()` once per entry (cache_manager.py:44); an entry that crosses its TTL during the scan is not modelled.
- JSON floats: `Json` has integers only, so a field equal to `0.0` (falsy in Python, giving the sentinel) cannot be represented.
- Default argument values of the tools (`period="annual"`, `limit=4` or `10`, `interval="day"`, `interval_multiplier=1`, `filing_type=None`): `Tool` takes every argument explicitly.
- config.py: environment loading and float/int parsing; the cache takes the TTL in minutes as an integer.
