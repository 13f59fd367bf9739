/** The precious-metal price cache of lib/prices.ts: one in-memory snapshot, an
    optional on-disk copy, a 24-hour freshness window, a separate 24-hour minimum
    interval between upstream calls, and a fallback chain that never fails.

    The environment (serverless host, API key, whether the disk accepts writes), the
    upstream HTTP answer and the clock are parameters: `now` is the `Date.now()` read
    at the start of `getPrices`, `later` the one read while building a snapshot. */
module Prices {
  import opened Js

  /** How long a snapshot is served without any upstream attempt (24 h). */
  const CACHE_DURATION: int := 24 * 60 * 60 * 1000
  /** Minimum time between two upstream calls (24 h). */
  const MIN_API_INTERVAL: int := 24 * 60 * 60 * 1000

  const GRAMS_PER_TROY_OUNCE: real := 31.1035

  /** The sentinel API key that switches the fetcher to fixed test rates. */
  const TEST_API_KEY: string := "test-key-voor-ontwikkeling"
  const TEST_RATE_GOLD: real := 2234.567
  const TEST_RATE_SILVER: real := 26.789

  /** Conservative estimates used when no snapshot has ever been obtained. */
  const FALLBACK_GOLD: real := 91.63
  const FALLBACK_SILVER: real := 1.044

  const SOURCE_API: string := "metalpriceapi.com"
  const SOURCE_TEST: string := "metalpriceapi.com (test data)"
  const SOURCE_FALLBACK: string := "fallback estimate"
  const CACHED_SUFFIX: string := " (cached)"

  /** A price snapshot: EUR per gram of pure metal, with its provenance.
      `dataDate` is a UTC day number; `lastApiCall` is absent until a successful call. */
  datatype PriceData = PriceData(
    gold: real,
    silver: real,
    lastUpdated: int,
    dataDate: int,
    source: string,
    lastApiCall: Option<int>)

  /** What `getPrices` returns: the snapshot plus provenance flags; `isStale` and
      `rateLimited` are absent on the paths that do not set them. */
  datatype PriceResult = PriceResult(
    data: PriceData,
    cached: bool,
    isStale: Option<bool>,
    rateLimited: Option<bool>)

  /** `VERCEL`/`AWS_LAMBDA_FUNCTION_NAME` set, `METALPRICE_API_KEY`, and whether
      writing price-cache.json succeeds. */
  datatype Env = Env(serverless: bool, apiKey: Option<string>, diskWritable: bool)

  /** The `EURXAU` and `EURXAG` fields of the upstream `rates` object (EUR per troy ounce). */
  datatype Rates = Rates(eurXau: real, eurXag: real)

  /** An HTTP answer from the upstream API: `response.ok`, the status, and the parsed
      body's `success`, `rates` and `timestamp` (seconds; `None` when the body has none). */
  datatype ApiResponse = ApiResponse(ok: bool, status: int, success: bool, rates: Option<Rates>, timestamp: Option<int>)

  /** Why `fetchMetalPriceApiData` throws; `DateOutOfRange` is the RangeError of
      `toISOString` on a timestamp that is missing (an invalid date) or outside the
      representable range. */
  datatype FetchError = ApiKeyMissing | HttpStatus(status: int) | NetworkFailure | InvalidResponse | DateOutOfRange

  /** EUR per troy ounce to EUR per gram, rounded to `decimals` places. */
  function PerGram(ratePerOunce: real, decimals: nat): real {
    ToFixed(ratePerOunce / GRAMS_PER_TROY_OUNCE, decimals)
  }

  /** `fetchMetalPriceApiData`. `response` is None when the request itself failed
      (network error, the 15 s timeout, a body that is not JSON); `clock` is `Date.now()`. */
  function FetchMetalPriceApiData(apiKey: Option<string>, response: Option<ApiResponse>, clock: int): Result<PriceData, FetchError> {
    if !PresentString(apiKey) then Err(ApiKeyMissing)
    else if apiKey.value == TEST_API_KEY then
      var dataTimestamp := (clock / SECOND_MS) * SECOND_MS - DAY_MS;
      if !IsoRepresentable(dataTimestamp) then Err(DateOutOfRange)
      else Ok(PriceData(PerGram(TEST_RATE_GOLD, 2), PerGram(TEST_RATE_SILVER, 3), clock,
                        DayOf(dataTimestamp), SOURCE_TEST, None))
    else if response.None? then Err(NetworkFailure)
    else if !response.value.ok then Err(HttpStatus(response.value.status))
    else if response.value.success && response.value.rates.Some? then
      var rates := response.value.rates.value;
      if response.value.timestamp.None? then Err(DateOutOfRange)
      else
        var dataTimestamp := response.value.timestamp.value * SECOND_MS;
        if !IsoRepresentable(dataTimestamp) then Err(DateOutOfRange)
        else Ok(PriceData(PerGram(rates.eurXau, 2), PerGram(rates.eurXag, 3), clock,
                          DayOf(dataTimestamp), SOURCE_API, None))
    else Err(InvalidResponse)
  }

  /** `loadCacheFromFile`: nothing is read on a serverless host. */
  function LoadedFromFile(file: Option<PriceData>, serverless: bool): Option<PriceData> {
    if serverless then None else file
  }

  /** `getLastKnownPrices` given `priceCache || loadCacheFromFile()`. */
  function LastKnownPrices(cached: Option<PriceData>, clock: int): PriceData {
    match cached
    case Some(c) => c.(source := c.source + CACHED_SUFFIX)
    case None => PriceData(FALLBACK_GOLD, FALLBACK_SILVER, clock, DayOf(clock) - 1, SOURCE_FALLBACK, None)
  }

  /** The snapshot `getPrices` decides with, after its load step (lines 182-184). */
  function Loaded(memory: Option<PriceData>, file: Option<PriceData>, serverless: bool): Option<PriceData> {
    if memory.None? && !serverless then LoadedFromFile(file, serverless) else memory
  }

  /** The snapshot is younger than the freshness window. */
  predicate IsFresh(snapshot: PriceData, now: int) {
    now - snapshot.lastUpdated < CACHE_DURATION
  }

  /** The last upstream call is known and younger than the minimum interval;
      a `lastApiCall` of 0 is falsy and counts as unknown. */
  predicate IsRateLimited(snapshot: PriceData, now: int) {
    PresentInt(snapshot.lastApiCall) && now - snapshot.lastApiCall.value < MIN_API_INTERVAL
  }

  datatype Decision = ServeFresh | ServeRateLimited | CallUpstream

  /** The first two checks of `getPrices`, in their order. */
  function Decide(cache: Option<PriceData>, now: int, forceRefresh: bool): Decision {
    if cache.Some? && IsFresh(cache.value, now) && !forceRefresh then ServeFresh
    else if cache.Some? && IsRateLimited(cache.value, now) && !forceRefresh then ServeRateLimited
    else CallUpstream
  }

  /** The result of one `getPrices` call together with the new memory and file state. */
  datatype Outcome = Outcome(result: PriceResult, memory: Option<PriceData>, file: Option<PriceData>)

  /** `getPrices(forceRefresh)` as a function of the state before the call. */
  function GetPricesSpec(memory: Option<PriceData>, file: Option<PriceData>, forceRefresh: bool, env: Env,
                         now: int, response: Option<ApiResponse>, later: int): Outcome
  {
    var cache := Loaded(memory, file, env.serverless);
    match Decide(cache, now, forceRefresh)
    case ServeFresh =>
      Outcome(PriceResult(cache.value, true, None, None), cache, file)
    case ServeRateLimited =>
      Outcome(PriceResult(cache.value, true, Some(true), Some(true)), cache, file)
    case CallUpstream =>
      match FetchMetalPriceApiData(env.apiKey, response, later)
      case Ok(snap) =>
        var stamped := snap.(lastApiCall := Some(now));
        Outcome(PriceResult(stamped, false, None, None), Some(stamped),
                if !env.serverless && env.diskWritable then Some(stamped) else file)
      case Err(_) =>
        var known := if cache.Some? then cache else LoadedFromFile(file, env.serverless);
        Outcome(PriceResult(LastKnownPrices(known, later), true, Some(true), None), cache, file)
  }

  /** The module-level `priceCache` and the price-cache.json file it is backed by. */
  class PriceService {
    var memory: Option<PriceData>
    var file: Option<PriceData>

    /** A fresh process: nothing in memory, whatever is on disk. */
    constructor (onDisk: Option<PriceData>)
      ensures memory == None && file == onDisk
    {
      memory := None;
      file := onDisk;
    }

    /** `loadCacheFromFile`: a missing, unreadable or malformed file is `None`. */
    method LoadCacheFromFile(serverless: bool) returns (d: Option<PriceData>)
      ensures serverless ==> d == None
      ensures !serverless ==> d == file
    {
      if serverless {
        return None;
      }
      d := file;
    }

    /** `saveCacheToFile`: skipped on a serverless host; a failed write is swallowed. */
    method SaveCacheToFile(serverless: bool, writable: bool, data: PriceData)
      modifies this`file
      ensures file == if !serverless && writable then Some(data) else old(file)
    {
      if serverless {
        return;
      }
      if writable {
        file := Some(data);
      }
    }

    /** `getLastKnownPrices`: the memory snapshot, else the file, else the estimates. */
    method GetLastKnownPrices(serverless: bool, clock: int) returns (d: PriceData)
      ensures memory.Some? ==> d == memory.value.(source := memory.value.source + CACHED_SUFFIX)
      ensures memory.None? && !serverless && file.Some? ==> d == file.value.(source := file.value.source + CACHED_SUFFIX)
      ensures memory.None? && (serverless || file.None?) ==>
        d.gold == FALLBACK_GOLD && d.silver == FALLBACK_SILVER && d.source == SOURCE_FALLBACK
        && d.lastUpdated == clock && d.dataDate == DayOf(clock) - 1 && d.lastApiCall == None
    {
      var cached := memory;
      if cached.None? {
        cached := LoadCacheFromFile(serverless);
      }
      d := LastKnownPrices(cached, clock);
    }

    /** `getPrices(forceRefresh)`. */
    method GetPrices(forceRefresh: bool, env: Env, now: int, response: Option<ApiResponse>, later: int)
      returns (r: PriceResult)
      modifies this
      ensures Outcome(r, memory, file) == GetPricesSpec(old(memory), old(file), forceRefresh, env, now, response, later)
    {
      var isServerless := env.serverless;
      if memory.None? && !isServerless {
        memory := LoadCacheFromFile(isServerless);
      }
      if memory.Some? && now - memory.value.lastUpdated < CACHE_DURATION && !forceRefresh {
        return PriceResult(memory.value, true, None, None);
      }
      if memory.Some? && PresentInt(memory.value.lastApiCall)
         && now - memory.value.lastApiCall.value < MIN_API_INTERVAL && !forceRefresh {
        return PriceResult(memory.value, true, Some(true), Some(true));
      }
      var fetched := FetchMetalPriceApiData(env.apiKey, response, later);
      if fetched.Ok? {
        var stamped := fetched.value.(lastApiCall := Some(now));
        memory := Some(stamped);
        if !isServerless {
          SaveCacheToFile(isServerless, env.diskWritable, stamped);
        }
        return PriceResult(stamped, false, None, None);
      }
      var fallback := GetLastKnownPrices(isServerless, later);
      r := PriceResult(fallback, true, Some(true), None);
    }
  }

  // ------------------------------------------------------------------ properties

  /** A cache hit (served with `cached` and no staleness flag) happens exactly when a
      snapshot is available, younger than 24 h, and no refresh is forced; it returns
      that snapshot and changes nothing. */
  lemma CacheHitIff(memory: Option<PriceData>, file: Option<PriceData>, forceRefresh: bool, env: Env,
                    now: int, response: Option<ApiResponse>, later: int)
    ensures var cache := Loaded(memory, file, env.serverless);
      var o := GetPricesSpec(memory, file, forceRefresh, env, now, response, later);
      && ((o.result.cached && o.result.isStale.None?)
          <==> (cache.Some? && now - cache.value.lastUpdated < CACHE_DURATION && !forceRefresh))
      && ((o.result.cached && o.result.isStale.None?)
          ==> o.result.data == cache.value && o.memory == cache && o.file == file && o.result.rateLimited.None?)
  {
  }

  /** At exactly 24 h a snapshot is no longer fresh. */
  lemma FreshnessBoundaryExclusive(snapshot: PriceData, now: int)
    requires now - snapshot.lastUpdated == CACHE_DURATION
    ensures !IsFresh(snapshot, now)
    ensures forall f: bool :: Decide(Some(snapshot), now, f) != ServeFresh
  {
  }

  /** Rate limiting applies exactly when the snapshot is stale, its last upstream call is
      known and younger than 24 h, and no refresh is forced; it serves the stale snapshot
      flagged cached, stale and rate limited, and changes nothing. */
  lemma RateLimitedIff(memory: Option<PriceData>, file: Option<PriceData>, forceRefresh: bool, env: Env,
                       now: int, response: Option<ApiResponse>, later: int)
    ensures var cache := Loaded(memory, file, env.serverless);
      var o := GetPricesSpec(memory, file, forceRefresh, env, now, response, later);
      && (o.result.rateLimited == Some(true)
          <==> (cache.Some? && !IsFresh(cache.value, now) && PresentInt(cache.value.lastApiCall)
                && now - cache.value.lastApiCall.value < MIN_API_INTERVAL && !forceRefresh))
      && (o.result.rateLimited == Some(true)
          ==> o.result == PriceResult(cache.value, true, Some(true), Some(true)) && o.memory == cache && o.file == file)
  {
  }

  /** A snapshot without a (truthy) `lastApiCall` is never rate limited. */
  lemma NoLastApiCallNeverRateLimits(snapshot: PriceData, now: int, forceRefresh: bool)
    requires !PresentInt(snapshot.lastApiCall)
    ensures Decide(Some(snapshot), now, forceRefresh) != ServeRateLimited
  {
  }

  /** Neither check can fire when a refresh is forced: upstream is always tried, and
      the answer is exactly what the fetch outcome dictates. */
  lemma ForceRefreshAlwaysCallsUpstream(memory: Option<PriceData>, file: Option<PriceData>, env: Env,
                                        now: int, response: Option<ApiResponse>, later: int)
    ensures Decide(Loaded(memory, file, env.serverless), now, true) == CallUpstream
    ensures var o := GetPricesSpec(memory, file, true, env, now, response, later);
      FetchMetalPriceApiData(env.apiKey, response, later).Ok? <==> !o.result.cached
  {
  }

  /** A successful upstream call replaces the cache wholesale, stamps `lastApiCall` with
      the time read before the fetch, returns `cached = false`, and writes the file only
      when the host has a writable disk. */
  lemma SuccessReplacesCache(memory: Option<PriceData>, file: Option<PriceData>, forceRefresh: bool, env: Env,
                             now: int, response: Option<ApiResponse>, later: int)
    requires Decide(Loaded(memory, file, env.serverless), now, forceRefresh) == CallUpstream
    requires FetchMetalPriceApiData(env.apiKey, response, later).Ok?
    ensures var got := FetchMetalPriceApiData(env.apiKey, response, later).value;
      var o := GetPricesSpec(memory, file, forceRefresh, env, now, response, later);
      && o.result.data == got.(lastApiCall := Some(now))
      && o.memory == Some(o.result.data)
      && !o.result.cached && o.result.isStale.None? && o.result.rateLimited.None?
      && (!env.serverless && env.diskWritable ==> o.file == Some(o.result.data))
      && (env.serverless || !env.diskWritable ==> o.file == file)
      && (now <= later ==> o.result.data.lastApiCall.value <= o.result.data.lastUpdated)
  {
  }

  /** A failed upstream attempt leaves memory as loaded and the file untouched, and
      answers cached and stale: the last known snapshot marked "(cached)", or the
      hard-coded estimates when there is none. */
  lemma FailureKeepsCache(memory: Option<PriceData>, file: Option<PriceData>, forceRefresh: bool, env: Env,
                          now: int, response: Option<ApiResponse>, later: int)
    requires Decide(Loaded(memory, file, env.serverless), now, forceRefresh) == CallUpstream
    requires FetchMetalPriceApiData(env.apiKey, response, later).Err?
    ensures var cache := Loaded(memory, file, env.serverless);
      var o := GetPricesSpec(memory, file, forceRefresh, env, now, response, later);
      && o.memory == cache && o.file == file
      && o.result.cached && o.result.isStale == Some(true) && o.result.rateLimited.None?
      && (cache.Some? ==> o.result.data == cache.value.(source := cache.value.source + CACHED_SUFFIX))
      && (cache.None? ==> o.result.data.gold == FALLBACK_GOLD && o.result.data.silver == FALLBACK_SILVER
                          && o.result.data.source == SOURCE_FALLBACK)
  {
  }

  /** With no snapshot anywhere and upstream down, the estimates 91.63 / 1.044 are served. */
  lemma NoSnapshotAndUpstreamDown(env: Env, now: int, later: int)
    requires PresentString(env.apiKey) && env.apiKey.value != TEST_API_KEY
    ensures var o := GetPricesSpec(None, None, false, env, now, None, later);
      o.result == PriceResult(PriceData(91.63, 1.044, later, DayOf(later) - 1, "fallback estimate", None),
                              true, Some(true), None)
      && o.memory == None && o.file == None
  {
  }

  /** On a serverless host the file is neither read nor written: the answer and the new
      memory do not depend on it. */
  lemma ServerlessIgnoresFile(memory: Option<PriceData>, file1: Option<PriceData>, file2: Option<PriceData>,
                              forceRefresh: bool, env: Env, now: int, response: Option<ApiResponse>, later: int)
    requires env.serverless
    ensures var o1 := GetPricesSpec(memory, file1, forceRefresh, env, now, response, later);
      var o2 := GetPricesSpec(memory, file2, forceRefresh, env, now, response, later);
      o1.result == o2.result && o1.memory == o2.memory && o1.file == file1 && o2.file == file2
  {
  }

  /** After a successful refresh, any call within 24 h of the snapshot's `lastUpdated`
      is a cache hit: it ignores the upstream answer and returns identical prices and date. */
  lemma RefreshThenHit(memory: Option<PriceData>, file: Option<PriceData>, env: Env, now: int,
                       response: Option<ApiResponse>, later: int,
                       now2: int, response2: Option<ApiResponse>, later2: int)
    requires Decide(Loaded(memory, file, env.serverless), now, false) == CallUpstream
    requires FetchMetalPriceApiData(env.apiKey, response, later).Ok?
    requires now2 - later < CACHE_DURATION
    ensures var o1 := GetPricesSpec(memory, file, false, env, now, response, later);
      var o2 := GetPricesSpec(o1.memory, o1.file, false, env, now2, response2, later2);
      && o2.result == PriceResult(o1.result.data, true, None, None)
      && o2.memory == o1.memory && o2.file == o1.file
  {
  }

  /** A hit changes nothing, so calling again within the window gives the same answer. */
  lemma HitIsIdempotent(memory: Option<PriceData>, file: Option<PriceData>, env: Env, now: int, now2: int,
                        response: Option<ApiResponse>, response2: Option<ApiResponse>, later: int, later2: int)
    requires Decide(Loaded(memory, file, env.serverless), now, false) == ServeFresh
    requires now2 - Loaded(memory, file, env.serverless).value.lastUpdated < CACHE_DURATION
    ensures var o1 := GetPricesSpec(memory, file, false, env, now, response, later);
      var o2 := GetPricesSpec(o1.memory, o1.file, false, env, now2, response2, later2);
      o2 == o1
  {
  }

  /** A snapshot that is stale but whose last upstream call is recent is served without
      any upstream attempt, flagged rate limited. */
  lemma StaleButRecentCallIsRateLimited(snapshot: PriceData, file: Option<PriceData>, env: Env, now: int,
                                        response: Option<ApiResponse>, later: int)
    requires now - snapshot.lastUpdated >= CACHE_DURATION
    requires snapshot.lastApiCall.Some? && snapshot.lastApiCall.value != 0
    requires now - snapshot.lastApiCall.value < MIN_API_INTERVAL
    ensures GetPricesSpec(Some(snapshot), file, false, env, now, response, later).result
         == PriceResult(snapshot, true, Some(true), Some(true))
  {
  }

  // ------------------------------------------------------------------ the fetcher

  /** The fetch fails exactly on a missing key, a failed request, a non-OK status, a
      body without `success` and `rates`, a missing timestamp, or a data date outside
      the representable range; the test key fails only for a clock outside that range. */
  lemma FetchFailsIff(apiKey: Option<string>, response: Option<ApiResponse>, clock: int)
    ensures FetchMetalPriceApiData(apiKey, response, clock).Err?
        <==> (!PresentString(apiKey)
              || (apiKey.value == TEST_API_KEY && !IsoRepresentable((clock / SECOND_MS) * SECOND_MS - DAY_MS))
              || (apiKey.value != TEST_API_KEY
                  && (response.None? || !response.value.ok || !response.value.success || response.value.rates.None?
                      || response.value.timestamp.None?
                      || !IsoRepresentable(response.value.timestamp.value * SECOND_MS))))
  {
  }

  /** With the test key the upstream answer is never consulted. */
  lemma TestKeyMakesNoCall(response1: Option<ApiResponse>, response2: Option<ApiResponse>, clock: int)
    ensures FetchMetalPriceApiData(Some(TEST_API_KEY), response1, clock)
         == FetchMetalPriceApiData(Some(TEST_API_KEY), response2, clock)
  {
  }

  /** The test rates convert to 71.84 EUR/g gold and 0.861 EUR/g silver. */
  lemma TestRatesPerGram()
    ensures PerGram(TEST_RATE_GOLD, 2) == 71.84
    ensures PerGram(TEST_RATE_SILVER, 3) == 0.861
  {
    var g := TEST_RATE_GOLD / GRAMS_PER_TROY_OUNCE * 100.0 + 0.5;
    assert 7184.0 <= g < 7185.0;
    assert g.Floor == 7184;
    var s := TEST_RATE_SILVER / GRAMS_PER_TROY_OUNCE * 1000.0 + 0.5;
    assert 861.0 <= s < 862.0;
    assert s.Floor == 861;
    assert Pow10(2) == 100 && Pow10(3) == 1000;
  }

  /** Test data is dated the UTC day before the fetch. */
  lemma TestDataDatedYesterday(clock: int)
    requires -MAX_DATE_MS + 2 * DAY_MS <= clock <= MAX_DATE_MS
    ensures var r := FetchMetalPriceApiData(Some(TEST_API_KEY), None, clock);
      r.Ok? && r.value.dataDate == DayOf(clock) - 1 && r.value.source == SOURCE_TEST
      && r.value.lastUpdated == clock
  {
    var q := clock / DAY_MS;
    var rest := clock % DAY_MS;
    assert clock == q * DAY_MS + rest;
    assert clock / SECOND_MS == q * 86400 + rest / SECOND_MS;
    var ms := (clock / SECOND_MS) * SECOND_MS;
    assert ms - DAY_MS == (q - 1) * DAY_MS + (rest / SECOND_MS) * SECOND_MS;
    assert 0 <= (rest / SECOND_MS) * SECOND_MS < DAY_MS;
  }

  /** Real API data keeps the date of the response's own timestamp, which is never
      later than the fetch when the timestamp is not in the future. */
  lemma ApiDataDatedByTimestamp(apiKey: string, response: ApiResponse, clock: int)
    requires apiKey != "" && apiKey != TEST_API_KEY
    requires response.ok && response.success && response.rates.Some?
    requires response.timestamp.Some? && IsoRepresentable(response.timestamp.value * SECOND_MS)
    ensures var r := FetchMetalPriceApiData(Some(apiKey), Some(response), clock);
      r.Ok? && r.value.dataDate == DayOf(response.timestamp.value * SECOND_MS)
      && (response.timestamp.value * SECOND_MS <= clock ==> r.value.dataDate <= DayOf(r.value.lastUpdated))
  {
    if response.timestamp.value * SECOND_MS <= clock {
      DayOfMonotone(response.timestamp.value * SECOND_MS, clock);
    }
  }

  /** Gold is within half a cent and silver within half a tenth of a cent of the exact
      per-gram price. */
  lemma ConversionPrecision(rates: Rates)
    ensures var gold := PerGram(rates.eurXau, 2);
      var exact := rates.eurXau / GRAMS_PER_TROY_OUNCE;
      exact - 0.005 <= gold <= exact + 0.005
    ensures var silver := PerGram(rates.eurXag, 3);
      var exact := rates.eurXag / GRAMS_PER_TROY_OUNCE;
      exact - 0.0005 <= silver <= exact + 0.0005
  {
    ToFixedError(rates.eurXau / GRAMS_PER_TROY_OUNCE, 2);
    ToFixedError(rates.eurXag / GRAMS_PER_TROY_OUNCE, 3);
    assert Pow10(2) == 100 && Pow10(3) == 1000;
  }
}
