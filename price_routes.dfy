/** The two HTTP routes over the price cache: the public `GET /api/prices`
    (app/api/prices/route.ts) and the admin-only forced refresh
    `POST /api/prices/update` (app/api/prices/update/route.ts).

    Timestamps stay integer milliseconds; the ISO-8601 text of `toISOString` is not
    modelled, only the RangeError it raises outside the representable range. */
module PriceRoutes {
  import opened Js
  import opened Prices

  const CURRENCY: string := "EUR"
  const UNIT: string := "gram"
  const INVALID_TIME_VALUE: string := "Invalid time value"

  /** The fields every successful price answer carries. */
  datatype PriceFields = PriceFields(
    gold: real,
    silver: real,
    cached: bool,
    lastUpdated: int,
    dataDate: int,
    source: string,
    isStale: bool,
    currency: string,
    unit: string)

  /** A JSON body. `None` stands for a key that is absent (or `undefined`, which the
      serialiser drops). */
  datatype Body =
    | PriceBody(message: Option<string>, fields: PriceFields, rateLimited: Option<bool>,
                lastApiCall: Option<int>, error: Option<string>)
    | ErrorBody(failure: string, details: Option<string>)

  datatype Response = Response(status: int, body: Body)

  /** `flag || false` on an optional boolean. */
  function OrFalse(flag: Option<bool>): (b: bool)
    ensures b <==> flag == Some(true)
  {
    flag.Some? && flag.value
  }

  /** The common part of both success bodies. */
  function Fields(r: PriceResult): PriceFields {
    PriceFields(r.data.gold, r.data.silver, r.cached, r.data.lastUpdated, r.data.dataDate,
                r.data.source, OrFalse(r.isStale), CURRENCY, UNIT)
  }

  /** `lastApiCall ? new Date(lastApiCall) : undefined`, as an instant. */
  function ApiCallInstant(r: PriceResult): Option<int> {
    if PresentInt(r.data.lastApiCall) then r.data.lastApiCall else None
  }

  /** Whether serialising the snapshot's timestamps would raise a RangeError. */
  predicate TimestampsRenderable(r: PriceResult, withApiCall: bool) {
    IsoRepresentable(r.data.lastUpdated)
    && (withApiCall && PresentInt(r.data.lastApiCall) ==> IsoRepresentable(r.data.lastApiCall.value))
  }

  // ------------------------------------------------------------------ admin update

  /** The request headers the admin gate reads. */
  datatype Headers = Headers(xAdminKey: Option<string>, authorization: Option<string>)

  /** `x-admin-key || authorization?.replace('Bearer ', '')`. */
  function SuppliedAdminKey(h: Headers): (k: Option<string>)
    ensures PresentString(h.xAdminKey) ==> k == h.xAdminKey
    ensures !PresentString(h.xAdminKey) && h.authorization.None? ==> k.None?
    ensures !PresentString(h.xAdminKey) && h.authorization.Some? && !Includes(h.authorization.value, "Bearer ")
            ==> k == h.authorization
  {
    if PresentString(h.xAdminKey) then h.xAdminKey
    else if h.authorization.Some? then Some(ReplaceFirst(h.authorization.value, "Bearer ", ""))
    else None
  }

  datatype Gate = NotConfigured | Unauthorized | Authorized

  /** The two guards of the update route, in their order. */
  function AdminGate(supplied: Option<string>, expected: Option<string>): Gate {
    if !PresentString(expected) then NotConfigured
    else if !PresentString(supplied) || supplied.value != expected.value then Unauthorized
    else Authorized
  }

  /** The answer of a rejected request. */
  function GateResponse(g: Gate): (resp: Response)
    requires g != Authorized
  {
    if g == NotConfigured then Response(503, ErrorBody("Admin functionality not configured", None))
    else Response(401, ErrorBody("Unauthorized: Invalid admin key", None))
  }

  /** The answer built from the result of `getPrices(true)`; a timestamp that cannot be
      rendered ends in the catch block's 500. */
  function AdminResponse(r: PriceResult): Response {
    if !TimestampsRenderable(r, true) then
      Response(500, ErrorBody("Failed to update prices", Some(INVALID_TIME_VALUE)))
    else
      Response(200, PriceBody(Some("Prices updated successfully"), Fields(r),
                              Some(OrFalse(r.rateLimited)), ApiCallInstant(r), None))
  }

  /** `POST /api/prices/update`: the gate, then a forced refresh. */
  method UpdatePost(service: PriceService, headers: Headers, adminKey: Option<string>, env: Env,
                    now: int, response: Option<ApiResponse>, later: int)
    returns (resp: Response)
    modifies service
    ensures var g := AdminGate(SuppliedAdminKey(headers), adminKey);
      g != Authorized ==>
        (resp == GateResponse(g) && service.memory == old(service.memory) && service.file == old(service.file))
    ensures var g := AdminGate(SuppliedAdminKey(headers), adminKey);
      var o := GetPricesSpec(old(service.memory), old(service.file), true, env, now, response, later);
      g == Authorized ==>
        (resp == AdminResponse(o.result) && service.memory == o.memory && service.file == o.file)
  {
    var supplied := SuppliedAdminKey(headers);
    var gate := AdminGate(supplied, adminKey);
    if gate != Authorized {
      return GateResponse(gate);
    }
    var r := service.GetPrices(true, env, now, response, later);
    resp := AdminResponse(r);
  }

  /** `GET /api/prices/update`. */
  function UpdateGet(): (resp: Response)
    ensures resp.status == 405 && resp.body.ErrorBody?
  {
    Response(405, ErrorBody("Method not allowed. Use POST with admin key.", None))
  }

  // ------------------------------------------------------------------ public prices

  /** The catch block's constant answer; `clock` is the `new Date()` read there. */
  function PublicFallback(clock: int): Response {
    Response(200, PriceBody(None,
      PriceFields(FALLBACK_GOLD, FALLBACK_SILVER, true, clock, DayOf(clock), SOURCE_FALLBACK, true, CURRENCY, UNIT),
      Some(false), None, Some("Failed to fetch prices from shared cache")))
  }

  /** `GET /api/prices` given the result of `getPrices()`. */
  function PublicResponse(r: PriceResult, production: bool, clock: int): Response {
    if !TimestampsRenderable(r, !production) then PublicFallback(clock)
    else if production then
      Response(200, PriceBody(None, Fields(r), None, None, None))
    else
      Response(200, PriceBody(None, Fields(r), Some(OrFalse(r.rateLimited)), ApiCallInstant(r), None))
  }

  /** `GET /api/prices`: the shared cache, unforced. */
  method PricesGet(service: PriceService, env: Env, production: bool, now: int,
                   response: Option<ApiResponse>, later: int, clock: int)
    returns (resp: Response)
    modifies service
    ensures var o := GetPricesSpec(old(service.memory), old(service.file), false, env, now, response, later);
      resp == PublicResponse(o.result, production, clock)
      && service.memory == o.memory && service.file == o.file
  {
    var r := service.GetPrices(false, env, now, response, later);
    resp := PublicResponse(r, production, clock);
  }

  // ------------------------------------------------------------------ properties

  /** An unset or empty `ADMIN_KEY` answers 503 whatever key was supplied; otherwise
      the request is authorised exactly when the supplied key equals it. */
  lemma AdminGateOrder(supplied: Option<string>, expected: Option<string>)
    ensures !PresentString(expected) ==> AdminGate(supplied, expected) == NotConfigured
    ensures PresentString(expected) ==>
      (AdminGate(supplied, expected) == Authorized <==> supplied == expected)
    ensures PresentString(expected) ==>
      (AdminGate(supplied, expected) == Unauthorized <==> supplied != expected)
  {
  }

  /** The status codes of the update route: 503, 401, then 200 or 500. */
  lemma UpdateStatuses(g: Gate, r: PriceResult)
    ensures g == NotConfigured ==> GateResponse(g).status == 503
    ensures g == Unauthorized ==> GateResponse(g).status == 401
    ensures AdminResponse(r).status == 200 <==> TimestampsRenderable(r, true)
    ensures AdminResponse(r).status != 200 ==> AdminResponse(r).status == 500
  {
  }

  /** `Authorization: Bearer <token>` without an `x-admin-key` supplies `<token>`. */
  lemma BearerTokenSupplied(token: string, xAdminKey: Option<string>)
    requires !PresentString(xAdminKey)
    ensures SuppliedAdminKey(Headers(xAdminKey, Some("Bearer " + token))) == Some(token)
  {
    var s := "Bearer " + token;
    assert OccursAt(s, "Bearer ", 0);
    assert s[|"Bearer "|..] == token;
    assert ReplaceFirst(s, "Bearer ", "") == token;
    var h := Headers(xAdminKey, Some(s));
    assert SuppliedAdminKey(h) == Some(ReplaceFirst(s, "Bearer ", ""));
  }

  /** A successful forced refresh reports the prices `getPrices(true)` returned, with
      absent flags reported as false, and always in EUR per gram. */
  lemma AdminResponseShape(r: PriceResult)
    requires TimestampsRenderable(r, true)
    ensures var resp := AdminResponse(r);
      && resp.status == 200 && resp.body.PriceBody?
      && resp.body.fields.gold == r.data.gold && resp.body.fields.silver == r.data.silver
      && resp.body.fields.cached == r.cached
      && (resp.body.fields.isStale <==> r.isStale == Some(true))
      && resp.body.rateLimited == Some(r.rateLimited == Some(true))
      && resp.body.fields.currency == "EUR" && resp.body.fields.unit == "gram"
      && (resp.body.lastApiCall.Some? <==> PresentInt(r.data.lastApiCall))
  {
  }

  /** The public route always answers 200 in EUR per gram, with `cached` and `isStale`
      defaulting to false; its prices are those of `getPrices()` unless serialisation
      failed, and then the estimates 91.63 / 1.044 flagged cached, stale, not rate
      limited, with an error message. */
  lemma PublicResponseShape(r: PriceResult, production: bool, clock: int)
    ensures var resp := PublicResponse(r, production, clock);
      && resp.status == 200 && resp.body.PriceBody? && resp.body.message.None?
      && resp.body.fields.currency == "EUR" && resp.body.fields.unit == "gram"
      && (resp.body.error.None? <==> TimestampsRenderable(r, !production))
      && (resp.body.error.None? ==>
            resp.body.fields.gold == r.data.gold && resp.body.fields.silver == r.data.silver
            && resp.body.fields.cached == r.cached && resp.body.fields.source == r.data.source
            && (resp.body.fields.isStale <==> r.isStale == Some(true)))
      && (resp.body.error.Some? ==>
            resp.body.fields.gold == 91.63 && resp.body.fields.silver == 1.044
            && resp.body.fields.cached && resp.body.fields.isStale
            && resp.body.rateLimited == Some(false) && resp.body.fields.source == "fallback estimate")
  {
  }

  /** In production a successful answer carries neither `rateLimited` nor `lastApiCall`;
      in development it always carries `rateLimited`. */
  lemma PublicDevOnlyFields(r: PriceResult, production: bool, clock: int)
    requires TimestampsRenderable(r, !production)
    ensures var resp := PublicResponse(r, production, clock);
      && (production ==> resp.body.rateLimited.None? && resp.body.lastApiCall.None?)
      && (!production ==> resp.body.rateLimited == Some(r.rateLimited == Some(true))
                           && resp.body.lastApiCall == ApiCallInstant(r))
  {
  }

  /** A rate-limited answer from the cache is visible as such in development. */
  lemma RateLimitVisibleInDevelopment(memory: Option<PriceData>, file: Option<PriceData>, env: Env,
                                      now: int, response: Option<ApiResponse>, later: int, clock: int)
    requires Decide(Loaded(memory, file, env.serverless), now, false) == ServeRateLimited
    requires TimestampsRenderable(GetPricesSpec(memory, file, false, env, now, response, later).result, true)
    ensures PublicResponse(GetPricesSpec(memory, file, false, env, now, response, later).result, false, clock)
              .body.rateLimited == Some(true)
  {
  }
}
