/** The coin-value calculator of app/api/calculate/route.ts: the single-coin `POST`
    with its validation chain, lookup, intrinsic value and collector premium, and the
    bulk `GET` over a comma-separated list of coin ids.

    The catalogue is a parameter (the route's built-in list is sample data), and so are
    the prices the shared cache would return (`getCurrentPrices`). */
module Calculate {
  import opened Js

  datatype Variant = Variant(
    id: string,
    weightGrams: real,
    goldPercentage: Option<real>,
    silverPercentage: Option<real>,
    variantName: string,
    yearFrom: int,
    yearTo: Option<int>)

  datatype Coin = Coin(id: string, name: string, metalType: string, variants: seq<Variant>)

  /** A JavaScript number that may be NaN (serialised as `null`). */
  datatype Number = Finite(value: real) | NaN

  /** Gold and silver EUR per gram; an absent price is `undefined`. */
  datatype MetalPrices = MetalPrices(gold: Option<real>, silver: Option<real>)

  /** The `customPrices` object of a request, when truthy. */
  datatype CustomPrices = CustomPrices(gold: Json, silver: Json)

  /** A parsed request body. */
  datatype Request = Request(coinId: Json, variantId: Json, quantity: Json, customPrices: Option<CustomPrices>)

  /** An error answer: status and message. */
  datatype Failure = Failure(status: int, error: string)

  /** A request that passed the validation chain, with sanitised ids. */
  datatype Valid = Valid(coinId: string, variantId: string, quantity: real, custom: Option<MetalPrices>)

  const MAX_BODY_BYTES: int := 1024
  const MAX_ID_LENGTH: nat := 10

  predicate NumberIn(v: Json, lo: real, hi: real) {
    v.Num? && lo <= v.n <= hi
  }

  function PriceOf(v: Json): Option<real> {
    if v.Num? then Some(v.n) else None
  }

  /** `s.trim().slice(0, 10)`. */
  function SanitiseId(s: string): (r: string)
    ensures |r| <= MAX_ID_LENGTH
    ensures r == Take(Trim(s), MAX_ID_LENGTH)
    ensures |Trim(s)| <= MAX_ID_LENGTH ==> r == Trim(s)
  {
    Take(Trim(s), MAX_ID_LENGTH)
  }

  /** The guards of `POST`, in their order. `contentLength` is `parseInt` of the header
      (None when absent, empty or not a number); `body` is None when it is not JSON or
      is `null`. */
  function CheckRequest(contentLength: Option<int>, body: Option<Request>): Result<Valid, Failure> {
    if contentLength.Some? && contentLength.value > MAX_BODY_BYTES then
      Err(Failure(413, "Request body too large"))
    else if body.None? then
      Err(Failure(500, "Failed to calculate coin value"))
    else
      var b := body.value;
      if !Truthy(b.coinId) || !Truthy(b.variantId) then
        Err(Failure(400, "Missing required fields: coinId and variantId"))
      else if !b.coinId.Str? || !b.variantId.Str? then
        Err(Failure(400, "Invalid data types for coinId or variantId"))
      else if b.quantity != Undefined && !NumberIn(b.quantity, 1.0, 10000.0) then
        Err(Failure(400, "Quantity must be a number between 1 and 10000"))
      else if b.customPrices.Some? && b.customPrices.value.gold != Undefined
              && !NumberIn(b.customPrices.value.gold, 0.0, 1000.0) then
        Err(Failure(400, "Invalid gold price: must be between 0 and 1000"))
      else if b.customPrices.Some? && b.customPrices.value.silver != Undefined
              && !NumberIn(b.customPrices.value.silver, 0.0, 100.0) then
        Err(Failure(400, "Invalid silver price: must be between 0 and 100"))
      else
        Ok(Valid(SanitiseId(b.coinId.s), SanitiseId(b.variantId.s),
                 if b.quantity.Num? then b.quantity.n else 1.0,
                 if b.customPrices.Some?
                 then Some(MetalPrices(PriceOf(b.customPrices.value.gold), PriceOf(b.customPrices.value.silver)))
                 else None))
  }

  /** Position of the first element whose key is `id`, or -1. */
  function IndexWithKey<T>(xs: seq<T>, key: T -> string, id: string): (k: int)
    ensures -1 <= k < |xs|
    ensures k >= 0 ==> key(xs[k]) == id && forall j | 0 <= j < k :: key(xs[j]) != id
    ensures k == -1 <==> forall j | 0 <= j < |xs| :: key(xs[j]) != id
  {
    if |xs| == 0 then -1
    else if key(xs[0]) == id then 0
    else
      var k' := IndexWithKey(xs[1..], key, id);
      if k' == -1 then -1 else k' + 1
  }

  /** `coins.find(c => c.id === id)`. */
  function FindCoin(coins: seq<Coin>, id: string): (r: Option<Coin>)
    ensures r.None? <==> forall j | 0 <= j < |coins| :: coins[j].id != id
    ensures r.Some? ==> r.value.id == id && r.value in coins
    ensures r.Some? ==> exists k | 0 <= k < |coins| :: coins[k] == r.value && forall j | 0 <= j < k :: coins[j].id != id
  {
    var k := IndexWithKey(coins, (c: Coin) => c.id, id);
    if k == -1 then None else Some(coins[k])
  }

  /** `variants.find(v => v.id === id)`. */
  function FindVariant(variants: seq<Variant>, id: string): (r: Option<Variant>)
    ensures r.None? <==> forall j | 0 <= j < |variants| :: variants[j].id != id
    ensures r.Some? ==> r.value.id == id && r.value in variants
    ensures r.Some? ==> exists k | 0 <= k < |variants| :: variants[k] == r.value && forall j | 0 <= j < k :: variants[j].id != id
  {
    var k := IndexWithKey(variants, (v: Variant) => v.id, id);
    if k == -1 then None else Some(variants[k])
  }

  // ------------------------------------------------------------------ value

  datatype Metal = Goud | Zilver | NoMetal

  /** Which branch of the value computation applies: the coin's own metal, and only
      when the variant carries a (non-zero) percentage for it. */
  function MetalOf(coin: Coin, v: Variant): Metal {
    if coin.metalType == "GOLD" && PresentReal(v.goldPercentage) then Goud
    else if coin.metalType == "SILVER" && PresentReal(v.silverPercentage) then Zilver
    else NoMetal
  }

  function MetalName(m: Metal): string {
    match m
    case Goud => "goud"
    case Zilver => "zilver"
    case NoMetal => ""
  }

  function MetalPercentage(coin: Coin, v: Variant): real {
    match MetalOf(coin, v)
    case Goud => v.goldPercentage.value
    case Zilver => v.silverPercentage.value
    case NoMetal => 0.0
  }

  /** Grams of pure metal in one coin. */
  function PureMetalWeight(coin: Coin, v: Variant): real {
    v.weightGrams * (MetalPercentage(coin, v) / 100.0)
  }

  /** The value of one coin; NaN when the applicable price is `undefined`. */
  function MetalValue(coin: Coin, v: Variant, prices: MetalPrices): (r: Number)
    ensures MetalOf(coin, v) == NoMetal ==> r == Finite(0.0)
    ensures MetalOf(coin, v) == Goud ==>
      (r.NaN? <==> prices.gold.None?) && (prices.gold.Some? ==> r.value == PureMetalWeight(coin, v) * prices.gold.value)
    ensures MetalOf(coin, v) == Zilver ==>
      (r.NaN? <==> prices.silver.None?) && (prices.silver.Some? ==> r.value == PureMetalWeight(coin, v) * prices.silver.value)
  {
    var price := match MetalOf(coin, v)
      case Goud => prices.gold
      case Zilver => prices.silver
      case NoMetal => Some(0.0);
    if price.None? then NaN else Finite(PureMetalWeight(coin, v) * price.value)
  }

  /** The collector-value multiplier in integer percent. */
  function PremiumMultiplier(coin: Coin, v: Variant): (m: int)
    ensures 100 <= m <= 150
  {
    var base := if coin.metalType == "GOLD" then 110 else 100;
    var early := if Includes(v.variantName, "Willem I") || v.yearFrom < 1850 then 15 else 0;
    var rare := if v.yearFrom == 1897 then 25 else 0;
    base + early + rare
  }

  /** The `years` label: `"from-to"` when `yearTo` is truthy, else `"from"`. */
  function YearsLabel(v: Variant): string {
    if PresentInt(v.yearTo) then IntToString(v.yearFrom) + "-" + IntToString(v.yearTo.value)
    else IntToString(v.yearFrom)
  }

  function ScaleNumber(x: Number, factor: real): Number {
    if x.NaN? then NaN else Finite(x.value * factor)
  }

  function FixedNumber(x: Number, d: nat): Number {
    if x.NaN? then NaN else Finite(ToFixed(x.value, d))
  }

  datatype Calculation = Calculation(
    coinId: string,
    coinName: string,
    coinMetalType: string,
    variantId: string,
    variantName: string,
    years: string,
    weight: real,
    metalPercentage: real,
    quantity: real,
    prices: MetalPrices,
    pureMetalWeight: real,
    metalType: string,
    intrinsicValue: Number,
    estimatedCollectorsValue: Number,
    premiumPercentage: int)

  /** `metalValue * quantity`, before rounding. */
  function TotalValue(coin: Coin, v: Variant, quantity: real, prices: MetalPrices): Number {
    ScaleNumber(MetalValue(coin, v, prices), quantity)
  }

  /** `totalValue * collectorsValueMultiplier`, before rounding. */
  function EstimatedValue(total: Number, multiplier: int): Number {
    ScaleNumber(total, multiplier as real / 100.0)
  }

  function Calculate(coin: Coin, v: Variant, quantity: real, prices: MetalPrices): Calculation {
    var total := TotalValue(coin, v, quantity, prices);
    var m := PremiumMultiplier(coin, v);
    Calculation(coin.id, coin.name, coin.metalType, v.id, v.variantName, YearsLabel(v), v.weightGrams,
                MetalPercentage(coin, v), quantity, prices,
                ToFixed(PureMetalWeight(coin, v) * quantity, 3), MetalName(MetalOf(coin, v)),
                FixedNumber(total, 2), FixedNumber(EstimatedValue(total, m), 2), m - 100)
  }

  datatype PostResponse = PostError(failure: Failure) | PostOk(calculation: Calculation)

  /** `POST /api/calculate`. `shared` is what `getCurrentPrices()` would return; it is
      consulted only when the request has no custom prices. */
  function Post(contentLength: Option<int>, body: Option<Request>, catalogue: seq<Coin>, shared: MetalPrices)
    : PostResponse
  {
    match CheckRequest(contentLength, body)
    case Err(f) => PostError(f)
    case Ok(req) =>
      var coin := FindCoin(catalogue, req.coinId);
      if coin.None? then PostError(Failure(404, "Coin not found"))
      else
        var v := FindVariant(coin.value.variants, req.variantId);
        if v.None? then PostError(Failure(404, "Variant not found"))
        else
          var prices := if req.custom.Some? then req.custom.value else shared;
          PostOk(Calculate(coin.value, v.value, req.quantity, prices))
  }

  // ------------------------------------------------------------------ bulk GET

  datatype BulkEntry = BulkEntry(coinId: string, coinName: string, value: real)

  datatype BulkResponse =
    | BulkError(failure: Failure)
    | BulkOk(totalCoins: nat, totalValue: real, averageValue: Number, calculations: seq<BulkEntry>, prices: MetalPrices)

  /** `searchParams.get('coinIds')?.split(',') || []`. */
  function CoinIds(param: Option<string>): (ids: seq<string>)
    ensures param.None? <==> |ids| == 0
  {
    if param.None? then [] else Split(param.value, ',')
  }

  /** The catalogue coins the ids name, in id order; unknown ids are skipped. */
  function Matched(catalogue: seq<Coin>, ids: seq<string>): seq<Coin> {
    if |ids| == 0 then []
    else
      var c := FindCoin(catalogue, ids[|ids| - 1]);
      Matched(catalogue, ids[..|ids| - 1]) + (if c.Some? then [c.value] else [])
  }

  /** The bulk loop can value the coin: it reads `variant.goldPercentage` or
      `variant.silverPercentage` only for a GOLD or SILVER coin, and that read throws
      when the coin has no first variant. */
  predicate Valuable(coin: Coin) {
    |coin.variants| > 0 || (coin.metalType != "GOLD" && coin.metalType != "SILVER")
  }

  predicate AllValuable(coins: seq<Coin>) {
    forall i | 0 <= i < |coins| :: Valuable(coins[i])
  }

  /** The value of a coin in the bulk answer: its first variant at shared prices; a
      coin of neither metal is worth 0 whether or not it has a variant. */
  function BulkValue(coin: Coin, prices: MetalPrices): real
    requires Valuable(coin)
    requires prices.gold.Some? && prices.silver.Some?
  {
    if |coin.variants| == 0 then 0.0 else MetalValue(coin, coin.variants[0], prices).value
  }

  function SumValues(coins: seq<Coin>, prices: MetalPrices): real
    requires AllValuable(coins)
    requires prices.gold.Some? && prices.silver.Some?
  {
    if |coins| == 0 then 0.0
    else SumValues(coins[..|coins| - 1], prices) + BulkValue(coins[|coins| - 1], prices)
  }

  /** One entry per coin, in order, carrying its id, its name and its value rounded to
      cents. */
  function Entries(coins: seq<Coin>, prices: MetalPrices): (es: seq<BulkEntry>)
    requires AllValuable(coins)
    requires prices.gold.Some? && prices.silver.Some?
    ensures |es| == |coins|
    ensures forall i | 0 <= i < |es| :: es[i].coinId == coins[i].id && es[i].coinName == coins[i].name
    ensures forall i | 0 <= i < |es| :: es[i].value == ToFixed(BulkValue(coins[i], prices), 2)
  {
    seq(|coins|, i requires 0 <= i < |coins| =>
      BulkEntry(coins[i].id, coins[i].name, ToFixed(BulkValue(coins[i], prices), 2)))
  }

  /** `totalValue / calculations.length`, rounded; 0/0 is NaN. */
  function Average(total: real, count: nat): Number {
    if count == 0 then NaN else Finite(ToFixed(total / count as real, 2))
  }

  /** `GET /api/calculate?coinIds=...`. A matched GOLD or SILVER coin without variants
      makes `variant.goldPercentage` or `variant.silverPercentage` throw, which ends in
      the catch block's 500. */
  method BulkGet(catalogue: seq<Coin>, param: Option<string>, prices: MetalPrices) returns (resp: BulkResponse)
    requires prices.gold.Some? && prices.silver.Some?
    ensures param.None? ==> resp == BulkError(Failure(400, "No coin IDs provided"))
    ensures param.Some? && !AllValuable(Matched(catalogue, CoinIds(param))) ==>
      resp == BulkError(Failure(500, "Failed to calculate collection value"))
    ensures param.Some? && AllValuable(Matched(catalogue, CoinIds(param))) ==>
      var coins := Matched(catalogue, CoinIds(param));
      resp == BulkOk(|coins|, ToFixed(SumValues(coins, prices), 2),
                     Average(SumValues(coins, prices), |coins|), Entries(coins, prices), prices)
  {
    var ids := CoinIds(param);
    if |ids| == 0 {
      return BulkError(Failure(400, "No coin IDs provided"));
    }
    var ok, calculations, totalValue := CalculateEach(catalogue, ids, prices);
    if !ok {
      return BulkError(Failure(500, "Failed to calculate collection value"));
    }
    var count := |calculations|;
    resp := BulkOk(count, ToFixed(totalValue, 2), Average(totalValue, count), calculations, prices);
  }

  /** The loop over the ids: each matched coin's entry and the running total, or `ok`
      false as soon as a matched coin cannot be valued. */
  method CalculateEach(catalogue: seq<Coin>, ids: seq<string>, prices: MetalPrices)
    returns (ok: bool, calculations: seq<BulkEntry>, totalValue: real)
    requires prices.gold.Some? && prices.silver.Some?
    ensures ok <==> AllValuable(Matched(catalogue, ids))
    ensures ok ==> calculations == Entries(Matched(catalogue, ids), prices)
                   && totalValue == SumValues(Matched(catalogue, ids), prices)
  {
    calculations := [];
    totalValue := 0.0;
    ghost var found: seq<Coin> := [];
    for k := 0 to |ids|
      invariant found == Matched(catalogue, ids[..k])
      invariant AllValuable(found)
      invariant calculations == Entries(found, prices)
      invariant totalValue == SumValues(found, prices)
    {
      MatchedStep(catalogue, ids, k);
      var coin := FindCoin(catalogue, ids[k]);
      if coin.Some? {
        if !Valuable(coin.value) {
          UnvaluableFails(catalogue, ids, k);
          return false, calculations, totalValue;
        }
        var value := BulkValue(coin.value, prices);
        calculations := calculations + [BulkEntry(coin.value.id, coin.value.name, ToFixed(value, 2))];
        totalValue := totalValue + value;
        BulkStep(found, coin.value, prices);
        found := found + [coin.value];
      }
    }
    assert ids[..|ids|] == ids;
    ok := true;
  }


  /** One more id adds its coin, if it names one, to the matches. */
  lemma MatchedStep(catalogue: seq<Coin>, ids: seq<string>, k: nat)
    requires k < |ids|
    ensures Matched(catalogue, ids[..k + 1]) == Matched(catalogue, ids[..k])
      + (if FindCoin(catalogue, ids[k]).Some? then [FindCoin(catalogue, ids[k]).value] else [])
  {
    assert ids[..k + 1][..k] == ids[..k];
  }

  /** A matched coin that cannot be valued makes the whole match unvaluable. */
  lemma UnvaluableFails(catalogue: seq<Coin>, ids: seq<string>, k: nat)
    requires k < |ids|
    requires FindCoin(catalogue, ids[k]).Some? && !Valuable(FindCoin(catalogue, ids[k]).value)
    ensures !AllValuable(Matched(catalogue, ids))
  {
    MatchedStep(catalogue, ids, k);
    MatchedExtends(catalogue, ids, k + 1);
    var found := Matched(catalogue, ids[..k]);
    assert Matched(catalogue, ids)[|found|] == FindCoin(catalogue, ids[k]).value;
  }

  /** Appending a coin that can be valued appends its entry and adds its value. */
  lemma BulkStep(found: seq<Coin>, coin: Coin, prices: MetalPrices)
    requires AllValuable(found) && Valuable(coin)
    requires prices.gold.Some? && prices.silver.Some?
    ensures AllValuable(found + [coin])
    ensures Entries(found + [coin], prices) == Entries(found, prices)
      + [BulkEntry(coin.id, coin.name, ToFixed(BulkValue(coin, prices), 2))]
    ensures SumValues(found + [coin], prices) == SumValues(found, prices) + BulkValue(coin, prices)
  {
    assert (found + [coin])[..|found|] == found;
  }

  /** Matching a longer list of ids extends the matches of its prefix. */
  lemma {:induction false} MatchedExtends(catalogue: seq<Coin>, ids: seq<string>, k: nat)
    requires k <= |ids|
    ensures Matched(catalogue, ids[..k]) <= Matched(catalogue, ids)
    decreases |ids| - k
  {
    if k < |ids| {
      MatchedExtends(catalogue, ids, k + 1);
      assert ids[..k + 1][..k] == ids[..k];
    } else {
      assert ids[..k] == ids;
    }
  }

  // ------------------------------------------------------------------ properties

  /** A request passes the chain exactly when every guard holds, and an oversized
      body is refused with 413 before the body is looked at. */
  lemma ValidationChain(contentLength: Option<int>, body: Option<Request>)
    ensures contentLength.Some? && contentLength.value > 1024 ==>
      CheckRequest(contentLength, body) == Err(Failure(413, "Request body too large"))
    ensures CheckRequest(contentLength, body).Ok? <==>
      && !(contentLength.Some? && contentLength.value > 1024)
      && body.Some?
      && body.value.coinId.Str? && body.value.coinId.s != ""
      && body.value.variantId.Str? && body.value.variantId.s != ""
      && (body.value.quantity == Undefined
          || (body.value.quantity.Num? && 1.0 <= body.value.quantity.n <= 10000.0))
      && (body.value.customPrices.Some? ==>
            && (body.value.customPrices.value.gold == Undefined
                || (body.value.customPrices.value.gold.Num? && 0.0 <= body.value.customPrices.value.gold.n <= 1000.0))
            && (body.value.customPrices.value.silver == Undefined
                || (body.value.customPrices.value.silver.Num? && 0.0 <= body.value.customPrices.value.silver.n <= 100.0)))
  {
    if contentLength.Some? && contentLength.value > 1024 {
    } else if body.Some? {
      var b := body.value;
      if !Truthy(b.coinId) || !Truthy(b.variantId) {
      } else if !b.coinId.Str? || !b.variantId.Str? {
      } else if b.quantity != Undefined && !NumberIn(b.quantity, 1.0, 10000.0) {
      } else if b.customPrices.Some? {
        assert CheckRequest(contentLength, body).Ok? <==>
          (b.customPrices.value.gold == Undefined || NumberIn(b.customPrices.value.gold, 0.0, 1000.0))
          && (b.customPrices.value.silver == Undefined || NumberIn(b.customPrices.value.silver, 0.0, 100.0));
      }
    }
  }

  /** Which 400 a body gets: missing ids are reported before wrong types, and both
      before the quantity and the custom prices. */
  lemma BadRequestOrder(contentLength: Option<int>, b: Request)
    requires !(contentLength.Some? && contentLength.value > 1024)
    ensures !Truthy(b.coinId) || !Truthy(b.variantId) ==>
      CheckRequest(contentLength, Some(b)) == Err(Failure(400, "Missing required fields: coinId and variantId"))
    ensures Truthy(b.coinId) && Truthy(b.variantId) && (!b.coinId.Str? || !b.variantId.Str?) ==>
      CheckRequest(contentLength, Some(b)) == Err(Failure(400, "Invalid data types for coinId or variantId"))
    ensures b.coinId.Str? && b.coinId.s != "" && b.variantId.Str? && b.variantId.s != ""
            && b.quantity != Undefined && !NumberIn(b.quantity, 1.0, 10000.0) ==>
      CheckRequest(contentLength, Some(b)) == Err(Failure(400, "Quantity must be a number between 1 and 10000"))
    ensures CheckRequest(contentLength, Some(b)).Err? ==> CheckRequest(contentLength, Some(b)).error.status == 400
  {
  }

  /** What an accepted request carries: ids of at most 10 characters cut from the
      trimmed input, a quantity in [1, 10000] that defaults to 1, and custom prices
      within their bounds. */
  lemma ValidRequestBounds(contentLength: Option<int>, body: Option<Request>)
    requires CheckRequest(contentLength, body).Ok?
    ensures var v := CheckRequest(contentLength, body).value;
      && |v.coinId| <= 10 && |v.variantId| <= 10
      && v.coinId == Take(Trim(body.value.coinId.s), 10)
      && v.variantId == Take(Trim(body.value.variantId.s), 10)
      && 1.0 <= v.quantity <= 10000.0
      && (body.value.quantity == Undefined ==> v.quantity == 1.0)
      && (v.custom.Some? ==>
            (v.custom.value.gold.Some? ==> 0.0 <= v.custom.value.gold.value <= 1000.0)
            && (v.custom.value.silver.Some? ==> 0.0 <= v.custom.value.silver.value <= 100.0))
  {
  }

  /** An unknown coin answers 404 before its variants are looked at; a known coin with
      an unknown variant answers 404 too; otherwise the calculation is for exactly the
      coin and variant the sanitised ids name. */
  lemma LookupOutcome(contentLength: Option<int>, body: Option<Request>, catalogue: seq<Coin>, shared: MetalPrices)
    requires CheckRequest(contentLength, body).Ok?
    ensures var req := CheckRequest(contentLength, body).value;
      var r := Post(contentLength, body, catalogue, shared);
      var coin := FindCoin(catalogue, req.coinId);
      && (r == PostError(Failure(404, "Coin not found")) <==>
            forall j | 0 <= j < |catalogue| :: catalogue[j].id != req.coinId)
      && (r == PostError(Failure(404, "Variant not found")) <==>
            coin.Some? && forall j | 0 <= j < |coin.value.variants| :: coin.value.variants[j].id != req.variantId)
      && (r.PostOk? <==>
            coin.Some? && exists j | 0 <= j < |coin.value.variants| :: coin.value.variants[j].id == req.variantId)
      && (r.PostOk? ==>
            r.calculation.coinId == req.coinId && r.calculation.variantId == req.variantId
            && r.calculation.quantity == req.quantity)
      && (r.PostError? ==> r.failure.status == 404)
  {
  }

  /** Custom prices, when given, replace the shared prices entirely: the shared cache's
      answer then has no influence. */
  lemma CustomPricesIgnoreShared(contentLength: Option<int>, body: Option<Request>, catalogue: seq<Coin>,
                                 shared1: MetalPrices, shared2: MetalPrices)
    requires body.Some? && body.value.customPrices.Some?
    ensures Post(contentLength, body, catalogue, shared1) == Post(contentLength, body, catalogue, shared2)
  {
  }

  /** The value of a gold coin is weight * percentage / 100 * gold price * quantity;
      the answer reports it rounded to cents, and its metal as "goud". */
  lemma GoldTotalValue(coin: Coin, v: Variant, quantity: real, prices: MetalPrices)
    requires coin.metalType == "GOLD" && PresentReal(v.goldPercentage) && prices.gold.Some?
    ensures TotalValue(coin, v, quantity, prices)
         == Finite(v.weightGrams * v.goldPercentage.value / 100.0 * prices.gold.value * quantity)
    ensures Calculate(coin, v, quantity, prices).intrinsicValue == FixedNumber(TotalValue(coin, v, quantity, prices), 2)
    ensures Calculate(coin, v, quantity, prices).metalType == "goud"
    ensures Calculate(coin, v, quantity, prices).metalPercentage == v.goldPercentage.value
  {
    assert v.weightGrams * (v.goldPercentage.value / 100.0) == v.weightGrams * v.goldPercentage.value / 100.0;
  }

  /** The same for a silver coin at the silver price, reported as "zilver". */
  lemma SilverTotalValue(coin: Coin, v: Variant, quantity: real, prices: MetalPrices)
    requires coin.metalType == "SILVER" && PresentReal(v.silverPercentage) && prices.silver.Some?
    ensures TotalValue(coin, v, quantity, prices)
         == Finite(v.weightGrams * v.silverPercentage.value / 100.0 * prices.silver.value * quantity)
    ensures Calculate(coin, v, quantity, prices).intrinsicValue == FixedNumber(TotalValue(coin, v, quantity, prices), 2)
    ensures Calculate(coin, v, quantity, prices).metalType == "zilver"
    ensures Calculate(coin, v, quantity, prices).metalPercentage == v.silverPercentage.value
  {
    assert v.weightGrams * (v.silverPercentage.value / 100.0) == v.weightGrams * v.silverPercentage.value / 100.0;
  }

  /** A variant without a percentage for the coin's own metal is worth nothing, at any
      prices: the price of the other metal is never used. */
  lemma MissingPercentageIsZero(coin: Coin, v: Variant, quantity: real, prices: MetalPrices)
    requires coin.metalType == "GOLD" ==> !PresentReal(v.goldPercentage)
    requires coin.metalType == "SILVER" ==> !PresentReal(v.silverPercentage)
    ensures TotalValue(coin, v, quantity, prices) == Finite(0.0)
    ensures EstimatedValue(TotalValue(coin, v, quantity, prices), PremiumMultiplier(coin, v)) == Finite(0.0)
    ensures var c := Calculate(coin, v, quantity, prices);
      c.metalType == "" && c.metalPercentage == 0.0
  {
  }

  /** The intrinsic and estimated values that a calculation reports are within half a
      cent of the exact figures they round. */
  lemma IntrinsicValuePrecision(coin: Coin, v: Variant, quantity: real, prices: MetalPrices)
    requires TotalValue(coin, v, quantity, prices).Finite?
    ensures var total := TotalValue(coin, v, quantity, prices).value;
      var r := Calculate(coin, v, quantity, prices).intrinsicValue;
      r.Finite? && total - 0.005 <= r.value <= total + 0.005
    ensures var est := EstimatedValue(TotalValue(coin, v, quantity, prices), PremiumMultiplier(coin, v));
      var r := Calculate(coin, v, quantity, prices).estimatedCollectorsValue;
      est.Finite? ==> r.Finite? && est.value - 0.005 <= r.value <= est.value + 0.005
  {
    ToFixedError(TotalValue(coin, v, quantity, prices).value, 2);
    var est := EstimatedValue(TotalValue(coin, v, quantity, prices), PremiumMultiplier(coin, v));
    if est.Finite? {
      ToFixedError(est.value, 2);
    }
    assert Pow10(2) == 100;
  }

  /** The premium: 10 points exactly for gold, 15 exactly for a name containing
      "Willem I" or a first year before 1850, 25 exactly for 1897, added up; it is zero
      exactly when none applies. */
  lemma PremiumCases(coin: Coin, v: Variant)
    ensures var m := PremiumMultiplier(coin, v);
      var gold := if coin.metalType == "GOLD" then 10 else 0;
      var early := if Includes(v.variantName, "Willem I") || v.yearFrom < 1850 then 15 else 0;
      var rare := if v.yearFrom == 1897 then 25 else 0;
      && m == 100 + gold + early + rare
      && (coin.metalType == "GOLD" ==> m == 110 || m == 125 || m == 135 || m == 150)
      && (coin.metalType != "GOLD" ==> m == 100 || m == 115 || m == 125 || m == 140)
      && (m == 100 <==> coin.metalType != "GOLD" && !Includes(v.variantName, "Willem I") && v.yearFrom >= 1850 && v.yearFrom != 1897)
      && (coin.metalType == "GOLD" ==> m >= 110)
      && (v.yearFrom < 1850 ==> m >= 115)
      && (v.yearFrom == 1897 ==> m >= 125)
  {
  }

  /** The reported premium is the multiplier minus 100 %, between 0 and 50. */
  lemma PremiumPercentage(coin: Coin, v: Variant, quantity: real, prices: MetalPrices)
    ensures var c := Calculate(coin, v, quantity, prices);
      0 <= c.premiumPercentage <= 50 && c.premiumPercentage == PremiumMultiplier(coin, v) - 100
  {
  }

  /** For a non-negative total the estimated collector value is never below the
      intrinsic value, also after both are rounded to cents. */
  lemma EstimateAtLeastIntrinsic(total: real, multiplier: int)
    requires total >= 0.0 && multiplier >= 100
    ensures var e := EstimatedValue(Finite(total), multiplier);
      e.Finite? && total <= e.value
      && FixedNumber(Finite(total), 2).value <= FixedNumber(e, 2).value
  {
    var f := multiplier as real / 100.0;
    var e := EstimatedValue(Finite(total), multiplier);
    assert e == Finite(total * f);
    assert total <= total * f by {
      assert total * f - total == total * (f - 1.0);
    }
    ToFixedMonotone(total, total * f, 2);
    assert FixedNumber(e, 2) == Finite(ToFixed(total * f, 2));
  }

  /** "Willem II" and "Willem III" contain "Willem I", so a silver Willem III coin from
      1850 or later still gets the early premium. */
  lemma WillemIIIGetsEarlyPremium(coin: Coin, v: Variant)
    requires coin.metalType == "SILVER" && v.variantName == "Willem III" && v.yearFrom == 1850
    ensures PremiumMultiplier(coin, v) == 115
  {
    assert OccursAt(v.variantName, "Willem I", 0);
  }

  /** A years label with both years parses back into them. */
  lemma YearsLabelRoundTrip(v: Variant)
    requires v.yearFrom >= 0 && v.yearTo.Some? && v.yearTo.value > 0
    ensures var parts := Split(YearsLabel(v), '-');
      && parts == [NatToString(v.yearFrom), NatToString(v.yearTo.value)]
      && ParseDigits(parts[0]) == v.yearFrom && ParseDigits(parts[1]) == v.yearTo.value
  {
    var a := NatToString(v.yearFrom);
    var b := NatToString(v.yearTo.value);
    assert forall i | 0 <= i < |a| :: a[i] != '-';
    assert forall i | 0 <= i < |b| :: b[i] != '-';
    assert YearsLabel(v) == a + ['-'] + b;
    SplitPair(a, b, '-');
    assert Split(YearsLabel(v), '-')[1] == b;
    ParseNatToString(v.yearFrom);
    ParseNatToString(v.yearTo.value);
  }

  /** A label without `yearTo` (absent or 0) is just the first year. */
  lemma YearsLabelSingle(v: Variant)
    requires v.yearFrom >= 0 && !PresentInt(v.yearTo)
    ensures ParseDigits(YearsLabel(v)) == v.yearFrom
    ensures '-' !in YearsLabel(v)
  {
    ParseNatToString(v.yearFrom);
    var a := YearsLabel(v);
    assert forall i | 0 <= i < |a| :: a[i] != '-';
  }

  /** The bulk answer counts at most one coin per id, each of them named by an id. */
  lemma {:induction false} MatchedBound(catalogue: seq<Coin>, ids: seq<string>)
    ensures |Matched(catalogue, ids)| <= |ids|
    ensures forall c | c in Matched(catalogue, ids) :: c in catalogue && c.id in ids
  {
    if |ids| > 0 {
      var init := ids[..|ids| - 1];
      MatchedBound(catalogue, init);
      forall c | c in Matched(catalogue, ids) ensures c in catalogue && c.id in ids {
        if c in Matched(catalogue, init) {
          assert c.id in init;
        }
      }
    }
  }

  /** Ids naming no coin contribute nothing to the bulk answer. */
  lemma UnknownIdSkipped(catalogue: seq<Coin>, ids: seq<string>, unknown: string)
    requires forall j | 0 <= j < |catalogue| :: catalogue[j].id != unknown
    ensures Matched(catalogue, ids + [unknown]) == Matched(catalogue, ids)
  {
    assert (ids + [unknown])[..|ids|] == ids;
  }

  /** With values that are not negative, no coin is worth more than the whole total. */
  lemma {:induction false} BulkValuesBoundedBySum(coins: seq<Coin>, prices: MetalPrices)
    requires AllValuable(coins) && prices.gold.Some? && prices.silver.Some?
    requires forall i | 0 <= i < |coins| :: BulkValue(coins[i], prices) >= 0.0
    ensures SumValues(coins, prices) >= 0.0
    ensures forall i | 0 <= i < |coins| :: BulkValue(coins[i], prices) <= SumValues(coins, prices)
  {
    if |coins| > 0 {
      var init := coins[..|coins| - 1];
      BulkValuesBoundedBySum(init, prices);
      assert forall i | 0 <= i < |init| :: init[i] == coins[i];
    }
  }

  /** The total of two lists of coins is the sum of their totals. */
  lemma {:induction false} SumValuesAppend(xs: seq<Coin>, ys: seq<Coin>, prices: MetalPrices)
    requires AllValuable(xs) && AllValuable(ys) && prices.gold.Some? && prices.silver.Some?
    ensures AllValuable(xs + ys)
    ensures SumValues(xs + ys, prices) == SumValues(xs, prices) + SumValues(ys, prices)
    decreases |ys|
  {
    if |ys| == 0 {
      assert xs + ys == xs;
    } else {
      var init := ys[..|ys| - 1];
      SumValuesAppend(xs, init, prices);
      assert (xs + ys)[..|xs + ys| - 1] == xs + init;
    }
  }

  /** The coins matched by two lists of ids together are those of the first list, then
      those of the second. */
  lemma {:induction false} MatchedAppend(catalogue: seq<Coin>, ids1: seq<string>, ids2: seq<string>)
    ensures Matched(catalogue, ids1 + ids2) == Matched(catalogue, ids1) + Matched(catalogue, ids2)
    decreases |ids2|
  {
    if |ids2| == 0 {
      assert ids1 + ids2 == ids1;
    } else {
      var init := ids2[..|ids2| - 1];
      MatchedAppend(catalogue, ids1, init);
      assert (ids1 + ids2)[..|ids1 + ids2| - 1] == ids1 + init;
    }
  }

  /** The total of a collection does not depend on how its ids are split: asking for
      two lists at once gives the sum of the two totals, before rounding. */
  lemma BulkTotalAdditive(catalogue: seq<Coin>, ids1: seq<string>, ids2: seq<string>, prices: MetalPrices)
    requires prices.gold.Some? && prices.silver.Some?
    requires AllValuable(Matched(catalogue, ids1)) && AllValuable(Matched(catalogue, ids2))
    ensures AllValuable(Matched(catalogue, ids1 + ids2))
    ensures SumValues(Matched(catalogue, ids1 + ids2), prices)
         == SumValues(Matched(catalogue, ids1), prices) + SumValues(Matched(catalogue, ids2), prices)
  {
    MatchedAppend(catalogue, ids1, ids2);
    SumValuesAppend(Matched(catalogue, ids1), Matched(catalogue, ids2), prices);
  }

  /** An empty `coinIds` parameter passes the 400 guard (it splits into one empty id)
      and, when no coin has the empty id, answers 200 with no coins and a NaN average. */
  lemma EmptyCoinIdsParameter(catalogue: seq<Coin>, prices: MetalPrices)
    requires prices.gold.Some? && prices.silver.Some?
    requires forall j | 0 <= j < |catalogue| :: catalogue[j].id != ""
    ensures CoinIds(Some("")) == [""]
    ensures Matched(catalogue, CoinIds(Some(""))) == []
    ensures Average(SumValues([], prices), 0) == NaN
  {
    assert Matched(catalogue, [""][..0]) == [];
  }
}
