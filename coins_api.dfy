/** The coin query route of app/api/coins/route.ts: `GET` with optional
    `metalType`, `category` and `slug` filters, each sanitised and validated before it
    narrows the catalogue, plus computed per-coin fields; and the `POST` stub that
    checks for the two ids it requires.

    The catalogue is a parameter (the route's built-in list is sample data). */
module CoinsApi {
  import opened Js

  datatype Variant = Variant(
    id: string,
    yearFrom: int,
    yearTo: Option<int>,
    variantName: string,
    weightGrams: real,
    goldPercentage: Option<real>,
    silverPercentage: Option<real>,
    diameter: real,
    mintage: Option<int>)

  datatype Coin = Coin(
    id: string,
    name: string,
    slug: string,
    metalType: string,
    category: string,
    country: string,
    variants: seq<Variant>)

  /** A coin with the fields the route adds. A range is None when the coin has no
      variants: `Math.min()`/`Math.max()` of nothing are infinite and serialise as null. */
  datatype CoinWithMetadata = CoinWithMetadata(
    coin: Coin,
    variantCount: nat,
    yearRange: Option<(int, int)>,
    weightRange: Option<(real, real)>)

  /** The filters echoed back: the sanitised parameters as received. */
  datatype Filters = Filters(metalType: Option<string>, category: Option<string>, slug: Option<string>)

  datatype Listing = Listing(coins: seq<CoinWithMetadata>, count: nat, filters: Filters)

  datatype ErrorResponse = ErrorResponse(status: int, error: string)

  const ALLOWED_METAL_TYPES: seq<string> := ["GOLD", "SILVER", "PLATINUM"]
  const ALLOWED_CATEGORIES: seq<string> := ["CIRCULATION", "COMMEMORATIVE", "BULLION", "PATTERN"]

  /** `param?.trim().slice(0, n)`. */
  function Sanitise(param: Option<string>, n: nat): (r: Option<string>)
    ensures r.Some? <==> param.Some?
    ensures r.Some? ==> |r.value| <= n && r.value == Take(Trim(param.value), n)
  {
    if param.None? then None else Some(Take(Trim(param.value), n))
  }

  predicate SlugChar(c: char) {
    'a' <= c <= 'z' || '0' <= c <= '9' || c == '-'
  }

  /** `/^[a-z0-9-]+$/.test(s)`. */
  predicate SlugFormat(s: string) {
    |s| > 0 && forall i | 0 <= i < |s| :: SlugChar(s[i])
  }

  /** The coin fields the route can filter on. */
  datatype Field = MetalTypeField | CategoryField | SlugField

  function FieldOf(c: Coin, f: Field): string {
    match f
    case MetalTypeField => c.metalType
    case CategoryField => c.category
    case SlugField => c.slug
  }

  /** `xs.filter(c => c.<field> === value)`. */
  function FilterBy(xs: seq<Coin>, f: Field, value: string): (r: seq<Coin>)
    ensures |r| <= |xs|
    ensures forall c | c in r :: c in xs && FieldOf(c, f) == value
    ensures forall c | c in xs && FieldOf(c, f) == value :: c in r
  {
    if |xs| == 0 then []
    else FilterBy(xs[..|xs| - 1], f, value) + (if FieldOf(xs[|xs| - 1], f) == value then [xs[|xs| - 1]] else [])
  }

  /** A filter step that only applies when its value was supplied. */
  function FilterIf(xs: seq<Coin>, f: Field, value: Option<string>): seq<Coin> {
    if value.None? then xs else FilterBy(xs, f, value.value)
  }

  /** Whether a coin passes every supplied filter; an absent filter passes everything. */
  predicate Matches(c: Coin, metalType: Option<string>, category: Option<string>, slug: Option<string>) {
    (metalType.Some? ==> c.metalType == metalType.value)
    && (category.Some? ==> c.category == category.value)
    && (slug.Some? ==> c.slug == slug.value)
  }

  function YearEnd(v: Variant): int {
    if PresentInt(v.yearTo) then v.yearTo.value else v.yearFrom
  }

  /** `{start: Math.min(...yearFrom), end: Math.max(...(yearTo || yearFrom))}`. */
  function YearRange(vs: seq<Variant>): (r: Option<(int, int)>)
    ensures r.None? <==> |vs| == 0
    ensures r.Some? ==> forall i | 0 <= i < |vs| :: r.value.0 <= vs[i].yearFrom && YearEnd(vs[i]) <= r.value.1
    ensures r.Some? ==> (exists i | 0 <= i < |vs| :: vs[i].yearFrom == r.value.0)
                        && (exists i | 0 <= i < |vs| :: YearEnd(vs[i]) == r.value.1)
  {
    if |vs| == 0 then None
    else
      var starts := seq(|vs|, i requires 0 <= i < |vs| => vs[i].yearFrom);
      var ends := seq(|vs|, i requires 0 <= i < |vs| => YearEnd(vs[i]));
      assert forall i | 0 <= i < |vs| :: starts[i] == vs[i].yearFrom && ends[i] == YearEnd(vs[i])
                                         && starts[i] in starts && ends[i] in ends;
      Some((MinInt(starts), MaxInt(ends)))
  }

  /** `{min: Math.min(...weightGrams), max: Math.max(...weightGrams)}`. */
  function WeightRange(vs: seq<Variant>): (r: Option<(real, real)>)
    ensures r.None? <==> |vs| == 0
    ensures r.Some? ==> forall i | 0 <= i < |vs| :: r.value.0 <= vs[i].weightGrams <= r.value.1
    ensures r.Some? ==> (exists i | 0 <= i < |vs| :: vs[i].weightGrams == r.value.0)
                        && (exists i | 0 <= i < |vs| :: vs[i].weightGrams == r.value.1)
  {
    if |vs| == 0 then None
    else
      var ws := seq(|vs|, i requires 0 <= i < |vs| => vs[i].weightGrams);
      assert forall i | 0 <= i < |vs| :: ws[i] == vs[i].weightGrams && ws[i] in ws;
      Some((MinReal(ws), MaxReal(ws)))
  }

  function WithMetadata(c: Coin): CoinWithMetadata {
    CoinWithMetadata(c, |c.variants|, YearRange(c.variants), WeightRange(c.variants))
  }

  /** `GET /api/coins`. */
  function Get(catalogue: seq<Coin>, metalParam: Option<string>, categoryParam: Option<string>,
               slugParam: Option<string>): Result<Listing, ErrorResponse>
  {
    var metalType := Sanitise(metalParam, 10);
    var category := Sanitise(categoryParam, 20);
    var slug := Sanitise(slugParam, 50);
    var upperMetal := if PresentString(metalType) then Some(ToUpper(metalType.value)) else None;
    var upperCategory := if PresentString(category) then Some(ToUpper(category.value)) else None;
    var slugFilter := if PresentString(slug) then slug else None;
    if upperMetal.Some? && upperMetal.value !in ALLOWED_METAL_TYPES then
      Err(ErrorResponse(400, "Invalid metalType parameter"))
    else if upperCategory.Some? && upperCategory.value !in ALLOWED_CATEGORIES then
      Err(ErrorResponse(400, "Invalid category parameter"))
    else if slugFilter.Some? && !SlugFormat(slugFilter.value) then
      Err(ErrorResponse(400, "Invalid slug format"))
    else
      var m1 := FilterIf(catalogue, MetalTypeField, upperMetal);
      var m2 := FilterIf(m1, CategoryField, upperCategory);
      var m3 := FilterIf(m2, SlugField, slugFilter);
      var coins := seq(|m3|, i requires 0 <= i < |m3| => WithMetadata(m3[i]));
      Ok(Listing(coins, |coins|, Filters(metalType, category, slug)))
  }

  /** The coins matching every filter, in catalogue order: the reference for the
      filter chain of `Get`. */
  function Selected(xs: seq<Coin>, metalType: Option<string>, category: Option<string>, slug: Option<string>)
    : seq<Coin>
  {
    if |xs| == 0 then []
    else Selected(xs[..|xs| - 1], metalType, category, slug)
         + (if Matches(xs[|xs| - 1], metalType, category, slug) then [xs[|xs| - 1]] else [])
  }

  /** The filters `Get` applies, once they are all valid. */
  function ActiveFilters(metalParam: Option<string>, categoryParam: Option<string>, slugParam: Option<string>)
    : (Option<string>, Option<string>, Option<string>)
  {
    var metalType := Sanitise(metalParam, 10);
    var category := Sanitise(categoryParam, 20);
    var slug := Sanitise(slugParam, 50);
    (if PresentString(metalType) then Some(ToUpper(metalType.value)) else None,
     if PresentString(category) then Some(ToUpper(category.value)) else None,
     if PresentString(slug) then slug else None)
  }

  // ------------------------------------------------------------------ POST

  datatype AddRequest = AddRequest(coinId: Json, variantId: Json)

  datatype AddResponse = AddError(failure: ErrorResponse) | Added(message: string, coinId: Json, variantId: Json)

  /** `POST /api/coins`; `body` is None when it is not JSON or is `null`. */
  function Post(body: Option<AddRequest>): (r: AddResponse)
    ensures r.Added? <==> body.Some? && Truthy(body.value.coinId) && Truthy(body.value.variantId)
    ensures r.Added? ==> r.coinId == body.value.coinId && r.variantId == body.value.variantId
    ensures r.AddError? ==> r.failure.status == (if body.None? then 500 else 400)
  {
    if body.None? then AddError(ErrorResponse(500, "Failed to add coin to collection"))
    else if !Truthy(body.value.coinId) || !Truthy(body.value.variantId) then
      AddError(ErrorResponse(400, "Missing required fields: coinId and variantId"))
    else Added("Coin added to collection successfully", body.value.coinId, body.value.variantId)
  }

  // ------------------------------------------------------------------ properties

  /** The reference selection keeps catalogue order: it distributes over concatenation. */
  lemma {:induction false} SelectedAppend(xs: seq<Coin>, ys: seq<Coin>, m: Option<string>, c: Option<string>,
                                          s: Option<string>)
    ensures Selected(xs + ys, m, c, s) == Selected(xs, m, c, s) + Selected(ys, m, c, s)
    decreases |ys|
  {
    if |ys| == 0 {
      assert xs + ys == xs;
    } else {
      var init := ys[..|ys| - 1];
      assert (xs + ys)[..|xs + ys| - 1] == xs + init;
      SelectedAppend(xs, init, m, c, s);
    }
  }

  /** The reference selection holds exactly the matching catalogue coins. */
  lemma {:induction false} SelectedMembers(xs: seq<Coin>, m: Option<string>, c: Option<string>, s: Option<string>)
    ensures forall x | x in Selected(xs, m, c, s) :: x in xs && Matches(x, m, c, s)
    ensures forall x | x in xs && Matches(x, m, c, s) :: x in Selected(xs, m, c, s)
  {
    if |xs| > 0 {
      var init := xs[..|xs| - 1];
      SelectedMembers(init, m, c, s);
      assert xs == init + [xs[|xs| - 1]];
    }
  }

  /** A filter step on one more coin keeps that coin exactly when it passes. */
  lemma FilterIfSnoc(xs: seq<Coin>, f: Field, value: Option<string>, x: Coin)
    ensures FilterIf(xs + [x], f, value)
         == FilterIf(xs, f, value) + (if value.None? || FieldOf(x, f) == value.value then [x] else [])
  {
    assert (xs + [x])[..|xs|] == xs;
  }

  /** The three filter steps in a row select what `Selected` selects. */
  lemma {:induction false} FilterChainIsSelection(xs: seq<Coin>, m: Option<string>, c: Option<string>,
                                                  s: Option<string>)
    ensures FilterIf(FilterIf(FilterIf(xs, MetalTypeField, m), CategoryField, c), SlugField, s) == Selected(xs, m, c, s)
  {
    if |xs| > 0 {
      var init := xs[..|xs| - 1];
      var last := xs[|xs| - 1];
      assert xs == init + [last];
      FilterChainIsSelection(init, m, c, s);
      var a1 := FilterIf(init, MetalTypeField, m);
      var a2 := FilterIf(a1, CategoryField, c);
      assert Selected(xs, m, c, s) == Selected(init, m, c, s) + (if Matches(last, m, c, s) then [last] else []);
      FilterIfSnoc(init, MetalTypeField, m, last);
      if m.None? || last.metalType == m.value {
        FilterIfSnoc(a1, CategoryField, c, last);
        if c.None? || last.category == c.value {
          FilterIfSnoc(a2, SlugField, s, last);
        } else {
          assert FilterIf(a1 + [last], CategoryField, c) == a2;
          assert !Matches(last, m, c, s);
        }
      } else {
        assert FilterIf(xs, MetalTypeField, m) == a1;
        assert !Matches(last, m, c, s);
      }
    }
  }

  /** The filters are conjunctive: a successful listing is, in catalogue order, exactly
      the coins that match every active filter, each with its computed fields, and
      `count` is its length; the active metal type and category are whitelisted values. */
  lemma ListingIsConjunctiveFilter(catalogue: seq<Coin>, metalParam: Option<string>,
                                   categoryParam: Option<string>, slugParam: Option<string>)
    requires Get(catalogue, metalParam, categoryParam, slugParam).Ok?
    ensures var l := Get(catalogue, metalParam, categoryParam, slugParam).value;
      var (m, c, s) := ActiveFilters(metalParam, categoryParam, slugParam);
      var selected := Selected(catalogue, m, c, s);
      && |l.coins| == |selected| && l.count == |selected|
      && (forall i | 0 <= i < |selected| :: l.coins[i] == WithMetadata(selected[i]))
      && (m.Some? ==> m.value in ALLOWED_METAL_TYPES)
      && (c.Some? ==> c.value in ALLOWED_CATEGORIES)
      && (s.Some? ==> SlugFormat(s.value))
  {
    var (m, c, s) := ActiveFilters(metalParam, categoryParam, slugParam);
    FilterChainIsSelection(catalogue, m, c, s);
  }

  /** The whitelists: the sanitised, upper-cased metal type must be GOLD, SILVER or
      PLATINUM and is checked first; then the category; then the slug format, which
      is not case-folded. */
  lemma ValidationOrder(catalogue: seq<Coin>, metalParam: Option<string>,
                        categoryParam: Option<string>, slugParam: Option<string>)
    ensures var (m, c, s) := ActiveFilters(metalParam, categoryParam, slugParam);
      var r := Get(catalogue, metalParam, categoryParam, slugParam);
      && (r == Err(ErrorResponse(400, "Invalid metalType parameter")) <==> m.Some? && m.value !in ALLOWED_METAL_TYPES)
      && (r == Err(ErrorResponse(400, "Invalid category parameter")) <==>
            !(m.Some? && m.value !in ALLOWED_METAL_TYPES) && c.Some? && c.value !in ALLOWED_CATEGORIES)
      && (r == Err(ErrorResponse(400, "Invalid slug format")) <==>
            !(m.Some? && m.value !in ALLOWED_METAL_TYPES) && !(c.Some? && c.value !in ALLOWED_CATEGORIES)
            && s.Some? && !SlugFormat(s.value))
      && (r.Err? ==> r.error.status == 400)
  {
    var (m, c, s) := ActiveFilters(metalParam, categoryParam, slugParam);
    var r := Get(catalogue, metalParam, categoryParam, slugParam);
    if m.Some? && m.value !in ALLOWED_METAL_TYPES {
      assert r == Err(ErrorResponse(400, "Invalid metalType parameter"));
    } else if c.Some? && c.value !in ALLOWED_CATEGORIES {
      assert r == Err(ErrorResponse(400, "Invalid category parameter"));
    } else if s.Some? && !SlugFormat(s.value) {
      assert r == Err(ErrorResponse(400, "Invalid slug format"));
    } else {
      assert r.Ok?;
    }
  }

  /** The echoed filters are the sanitised parameters, not upper-cased, and only
      present when the parameter was. */
  lemma EchoedFilters(catalogue: seq<Coin>, metalParam: Option<string>,
                      categoryParam: Option<string>, slugParam: Option<string>)
    requires Get(catalogue, metalParam, categoryParam, slugParam).Ok?
    ensures var f := Get(catalogue, metalParam, categoryParam, slugParam).value.filters;
      && f.metalType == Sanitise(metalParam, 10)
      && f.category == Sanitise(categoryParam, 20)
      && f.slug == Sanitise(slugParam, 50)
  {
  }

  /** A coin whose variants all have `yearFrom <= yearTo` (or no `yearTo`) gets a year
      range with start <= end. */
  lemma YearRangeOrdered(c: Coin)
    requires |c.variants| > 0
    requires forall v | v in c.variants :: v.yearFrom <= YearEnd(v)
    ensures WithMetadata(c).yearRange.Some?
    ensures WithMetadata(c).yearRange.value.0 <= WithMetadata(c).yearRange.value.1
  {
    var r := YearRange(c.variants).value;
    var i :| 0 <= i < |c.variants| && c.variants[i].yearFrom == r.0;
    assert c.variants[i] in c.variants;
  }
}
