# geldwaarde-nl: price cache, coin routes and coin-data scripts in Dafny

This project models the logic behind geldwaarde.nl, a Dutch site that values gold and
silver coins at current metal prices:

- **Price cache** (`Prices`, lib/prices.ts): one in-memory snapshot (`priceCache`) and
  the `price-cache.json` file behind it. The class `PriceService` holds both. Its method
  `GetPrices` makes the four decisions of `getPrices` in their order: serve fresh, serve
  rate limited, call upstream, or fall back. It is proved equal to the function
  `GetPricesSpec`, and the cache properties are lemmas about that function. The clock
  readings, the environment (serverless host, API key, writable disk) and the upstream
  answer are parameters.
- **Price routes** (`PriceRoutes`): the admin-gated forced refresh `POST
  /api/prices/update`, its `GET` 405, and the public `GET /api/prices` with its
  development-only fields and its constant fallback.
- **Calculate route** (`Calculate`): the ordered validation chain of `POST
  /api/calculate`, the id sanitisation and lookup, the intrinsic value and the premium
  multiplier (in integer percent). The bulk `GET` and its accumulating loop are here too.
- **Coins route** (`CoinsApi`): parameter sanitisation, the whitelists and the slug
  format, the conjunctive filters, the computed year and weight ranges, and the
  required-field check of `POST`.
- **Overview pages** (`Overview`, `SilverPage`, `GoldPage`): `calculateRange`,
  `calculateCoinRanges`/`calculateGoldCoinRanges` and the cards with their "listed slugs
  first, then by name" comparator, shared by both pages. The silver page adds
  `calculateYearRange` (regular-expression scans and a year loop). The gold page adds
  `getCollectorValueRange`.
- **Home page** (`HomePage`): the calculator's coin list comparator (gold first, then
  each metal's order list, then by name) and the `variantsFromDatabase` loop.
- **update-coins.js** (`UpdateCoins`): `validateCoin` with its message list, the
  validation run that aborts the update, `generateCalculatorData` and
  `generateOverviewData`.
- **process-munten.js** (`ProcessMunten`): rows to coins. It skips the header and empty
  rows, builds each slug, groups rows into coins with variants in row order, converts
  the percentage, and sorts the result.

`Js` collects the JavaScript semantics the modules share: truthiness, `||` defaults,
`trim`, `slice`, ASCII `toUpperCase`/`toLowerCase`, `includes`, `indexOf`, `split`,
`toFixed` on exact reals, `Math.round`, and the UTC day of a millisecond timestamp.
`CoinDb` holds the records of `coins-database.json`. Its entries are a sequence of
`(slug, coin)` pairs in `Object.entries` order, with distinct slugs.

Prices are reals. A `toFixed(d)` is `Js.ToFixed`: rounding half away from zero on the
exact value. Dates are integer millisecond timestamps, and `dataDate` is an integer
UTC day number.

The code is followed where other descriptions of the system differ. Two cases:

- The test key's gold price is 2234.567 / 31.1035 = 71.843…, which `toFixed(2)` makes
  71.84 (`Prices.TestRatesPerGram`).
- `split(',')` never returns an empty list. So `?coinIds=` passes the 400 guard and
  answers 200 with no coins and a NaN average (`Calculate.EmptyCoinIdsParameter`).

## Model

| member | source | states |
|---|---|---|
| Prices.PriceService.constructor | lib/prices.ts:22 | a new process starts with no snapshot in memory and the file as it is on disk |
| Prices.PriceService.LoadCacheFromFile | lib/prices.ts:25-45 | nothing is read on a serverless host; otherwise the file's snapshot, `None` when missing or unreadable |
| Prices.PriceService.SaveCacheToFile | lib/prices.ts:48-63 | the file takes the snapshot only on a non-serverless host with a writable disk; otherwise it is unchanged |
| Prices.PriceService.GetLastKnownPrices | lib/prices.ts:148-175 | the memory snapshot, else the file's, with " (cached)" appended to the source; else the estimates 91.63 / 1.044 from "fallback estimate", dated the day before |
| Prices.PriceService.GetPrices | lib/prices.ts:177-245 | the answer and the new memory and file are exactly those of the decision function over the state before the call |
| Prices.FetchMetalPriceApiData | lib/prices.ts:66-146 | defines `fetchMetalPriceApiData`; its outcomes are stated by `Prices.FetchFailsIff`, `Prices.TestKeyMakesNoCall`, `Prices.TestRatesPerGram`, `Prices.TestDataDatedYesterday`, `Prices.ApiDataDatedByTimestamp` and `Prices.ConversionPrecision` |
| Prices.LastKnownPrices | lib/prices.ts:148-175 | defines `getLastKnownPrices` on the snapshot found; `Prices.PriceService.GetLastKnownPrices` is proved against it |
| Prices.GetPricesSpec | lib/prices.ts:177-245 | defines the answer, new memory and new file of `getPrices`; `Prices.PriceService.GetPrices` is proved equal to it and the lemmas below state its cases |
| Prices.CacheHitIff | lib/prices.ts:187-194 | a hit happens iff a snapshot is loaded, is younger than 24 h and no refresh is forced; it returns that snapshot with `cached` and changes no state |
| Prices.FreshnessBoundaryExclusive | lib/prices.ts:187 | a snapshot exactly 24 h old is not fresh |
| Prices.RateLimitedIff | lib/prices.ts:197-207 | rate limiting happens iff the snapshot is stale, its last call is known and younger than 24 h, and no refresh is forced; it serves the stale snapshot flagged cached, stale and rate limited, changing nothing |
| Prices.NoLastApiCallNeverRateLimits | lib/prices.ts:197 | an absent or zero `lastApiCall` never rate-limits |
| Prices.ForceRefreshAlwaysCallsUpstream | lib/prices.ts:187-212 | with `forceRefresh` both checks are skipped and the answer is what the fetch outcome dictates |
| Prices.SuccessReplacesCache | lib/prices.ts:212-231 | on success memory is the fetched snapshot with `lastApiCall = now`, `cached` is false, the file is written only on a writable non-serverless disk, and `lastApiCall <= lastUpdated` |
| Prices.FailureKeepsCache | lib/prices.ts:232-243 | on failure memory is as loaded, the file is untouched, and the answer is cached and stale: the known snapshot marked "(cached)" or the estimates |
| Prices.NoSnapshotAndUpstreamDown | lib/prices.ts:160-170 | with no snapshot anywhere and upstream down, 91.63 / 1.044 from "fallback estimate" are served |
| Prices.ServerlessIgnoresFile | lib/prices.ts:179-225 | on a serverless host the answer and the new memory do not depend on the file, and the file is never written |
| Prices.RefreshThenHit | lib/prices.ts:187-231 | after a successful refresh, a call within 24 h of `lastUpdated` is a hit returning the same prices and date, whatever upstream would answer |
| Prices.HitIsIdempotent | lib/prices.ts:187-194 | a second call within the window gives the same answer and state |
| Prices.StaleButRecentCallIsRateLimited | lib/prices.ts:197-207 | a stale snapshot with a recent last call is served rate limited without an upstream attempt |
| Prices.FetchFailsIff | lib/prices.ts:66-146 | the fetch fails exactly on a missing key, a failed request, a non-OK status, a body without `success` and `rates`, or an unrepresentable date |
| Prices.TestKeyMakesNoCall | lib/prices.ts:77-101 | with the test key the upstream answer is never consulted |
| Prices.TestRatesPerGram | lib/prices.ts:79-95 | the test rates give 71.84 EUR/g gold and 0.861 EUR/g silver from "metalpriceapi.com (test data)" |
| Prices.TestDataDatedYesterday | lib/prices.ts:91-92 | test data is dated the UTC day before the fetch |
| Prices.ApiDataDatedByTimestamp | lib/prices.ts:131-137 | real data keeps the day of the response's own timestamp, never after the fetch for a timestamp not in the future |
| Prices.ConversionPrecision | lib/prices.ts:127-136 | gold is EURXAU / 31.1035 within half a cent, silver EURXAG / 31.1035 within half a tenth of a cent |
| PriceRoutes.OrFalse | app/api/prices/route.ts:13-17 | `flag or false` is true exactly for a present true flag |
| PriceRoutes.AdminGate | app/api/prices/update/route.ts:14-28 | defines the two guards in order; `PriceRoutes.AdminGateOrder` states when each answers |
| PriceRoutes.AdminResponse | app/api/prices/update/route.ts:32-56 | defines the answer to a forced refresh; `PriceRoutes.AdminResponseShape` and `PriceRoutes.UpdateStatuses` state it |
| PriceRoutes.PublicResponse | app/api/prices/route.ts:7-45 | defines the public answer; `PriceRoutes.PublicResponseShape` and `PriceRoutes.PublicDevOnlyFields` state it |
| PriceRoutes.SuppliedAdminKey | app/api/prices/update/route.ts:13 | the `x-admin-key` header when truthy, else the `Authorization` header with its first "Bearer " removed |
| PriceRoutes.UpdatePost | app/api/prices/update/route.ts:10-57 | a rejected request answers 503 or 401 and leaves the cache untouched; an authorised one is the forced refresh of the cache and its shaped answer |
| PriceRoutes.UpdateGet | app/api/prices/update/route.ts:60-65 | always 405 |
| PriceRoutes.PricesGet | app/api/prices/route.ts:4-47 | the public answer is shaped from an unforced `getPrices` on the shared cache |
| PriceRoutes.AdminGateOrder | app/api/prices/update/route.ts:14-28 | an unset or empty `ADMIN_KEY` answers 503 whatever was supplied; otherwise 200 iff the supplied key equals it, else 401 |
| PriceRoutes.UpdateStatuses | app/api/prices/update/route.ts:16-55 | the update route answers only 503, 401, 200 or 500 |
| PriceRoutes.BearerTokenSupplied | app/api/prices/update/route.ts:13 | `Bearer <token>` without an `x-admin-key` supplies `<token>` |
| PriceRoutes.AdminResponseShape | app/api/prices/update/route.ts:32-47 | a refresh reports the returned prices, absent flags as false, in EUR per gram |
| PriceRoutes.PublicResponseShape | app/api/prices/route.ts:7-45 | always 200 in EUR per gram with `cached`/`isStale` defaulting to false; the prices are `getPrices()`'s unless serialisation fails, then 91.63 / 1.044, cached, stale, not rate limited, with an error |
| PriceRoutes.PublicDevOnlyFields | app/api/prices/route.ts:23-26 | `rateLimited` and `lastApiCall` appear only outside production, and `rateLimited` always appears there |
| PriceRoutes.RateLimitVisibleInDevelopment | app/api/prices/route.ts:24 | a rate-limited cache answer shows `rateLimited: true` in development |
| Calculate.SanitiseId | app/api/calculate/route.ts:181-182 | at most 10 characters, a prefix of the trimmed input, the trimmed input itself when short enough |
| Calculate.CheckRequest | app/api/calculate/route.ts:124-178 | defines the ordered guards; `Calculate.ValidationChain`, `Calculate.BadRequestOrder` and `Calculate.ValidRequestBounds` state what it accepts and refuses |
| Calculate.IndexWithKey | app/api/calculate/route.ts:185 | the position of the first element whose key is the id; -1 exactly when no element has it |
| Calculate.Post | app/api/calculate/route.ts:121-289 | defines `POST`: validation, lookup, then the calculation at the custom or shared prices; `Calculate.LookupOutcome` and `Calculate.CustomPricesIgnoreShared` state its outcomes |
| Calculate.Calculate | app/api/calculate/route.ts:202-280 | defines the calculation's fields; `Calculate.GoldTotalValue`, `Calculate.SilverTotalValue`, `Calculate.MissingPercentageIsZero`, `Calculate.IntrinsicValuePrecision`, `Calculate.PremiumPercentage` and `Calculate.EstimateAtLeastIntrinsic` state them |
| Calculate.YearsLabel | app/api/calculate/route.ts:259 | defines the `years` label; `Calculate.YearsLabelRoundTrip` and `Calculate.YearsLabelSingle` state it |
| Calculate.Matched | app/api/calculate/route.ts:307-309 | defines the coins found for the ids, in id order; `Calculate.MatchedBound`, `Calculate.MatchedExtends`, `Calculate.UnknownIdSkipped` and `Calculate.MatchedAppend` state it |
| Calculate.Average | app/api/calculate/route.ts:336 | defines the average rounded to cents, NaN for no coins; `Calculate.EmptyCoinIdsParameter` shows the NaN case |
| Calculate.FindCoin | app/api/calculate/route.ts:185 | the first coin with the id, `None` iff there is none |
| Calculate.FindVariant | app/api/calculate/route.ts:193 | the first variant with the id, `None` iff there is none |
| Calculate.MetalValue | app/api/calculate/route.ts:206-221 | weight × percentage / 100 × price for the coin's own metal, 0 without that percentage, NaN without that price |
| Calculate.PremiumMultiplier | app/api/calculate/route.ts:226-245 | the multiplier in integer percent lies between 100 and 150 |
| Calculate.CoinIds | app/api/calculate/route.ts:294 | the id list is empty exactly when the parameter is absent |
| Calculate.Entries | app/api/calculate/route.ts:322-326 | one entry per coin, in order, with its id, its name and its value rounded to cents |
| Calculate.BulkGet | app/api/calculate/route.ts:291-350 | no parameter: 400; a matched GOLD or SILVER coin without variants: 500; otherwise the count, the rounded total, the average and the entries of the matched coins |
| Calculate.CalculateEach | app/api/calculate/route.ts:304-330 | the loop succeeds iff no matched coin is a GOLD or SILVER coin without variants, and then yields their entries and the sum of their values |
| Calculate.MatchedExtends | app/api/calculate/route.ts:307-309 | the coins matched by a prefix of the ids are a prefix of those matched by all |
| Calculate.ValidationChain | app/api/calculate/route.ts:124-178 | a request is accepted iff every guard holds, and a body over 1024 bytes is refused with 413 first |
| Calculate.BadRequestOrder | app/api/calculate/route.ts:135-157 | missing ids are reported before wrong types, both before the quantity, and every refusal of a small body is a 400 |
| Calculate.ValidRequestBounds | app/api/calculate/route.ts:151-182 | an accepted request has ids of at most 10 characters from the trimmed input, a quantity in [1, 10000] defaulting to 1, and custom prices within their bounds |
| Calculate.LookupOutcome | app/api/calculate/route.ts:185-199 | 404 "Coin not found" iff no coin has the sanitised id; 404 "Variant not found" iff the coin exists but none of its variants has the id; otherwise the calculation for exactly that coin, variant and quantity |
| Calculate.CustomPricesIgnoreShared | app/api/calculate/route.ts:202 | custom prices replace the shared prices entirely |
| Calculate.GoldTotalValue | app/api/calculate/route.ts:211-223 | a gold coin is worth weight × percentage / 100 × gold price × quantity, reported to the cent, as "goud" |
| Calculate.SilverTotalValue | app/api/calculate/route.ts:216-223 | the same at the silver price, as "zilver" |
| Calculate.MissingPercentageIsZero | app/api/calculate/route.ts:206-221 | without the coin's own percentage the value is 0 at any prices |
| Calculate.IntrinsicValuePrecision | app/api/calculate/route.ts:273-274 | the intrinsic and estimated values a calculation reports are each within half a cent of the exact figure |
| Calculate.PremiumCases | app/api/calculate/route.ts:232-245 | the multiplier is exactly 100 plus 10 for gold, 15 for "Willem I" in the name or a first year before 1850, and 25 for 1897; the premium is zero iff none applies |
| Calculate.PremiumPercentage | app/api/calculate/route.ts:275 | the premium percentage is the multiplier minus 100, between 0 and 50 |
| Calculate.EstimateAtLeastIntrinsic | app/api/calculate/route.ts:247-274 | for a non-negative total the estimated value is never below the intrinsic value, also after rounding |
| Calculate.WillemIIIGetsEarlyPremium | app/api/calculate/route.ts:238 | "Willem III" contains "Willem I", so it gets the early premium after 1850 too |
| Calculate.YearsLabelRoundTrip | app/api/calculate/route.ts:259 | a "from-to" label reads back as the two years |
| Calculate.YearsLabelSingle | app/api/calculate/route.ts:259 | without `yearTo` the label is the first year |
| Calculate.MatchedBound | app/api/calculate/route.ts:307-309 | at most one coin per id, each named by some id |
| Calculate.UnknownIdSkipped | app/api/calculate/route.ts:309 | an id naming no coin adds nothing |
| Calculate.BulkValuesBoundedBySum | app/api/calculate/route.ts:322-335 | with non-negative coin values, the total is non-negative and at least each coin's value |
| Calculate.SumValuesAppend | app/api/calculate/route.ts:322-325 | the total over two lists of coins is the sum of their totals |
| Calculate.MatchedAppend | app/api/calculate/route.ts:307-309 | the coins matched by two id lists together are those of the first, then those of the second |
| Calculate.BulkTotalAdditive | app/api/calculate/route.ts:307-335 | asking for two id lists at once gives the sum of the two totals, before rounding |
| Calculate.EmptyCoinIdsParameter | app/api/calculate/route.ts:294-337 | `coinIds=` passes the 400 guard and answers no coins with a NaN average |
| CoinsApi.Sanitise | app/api/coins/route.ts:272-274 | absent stays absent; otherwise the trimmed text cut to `n` characters |
| CoinsApi.Get | app/api/coins/route.ts:267-353 | defines the listing `GET`; `CoinsApi.ValidationOrder`, `CoinsApi.ListingIsConjunctiveFilter` and `CoinsApi.EchoedFilters` state it |
| CoinsApi.FilterBy | app/api/coins/route.ts:291-319 | keeps, in order, exactly the coins whose field equals the value |
| CoinsApi.YearRange | app/api/coins/route.ts:326-329 | the smallest `yearFrom` and the largest `yearTo`, or `yearFrom` where it is falsy, both attained |
| CoinsApi.WeightRange | app/api/coins/route.ts:330-333 | the smallest and largest `weightGrams`, both attained |
| CoinsApi.Post | app/api/coins/route.ts:356-385 | 400 without `coinId` or `variantId`; otherwise both echoed |
| CoinsApi.SelectedAppend | app/api/coins/route.ts:280-320 | the reference selection distributes over concatenation, keeping catalogue order |
| CoinsApi.SelectedMembers | app/api/coins/route.ts:280-320 | the selection holds exactly the catalogue coins matching every filter |
| CoinsApi.FilterChainIsSelection | app/api/coins/route.ts:283-320 | the three filter steps in a row select what the reference selects |
| CoinsApi.ListingIsConjunctiveFilter | app/api/coins/route.ts:280-345 | a listing is exactly the matching coins in catalogue order, each with its computed fields; `count` is its length; the active filters are whitelisted |
| CoinsApi.ValidationOrder | app/api/coins/route.ts:277-318 | the metal type is checked first, then the category, then the slug format, each refusal a 400 |
| CoinsApi.EchoedFilters | app/api/coins/route.ts:339-343 | the echoed filters are the sanitised parameters, not upper-cased |
| CoinsApi.YearRangeOrdered | app/api/coins/route.ts:326-329 | variants with `yearFrom <= yearTo` give a range with start <= end |
| CoinDb.Lookup | app/gouden-munten/page.tsx:114 | `None` iff no entry has the slug; otherwise the coin of such an entry |
| CoinDb.LookupEntry | app/gouden-munten/page.tsx:114 | the entry with a slug is the one looked up |
| Overview.CalculateRange | app/zilveren-munten/page.tsx:73-88 | "-" iff the list is empty; one value iff all values are equal; otherwise a span whose ends are list members bounding every value, low < high; the gold page's copy (app/gouden-munten/page.tsx lines 8-23) is the same function |
| Overview.SpanOrdered | app/zilveren-munten/page.tsx:84-87 | a span of non-negative numbers never shows its ends reversed |
| Overview.Weights | app/zilveren-munten/page.tsx:104 | at most one weight per variant; which ones is `Overview.WeightsMembers` |
| Overview.Contents | app/zilveren-munten/page.tsx:105 | at most one percentage per variant; which ones is `Overview.ContentsMembers` |
| Overview.WeightsMembers | app/zilveren-munten/page.tsx:104 | a weight is listed iff some variant has it |
| Overview.ContentsMembers | app/zilveren-munten/page.tsx:105 | a percentage is listed iff it is some variant's percentage of the metal |
| Overview.PureAmounts | app/zilveren-munten/page.tsx:106-108 | at most one pure amount per variant; which ones is `Overview.PureAmountsMembers` |
| Overview.Priced | app/zilveren-munten/page.tsx:109 | one priced amount per pure amount; its value is `Overview.PricedAt` |
| Overview.PricedAt | app/zilveren-munten/page.tsx:109 | the i-th priced amount is the i-th pure amount times the price |
| Overview.CalculateCoinRanges | app/zilveren-munten/page.tsx:91-117 | with variants, the four columns are ranges over the variants; without, the summary's numbers; without a summary, four dashes; with `Gold` it is the gold page's version (lines 26-52) |
| Overview.PureAmountsMembers | app/gouden-munten/page.tsx:41-43 | an amount is listed iff some variant has a non-zero weight and percentage whose product / 100 it is |
| Overview.ScaleByPositive | app/zilveren-munten/page.tsx:109 | a positive price keeps order and equality |
| Overview.SameOrderSameShape | app/zilveren-munten/page.tsx:73-88 | lists ordered alike element by element show ranges of the same shape with their ends at the same positions |
| Overview.PricedKeepsOrder | app/zilveren-munten/page.tsx:109 | pricing at a positive price keeps the order of the amounts |
| Overview.PricedShape | app/zilveren-munten/page.tsx:114-115 | the value column has the pure column's shape and its ends are the priced ends |
| Overview.ValueColumnFollowsPureColumn | app/gouden-munten/page.tsx:41-50 | with variants, value and pure-gold columns have the same shape, and each value end is the priced amount at a pure end |
| Overview.SummaryWithoutVariants | app/gouden-munten/page.tsx:27-35 | without variants each present number is shown; pure metal and value need a non-zero weight and content |
| Overview.ListedOrderMeaning | app/zilveren-munten/page.tsx:144-148 | listed before unlisted; listed in list order; no say when neither is listed |
| Overview.ListedOrderAntisymmetric | app/gouden-munten/page.tsx:82-86 | swapping the slugs negates the listed order |
| Overview.SummaryOrFirst | app/zilveren-munten/page.tsx:126-127 | the summary's truthy number, else the first variant's truthy number, else 0 |
| Overview.ListedOrder | app/zilveren-munten/page.tsx:144-148 | defines the order-list part of the comparator; `Overview.ListedOrderMeaning` and `Overview.ListedOrderAntisymmetric` state it |
| Overview.PageCompare | app/zilveren-munten/page.tsx:130-150 | defines the cards' comparator; `Overview.SortedByList`, `Overview.UnlistedByName` and `Overview.PageCompareAntisymmetric` state it |
| Overview.CardOf | app/zilveren-munten/page.tsx:122-129 | the card carries the entry's slug, name and the page's year text |
| Overview.OfMetal | app/gouden-munten/page.tsx:69-70 | only database entries of the page's metal |
| Overview.OfMetalMembers | app/zilveren-munten/page.tsx:120-121 | an entry is on the page iff its metal type is the page's |
| Overview.SummaryYears | app/gouden-munten/page.tsx:74 | the summary's years when truthy, else "Diverse jaren" |
| Overview.Cards | app/gouden-munten/page.tsx:69-78 | one card per coin of the metal, in database order, with slug and years |
| Overview.CardsOfMetal | app/zilveren-munten/page.tsx:120-129 | a card for a slug exists iff the database has a coin of the metal under it |
| Overview.SortedByList | app/zilveren-munten/page.tsx:130-150 | in a sorted list no unlisted slug precedes a listed one and listed slugs follow the list |
| Overview.UnlistedByName | app/gouden-munten/page.tsx:87 | two unlisted coins are ordered by name alone |
| Overview.PageCompareAntisymmetric | app/gouden-munten/page.tsx:79-88 | the comparator is antisymmetric when the name order is |
| SilverPage.InWindowYears | app/zilveren-munten/page.tsx:36-41 | only years within 1800..2030 |
| SilverPage.Interval | app/zilveren-munten/page.tsx:50-52 | only years from a to b |
| SilverPage.Expanded | app/zilveren-munten/page.tsx:47-54 | only years within 1800..2030 |
| SilverPage.CollectedYears | app/zilveren-munten/page.tsx:29-57 | only years within 1800..2030 |
| SilverPage.FourDigitYears | app/zilveren-munten/page.tsx:33-42 | the loop yields the window's four-digit numbers the scan finds |
| SilverPage.ExpandRange | app/zilveren-munten/page.tsx:50-52 | the loop yields every year from start to end |
| SilverPage.RangeYears | app/zilveren-munten/page.tsx:45-55 | the loop yields the years of each `dddd-dddd` range in the window |
| SilverPage.CalculateYearRange | app/zilveren-munten/page.tsx:22-70 | the nested loops compute the page's year text as the year-range function defines it |
| SilverPage.YearRange | app/zilveren-munten/page.tsx:22-70 | defines what `calculateYearRange` returns; `SilverPage.CalculateYearRange` is proved equal to it and `SilverPage.YearRangeOutcome` states it |
| SilverPage.YearRangeOutcome | app/zilveren-munten/page.tsx:22-69 | no variants or no year: the summary's years or "Diverse jaren"; otherwise the label of the least and greatest collected year |
| SilverPage.YearLabelRoundTrip | app/zilveren-munten/page.tsx:69 | the label reads back as one year when min = max, else as the two years around a dash |
| SilverPage.InWindowYearsMembers | app/zilveren-munten/page.tsx:38 | a year is kept iff it is a scanned number within the window |
| SilverPage.IntervalMembers | app/zilveren-munten/page.tsx:50 | a year is in the interval iff a <= year <= b |
| SilverPage.ExpandedMembers | app/zilveren-munten/page.tsx:49-51 | a year is expanded iff some in-window range contains it |
| SilverPage.YearsInMembers | app/zilveren-munten/page.tsx:33-55 | a text contributes exactly its in-window four-digit numbers and the years of its in-window ranges |
| SilverPage.FourDigitsFound | app/zilveren-munten/page.tsx:33 | without long digit runs, every four digits the scan passes are found |
| SilverPage.ParseFour | app/zilveren-munten/page.tsx:37 | four digits parse as 1000·d0 + 100·d1 + 10·d2 + d3 |
| SilverPage.RangeMatchPosition | app/zilveren-munten/page.tsx:45 | every range the scan finds sits at a position of the text |
| SilverPage.PlainYears | app/zilveren-munten/page.tsx:33-41 | only years in the window |
| SilverPage.ExpandedBetweenPlain | app/zilveren-munten/page.tsx:33-55 | without long digit runs every year a text contributes lies between two of its in-window four-digit years |
| SilverPage.PlainYearsCollected | app/zilveren-munten/page.tsx:39 | every plain year is collected |
| SilverPage.CollectedWithinPlainBounds | app/zilveren-munten/page.tsx:44-55 | without long digit runs, bounds on the plain years bound all collected years |
| SilverPage.RangeExpansionKeepsYearRange | app/zilveren-munten/page.tsx:44-69 | without long digit runs the expansion does not change the answer |
| SilverPage.LongDigitRunMovesTheStart | app/zilveren-munten/page.tsx:33-55 | in "11819-1837" the first scan keeps only 1837, yet 1819 is collected through the range, so the expansion moves the start |
| GoldPage.Ranges | app/gouden-munten/page.tsx:117-119 | at most one range per variant |
| GoldPage.RangesMembers | app/gouden-munten/page.tsx:117-119 | a range is collected iff some variant carries it |
| GoldPage.NoRangesCarried | app/gouden-munten/page.tsx:121 | no collected range means no variant carries one |
| GoldPage.LowestMin | app/gouden-munten/page.tsx:123 | a lower bound of all minimums that is one of them |
| GoldPage.HighestMax | app/gouden-munten/page.tsx:124 | an upper bound of all maximums that is one of them |
| GoldPage.GetCollectorValueRange | app/gouden-munten/page.tsx:113-127 | `None` iff the slug is unknown, the coin has no variants list, or no variant carries a range |
| GoldPage.CollectorValueRangeCovers | app/gouden-munten/page.tsx:117-126 | the answer covers every variant's range, each end is some variant's end, and min <= max when each range is ordered |
| GoldPage.TwoVariantsExample | app/gouden-munten/page.tsx:113-127 | ranges 10–50 and 20–90 give 10–90; an unknown slug gives `None` |
| HomePage.CoinsFromDatabase | app/page.tsx:30-36 | one coin per entry whose `id` and `slug` are the entry's slug |
| HomePage.HomeCompare | app/page.tsx:37-60 | defines the calculator list's comparator; `HomePage.GoldBeforeSilver`, `HomePage.WithinOneMetal` and `HomePage.SortedCalculatorList` state it |
| HomePage.GoldBeforeSilver | app/page.tsx:55-57 | every gold coin sorts before every silver coin |
| HomePage.WithinOneMetal | app/page.tsx:39-59 | within a metal, listed before unlisted, listed in list order, unlisted by name |
| HomePage.SortedCalculatorList | app/page.tsx:37-60 | in a sorted list no silver precedes gold, and no unlisted slug precedes a listed one of its metal |
| HomePage.CalcVariants | app/page.tsx:68-75 | one calculator variant per variant, in order |
| HomePage.VariantsFromDatabase | app/page.tsx:63-77 | a key exactly for the slugs with a non-empty variants list, holding their variants in order |
| UpdateCoins.CheckCoin | update-coins.js:37-41 | the coin-level messages in check order |
| UpdateCoins.CheckVariant | update-coins.js:45-66 | the messages about one variant in check order |
| UpdateCoins.CheckVariants | update-coins.js:44-67 | the loop gathers every variant's messages in variant order |
| UpdateCoins.ValidateCoin | update-coins.js:34-70 | all messages about the coin |
| UpdateCoins.CoinErrors | update-coins.js:34-70 | defines every message about a coin; `UpdateCoins.ErrorsExplained` and `UpdateCoins.ValidIffWellFormed` state it |
| UpdateCoins.ConcatUpToMembers | update-coins.js:44 | a message comes from one of the variants |
| UpdateCoins.ConcatUpToPrefix | update-coins.js:44 | the messages about fewer variants are no more |
| UpdateCoins.VariantErrorsMembers | update-coins.js:45-66 | a variant's messages are exactly its faults |
| UpdateCoins.FlagsMembers | update-coins.js:45-64 | a message about a variant is reported iff its check fails |
| UpdateCoins.FlagsEmpty | update-coins.js:45-64 | no message about a variant iff all six checks pass |
| UpdateCoins.CoinLevelMembers | update-coins.js:37-41 | the coin-level messages are exactly the coin's own faults |
| UpdateCoins.ReportedVariantFault | update-coins.js:44-67 | every variant message names a real fault |
| UpdateCoins.VariantFaultReported | update-coins.js:44-67 | every variant fault is reported |
| UpdateCoins.ErrorsExplained | update-coins.js:34-70 | a message is reported iff its reason holds |
| UpdateCoins.NoErrorsVariantsWellFormed | update-coins.js:44-67 | a coin without messages has only well-formed variants |
| UpdateCoins.ValidIffWellFormed | update-coins.js:37-66 | a coin is valid iff it has id, name, slug, metal GOLD or SILVER, a non-empty variant list, and every variant passes its checks |
| UpdateCoins.ValidateAll | update-coins.js:74-82 | `hasErrors` iff some coin has a message |
| UpdateCoins.MockVariantOf | update-coins.js:104-111 | the gold percentage iff the coin is GOLD, else the silver one; the range iff truthy |
| UpdateCoins.MockVariants | update-coins.js:104 | one generated variant per variant, in order |
| UpdateCoins.GenerateCalculatorData | update-coins.js:92-115 | one coin per entry in order; variants keyed by exactly the coin ids, the last coin with an id winning |
| UpdateCoins.LaterCoinWins | update-coins.js:104 | with two coins under one id the map holds a later coin's variants |
| UpdateCoins.Selected | update-coins.js:144-145 | at most the database's entries |
| UpdateCoins.SelectedMembers | update-coins.js:145 | an entry is selected iff its metal type is the one asked |
| UpdateCoins.OverviewRows | update-coins.js:146-155 | one row per selected coin, in order |
| UpdateCoins.GenerateOverviewData | update-coins.js:141-158 | rows for exactly the coins of the metal, or the slug of one without `overviewData`, where the script throws |
| UpdateCoins.OverviewRowsExactlyMetal | update-coins.js:141-158 | the list shows exactly the coins of its metal, with the content field named after it |
| UpdateCoins.Run | update-coins.js:72-89 | aborted iff some coin has a message; otherwise both generators run |
| ProcessMunten.DataRows | process-munten.js:8 | everything after the header row |
| ProcessMunten.SlugOf | process-munten.js:20-25 | defines the slug; `ProcessMunten.SlugPrefix`, `ProcessMunten.SlugNameCharacters` and `ProcessMunten.SlugIgnoresCase` state it |
| ProcessMunten.MetalPrefix | process-munten.js:20 | "gouden" iff the metal, lower-cased, is "goud" |
| ProcessMunten.DashWhitespaceRuns | process-munten.js:22 | no white space left, every other character kept |
| ProcessMunten.SkipWhitespace | process-munten.js:22 | the rest after a white-space run starts with a non-space |
| ProcessMunten.DashPunctuation | process-munten.js:23-24 | commas and dots become dashes, nothing else changes |
| ProcessMunten.SlugNameCharacters | process-munten.js:21-24 | the name part of a slug has no white space, comma, dot or upper-case letter |
| ProcessMunten.SlugIgnoresCase | process-munten.js:21 | case in the name does not change the slug |
| ProcessMunten.SlugPrefix | process-munten.js:20-25 | the slug starts with "gouden-" iff the metal is gold in lower case |
| ProcessMunten.MetalTypeOf | process-munten.js:33 | GOLD or SILVER |
| ProcessMunten.LowerGoudIffUpperGoud | process-munten.js:20-33 | the lower-case and upper-case tests of the metal agree |
| ProcessMunten.NameAsWritten | process-munten.js:31 | defines the name as the script writes it; `ProcessMunten.NameAsWrittenDisagrees` shows where it goes wrong |
| ProcessMunten.CoinName | process-munten.js:31 | defines the corrected name the model builds coins with; `ProcessMunten.NamePrefix` and `ProcessMunten.CoinNameAgrees` state it |
| ProcessMunten.CorrectionOnlyForOtherCase | process-munten.js:20-33 | the corrected name differs from the name as written iff the metal is gold in some spelling other than "Goud" |
| ProcessMunten.NamePrefix | process-munten.js:31 | the corrected name starts with "Gouden " iff the metal is gold |
| ProcessMunten.CoinNameAgrees | process-munten.js:20-33 | in the corrected coin, name, slug and metal type agree on the metal |
| ProcessMunten.LowerCaseGoud | process-munten.js:20-33 | "goud" is gold for the slug and the metal type |
| ProcessMunten.NameAsWrittenDisagrees | process-munten.js:20-33 | as written, a "goud" row becomes a gold coin with a gouden- slug named "Zilveren …" |
| ProcessMunten.NameAsWrittenOfGoudRow | process-munten.js:31 | the name as written for "goud" is "Zilveren Tientje" |
| ProcessMunten.CorrectedNameOfGoudRow | process-munten.js:31 | the corrected name for "goud" is "Gouden Tientje" |
| ProcessMunten.WeightValue | process-munten.js:41-46 | 0 for an empty cell, the number itself, or the text with a decimal comma read as a point |
| ProcessMunten.MetalPercentage | process-munten.js:49-53 | defines the percentage from the fineness; `ProcessMunten.MetalPercentageRounding` states it |
| ProcessMunten.VariantOf | process-munten.js:56-64 | defines a row's variant; `ProcessMunten.VariantsOf` and `ProcessMunten.GroupedCoin` state how variants are collected |
| ProcessMunten.MetalPercentageRounding | process-munten.js:49-61 | the fineness in thousandths as a percentage to one decimal, within half a tenth; 0 when missing |
| ProcessMunten.NewCoin | process-munten.js:28-36 | the first row fixes id, slug, the corrected name (`ProcessMunten.CoinName`) and the metal type, with no variants yet |
| ProcessMunten.Values | process-munten.js:70 | one coin per key of the insertion order |
| ProcessMunten.GroupedWellKept | process-munten.js:11-67 | the key order lists exactly the keys of the coin map, each once |
| ProcessMunten.RowsFor | process-munten.js:14-66 | only kept rows of that slug |
| ProcessMunten.VariantsOf | process-munten.js:56-66 | one variant per row, in order |
| ProcessMunten.StepKeepsOthers | process-munten.js:66 | a row leaves other slugs' coins alone |
| ProcessMunten.StepAppends | process-munten.js:28-66 | a kept row appends its variant, creating its coin when new |
| ProcessMunten.Grouped | process-munten.js:14-67 | defines the grouping after a prefix of the rows; `ProcessMunten.GroupedCoin`, `ProcessMunten.GroupedWellKept`, `ProcessMunten.StepAppends` and `ProcessMunten.StepKeepsOthers` state it |
| ProcessMunten.GroupedCoin | process-munten.js:14-67 | a slug has a coin iff some kept row has it; the first such row fixes the coin, with the corrected name, and the variants are its rows' in order |
| ProcessMunten.GroupRows | process-munten.js:14-67 | the row loop builds exactly the grouping function's result, with corrected names |
| ProcessMunten.ProcessRows | process-munten.js:8-70 | the header skipped, the rows grouped with corrected names, and the coins listed in insertion order |
| ProcessMunten.ProcessCompareMeaning | process-munten.js:70-76 | gold before silver in both argument orders; one metal by name |
| ProcessMunten.SortedGoldFirst | process-munten.js:70-76 | in a sorted list no silver coin precedes a gold one |

## Left out

- Network, file system, `process.env`, console output and the clock are parameters or
  absent. The upstream answer is an `Option<ApiResponse>`, where `None` stands for a
  failed request, the 15 s timeout or a body that is not JSON. The file cache is a
  field of `PriceService`.
- Concurrent `getPrices` calls and their race are not modelled; every call runs alone.
- ISO-8601 text (`toISOString`, `split('T')[0]`) is not modelled. Dates are
  millisecond timestamps and UTC day numbers. Only the `RangeError` of an
  unrepresentable date is kept.
- IEEE-754 arithmetic is not modelled. `toFixed` is exact decimal rounding of a real,
  and `parseFloat` is a parameter. `Intl.NumberFormat` and the formatted text of a
  range (`"a - b"`) are left out: `Overview.Shown` and `Overview.Printed` carry the
  numbers before and after `toFixed`.
- `localeCompare` is a parameter of every comparator. `Array.prototype.sort` itself is
  not modelled: the lemmas state what holds for any list the comparator accepts as
  sorted.
- Case mapping covers ASCII only (`Js.ToUpper`, `Js.ToLower`), and white space is the
  set JavaScript's `\s` matches.
- Strings are sequences of code points, while JavaScript's `length`, `slice` and case
  mapping count UTF-16 units. For text outside the Basic Multilingual Plane,
  `Calculate.SanitiseId` and `CoinsApi.Sanitise` cut at a different place than the
  source.
- One `clock` or `later` reading stands for all the `Date.now()` calls a request makes.
  The "yesterday" of `getLastKnownPrices` is the previous UTC day, not the server's
  local day.
- Prices.FetchFailsIff: a `rates` object without `EURXAU` or `EURXAG` is not modelled.
  The source then succeeds with NaN prices and caches them for 24 hours.
- Prices.ConversionPrecision: holds for responses that carry both rates. The NaN
  prices of a missing rate are outside it, as the line above says.
- ProcessMunten.NewCoin: names a coin with the corrected `ProcessMunten.CoinName`, so
  `ProcessMunten.GroupRows` and `ProcessMunten.ProcessRows` do too. The script's own
  name (`ProcessMunten.NameAsWritten`) differs only for a gold metal cell spelled other
  than "Goud" (`ProcessMunten.CorrectionOnlyForOtherCase`); see the finding below.
- SilverPage.CalculateYearRange: the de-duplicated, sorted copy of the years is not
  built, because only its minimum and maximum are used and those do not change.
- SilverPage.RangeExpansionKeepsYearRange: proved only for texts without a run of five
  or more digits. With such a run the expansion can change the answer, as
  `SilverPage.LongDigitRunMovesTheStart` shows.
- Overview.ValueColumnFollowsPureColumn: states which variant's amount sits at each end
  of the value column, not the printed text of the product.
- GoldPage.GetCollectorValueRange: a `collectorsValueRange` of `null` counts as absent.
  The source's `!== undefined` filter would keep it, and reading `range.min` would then
  throw.
- update-coins.js lines 160-249 (rewriting the page sources with regular
  expressions), `generateDetailedPageData` (feeding only that rewriting) and the
  statistics printed at the end are not modelled.
- UpdateCoins: `weight`, `goldPercentage` and `silverPercentage` are `Option<real>`.
  JavaScript coercion of non-numeric values in `<= 0` is not modelled. Map keys are
  `Json` values, so a numeric id 1 and the text "1", which JavaScript would merge as
  keys, stay apart.
- ProcessMunten: `muntjaren` is text or a whole number, and `gewicht` is text or a
  number. Other cell types of the spreadsheet export are not modelled. The `uniqueCoins`
  set only feeds a console count and is left out.
- The mock catalogues of the calculate and coins routes are not part of the model. The
  catalogue is a parameter.
- `calculateGoldValue` and `legacyGoldenCoinsData` on the gold page are unused by the
  page's logic and are left out, as are the React components of all pages.

## Findings

| source | as written | input that shows it | evidently intended | confidence | as-written member | corrected member |
|---|---|---|---|---|---|---|
| process-munten.js:31 | the name gets "Gouden" only when the metal cell is exactly "Goud", while the slug (line 20) and the metal type (line 33) ignore case | a row with metal cell "goud" and coin name "Tientje" gets slug "gouden-tientje" and metal type GOLD, but the name "Zilveren Tientje" | the name's metal word agrees with the slug and the metal type: "Gouden Tientje" | not executed; high, since the row is plain data from a spreadsheet export | ProcessMunten.NameAsWrittenDisagrees | ProcessMunten.CoinNameAgrees |
