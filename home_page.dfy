/** The home page (app/page.tsx): the coin list of the calculator, sorted gold first and
    by the two metals' preferred orders, and the calculator's variants per slug. */
module HomePage {
  import opened Js
  import opened CoinDb
  import opened Overview

  const SILVER_COIN_ORDER: seq<string> := [
    "zilveren-tientje", "zilveren-rijksdaalder", "zilveren-gulden", "zilveren-vijftig-gulden",
    "zilveren-drie-gulden", "zilveren-halve-gulden", "zilveren-dukaat", "zilveren-kwartje",
    "zilveren-tien-cent", "zilveren-vijf-cent"]

  const GOLD_COIN_ORDER: seq<string> := [
    "gouden-tientje", "gouden-vijfje", "gouden-gulden", "gouden-twintig-gulden",
    "gouden-dukaat", "gouden-dubbele-dukaat"]

  /** A coin of the calculator's list. */
  datatype CalcCoin = CalcCoin(id: string, name: string, slug: string, metalType: string)

  /** A variant as the calculator receives it. */
  datatype CalcVariant = CalcVariant(
    id: string,
    years: Option<string>,
    name: string,
    weight: Option<real>,
    goldPercentage: Option<real>,
    silverPercentage: Option<real>)

  /** `coinsFromDatabase` before sorting: one coin per entry, identified by its slug. */
  function CoinsFromDatabase(db: seq<Entry>): (coins: seq<CalcCoin>)
    ensures |coins| == |db|
    ensures forall i | 0 <= i < |coins| ::
      coins[i].id == db[i].slug && coins[i].slug == db[i].slug
      && coins[i].name == db[i].coin.name && coins[i].metalType == db[i].coin.metalType
  {
    if |db| == 0 then []
    else [CalcCoin(db[0].slug, db[0].coin.name, db[0].slug, db[0].coin.metalType)] + CoinsFromDatabase(db[1..])
  }

  /** The list order of two slugs of the same metal, when either is listed. */
  function SameMetalOrder(a: CalcCoin, b: CalcCoin): Option<int> {
    if a.metalType == SILVER && b.metalType == SILVER then ListedOrder(SILVER_COIN_ORDER, a.slug, b.slug)
    else if a.metalType == GOLD && b.metalType == GOLD then ListedOrder(GOLD_COIN_ORDER, a.slug, b.slug)
    else None
  }

  /** The comparator of `coinsFromDatabase.sort`; `localeCompare` is a parameter. */
  function HomeCompare(a: CalcCoin, b: CalcCoin, localeCompare: (string, string) -> int): int {
    var listed := SameMetalOrder(a, b);
    if listed.Some? then listed.value
    else if a.metalType == GOLD && b.metalType == SILVER then -1
    else if a.metalType == SILVER && b.metalType == GOLD then 1
    else localeCompare(a.name, b.name)
  }

  /** The order list of a metal, if it has one. */
  function OrderOf(metalType: string): seq<string> {
    if metalType == GOLD then GOLD_COIN_ORDER
    else if metalType == SILVER then SILVER_COIN_ORDER
    else []
  }

  /** Every gold coin sorts before every silver coin, whatever their names and slugs. */
  lemma GoldBeforeSilver(a: CalcCoin, b: CalcCoin, localeCompare: (string, string) -> int)
    requires a.metalType == GOLD && b.metalType == SILVER
    ensures HomeCompare(a, b, localeCompare) < 0 && HomeCompare(b, a, localeCompare) > 0
  {
  }

  /** Within one metal, a listed slug sorts before an unlisted one, listed slugs follow
      the list, and two unlisted coins are ordered by name. */
  lemma WithinOneMetal(a: CalcCoin, b: CalcCoin, localeCompare: (string, string) -> int)
    requires a.metalType == b.metalType
    ensures var order := OrderOf(a.metalType);
      && (a.slug in order && b.slug !in order ==> HomeCompare(a, b, localeCompare) < 0)
      && (a.slug !in order && b.slug in order ==> HomeCompare(a, b, localeCompare) > 0)
      && (a.slug in order && b.slug in order ==>
            (HomeCompare(a, b, localeCompare) < 0 <==> FirstIndex(order, a.slug) < FirstIndex(order, b.slug)))
      && (a.slug !in order && b.slug !in order ==> HomeCompare(a, b, localeCompare) == localeCompare(a.name, b.name))
  {
    ListedOrderMeaning(OrderOf(a.metalType), a.slug, b.slug);
  }

  /** In a list sorted by the comparator no silver coin precedes a gold coin, and within
      each metal no unlisted slug precedes a listed one. */
  lemma SortedCalculatorList(coins: seq<CalcCoin>, localeCompare: (string, string) -> int)
    requires forall i, j | 0 <= i < j < |coins| :: HomeCompare(coins[i], coins[j], localeCompare) <= 0
    ensures forall i, j | 0 <= i < j < |coins| :: !(coins[i].metalType == SILVER && coins[j].metalType == GOLD)
    ensures forall i, j | 0 <= i < j < |coins| && coins[i].metalType == coins[j].metalType ::
      !(coins[i].slug !in OrderOf(coins[i].metalType) && coins[j].slug in OrderOf(coins[i].metalType))
  {
    forall i, j | 0 <= i < j < |coins|
      ensures !(coins[i].metalType == SILVER && coins[j].metalType == GOLD)
      ensures coins[i].metalType == coins[j].metalType ==>
        !(coins[i].slug !in OrderOf(coins[i].metalType) && coins[j].slug in OrderOf(coins[i].metalType))
    {
      if coins[i].metalType == SILVER && coins[j].metalType == GOLD {
        GoldBeforeSilver(coins[j], coins[i], localeCompare);
      }
      if coins[i].metalType == coins[j].metalType {
        WithinOneMetal(coins[i], coins[j], localeCompare);
      }
    }
  }

  /** `coin.variants && coin.variants.length > 0`. */
  predicate HasVariants(coin: DbCoin) {
    coin.variants.Some? && |coin.variants.value| > 0
  }

  function CalcVariantOf(v: DbVariant): CalcVariant {
    CalcVariant(v.id, v.years, v.name, v.weight, v.goldPercentage, v.silverPercentage)
  }

  /** `coin.variants.map(...)`: one calculator variant per variant, in order. */
  function CalcVariants(vs: seq<DbVariant>): (r: seq<CalcVariant>)
    ensures |r| == |vs|
    ensures forall j | 0 <= j < |vs| :: r[j] == CalcVariantOf(vs[j])
  {
    seq(|vs|, j requires 0 <= j < |vs| => CalcVariantOf(vs[j]))
  }

  /** The `forEach` that fills `variantsFromDatabase`: an entry exactly for the slugs
      whose coin has a non-empty variants list, holding those variants in order. */
  method VariantsFromDatabase(db: Database) returns (bySlug: map<string, seq<CalcVariant>>)
    ensures forall slug :: slug in bySlug <==> exists i | 0 <= i < |db| :: db[i].slug == slug && HasVariants(db[i].coin)
    ensures forall i | 0 <= i < |db| && HasVariants(db[i].coin) ::
      bySlug[db[i].slug] == CalcVariants(db[i].coin.variants.value)
  {
    bySlug := map[];
    for i := 0 to |db|
      invariant forall slug :: slug in bySlug <==> exists k | 0 <= k < i :: db[k].slug == slug && HasVariants(db[k].coin)
      invariant forall k | 0 <= k < i && HasVariants(db[k].coin) ::
        bySlug[db[k].slug] == CalcVariants(db[k].coin.variants.value)
    {
      var slug := db[i].slug;
      var coin := db[i].coin;
      if coin.variants.Some? && |coin.variants.value| > 0 {
        bySlug := bySlug[slug := CalcVariants(coin.variants.value)];
      }
    }
  }
}
