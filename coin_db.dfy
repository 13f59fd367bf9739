/** The coins database (coins-database.json) as the overview pages and the home page
    import it: an object from slug to coin record, kept here as its list of entries in
    `Object.entries` order. */
module CoinDb {
  import opened Js

  /** A variant's `collectorsValueRange`. */
  datatype ValueRange = ValueRange(min: real, max: real)

  /** A variant record; a number that is absent or `null` is `None`. */
  datatype DbVariant = DbVariant(
    id: string,
    name: string,
    years: Option<string>,
    weight: Option<real>,
    goldPercentage: Option<real>,
    silverPercentage: Option<real>,
    collectorsValueRange: Option<ValueRange>)

  /** A coin's `overviewData`, the hand-written summary shown when it has no variants. */
  datatype Overview = Overview(
    years: Option<string>,
    weight: Option<real>,
    metalContent: Option<real>,
    description: Option<string>)

  datatype DbCoin = DbCoin(
    id: string,
    name: string,
    slug: string,
    metalType: string,
    variants: Option<seq<DbVariant>>,
    overviewData: Option<Overview>)

  datatype Entry = Entry(slug: string, coin: DbCoin)

  /** Object keys are unique. */
  predicate DistinctSlugs(entries: seq<Entry>) {
    forall i, j :: 0 <= i < j < |entries| ==> entries[i].slug != entries[j].slug
  }

  type Database = entries: seq<Entry> | DistinctSlugs(entries) witness []

  /** The metal whose percentage a page reads. */
  datatype Metal = Gold | Silver

  const GOLD: string := "GOLD"
  const SILVER: string := "SILVER"

  function MetalTypeName(m: Metal): string {
    if m == Gold then GOLD else SILVER
  }

  /** `v.goldPercentage` or `v.silverPercentage`. */
  function Percentage(v: DbVariant, m: Metal): Option<real> {
    if m == Gold then v.goldPercentage else v.silverPercentage
  }

  /** `coinsDatabase.coins[slug]`. */
  function Lookup(db: Database, slug: string): (r: Option<DbCoin>)
    ensures r.None? <==> forall i | 0 <= i < |db| :: db[i].slug != slug
    ensures r.Some? ==> exists i | 0 <= i < |db| :: db[i] == Entry(slug, r.value)
  {
    if |db| == 0 then None
    else if db[0].slug == slug then Some(db[0].coin)
    else
      var rest: Database := db[1..];
      Lookup(rest, slug)
  }

  /** The only entry with a given slug is the one `Lookup` finds. */
  lemma LookupEntry(db: Database, i: int)
    requires 0 <= i < |db|
    ensures Lookup(db, db[i].slug) == Some(db[i].coin)
  {
  }
}
