/** What the gold and silver overview pages (app/gouden-munten/page.tsx and
    app/zilveren-munten/page.tsx) compute alike: the rendering of a list of numbers as a
    range, the per-coin weight / content / pure metal / value ranges, and the
    "listed slugs first" ordering. The two pages carry identical copies of
    `calculateRange`; `calculateCoinRanges` and `calculateGoldCoinRanges` differ only in
    which percentage they read, which is the `Metal` parameter here. */
module Overview {
  import opened Js
  import opened CoinDb

  /** A range as a card shows it: `'-'`, one value, or `"low - high"`. The numbers
      are those handed to the formatter; `Printed` rounds them as `toFixed` does. */
  datatype Shown = Dash | One(value: real) | Span(low: real, high: real)

  /** The numbers of a shown range after `toFixed(digits)`. */
  function Printed(s: Shown, digits: nat): Shown {
    match s
    case Dash => Dash
    case One(v) => One(ToFixed(v, digits))
    case Span(lo, hi) => Span(ToFixed(lo, digits), ToFixed(hi, digits))
  }

  /** The digits each column is printed with: weight and pure metal 3, content 1,
      value 2. */
  const WEIGHT_DIGITS: nat := 3
  const CONTENT_DIGITS: nat := 1
  const PURE_DIGITS: nat := 3
  const VALUE_DIGITS: nat := 2

  /** `calculateRange(values, formatter)`, before formatting. */
  function CalculateRange(values: seq<real>): (r: Shown)
    ensures r.Dash? <==> |values| == 0
    ensures r.One? <==> |values| > 0 && forall i | 0 <= i < |values| :: values[i] == values[0]
    ensures r.One? ==> r.value == values[0]
    ensures r.Span? ==> (r.low < r.high && r.low in values && r.high in values
      && forall i | 0 <= i < |values| :: r.low <= values[i] <= r.high)
  {
    if |values| == 0 then Dash
    else if |values| == 1 then One(values[0])
    else
      var lo := MinReal(values);
      var hi := MaxReal(values);
      assert values[0] in values;
      if lo == hi then
        assert forall i | 0 <= i < |values| :: values[i] == values[0] by {
          forall i | 0 <= i < |values| ensures values[i] == values[0] {
            assert values[i] in values;
          }
        }
        One(lo)
      else
        assert forall i | 0 <= i < |values| :: lo <= values[i] <= hi by {
          forall i | 0 <= i < |values| ensures lo <= values[i] <= hi {
            assert values[i] in values;
          }
        }
        Span(lo, hi)
  }

  /** A span of non-negative numbers never shows its ends reversed; the two ends may
      look alike after rounding. */
  lemma SpanOrdered(values: seq<real>, digits: nat)
    requires forall i | 0 <= i < |values| :: 0.0 <= values[i]
    requires CalculateRange(values).Span?
    ensures Printed(CalculateRange(values), digits).low <= Printed(CalculateRange(values), digits).high
  {
    var r := CalculateRange(values);
    var k :| 0 <= k < |values| && values[k] == r.low;
    ToFixedMonotone(r.low, r.high, digits);
  }

  // ------------------------------------------------------------------ per-coin ranges

  /** `v.weight && v.<metal>Percentage`: both present and non-zero. */
  predicate HasBoth(v: DbVariant, m: Metal) {
    PresentReal(v.weight) && PresentReal(Percentage(v, m))
  }

  /** `(v.weight * v.<metal>Percentage) / 100`. */
  function PureOf(v: DbVariant, m: Metal): real
    requires HasBoth(v, m)
  {
    v.weight.value * Percentage(v, m).value / 100.0
  }

  /** The weights that are not null, in variant order. */
  function Weights(vs: seq<DbVariant>): (r: seq<real>)
    ensures |r| <= |vs|
    ensures forall x | x in r :: exists v | v in vs :: v.weight == Some(x)
  {
    if |vs| == 0 then []
    else (if vs[0].weight.Some? then [vs[0].weight.value] else []) + Weights(vs[1..])
  }

  /** The percentages of metal `m` that are not null, in variant order. */
  function Contents(vs: seq<DbVariant>, m: Metal): (r: seq<real>)
    ensures |r| <= |vs|
    ensures forall x | x in r :: exists v | v in vs :: Percentage(v, m) == Some(x)
  {
    if |vs| == 0 then []
    else (if Percentage(vs[0], m).Some? then [Percentage(vs[0], m).value] else []) + Contents(vs[1..], m)
  }

  /** The pure-metal weights of the variants that have both a weight and a percentage. */
  function PureAmounts(vs: seq<DbVariant>, m: Metal): (r: seq<real>)
    ensures |r| <= |vs|
  {
    if |vs| == 0 then []
    else (if HasBoth(vs[0], m) then [PureOf(vs[0], m)] else []) + PureAmounts(vs[1..], m)
  }

  /** `pures.map(p => p * price)`. */
  function Priced(pures: seq<real>, price: real): (r: seq<real>)
    ensures |r| == |pures|
  {
    if |pures| == 0 then [] else [pures[0] * price] + Priced(pures[1..], price)
  }

  lemma {:induction false} PricedAt(pures: seq<real>, price: real, i: int)
    requires 0 <= i < |pures|
    ensures Priced(pures, price)[i] == pures[i] * price
  {
    if i > 0 {
      PricedAt(pures[1..], price, i - 1);
    }
  }

  /** The four columns of an overview card. */
  datatype CoinRanges = CoinRanges(weight: Shown, content: Shown, pure: Shown, value: Shown)

  /** `overviewData?.x?.toFixed(d) || '-'`: any present number, zero included, is shown. */
  function ShownIfPresent(x: Option<real>): Shown {
    if x.Some? then One(x.value) else Dash
  }

  /** The card of a coin without variants, from its hand-written summary. */
  function SummaryRanges(o: Overview, price: real): CoinRanges {
    var both := PresentReal(o.weight) && PresentReal(o.metalContent);
    CoinRanges(
      ShownIfPresent(o.weight),
      ShownIfPresent(o.metalContent),
      if both then One(o.weight.value * o.metalContent.value / 100.0) else Dash,
      if both then One(o.weight.value * o.metalContent.value / 100.0 * price) else Dash)
  }

  /** The card of a coin with variants: each column is the range over its variants. */
  function VariantRanges(vs: seq<DbVariant>, m: Metal, price: real): CoinRanges {
    var pures := PureAmounts(vs, m);
    CoinRanges(
      CalculateRange(Weights(vs)),
      CalculateRange(Contents(vs, m)),
      CalculateRange(pures),
      CalculateRange(Priced(pures, price)))
  }

  /** `calculateCoinRanges(coin, price)` (silver) and `calculateGoldCoinRanges(coin, price)`. */
  function CalculateCoinRanges(coin: DbCoin, m: Metal, price: real): (r: CoinRanges)
    ensures coin.variants.Some? && |coin.variants.value| > 0 ==> r == VariantRanges(coin.variants.value, m, price)
    ensures (coin.variants.None? || |coin.variants.value| == 0) && coin.overviewData.Some?
            ==> r == SummaryRanges(coin.overviewData.value, price)
    ensures (coin.variants.None? || |coin.variants.value| == 0) && coin.overviewData.None?
            ==> r == CoinRanges(Dash, Dash, Dash, Dash)
  {
    if coin.variants.None? || |coin.variants.value| == 0 then
      SummaryRanges(if coin.overviewData.Some? then coin.overviewData.value else Overview(None, None, None, None), price)
    else
      VariantRanges(coin.variants.value, m, price)
  }

  /** A weight is listed exactly when some variant carries it: the weight column
      ranges over every weight that is not null. */
  lemma {:induction false} WeightsMembers(vs: seq<DbVariant>, x: real)
    ensures x in Weights(vs) <==> exists v | v in vs :: v.weight == Some(x)
  {
    if |vs| > 0 {
      WeightsMembers(vs[1..], x);
      assert vs == [vs[0]] + vs[1..];
      if exists v | v in vs :: v.weight == Some(x) {
        var v :| v in vs && v.weight == Some(x);
        if v != vs[0] {
          assert v in vs[1..];
        }
      }
    }
  }

  /** A percentage of the metal is listed exactly when some variant carries it: the
      content column ranges over every percentage that is not null. */
  lemma {:induction false} ContentsMembers(vs: seq<DbVariant>, m: Metal, x: real)
    ensures x in Contents(vs, m) <==> exists v | v in vs :: Percentage(v, m) == Some(x)
  {
    if |vs| > 0 {
      ContentsMembers(vs[1..], m, x);
      assert vs == [vs[0]] + vs[1..];
      if exists v | v in vs :: Percentage(v, m) == Some(x) {
        var v :| v in vs && Percentage(v, m) == Some(x);
        if v != vs[0] {
          assert v in vs[1..];
        }
      }
    }
  }

  /** A pure-metal amount is listed exactly for each variant having both a non-zero
      weight and a non-zero percentage, as that variant's weight times percentage. */
  lemma {:induction false} PureAmountsMembers(vs: seq<DbVariant>, m: Metal, x: real)
    ensures x in PureAmounts(vs, m) <==> exists v | v in vs :: HasBoth(v, m) && x == PureOf(v, m)
  {
    if |vs| > 0 {
      PureAmountsMembers(vs[1..], m, x);
      assert vs == [vs[0]] + vs[1..];
      if x in PureAmounts(vs[1..], m) {
        var v :| v in vs[1..] && HasBoth(v, m) && x == PureOf(v, m);
        assert v in vs;
      }
      if exists v | v in vs :: HasBoth(v, m) && x == PureOf(v, m) {
        var v :| v in vs && HasBoth(v, m) && x == PureOf(v, m);
        if v != vs[0] {
          assert v in vs[1..];
        }
      }
    }
  }

  /** Multiplying by a positive price keeps order and equality. */
  lemma ScaleByPositive(x: real, y: real, price: real)
    requires price > 0.0
    ensures x <= y <==> x * price <= y * price
    ensures x == y <==> x * price == y * price
  {
    if x * price <= y * price {
      assert (y - x) * price >= 0.0;
    }
    if x * price == y * price {
      assert (y - x) * price == 0.0;
    }
  }

  /** Two lists ordered alike element by element show ranges of the same shape, whose
      ends sit at the same positions. */
  lemma SameOrderSameShape(xs: seq<real>, ys: seq<real>)
    requires |xs| == |ys|
    requires forall i, j | 0 <= i < |xs| && 0 <= j < |xs| :: xs[i] <= xs[j] <==> ys[i] <= ys[j]
    ensures var rx := CalculateRange(xs);
      var ry := CalculateRange(ys);
      && (rx.Dash? <==> ry.Dash?)
      && (rx.One? <==> ry.One?)
      && (ry.Span? ==> (rx.Span?
            && (forall a | 0 <= a < |xs| && xs[a] == rx.low :: ys[a] == ry.low)
            && (forall b | 0 <= b < |xs| && xs[b] == rx.high :: ys[b] == ry.high)))
  {
    var rx := CalculateRange(xs);
    var ry := CalculateRange(ys);
    if |xs| > 0 {
      assert forall i | 0 <= i < |xs| :: xs[i] == xs[0] <==> ys[i] == ys[0] by {
        forall i | 0 <= i < |xs| ensures xs[i] == xs[0] <==> ys[i] == ys[0] {
          assert xs[i] <= xs[0] <==> ys[i] <= ys[0];
          assert xs[0] <= xs[i] <==> ys[0] <= ys[i];
        }
      }
      if ry.Span? {
        var k :| 0 <= k < |xs| && xs[k] == rx.low;
        var l :| 0 <= l < |xs| && xs[l] == rx.high;
        var a :| 0 <= a < |ys| && ys[a] == ry.low;
        var b :| 0 <= b < |ys| && ys[b] == ry.high;
        assert ys[a] <= ys[k] && ys[l] <= ys[b];
        assert xs[a] <= xs[k] && xs[l] <= xs[b];
        forall c | 0 <= c < |xs| && xs[c] == rx.low
          ensures ys[c] == ry.low
        {
          assert xs[c] <= xs[a] && xs[a] <= xs[c];
        }
        forall c | 0 <= c < |xs| && xs[c] == rx.high
          ensures ys[c] == ry.high
        {
          assert xs[c] <= xs[b] && xs[b] <= xs[c];
        }
      }
    }
  }

  /** Pricing at a positive price keeps the order of the amounts. */
  lemma PricedKeepsOrder(pures: seq<real>, price: real)
    requires price > 0.0
    ensures forall i, j | 0 <= i < |pures| && 0 <= j < |pures| ::
      pures[i] <= pures[j] <==> Priced(pures, price)[i] <= Priced(pures, price)[j]
  {
    forall i, j | 0 <= i < |pures| && 0 <= j < |pures|
      ensures pures[i] <= pures[j] <==> Priced(pures, price)[i] <= Priced(pures, price)[j]
    {
      PricedAt(pures, price, i);
      PricedAt(pures, price, j);
      ScaledPair(pures[i], pures[j], Priced(pures, price)[i], Priced(pures, price)[j], price);
    }
  }

  /** Two amounts and their prices at a positive price compare alike. */
  lemma ScaledPair(x: real, y: real, px: real, py: real, price: real)
    requires price > 0.0 && px == x * price && py == y * price
    ensures x <= y <==> px <= py
  {
    ScaleByPositive(x, y, price);
  }

  /** At a positive price the priced amounts show a range of the same shape, whose ends
      are the priced ends of the amounts' range. */
  lemma PricedShape(pures: seq<real>, price: real)
    requires price > 0.0
    ensures var rp := CalculateRange(pures);
      var rv := CalculateRange(Priced(pures, price));
      && (rp.Dash? <==> rv.Dash?)
      && (rp.One? <==> rv.One?)
      && (rv.Span? ==> (rp.Span?
            && (forall a | 0 <= a < |pures| && pures[a] == rp.low :: Priced(pures, price)[a] == rv.low)
            && (forall b | 0 <= b < |pures| && pures[b] == rp.high :: Priced(pures, price)[b] == rv.high)))
  {
    PricedKeepsOrder(pures, price);
    SameOrderSameShape(pures, Priced(pures, price));
  }

  /** With variants, the value column has the shape of the pure-metal column, and at
      each end it shows the priced amount of a variant at that end of the pure-metal
      column. */
  lemma ValueColumnFollowsPureColumn(vs: seq<DbVariant>, m: Metal, price: real)
    requires price > 0.0
    ensures var r := VariantRanges(vs, m, price);
      var pures := PureAmounts(vs, m);
      && (r.pure.Dash? <==> r.value.Dash?)
      && (r.pure.One? <==> r.value.One?)
      && (r.value.Span? ==> (r.pure.Span?
            && (forall a | 0 <= a < |pures| && pures[a] == r.pure.low :: Priced(pures, price)[a] == r.value.low)
            && (forall b | 0 <= b < |pures| && pures[b] == r.pure.high :: Priced(pures, price)[b] == r.value.high)))
  {
    PricedShape(PureAmounts(vs, m), price);
  }

  /** Without variants the hand-written summary is shown: each number that is present
      is shown, while pure metal and value need a non-zero weight and content. */
  lemma SummaryWithoutVariants(o: Overview, price: real)
    ensures var r := SummaryRanges(o, price);
      && (r.weight.One? <==> o.weight.Some?)
      && (r.content.One? <==> o.metalContent.Some?)
      && (r.pure.One? <==> PresentReal(o.weight) && PresentReal(o.metalContent))
      && (r.value.One? <==> r.pure.One?)
      && (r.pure.One? ==> r.pure.value == o.weight.value * o.metalContent.value / 100.0
                          && r.value.value == r.pure.value * price)
      && !r.weight.Span? && !r.content.Span? && !r.pure.Span? && !r.value.Span?
  {
  }

  // ------------------------------------------------------------------ listed order

  /** The part of the page comparators that ranks slugs by a fixed list:
      `Some(aIndex - bIndex)`, `Some(-1)`, `Some(1)`, or `None` when neither is listed. */
  function ListedOrder(order: seq<string>, a: string, b: string): Option<int> {
    var ai := FirstIndex(order, a);
    var bi := FirstIndex(order, b);
    if ai != -1 && bi != -1 then Some(ai - bi)
    else if ai != -1 then Some(-1)
    else if bi != -1 then Some(1)
    else None
  }

  /** A listed slug sorts before an unlisted one, listed slugs sort in list order, and
      the list has no say when neither is listed. */
  lemma ListedOrderMeaning(order: seq<string>, a: string, b: string)
    ensures ListedOrder(order, a, b).None? <==> a !in order && b !in order
    ensures a in order && b !in order ==> ListedOrder(order, a, b).value < 0
    ensures a !in order && b in order ==> ListedOrder(order, a, b).value > 0
    ensures a in order && b in order ==>
      (ListedOrder(order, a, b).value < 0 <==> FirstIndex(order, a) < FirstIndex(order, b))
    ensures a in order && b in order ==> (ListedOrder(order, a, b).value == 0 <==> a == b)
  {
  }

  /** Swapping the arguments negates the listed order. */
  lemma ListedOrderAntisymmetric(order: seq<string>, a: string, b: string)
    ensures ListedOrder(order, a, b).Some? ==> ListedOrder(order, b, a) == Some(-ListedOrder(order, a, b).value)
  {
  }

  // ------------------------------------------------------------------ cards

  /** One card of an overview page, before sorting. */
  datatype Card = Card(slug: string, name: string, years: string, weight: real, content: real,
                       description: string)

  /** `overviewData?.x || variants?.[0]?.y || 0` for a number. */
  function SummaryOrFirst(fromSummary: Option<real>, variants: Option<seq<DbVariant>>,
                          fromVariant: Option<real>): (r: real)
    ensures PresentReal(fromSummary) ==> r == fromSummary.value
    ensures !PresentReal(fromSummary) && variants.Some? && |variants.value| > 0 && PresentReal(fromVariant)
            ==> r == fromVariant.value
    ensures !PresentReal(fromSummary) && !PresentReal(fromVariant) ==> r == 0.0
  {
    if PresentReal(fromSummary) then fromSummary.value
    else if variants.Some? && |variants.value| > 0 && PresentReal(fromVariant) then fromVariant.value
    else 0.0
  }

  /** The first variant's number, when there is a first variant. */
  function FirstVariant(variants: Option<seq<DbVariant>>, field: DbVariant -> Option<real>): Option<real> {
    if variants.Some? && |variants.value| > 0 then field(variants.value[0]) else None
  }

  const DESCRIPTION_SUFFIX: string := " uit de Nederlandse muntgeschiedenis"

  /** The card of `[slug, coin]` with the page's year text. */
  function CardOf(e: Entry, m: Metal, years: string): (c: Card)
    ensures c.slug == e.slug && c.name == e.coin.name && c.years == years
  {
    var o := if e.coin.overviewData.Some? then e.coin.overviewData.value else Overview(None, None, None, None);
    Card(e.slug, e.coin.name, years,
         SummaryOrFirst(o.weight, e.coin.variants, FirstVariant(e.coin.variants, (v: DbVariant) => v.weight)),
         SummaryOrFirst(o.metalContent, e.coin.variants, FirstVariant(e.coin.variants, (v: DbVariant) => Percentage(v, m))),
         StringOr(o.description, e.coin.name + DESCRIPTION_SUFFIX))
  }

  /** The entries of one metal, in database order. */
  function OfMetal(db: seq<Entry>, m: Metal): (r: seq<Entry>)
    ensures |r| <= |db|
    ensures forall e | e in r :: e in db && e.coin.metalType == MetalTypeName(m)
  {
    if |db| == 0 then []
    else (if db[0].coin.metalType == MetalTypeName(m) then [db[0]] else []) + OfMetal(db[1..], m)
  }

  /** A page lists a coin exactly when its `metalType` is the page's metal. */
  lemma {:induction false} OfMetalMembers(db: seq<Entry>, m: Metal, e: Entry)
    ensures e in OfMetal(db, m) <==> e in db && e.coin.metalType == MetalTypeName(m)
  {
    if |db| > 0 {
      OfMetalMembers(db[1..], m, e);
      assert db == [db[0]] + db[1..];
    }
  }

  const VARIOUS_YEARS: string := "Diverse jaren"

  /** `coin.overviewData?.years || 'Diverse jaren'`. */
  function SummaryYears(coin: DbCoin): (r: string)
    ensures coin.overviewData.Some? && PresentString(coin.overviewData.value.years)
            ==> r == coin.overviewData.value.years.value
    ensures !(coin.overviewData.Some? && PresentString(coin.overviewData.value.years)) ==> r == VARIOUS_YEARS
  {
    StringOr(if coin.overviewData.Some? then coin.overviewData.value.years else None, VARIOUS_YEARS)
  }

  /** The cards of a page before sorting: one per coin of the page's metal, in database
      order, with the page's way of writing the years. */
  function Cards(db: seq<Entry>, m: Metal, yearsOf: DbCoin -> string): (cards: seq<Card>)
    ensures |cards| == |OfMetal(db, m)|
    ensures forall i | 0 <= i < |cards| ::
      cards[i].slug == OfMetal(db, m)[i].slug && cards[i].years == yearsOf(OfMetal(db, m)[i].coin)
  {
    var entries := OfMetal(db, m);
    var cards := seq(|entries|, i requires 0 <= i < |entries| => CardOf(entries[i], m, yearsOf(entries[i].coin)));
    assert forall i | 0 <= i < |cards| :: cards[i] == CardOf(entries[i], m, yearsOf(entries[i].coin));
    cards
  }

  /** A page shows a card for a slug exactly when the database has a coin of the page's
      metal under that slug. */
  lemma CardsOfMetal(db: seq<Entry>, m: Metal, yearsOf: DbCoin -> string, slug: string)
    ensures (exists i | 0 <= i < |Cards(db, m, yearsOf)| :: Cards(db, m, yearsOf)[i].slug == slug)
        <==> (exists e | e in db :: e.slug == slug && e.coin.metalType == MetalTypeName(m))
  {
    var cards := Cards(db, m, yearsOf);
    var entries := OfMetal(db, m);
    if i :| 0 <= i < |cards| && cards[i].slug == slug {
      OfMetalMembers(db, m, entries[i]);
    }
    if e :| e in db && e.slug == slug && e.coin.metalType == MetalTypeName(m) {
      OfMetalMembers(db, m, e);
      var i :| 0 <= i < |entries| && entries[i] == e;
      assert cards[i].slug == slug;
    }
  }

  /** The comparator of a page's sort: listed slugs first, in list order, then by name;
      `localeCompare` is a parameter. */
  function PageCompare(order: seq<string>, a: Card, b: Card, localeCompare: (string, string) -> int): int {
    var listed := ListedOrder(order, a.slug, b.slug);
    if listed.Some? then listed.value else localeCompare(a.name, b.name)
  }

  /** In a list sorted by the comparator, no unlisted slug comes before a listed one, and
      listed slugs follow the list. */
  lemma SortedByList(order: seq<string>, cards: seq<Card>, localeCompare: (string, string) -> int)
    requires forall i, j | 0 <= i < j < |cards| :: PageCompare(order, cards[i], cards[j], localeCompare) <= 0
    ensures forall i, j | 0 <= i < j < |cards| :: !(cards[i].slug !in order && cards[j].slug in order)
    ensures forall i, j | 0 <= i < j < |cards| && cards[i].slug in order && cards[j].slug in order ::
      FirstIndex(order, cards[i].slug) <= FirstIndex(order, cards[j].slug)
  {
    forall i, j | 0 <= i < j < |cards|
      ensures !(cards[i].slug !in order && cards[j].slug in order)
      ensures cards[i].slug in order && cards[j].slug in order ==>
        FirstIndex(order, cards[i].slug) <= FirstIndex(order, cards[j].slug)
    {
      ListedOrderMeaning(order, cards[i].slug, cards[j].slug);
    }
  }

  /** Two unlisted coins are ordered by name alone. */
  lemma UnlistedByName(order: seq<string>, a: Card, b: Card, localeCompare: (string, string) -> int)
    requires a.slug !in order && b.slug !in order
    ensures PageCompare(order, a, b, localeCompare) == localeCompare(a.name, b.name)
  {
    ListedOrderMeaning(order, a.slug, b.slug);
  }

  /** The comparator is antisymmetric whenever the name order is. */
  lemma PageCompareAntisymmetric(order: seq<string>, a: Card, b: Card, localeCompare: (string, string) -> int)
    requires localeCompare(b.name, a.name) == -localeCompare(a.name, b.name)
    ensures PageCompare(order, b, a, localeCompare) == -PageCompare(order, a, b, localeCompare)
  {
    ListedOrderAntisymmetric(order, a.slug, b.slug);
    ListedOrderMeaning(order, a.slug, b.slug);
  }
}
