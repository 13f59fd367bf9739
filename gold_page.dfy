/** The gold coins overview (app/gouden-munten/page.tsx): the collectors' value range of
    a coin and the order of its cards. Its cards are `Overview.Cards` with `Gold` and
    `Overview.SummaryYears` for the years, its ranges `Overview.CalculateCoinRanges`
    with `Gold`, its comparator `Overview.PageCompare` with `GOLD_ORDER`. */
module GoldPage {
  import opened Js
  import opened CoinDb
  import opened Overview

  /** The slugs listed first, in this order. */
  const GOLD_ORDER: seq<string> := [
    "gouden-tientje", "gouden-vijfje", "gouden-gulden", "gouden-twintig-gulden",
    "gouden-dukaat", "gouden-dubbele-dukaat"]

  /** The `collectorsValueRange`s the variants carry, in variant order. */
  function Ranges(vs: seq<DbVariant>): (r: seq<ValueRange>)
    ensures |r| <= |vs|
  {
    if |vs| == 0 then []
    else
      (if vs[0].collectorsValueRange.Some? then [vs[0].collectorsValueRange.value] else [])
      + Ranges(vs[1..])
  }

  /** A range is collected exactly when some variant carries it. */
  lemma {:induction false} RangesMembers(vs: seq<DbVariant>, g: ValueRange)
    ensures g in Ranges(vs) <==> exists v | v in vs :: v.collectorsValueRange == Some(g)
  {
    if |vs| > 0 {
      RangesMembers(vs[1..], g);
      assert vs == [vs[0]] + vs[1..];
    }
  }

  /** No range is collected only when no variant carries one. */
  lemma {:induction false} NoRangesCarried(vs: seq<DbVariant>)
    requires |Ranges(vs)| == 0
    ensures forall v | v in vs :: v.collectorsValueRange.None?
  {
    if |vs| > 0 {
      NoRangesCarried(vs[1..]);
      assert vs == [vs[0]] + vs[1..];
    }
  }

  /** `Math.min(...ranges.map(r => r.min))`. */
  function LowestMin(rs: seq<ValueRange>): (m: real)
    requires |rs| > 0
    ensures forall g | g in rs :: m <= g.min
    ensures exists g | g in rs :: g.min == m
  {
    if |rs| == 1 then rs[0].min
    else
      var rest := LowestMin(rs[1..]);
      assert rs == [rs[0]] + rs[1..];
      if rs[0].min <= rest then rs[0].min else rest
  }

  /** `Math.max(...ranges.map(r => r.max))`. */
  function HighestMax(rs: seq<ValueRange>): (m: real)
    requires |rs| > 0
    ensures forall g | g in rs :: g.max <= m
    ensures exists g | g in rs :: g.max == m
  {
    if |rs| == 1 then rs[0].max
    else
      var rest := HighestMax(rs[1..]);
      assert rs == [rs[0]] + rs[1..];
      if rs[0].max >= rest then rs[0].max else rest
  }

  /** `getCollectorValueRange(slug)`: `None` for an unknown slug, a coin without a
      variants list, or variants none of which carries a range; otherwise the lowest
      minimum and the highest maximum. */
  function GetCollectorValueRange(db: Database, slug: string): (r: Option<ValueRange>)
    ensures r.None? <==>
      Lookup(db, slug).None? || Lookup(db, slug).value.variants.None?
      || |Ranges(Lookup(db, slug).value.variants.value)| == 0
  {
    var coin := Lookup(db, slug);
    if coin.None? || coin.value.variants.None? then None
    else
      var ranges := Ranges(coin.value.variants.value);
      if |ranges| == 0 then None
      else Some(ValueRange(LowestMin(ranges), HighestMax(ranges)))
  }

  /** For a coin with variants, the answer is `None` exactly when no variant carries a
      range; otherwise it covers every variant's range, both of its ends are ends of
      some variant's range, and it is ordered when each variant's range is. */
  lemma CollectorValueRangeCovers(db: Database, slug: string)
    requires Lookup(db, slug).Some? && Lookup(db, slug).value.variants.Some?
    ensures var vs := Lookup(db, slug).value.variants.value;
      var r := GetCollectorValueRange(db, slug);
      && (r.None? <==> forall v | v in vs :: v.collectorsValueRange.None?)
      && (r.Some? ==>
            (forall v | v in vs && v.collectorsValueRange.Some? ::
               r.value.min <= v.collectorsValueRange.value.min
               && v.collectorsValueRange.value.max <= r.value.max)
            && (exists v | v in vs && v.collectorsValueRange.Some? :: v.collectorsValueRange.value.min == r.value.min)
            && (exists v | v in vs && v.collectorsValueRange.Some? :: v.collectorsValueRange.value.max == r.value.max))
      && (r.Some? && (forall v | v in vs && v.collectorsValueRange.Some? ::
                        v.collectorsValueRange.value.min <= v.collectorsValueRange.value.max)
          ==> r.value.min <= r.value.max)
  {
    var vs := Lookup(db, slug).value.variants.value;
    var rs := Ranges(vs);
    var r := GetCollectorValueRange(db, slug);
    forall g | true
      ensures g in rs <==> exists v | v in vs :: v.collectorsValueRange == Some(g)
    {
      RangesMembers(vs, g);
    }
    if |rs| == 0 {
      NoRangesCarried(vs);
    } else {
      assert rs[0] in rs;
      var lo := LowestMin(rs);
      var hi := HighestMax(rs);
      var a :| a in rs && a.min == lo;
      var b :| b in rs && b.max == hi;
      assert exists v | v in vs && v.collectorsValueRange.Some? :: v.collectorsValueRange.value.min == lo;
      assert exists v | v in vs && v.collectorsValueRange.Some? :: v.collectorsValueRange.value.max == hi;
    }
  }

  /** With the ranges of the database shown below, the tientje's answer is 10 to 90:
      the lowest minimum and the highest maximum come from different variants. */
  lemma TwoVariantsExample()
    ensures var v1 := DbVariant("a", "1875", None, None, None, None, Some(ValueRange(10.0, 50.0)));
      var v2 := DbVariant("b", "1912", None, None, None, None, Some(ValueRange(20.0, 90.0)));
      var v3 := DbVariant("c", "1917", None, None, None, None, None);
      var coin := DbCoin("gouden-tientje", "Gouden Tientje", "gouden-tientje", GOLD, Some([v1, v2, v3]), None);
      var db: Database := [Entry("gouden-tientje", coin)];
      GetCollectorValueRange(db, "gouden-tientje") == Some(ValueRange(10.0, 90.0))
      && GetCollectorValueRange(db, "gouden-vijfje") == None
  {
    var v1 := DbVariant("a", "1875", None, None, None, None, Some(ValueRange(10.0, 50.0)));
    var v2 := DbVariant("b", "1912", None, None, None, None, Some(ValueRange(20.0, 90.0)));
    var v3 := DbVariant("c", "1917", None, None, None, None, None);
    assert Ranges([v3]) == [];
    assert Ranges([v2, v3]) == [ValueRange(20.0, 90.0)];
    assert Ranges([v1, v2, v3]) == [ValueRange(10.0, 50.0), ValueRange(20.0, 90.0)];
  }
}
