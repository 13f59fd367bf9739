/** The spreadsheet import (process-munten.js): data rows become coins keyed by a slug
    built from the metal and the coin's name; rows of one slug are grouped into one
    coin whose variants follow the row order; the coins are then ordered gold first,
    then by name. */
module ProcessMunten {
  import opened Js

  /** The `gewicht` cell: text with a decimal comma, or a number. */
  datatype WeightCell = WeightText(s: string) | WeightNumber(n: real)

  /** The `muntjaren` cell: text, or a whole number. */
  datatype YearsCell = YearsText(s: string) | YearsNumber(n: nat)

  /** One spreadsheet row: `[muntType, regeerder, regeerperiode, gehalte, metaalType,
      gewicht, doorsnede, muntjaren]`; an empty cell is `None` (or `""` for the first). */
  datatype Row = Row(
    muntType: string,
    regeerder: Option<string>,
    regeerperiode: Option<string>,
    gehalte: Option<real>,
    metaalType: Option<string>,
    gewicht: Option<WeightCell>,
    doorsnede: Option<real>,
    muntjaren: Option<YearsCell>)

  datatype Variant = Variant(
    ruler: string,
    rulerPeriod: string,
    years: string,
    weight: real,
    metalPercentage: real,
    diameter: Option<real>,
    metalContent: real)

  datatype Coin = Coin(
    id: string,
    name: string,
    slug: string,
    metalType: string,
    denomination: string,
    variants: seq<Variant>)

  const GOLD: string := "GOLD"
  const SILVER: string := "SILVER"

  // ------------------------------------------------------------------ slugs and names

  /** `rawData.slice(1)`: everything after the header row. */
  function DataRows(raw: seq<Row>): (rows: seq<Row>)
    ensures |raw| > 0 ==> rows == raw[1..]
    ensures |raw| == 0 ==> rows == []
  {
    if |raw| == 0 then [] else raw[1..]
  }

  /** `if (!row[0]) return;` skips the row. */
  predicate Kept(r: Row) {
    r.muntType != ""
  }

  /** The metal is gold, compared in lower case. */
  predicate IsGoud(metaal: Option<string>) {
    metaal.Some? && ToLower(metaal.value) == "goud"
  }

  function MetalPrefix(metaal: Option<string>): (p: string)
    ensures p == "gouden" <==> IsGoud(metaal)
  {
    if IsGoud(metaal) then "gouden" else "zilveren"
  }

  /** `.replace(/\s+/g, '-')`: every run of white space becomes one dash. */
  function DashWhitespaceRuns(s: string): (r: string)
    ensures forall c | c in r :: !IsWhitespace(c)
    ensures forall c | c in r && c != '-' :: c in s
    ensures |r| <= |s|
  {
    if |s| == 0 then ""
    else if IsWhitespace(s[0]) then "-" + DashWhitespaceRuns(SkipWhitespace(s))
    else [s[0]] + DashWhitespaceRuns(s[1..])
  }

  /** What is left after a run of white space. */
  function SkipWhitespace(s: string): (r: string)
    requires |s| > 0 && IsWhitespace(s[0])
    ensures |r| < |s| && r == s[|s| - |r|..]
    ensures r == "" || !IsWhitespace(r[0])
    decreases |s|
  {
    if |s| > 1 && IsWhitespace(s[1]) then SkipWhitespace(s[1..]) else s[1..]
  }

  /** `.replace(/,/g, '-').replace(/\./g, '-')`. */
  function DashPunctuation(s: string): (r: string)
    ensures |r| == |s|
    ensures forall i | 0 <= i < |s| :: r[i] == (if s[i] == ',' || s[i] == '.' then '-' else s[i])
  {
    seq(|s|, i requires 0 <= i < |s| => if s[i] == ',' || s[i] == '.' then '-' else s[i])
  }

  /** The name part of the slug. */
  function SlugName(muntType: string): string {
    DashPunctuation(DashWhitespaceRuns(ToLower(muntType)))
  }

  /** `${metalPrefix}-${coinName}`: the key the rows are grouped by, and the coin's id. */
  function SlugOf(r: Row): string {
    MetalPrefix(r.metaalType) + "-" + SlugName(r.muntType)
  }

  /** The slug part of a name holds no white space, comma, dot or upper-case ASCII
      letter, so it is the same for names that differ only in those. */
  lemma SlugNameCharacters(muntType: string)
    ensures forall c | c in SlugName(muntType) ::
      !IsWhitespace(c) && c != ',' && c != '.' && !('A' <= c <= 'Z')
  {
    var lowered := ToLower(muntType);
    var dashed := DashWhitespaceRuns(lowered);
    forall c | c in SlugName(muntType)
      ensures !IsWhitespace(c) && c != ',' && c != '.' && !('A' <= c <= 'Z')
    {
      var i :| 0 <= i < |dashed| && SlugName(muntType)[i] == c;
      assert dashed[i] in dashed;
      if dashed[i] != '-' {
        var j :| 0 <= j < |lowered| && lowered[j] == dashed[i];
      }
    }
  }

  /** Case in the name does not change the slug. */
  lemma SlugIgnoresCase(muntType: string)
    ensures SlugName(ToLower(muntType)) == SlugName(muntType)
  {
    assert ToLower(ToLower(muntType)) == ToLower(muntType);
  }

  /** The slug starts with `gouden-` exactly for gold, compared in lower case. */
  lemma SlugPrefix(r: Row)
    ensures |SlugOf(r)| >= 7
    ensures SlugOf(r)[..7] == "gouden-" <==> IsGoud(r.metaalType)
  {
    var slug := SlugOf(r);
    if IsGoud(r.metaalType) {
      assert slug == "gouden" + "-" + SlugName(r.muntType);
      assert slug[..7] == "gouden-";
    } else {
      assert slug == "zilveren" + "-" + SlugName(r.muntType);
      assert slug[0] == 'z';
    }
  }

  /** `metaalType?.toUpperCase() === 'GOUD' ? 'GOLD' : 'SILVER'`. */
  function MetalTypeOf(r: Row): (m: string)
    ensures m == GOLD || m == SILVER
  {
    if r.metaalType.Some? && ToUpper(r.metaalType.value) == "GOUD" then GOLD else SILVER
  }

  /** The name as line 31 builds it: `Gouden` only for the exact text `Goud`. */
  function NameAsWritten(r: Row): string {
    (if r.metaalType == Some("Goud") then "Gouden" else "Zilveren") + " " + r.muntType
  }

  /** The name with the metal compared as the slug compares it. */
  function CoinName(r: Row): string {
    (if IsGoud(r.metaalType) then "Gouden" else "Zilveren") + " " + r.muntType
  }

  /** The corrected name differs from the name line 31 builds exactly for a metal cell
      that reads `goud` ignoring case but is not the text `Goud`; every other row keeps
      the script's name. */
  lemma CorrectionOnlyForOtherCase(r: Row)
    ensures CoinName(r) != NameAsWritten(r) <==> IsGoud(r.metaalType) && r.metaalType != Some("Goud")
  {
    if r.metaalType == Some("Goud") {
      var lower := ToLower("Goud");
      assert lower[0] == 'g' && lower[1] == 'o' && lower[2] == 'u' && lower[3] == 'd';
      assert lower == "goud";
    }
    if IsGoud(r.metaalType) != (r.metaalType == Some("Goud")) {
      assert CoinName(r)[0] != NameAsWritten(r)[0];
    }
  }

  /** For the ASCII letters the two case-insensitive tests of the metal agree. */
  lemma LowerGoudIffUpperGoud(x: string)
    ensures ToLower(x) == "goud" <==> ToUpper(x) == "GOUD"
  {
    if |x| == 4 {
      assert ToLower(x) == "goud" <==>
        LowerChar(x[0]) == 'g' && LowerChar(x[1]) == 'o' && LowerChar(x[2]) == 'u' && LowerChar(x[3]) == 'd';
      assert ToUpper(x) == "GOUD" <==>
        UpperChar(x[0]) == 'G' && UpperChar(x[1]) == 'O' && UpperChar(x[2]) == 'U' && UpperChar(x[3]) == 'D';
    }
  }

  /** The name starts with `Gouden ` exactly for gold, compared in lower case. */
  lemma NamePrefix(r: Row)
    ensures |CoinName(r)| >= 7
    ensures CoinName(r)[..7] == "Gouden " <==> IsGoud(r.metaalType)
  {
    var name := CoinName(r);
    if IsGoud(r.metaalType) {
      assert name == "Gouden" + " " + r.muntType;
      assert name[..7] == "Gouden ";
    } else {
      assert name == "Zilveren" + " " + r.muntType;
      assert name[0] == 'Z';
    }
  }

  /** In the corrected coin, name, slug and metal type agree on the metal. */
  lemma CoinNameAgrees(r: Row)
    ensures |CoinName(r)| >= 7 && |SlugOf(r)| >= 7
    ensures CoinName(r)[..7] == "Gouden " <==> MetalTypeOf(r) == GOLD
    ensures SlugOf(r)[..7] == "gouden-" <==> MetalTypeOf(r) == GOLD
  {
    NamePrefix(r);
    SlugPrefix(r);
    if r.metaalType.Some? {
      LowerGoudIffUpperGoud(r.metaalType.value);
    }
  }

  /** The lower-case text `goud` is gold for the slug and for the metal type. */
  lemma LowerCaseGoud(r: Row)
    requires r.metaalType == Some("goud")
    ensures IsGoud(r.metaalType) && MetalTypeOf(r) == GOLD
  {
    var lower := ToLower("goud");
    assert lower[0] == 'g' && lower[1] == 'o' && lower[2] == 'u' && lower[3] == 'd';
    assert lower == "goud";
    LowerGoudIffUpperGoud("goud");
  }

  /** As written, a row whose metal is `goud` becomes a gold coin with a `gouden-`
      slug named `Zilveren ...`. */
  lemma NameAsWrittenDisagrees()
    ensures var r := Row("Tientje", None, None, Some(900.0), Some("goud"), None, None, None);
      |SlugOf(r)| >= 7 && SlugOf(r)[..7] == "gouden-" && MetalTypeOf(r) == GOLD
      && NameAsWritten(r) == "Zilveren Tientje"
  {
    var r := Row("Tientje", None, None, Some(900.0), Some("goud"), None, None, None);
    LowerCaseGoud(r);
    SlugPrefix(r);
    NameAsWrittenOfGoudRow();
  }

  lemma NameAsWrittenOfGoudRow()
    ensures NameAsWritten(Row("Tientje", None, None, Some(900.0), Some("goud"), None, None, None)) == "Zilveren Tientje"
  {
    assert "goud"[0] != "Goud"[0];
  }

  /** The corrected name of the same row is `Gouden ...`. */
  lemma CorrectedNameOfGoudRow()
    ensures CoinName(Row("Tientje", None, None, Some(900.0), Some("goud"), None, None, None)) == "Gouden Tientje"
  {
    LowerCaseGoud(Row("Tientje", None, None, Some(900.0), Some("goud"), None, None, None));
  }

  // ------------------------------------------------------------------ variants

  /** `weightValue`: 0 for an empty cell, the number itself, or the text read with its
      first comma as the decimal point; `parseFloat` is a parameter. */
  function WeightValue(cell: Option<WeightCell>, parseFloat: string -> real): (w: real)
    ensures cell.None? ==> w == 0.0
    ensures cell == Some(WeightText("")) || cell == Some(WeightNumber(0.0)) ==> w == 0.0
    ensures cell.Some? && cell.value.WeightNumber? ==> w == cell.value.n
    ensures cell.Some? && cell.value.WeightText? && cell.value.s != "" ==>
      w == parseFloat(ReplaceFirst(cell.value.s, ",", "."))
  {
    if cell.None? then 0.0
    else match cell.value
      case WeightText(s) => if s == "" then 0.0 else parseFloat(ReplaceFirst(s, ",", "."))
      case WeightNumber(n) => n
  }

  /** `Math.round((gehalte / 1000) * 100 * 10) / 10`, 0 for an empty cell. */
  function MetalPercentage(gehalte: Option<real>): real {
    var percentage := if PresentReal(gehalte) then (gehalte.value / 1000.0) * 100.0 else 0.0;
    MathRound(percentage * 10.0) as real / 10.0
  }

  /** The percentage is the fineness in thousandths read as a percentage, to one
      decimal: a whole number of tenths within half a tenth of `gehalte / 10`. */
  lemma MetalPercentageRounding(gehalte: Option<real>)
    ensures var p := MetalPercentage(gehalte);
      && (p * 10.0).Floor as real == p * 10.0
      && (PresentReal(gehalte) ==> gehalte.value / 10.0 - 0.05 < p <= gehalte.value / 10.0 + 0.05)
      && (!PresentReal(gehalte) ==> p == 0.0)
  {
    var percentage := if PresentReal(gehalte) then (gehalte.value / 1000.0) * 100.0 else 0.0;
    var k := MathRound(percentage * 10.0);
    assert MetalPercentage(gehalte) * 10.0 == k as real;
    RoundedWithinHalf(percentage * 10.0);
  }

  /** `muntjaren.toString()`, `''` for an empty cell. */
  function YearsText(cell: Option<YearsCell>): string {
    if cell.None? then ""
    else match cell.value
      case YearsText(s) => s
      case YearsNumber(n) => if n == 0 then "" else NatToString(n)
  }

  function VariantOf(r: Row, parseFloat: string -> real): Variant {
    Variant(StringOr(r.regeerder, ""), StringOr(r.regeerperiode, ""), YearsText(r.muntjaren),
            WeightValue(r.gewicht, parseFloat), MetalPercentage(r.gehalte),
            if PresentReal(r.doorsnede) then r.doorsnede else None,
            if PresentReal(r.gehalte) then r.gehalte.value else 0.0)
  }

  // ------------------------------------------------------------------ grouping

  /** `processedCoins`: the slugs in insertion order, which `Object.values` follows,
      and the coin under each. */
  datatype Groups = Groups(order: seq<string>, coins: map<string, Coin>)

  /** The coin a row creates when its slug is new: the first row fixes its name, metal
      type and denomination. */
  function NewCoin(r: Row): (c: Coin)
    ensures c.id == SlugOf(r) && c.slug == SlugOf(r) && c.variants == []
    ensures c.name == CoinName(r) && c.metalType == MetalTypeOf(r)
  {
    Coin(SlugOf(r), CoinName(r), SlugOf(r), MetalTypeOf(r), r.muntType, [])
  }

  /** One pass of the `forEach` body. */
  function Step(g: Groups, r: Row, parseFloat: string -> real): Groups {
    if !Kept(r) then g
    else
      var slug := SlugOf(r);
      var coin := if slug in g.coins then g.coins[slug] else NewCoin(r);
      Groups(if slug in g.coins then g.order else g.order + [slug],
             g.coins[slug := coin.(variants := coin.variants + [VariantOf(r, parseFloat)])])
  }

  /** The groups after the given rows. */
  function Grouped(rows: seq<Row>, parseFloat: string -> real): Groups {
    if |rows| == 0 then Groups([], map[])
    else Step(Grouped(rows[..|rows| - 1], parseFloat), rows[|rows| - 1], parseFloat)
  }

  /** The order lists each key of the map once. */
  ghost predicate WellKept(g: Groups) {
    (forall slug :: slug in g.coins <==> slug in g.order)
    && forall i, j | 0 <= i < j < |g.order| :: g.order[i] != g.order[j]
  }

  /** `Object.values(processedCoins)`. */
  function Values(g: Groups): (coins: seq<Coin>)
    requires WellKept(g)
    ensures |coins| == |g.order|
  {
    seq(|g.order|, i requires 0 <= i < |g.order| => g.coins[g.order[i]])
  }

  lemma {:induction false} GroupedWellKept(rows: seq<Row>, parseFloat: string -> real)
    ensures WellKept(Grouped(rows, parseFloat))
  {
    if |rows| > 0 {
      GroupedWellKept(rows[..|rows| - 1], parseFloat);
    }
  }

  /** The kept rows of one slug, in row order. */
  function RowsFor(rows: seq<Row>, slug: string): (r: seq<Row>)
    ensures forall x | x in r :: x in rows && Kept(x) && SlugOf(x) == slug
  {
    if |rows| == 0 then []
    else
      var last := rows[|rows| - 1];
      RowsFor(rows[..|rows| - 1], slug) + (if Kept(last) && SlugOf(last) == slug then [last] else [])
  }

  function VariantsOf(rows: seq<Row>, parseFloat: string -> real): (vs: seq<Variant>)
    ensures |vs| == |rows|
    ensures forall i | 0 <= i < |rows| :: vs[i] == VariantOf(rows[i], parseFloat)
  {
    seq(|rows|, i requires 0 <= i < |rows| => VariantOf(rows[i], parseFloat))
  }

  /** A step leaves the coins of other slugs alone. */
  lemma StepKeepsOthers(g: Groups, r: Row, parseFloat: string -> real, slug: string)
    requires !(Kept(r) && SlugOf(r) == slug)
    ensures slug in Step(g, r, parseFloat).coins <==> slug in g.coins
    ensures slug in g.coins ==> Step(g, r, parseFloat).coins[slug] == g.coins[slug]
  {
  }

  /** A kept row appends its variant to its slug's coin, created from it if new. */
  lemma StepAppends(g: Groups, r: Row, parseFloat: string -> real)
    requires Kept(r)
    ensures var slug := SlugOf(r);
      var coin := if slug in g.coins then g.coins[slug] else NewCoin(r);
      slug in Step(g, r, parseFloat).coins
      && Step(g, r, parseFloat).coins[slug] == coin.(variants := coin.variants + [VariantOf(r, parseFloat)])
  {
  }

  /** A slug has a coin exactly when some kept row has that slug; the coin takes its
      name, metal type and denomination from the first such row, and holds one variant
      per such row, in row order. */
  lemma {:induction false} GroupedCoin(rows: seq<Row>, parseFloat: string -> real, slug: string)
    ensures var g := Grouped(rows, parseFloat);
      var rs := RowsFor(rows, slug);
      && (slug in g.coins <==> |rs| > 0)
      && (slug in g.coins ==>
            g.coins[slug] == NewCoin(rs[0]).(variants := VariantsOf(rs, parseFloat)))
  {
    if |rows| > 0 {
      var init := rows[..|rows| - 1];
      var last := rows[|rows| - 1];
      GroupedCoin(init, parseFloat, slug);
      assert init + [last] == rows;
      if Kept(last) && SlugOf(last) == slug {
        GroupedCoinOwnRow(init, last, parseFloat, slug);
      } else {
        GroupedCoinOtherRow(init, last, parseFloat, slug);
      }
    }
  }

  /** The step of `GroupedCoin` for a last row of the slug. */
  lemma GroupedCoinOwnRow(init: seq<Row>, last: Row, parseFloat: string -> real, slug: string)
    requires Kept(last) && SlugOf(last) == slug
    requires var g := Grouped(init, parseFloat);
      var rs := RowsFor(init, slug);
      && (slug in g.coins <==> |rs| > 0)
      && (slug in g.coins ==>
            g.coins[slug] == NewCoin(rs[0]).(variants := VariantsOf(rs, parseFloat)))
    ensures var g := Grouped(init + [last], parseFloat);
      var rs := RowsFor(init + [last], slug);
      && slug in g.coins && |rs| > 0
      && g.coins[slug] == NewCoin(rs[0]).(variants := VariantsOf(rs, parseFloat))
  {
    var rows := init + [last];
    assert rows[..|rows| - 1] == init;
    var g0 := Grouped(init, parseFloat);
    assert Grouped(rows, parseFloat) == Step(g0, last, parseFloat);
    StepAppends(g0, last, parseFloat);
    assert RowsFor(rows, slug) == RowsFor(init, slug) + [last];
    AppendedCoin(RowsFor(init, slug), last, g0.coins, Step(g0, last, parseFloat).coins, parseFloat, slug);
  }

  /** The coin after a row of its slug, from the coin before it. */
  lemma AppendedCoin(rs0: seq<Row>, last: Row, before: map<string, Coin>, after: map<string, Coin>,
                     parseFloat: string -> real, slug: string)
    requires slug in before <==> |rs0| > 0
    requires slug in before ==> before[slug] == NewCoin(rs0[0]).(variants := VariantsOf(rs0, parseFloat))
    requires var coin := if slug in before then before[slug] else NewCoin(last);
      slug in after && after[slug] == coin.(variants := coin.variants + [VariantOf(last, parseFloat)])
    ensures var rs := rs0 + [last];
      slug in after && after[slug] == NewCoin(rs[0]).(variants := VariantsOf(rs, parseFloat))
  {
    var rs := rs0 + [last];
    if |rs0| > 0 {
      assert rs[0] == rs0[0];
      assert VariantsOf(rs, parseFloat) == VariantsOf(rs0, parseFloat) + [VariantOf(last, parseFloat)];
    } else {
      assert rs == [last];
      assert VariantsOf(rs, parseFloat) == [VariantOf(last, parseFloat)];
    }
  }

  /** The step of `GroupedCoin` for a last row that is skipped or of another slug. */
  lemma GroupedCoinOtherRow(init: seq<Row>, last: Row, parseFloat: string -> real, slug: string)
    requires !(Kept(last) && SlugOf(last) == slug)
    requires var g := Grouped(init, parseFloat);
      var rs := RowsFor(init, slug);
      && (slug in g.coins <==> |rs| > 0)
      && (slug in g.coins ==>
            g.coins[slug] == NewCoin(rs[0]).(variants := VariantsOf(rs, parseFloat)))
    ensures var g := Grouped(init + [last], parseFloat);
      var rs := RowsFor(init + [last], slug);
      && (slug in g.coins <==> |rs| > 0)
      && (slug in g.coins ==>
            g.coins[slug] == NewCoin(rs[0]).(variants := VariantsOf(rs, parseFloat)))
  {
    var rows := init + [last];
    assert rows[..|rows| - 1] == init;
    var g0 := Grouped(init, parseFloat);
    assert Grouped(rows, parseFloat) == Step(g0, last, parseFloat);
    StepKeepsOthers(g0, last, parseFloat, slug);
    assert RowsFor(rows, slug) == RowsFor(init, slug) + [];
  }

  /** The `forEach` over the data rows, filling `processedCoins`. */
  method GroupRows(rows: seq<Row>, parseFloat: string -> real) returns (order: seq<string>, bySlug: map<string, Coin>)
    ensures Groups(order, bySlug) == Grouped(rows, parseFloat)
  {
    order := [];
    bySlug := map[];
    for i := 0 to |rows|
      invariant Groups(order, bySlug) == Grouped(rows[..i], parseFloat)
    {
      assert rows[..i + 1][..i] == rows[..i];
      var r := rows[i];
      if r.muntType != "" {
        var slug := SlugOf(r);
        if slug !in bySlug {
          bySlug := bySlug[slug := NewCoin(r)];
          order := order + [slug];
        }
        var coin := bySlug[slug];
        bySlug := bySlug[slug := coin.(variants := coin.variants + [VariantOf(r, parseFloat)])];
      }
    }
    assert rows[..|rows|] == rows;
  }

  /** The script up to the sort: the header skipped, the rows grouped, and
      `Object.values`, which lists the coins in the order their slugs first appear. */
  method ProcessRows(raw: seq<Row>, parseFloat: string -> real) returns (coins: seq<Coin>)
    ensures WellKept(Grouped(DataRows(raw), parseFloat))
    ensures coins == Values(Grouped(DataRows(raw), parseFloat))
  {
    var rows := if |raw| == 0 then [] else raw[1..];
    var order, bySlug := GroupRows(rows, parseFloat);
    GroupedWellKept(rows, parseFloat);
    coins := [];
    for i := 0 to |order|
      invariant coins == Values(Groups(order, bySlug))[..i]
    {
      coins := coins + [bySlug[order[i]]];
    }
  }

  // ------------------------------------------------------------------ order

  /** The comparator of the final sort; `localeCompare` is a parameter. */
  function ProcessCompare(a: Coin, b: Coin, localeCompare: (string, string) -> int): int {
    if a.metalType != b.metalType then (if a.metalType == GOLD then -1 else 1)
    else localeCompare(a.name, b.name)
  }

  /** Gold sorts before silver in both argument orders, and one metal sorts by name. */
  lemma ProcessCompareMeaning(a: Coin, b: Coin, localeCompare: (string, string) -> int)
    ensures a.metalType == GOLD && b.metalType == SILVER ==>
      ProcessCompare(a, b, localeCompare) < 0 && ProcessCompare(b, a, localeCompare) > 0
    ensures a.metalType == b.metalType ==> ProcessCompare(a, b, localeCompare) == localeCompare(a.name, b.name)
  {
  }

  /** In a list sorted by the comparator no silver coin precedes a gold one. */
  lemma SortedGoldFirst(coins: seq<Coin>, localeCompare: (string, string) -> int)
    requires forall i, j | 0 <= i < j < |coins| :: ProcessCompare(coins[i], coins[j], localeCompare) <= 0
    ensures forall i, j | 0 <= i < j < |coins| :: !(coins[i].metalType == SILVER && coins[j].metalType == GOLD)
  {
    forall i, j | 0 <= i < j < |coins|
      ensures !(coins[i].metalType == SILVER && coins[j].metalType == GOLD)
    {
      ProcessCompareMeaning(coins[j], coins[i], localeCompare);
    }
  }
}
