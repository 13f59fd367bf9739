/** The silver coins overview (app/zilveren-munten/page.tsx): the span of years a coin
    was minted in, read from the free-text `years` of its variants, and the order of
    its cards. The ranges of its cards are `Overview.CalculateCoinRanges` with
    `Silver`. */
module SilverPage {
  import opened Js
  import opened CoinDb
  import opened Overview

  /** The window of plausible years; numbers outside it are ignored. */
  const FIRST_YEAR: int := 1800
  const LAST_YEAR: int := 2030

  predicate InWindow(y: int) {
    FIRST_YEAR <= y <= LAST_YEAR
  }

  /** `n` decimal digits start at position `i`. */
  predicate DigitsAt(s: string, i: int, n: nat) {
    0 <= i && i + n <= |s| && forall k | i <= k < i + n :: IsDigit(s[k])
  }

  /** The number of the four digits at `i`. */
  function YearAt(s: string, i: int): nat
    requires DigitsAt(s, i, 4)
  {
    ParseDigits(s[i..i + 4])
  }

  /** `s.match(/\d{4}/g)` from position `i` on, as numbers: the leftmost four digits,
      then the search goes on after them. */
  function FourDigitMatches(s: string, i: nat): seq<nat>
    decreases |s| - i
  {
    if i + 4 > |s| then []
    else if DigitsAt(s, i, 4) then [YearAt(s, i)] + FourDigitMatches(s, i + 4)
    else FourDigitMatches(s, i + 1)
  }

  /** `dddd-dddd` starts at `i`. */
  predicate RangeAt(s: string, i: int) {
    DigitsAt(s, i, 4) && i + 9 <= |s| && s[i + 4] == '-' && DigitsAt(s, i + 5, 4)
  }

  /** `s.match(/(\d{4})-(\d{4})/g)` from position `i` on, each match split at its dash
      into its two numbers. */
  function RangeMatches(s: string, i: nat): seq<(nat, nat)>
    decreases |s| - i
  {
    if i + 9 > |s| then []
    else if RangeAt(s, i) then [(YearAt(s, i), YearAt(s, i + 5))] + RangeMatches(s, i + 9)
    else RangeMatches(s, i + 1)
  }

  /** The numbers that pass `year >= 1800 && year <= 2030`, in order. */
  function InWindowYears(ys: seq<nat>): (r: seq<int>)
    ensures forall y | y in r :: InWindow(y)
  {
    if |ys| == 0 then []
    else (if InWindow(ys[0]) then [ys[0] as int] else []) + InWindowYears(ys[1..])
  }

  /** `for (year = a; year <= b; year++)`: the years from `a` to `b`. */
  function Interval(a: int, b: int): (r: seq<int>)
    ensures forall y | y in r :: a <= y <= b
    decreases b - a
  {
    if a > b then [] else Interval(a, b - 1) + [b]
  }

  /** A range is expanded when it starts at 1800 or later and ends at 2030 or earlier. */
  predicate Expands(r: (nat, nat)) {
    r.0 >= FIRST_YEAR && r.1 <= LAST_YEAR
  }

  /** The years of the ranges that expand, range after range. */
  function Expanded(ranges: seq<(nat, nat)>): (r: seq<int>)
    ensures forall y | y in r :: InWindow(y)
  {
    if |ranges| == 0 then []
    else (if Expands(ranges[0]) then Interval(ranges[0].0, ranges[0].1) else []) + Expanded(ranges[1..])
  }

  /** The years one `years` text contributes: its four-digit numbers in the window, then
      the years of its ranges. */
  function YearsIn(s: string): seq<int> {
    InWindowYears(FourDigitMatches(s, 0)) + Expanded(RangeMatches(s, 0))
  }

  /** What the variants with a truthy `years` contribute, in variant order. */
  function CollectedYears(vs: seq<DbVariant>): (r: seq<int>)
    ensures forall y | y in r :: InWindow(y)
  {
    if |vs| == 0 then []
    else
      var last := vs[|vs| - 1];
      CollectedYears(vs[..|vs| - 1]) + (if PresentString(last.years) then YearsIn(last.years.value) else [])
  }

  /** `min === max ? min.toString() : `${min}-${max}``. */
  function YearLabel(lo: nat, hi: nat): string {
    if lo == hi then NatToString(lo) else NatToString(lo) + "-" + NatToString(hi)
  }

  /** What `calculateYearRange(coin)` returns. */
  function YearRange(coin: DbCoin): string {
    if coin.variants.None? || |coin.variants.value| == 0 then SummaryYears(coin)
    else
      var years := CollectedYears(coin.variants.value);
      if |years| == 0 then SummaryYears(coin)
      else
        assert MinInt(years) in years && MaxInt(years) in years;
        YearLabel(MinInt(years), MaxInt(years))
  }

  /** The first regular expression over one `years` text: the four-digit numbers found,
      kept when they fall in the window. */
  method FourDigitYears(s: string) returns (years: seq<int>)
    ensures years == InWindowYears(FourDigitMatches(s, 0))
  {
    years := [];
    var i := 0;
    while i + 4 <= |s|
      invariant 0 <= i <= |s|
      invariant years + InWindowYears(FourDigitMatches(s, i)) == InWindowYears(FourDigitMatches(s, 0))
      decreases |s| - i
    {
      if DigitsAt(s, i, 4) {
        var year := YearAt(s, i);
        var rest := FourDigitMatches(s, i + 4);
        assert ([year] + rest)[1..] == rest;
        if InWindow(year) {
          years := years + [year];
        }
        i := i + 4;
      } else {
        i := i + 1;
      }
    }
    assert FourDigitMatches(s, i) == [];
    assert years + [] == years;
  }

  /** The inner `for` loop: every year from `start` to `end`. */
  method ExpandRange(start: int, end: int) returns (years: seq<int>)
    ensures years == Interval(start, end)
  {
    years := [];
    var year := start;
    while year <= end
      invariant start <= year <= (if start <= end then end + 1 else start)
      invariant years == Interval(start, year - 1)
      decreases end - year
    {
      years := years + [year];
      year := year + 1;
    }
  }

  /** The second regular expression over one `years` text: the years of each
      `dddd-dddd` range that starts at 1800 or later and ends at 2030 or earlier. */
  method RangeYears(s: string) returns (years: seq<int>)
    ensures years == Expanded(RangeMatches(s, 0))
  {
    years := [];
    var j := 0;
    while j + 9 <= |s|
      invariant 0 <= j <= |s|
      invariant years + Expanded(RangeMatches(s, j)) == Expanded(RangeMatches(s, 0))
      decreases |s| - j
    {
      if RangeAt(s, j) {
        var start := YearAt(s, j);
        var end := YearAt(s, j + 5);
        var rest := RangeMatches(s, j + 9);
        assert ([(start, end)] + rest)[1..] == rest;
        if start >= FIRST_YEAR && end <= LAST_YEAR {
          var span := ExpandRange(start, end);
          years := years + span;
        }
        assert Expanded(RangeMatches(s, j))
          == (if Expands((start, end)) then Interval(start, end) else []) + Expanded(rest);
        j := j + 9;
      } else {
        j := j + 1;
      }
    }
    assert RangeMatches(s, j) == [];
    assert years + [] == years;
  }

  /** `calculateYearRange(coin)`. The de-duplicated, sorted copy of the years is not
      built: only its minimum and maximum are used, and they are those of the list. */
  method CalculateYearRange(coin: DbCoin) returns (r: string)
    ensures r == YearRange(coin)
  {
    if coin.variants.None? || |coin.variants.value| == 0 {
      return SummaryYears(coin);
    }
    var vs := coin.variants.value;
    var allYears: seq<int> := [];
    for v := 0 to |vs|
      invariant allYears == CollectedYears(vs[..v])
    {
      assert vs[..v + 1][..v] == vs[..v];
      if PresentString(vs[v].years) {
        var yearString := vs[v].years.value;
        var found := FourDigitYears(yearString);
        var expanded := RangeYears(yearString);
        allYears := allYears + found + expanded;
      }
    }
    assert vs[..|vs|] == vs;
    if |allYears| == 0 {
      return SummaryYears(coin);
    }
    var lo := MinInt(allYears);
    var hi := MaxInt(allYears);
    r := YearLabel(lo, hi);
  }

  // ------------------------------------------------------------------ properties

  /** Without variants, or when no year is found, the summary's `years` is shown, or
      "Diverse jaren" when it is empty; otherwise the label names the earliest and the
      latest year found, both within 1800..2030. */
  lemma YearRangeOutcome(coin: DbCoin)
    ensures coin.variants.None? || |coin.variants.value| == 0 || |CollectedYears(coin.variants.value)| == 0
            ==> YearRange(coin) == SummaryYears(coin)
    ensures coin.overviewData.Some? && PresentString(coin.overviewData.value.years)
            ==> SummaryYears(coin) == coin.overviewData.value.years.value
    ensures !(coin.overviewData.Some? && PresentString(coin.overviewData.value.years))
            ==> SummaryYears(coin) == "Diverse jaren"
    ensures coin.variants.Some? && |CollectedYears(coin.variants.value)| > 0 ==>
      var years := CollectedYears(coin.variants.value);
      exists lo: nat, hi: nat | lo in years && hi in years ::
        && YearRange(coin) == YearLabel(lo, hi)
        && FIRST_YEAR <= lo <= hi <= LAST_YEAR
        && (forall y | y in years :: lo <= y <= hi)
  {
    if coin.variants.Some? && |CollectedYears(coin.variants.value)| > 0 {
      var years := CollectedYears(coin.variants.value);
      var lo, hi := MinInt(years), MaxInt(years);
      assert lo in years && hi in years;
      assert YearRange(coin) == YearLabel(lo, hi);
    }
  }

  /** The label reads back as the two years: four digits when they are equal, otherwise
      two four-digit numbers around a dash. */
  lemma YearLabelRoundTrip(lo: nat, hi: nat)
    requires FIRST_YEAR <= lo <= hi <= LAST_YEAR
    ensures lo == hi ==> |YearLabel(lo, hi)| == 4 && ParseDigits(YearLabel(lo, hi)) == lo
    ensures lo < hi ==>
      var parts := Split(YearLabel(lo, hi), '-');
      && parts == [NatToString(lo), NatToString(hi)]
      && |parts[0]| == 4 && |parts[1]| == 4
      && ParseDigits(parts[0]) == lo && ParseDigits(parts[1]) == hi
  {
    var a := NatToString(lo);
    var b := NatToString(hi);
    FourDigitString(lo);
    FourDigitString(hi);
    ParseNatToString(lo);
    ParseNatToString(hi);
    if lo < hi {
      assert forall i | 0 <= i < |a| :: a[i] != '-';
      assert forall i | 0 <= i < |b| :: b[i] != '-';
      assert YearLabel(lo, hi) == a + ['-'] + b;
      SplitPair(a, b, '-');
    }
  }

  lemma {:induction false} InWindowYearsMembers(ys: seq<nat>, y: int)
    ensures y in InWindowYears(ys) <==> y in ys && InWindow(y)
  {
    if |ys| > 0 {
      InWindowYearsMembers(ys[1..], y);
      assert ys == [ys[0]] + ys[1..];
    }
  }

  lemma {:induction false} IntervalMembers(a: int, b: int, y: int)
    ensures y in Interval(a, b) <==> a <= y <= b
    decreases b - a
  {
    if a <= b {
      IntervalMembers(a, b - 1, y);
    }
  }

  lemma {:induction false} ExpandedMembers(ranges: seq<(nat, nat)>, y: int)
    ensures y in Expanded(ranges) <==> exists r | r in ranges :: Expands(r) && r.0 <= y <= r.1
  {
    if |ranges| > 0 {
      ExpandedMembers(ranges[1..], y);
      IntervalMembers(ranges[0].0, ranges[0].1, y);
      assert ranges == [ranges[0]] + ranges[1..];
      if exists r | r in ranges :: Expands(r) && r.0 <= y <= r.1 {
        var r :| r in ranges && Expands(r) && r.0 <= y <= r.1;
        if r != ranges[0] {
          assert r in ranges[1..];
        }
      }
    }
  }

  /** A `years` text contributes exactly its four-digit numbers within 1800..2030 and
      every year of each of its `dddd-dddd` ranges that starts at 1800 or later and ends
      at 2030 or earlier. */
  lemma YearsInMembers(s: string, y: int)
    ensures y in YearsIn(s) <==>
      (y in FourDigitMatches(s, 0) && InWindow(y))
      || (exists r | r in RangeMatches(s, 0) :: Expands(r) && r.0 <= y <= r.1)
  {
    InWindowYearsMembers(FourDigitMatches(s, 0), y);
    ExpandedMembers(RangeMatches(s, 0), y);
  }

  // ------------------------------------------------------------------ expansion

  /** No run of five or more digits: every four-digit match then starts where a number
      starts. */
  predicate NoLongDigitRun(s: string) {
    forall i | 0 <= i && i + 5 <= |s| :: !DigitsAt(s, i, 5)
  }

  /** Without long digit runs, the first regular expression finds every four digits that
      it passes over. */
  lemma {:induction false} FourDigitsFound(s: string, j: nat, i: nat)
    requires NoLongDigitRun(s) && j <= i && DigitsAt(s, i, 4)
    ensures YearAt(s, i) in FourDigitMatches(s, j)
    decreases i - j
  {
    if j < i {
      if DigitsAt(s, j, 4) {
        if i < j + 4 {
          FiveDigits(s, j, i);
          assert false;
        }
        FourDigitsFound(s, j + 4, i);
      } else {
        FourDigitsFound(s, j + 1, i);
      }
    }
  }

  /** Two overlapping runs of four digits make a run of five. */
  lemma FiveDigits(s: string, j: int, i: int)
    requires j < i < j + 4 && DigitsAt(s, j, 4) && DigitsAt(s, i, 4)
    ensures DigitsAt(s, j, 5)
  {
    forall k | j <= k < j + 5
      ensures IsDigit(s[k])
    {
      if k >= i {
        assert i <= k < i + 4;
      }
    }
  }

  /** The number of four digits. */
  lemma ParseFour(t: string)
    requires DigitsAt(t, 0, 4) && |t| == 4
    ensures ParseDigits(t) == 1000 * DigitValue(t[0]) + 100 * DigitValue(t[1]) + 10 * DigitValue(t[2]) + DigitValue(t[3])
  {
    var t1, t2, t3 := t[..1], t[..2], t[..3];
    assert t1[..0] == [] && t2[..1] == t1 && t3[..2] == t2 && t[..3] == t3;
    assert ParseDigits(t1) == DigitValue(t[0]);
    assert ParseDigits(t2) == 10 * DigitValue(t[0]) + DigitValue(t[1]);
    assert ParseDigits(t3) == 100 * DigitValue(t[0]) + 10 * DigitValue(t[1]) + DigitValue(t[2]);
  }

  /** Every range the second regular expression finds sits at a position of the text. */
  lemma {:induction false} RangeMatchPosition(s: string, j: nat, r: (nat, nat))
    requires r in RangeMatches(s, j)
    ensures exists i | j <= i :: RangeAt(s, i) && r == (YearAt(s, i), YearAt(s, i + 5))
    decreases |s| - j
  {
    if RangeAt(s, j) {
      if r != (YearAt(s, j), YearAt(s, j + 5)) {
        RangeMatchPosition(s, j + 9, r);
      }
    } else {
      RangeMatchPosition(s, j + 1, r);
    }
  }

  /** The four-digit years in the window only, without the ranges' expansion. */
  function PlainYears(vs: seq<DbVariant>): (r: seq<int>)
    ensures forall y | y in r :: InWindow(y)
  {
    if |vs| == 0 then []
    else
      var last := vs[|vs| - 1];
      PlainYears(vs[..|vs| - 1])
        + (if PresentString(last.years) then InWindowYears(FourDigitMatches(last.years.value, 0)) else [])
  }

  /** Without long digit runs, every expanded year lies between two four-digit years of
      the same text, and every four-digit year in the window is collected. */
  lemma ExpandedBetweenPlain(s: string, y: int)
    requires NoLongDigitRun(s)
    ensures y in YearsIn(s) ==>
      exists p, q | p in InWindowYears(FourDigitMatches(s, 0)) && q in InWindowYears(FourDigitMatches(s, 0)) ::
        p <= y <= q
  {
    var plain := InWindowYears(FourDigitMatches(s, 0));
    if y in YearsIn(s) {
      YearsInMembers(s, y);
      InWindowYearsMembers(FourDigitMatches(s, 0), y);
      if !(y in FourDigitMatches(s, 0) && InWindow(y)) {
        var r :| r in RangeMatches(s, 0) && Expands(r) && r.0 <= y <= r.1;
        RangeMatchPosition(s, 0, r);
        var i :| 0 <= i && RangeAt(s, i) && r == (YearAt(s, i), YearAt(s, i + 5));
        FourDigitsFound(s, 0, i);
        FourDigitsFound(s, 0, i + 5);
        InWindowYearsMembers(FourDigitMatches(s, 0), r.0);
        InWindowYearsMembers(FourDigitMatches(s, 0), r.1);
        assert r.0 in plain && r.1 in plain;
      } else {
        assert y in plain;
      }
    }
  }

  /** Every four-digit year in the window is collected. */
  lemma {:induction false} PlainYearsCollected(vs: seq<DbVariant>)
    ensures forall y | y in PlainYears(vs) :: y in CollectedYears(vs)
  {
    if |vs| > 0 {
      PlainYearsCollected(vs[..|vs| - 1]);
    }
  }

  /** Without long digit runs, bounds that hold for the plain years hold for every
      collected year. */
  lemma {:induction false} CollectedWithinPlainBounds(vs: seq<DbVariant>, lo: int, hi: int)
    requires forall k | 0 <= k < |vs| && vs[k].years.Some? :: NoLongDigitRun(vs[k].years.value)
    requires forall p | p in PlainYears(vs) :: lo <= p <= hi
    ensures forall y | y in CollectedYears(vs) :: lo <= y <= hi
  {
    if |vs| > 0 {
      var init := vs[..|vs| - 1];
      var last := vs[|vs| - 1];
      assert vs[..|vs| - 1] == init;
      var tail := if PresentString(last.years) then InWindowYears(FourDigitMatches(last.years.value, 0)) else [];
      assert PlainYears(vs) == PlainYears(init) + tail;
      assert forall p | p in PlainYears(init) :: p in PlainYears(vs);
      CollectedWithinPlainBounds(init, lo, hi);
      if PresentString(last.years) {
        var tailP := InWindowYears(FourDigitMatches(last.years.value, 0));
        assert forall p | p in tailP :: p in PlainYears(vs);
        forall y | y in YearsIn(last.years.value)
          ensures lo <= y <= hi
        {
          ExpandedBetweenPlain(last.years.value, y);
        }
      }
    }
  }

  /** What `calculateYearRange` would return without the range expansion. */
  function PlainYearRange(coin: DbCoin): string {
    if coin.variants.None? || |coin.variants.value| == 0 then SummaryYears(coin)
    else
      var years := PlainYears(coin.variants.value);
      if |years| == 0 then SummaryYears(coin)
      else
        assert MinInt(years) in years && MaxInt(years) in years;
        YearLabel(MinInt(years), MaxInt(years))
  }

  /** When no `years` text holds a run of five or more digits, expanding the ranges
      never changes the answer: a range's two ends are four-digit matches themselves. */
  lemma RangeExpansionKeepsYearRange(coin: DbCoin)
    requires coin.variants.Some? ==>
      forall k | 0 <= k < |coin.variants.value| && coin.variants.value[k].years.Some? ::
        NoLongDigitRun(coin.variants.value[k].years.value)
    ensures YearRange(coin) == PlainYearRange(coin)
  {
    if coin.variants.Some? && |coin.variants.value| > 0 {
      var vs := coin.variants.value;
      var c := CollectedYears(vs);
      var p := PlainYears(vs);
      PlainYearsCollected(vs);
      if |p| == 0 {
        CollectedWithinPlainBounds(vs, 1, 0);
        assert |c| > 0 ==> c[0] in c;
      } else {
        var lo, hi := MinInt(p), MaxInt(p);
        CollectedWithinPlainBounds(vs, lo, hi);
        assert lo in c && hi in c;
        assert MinInt(c) == lo && MaxInt(c) == hi;
      }
    }
  }

  /** With a run of five digits the expansion can move the answer: in "11819-1837" the
      first regular expression finds 1181 and 1837, the second the range 1819-1837,
      so the start moves from 1837 to 1819. */
  lemma LongDigitRunMovesTheStart()
    ensures InWindowYears(FourDigitMatches("11819-1837", 0)) == [1837]
    ensures 1819 in YearsIn("11819-1837")
  {
    var s := "11819-1837";
    YearAtChars(s, 0, '1', '1', '8', '1');
    YearAtChars(s, 1, '1', '8', '1', '9');
    YearAtChars(s, 6, '1', '8', '3', '7');
    assert !IsDigit(s[5]);
    assert !DigitsAt(s, 4, 4) && !DigitsAt(s, 5, 4);
    assert FourDigitMatches(s, 6) == [1837];
    assert FourDigitMatches(s, 0) == [1181, 1837];
    assert InWindowYears([1181, 1837]) == [1837];
    assert !RangeAt(s, 0);
    assert RangeAt(s, 1);
    assert RangeMatches(s, 1) == [(1819, 1837)];
    IntervalMembers(1819, 1837, 1819);
    ExpandedMembers(RangeMatches(s, 0), 1819);
    YearsInMembers(s, 1819);
  }

  /** Four given digits at `i` read as their number. */
  lemma YearAtChars(s: string, i: int, a: char, b: char, c: char, d: char)
    requires 0 <= i && i + 4 <= |s| && s[i] == a && s[i + 1] == b && s[i + 2] == c && s[i + 3] == d
    requires IsDigit(a) && IsDigit(b) && IsDigit(c) && IsDigit(d)
    ensures DigitsAt(s, i, 4)
    ensures YearAt(s, i) == 1000 * DigitValue(a) + 100 * DigitValue(b) + 10 * DigitValue(c) + DigitValue(d)
  {
    ParseFour(s[i..i + 4]);
  }

  // ------------------------------------------------------------------ cards and order

  /** The slugs listed first, in this order. */
  const SILVER_ORDER: seq<string> := [
    "zilveren-tientje", "zilveren-rijksdaalder", "zilveren-gulden", "zilveren-vijftig-gulden",
    "zilveren-drie-gulden", "zilveren-halve-gulden", "zilveren-dukaat", "zilveren-kwartje",
    "zilveren-tien-cent", "zilveren-vijf-cent"]
}
