/** The small part of the JavaScript runtime that the modelled code relies on:
    truthiness, the String and Array methods it calls, Math.min/max/round,
    Number.prototype.toFixed and the UTC calendar day of a millisecond timestamp.
    Numbers are exact reals (IEEE-754 rounding is not modelled). */
module Js {

  datatype Option<+T> = None | Some(value: T)

  datatype Result<+T, +E> = Ok(value: T) | Err(error: E)

  /** A JSON value after `request.json()`; the contents of objects and arrays are not modelled. */
  datatype Json = Undefined | Null | Bool(b: bool) | Num(n: real) | Str(s: string) | Compound

  /** JavaScript truthiness of a JSON value (`if (v)`, `!v`, `v || d`). */
  predicate Truthy(v: Json) {
    match v
    case Undefined => false
    case Null => false
    case Bool(b) => b
    case Num(n) => n != 0.0
    case Str(s) => s != ""
    case Compound => true
  }

  /** Truthiness of an optional string (a header, an environment variable). */
  predicate PresentString(s: Option<string>) {
    s.Some? && s.value != ""
  }

  /** Truthiness of an optional number: absent and zero are both falsy. */
  predicate PresentReal(x: Option<real>) {
    x.Some? && x.value != 0.0
  }

  predicate PresentInt(x: Option<int>) {
    x.Some? && x.value != 0
  }

  /** `x || d` for an optional string. */
  function StringOr(s: Option<string>, d: string): (r: string)
    ensures PresentString(s) ==> r == s.value
    ensures !PresentString(s) ==> r == d
  {
    if PresentString(s) then s.value else d
  }

  // ---------------------------------------------------------------- strings

  /** The WhiteSpace and LineTerminator code points that `String.prototype.trim` removes. */
  predicate IsWhitespace(c: char) {
    c == ' ' || c == '\t' || c == '\n' || c == '\r' || c == '\U{000B}' || c == '\U{000C}'
    || c == '\U{00A0}' || c == '\U{1680}' || ('\U{2000}' <= c <= '\U{200A}')
    || c == '\U{2028}' || c == '\U{2029}' || c == '\U{202F}' || c == '\U{205F}'
    || c == '\U{3000}' || c == '\U{FEFF}'
  }

  function TrimStart(s: string): (r: string)
    ensures |r| <= |s| && r == s[|s| - |r|..]
    ensures forall i :: 0 <= i < |s| - |r| ==> IsWhitespace(s[i])
    ensures r == [] || !IsWhitespace(r[0])
  {
    if |s| > 0 && IsWhitespace(s[0]) then TrimStart(s[1..]) else s
  }

  function TrimEnd(s: string): (r: string)
    ensures |r| <= |s| && r == s[..|r|]
    ensures forall i :: |r| <= i < |s| ==> IsWhitespace(s[i])
    ensures r == [] || !IsWhitespace(r[|r| - 1])
  {
    if |s| > 0 && IsWhitespace(s[|s| - 1]) then TrimEnd(s[..|s| - 1]) else s
  }

  /** `String.prototype.trim`. */
  function Trim(s: string): (r: string)
    ensures |r| <= |s|
    ensures r == [] || (!IsWhitespace(r[0]) && !IsWhitespace(r[|r| - 1]))
  {
    TrimEnd(TrimStart(s))
  }

  /** `s.slice(0, n)`. */
  function Take(s: string, n: nat): (r: string)
    ensures |r| == if |s| < n then |s| else n
    ensures r <= s
  {
    if |s| <= n then s else s[..n]
  }

  /** `toUpperCase` on one character; only the ASCII letters are mapped. */
  function UpperChar(c: char): (u: char)
    ensures !('a' <= u <= 'z')
  {
    if 'a' <= c <= 'z' then (c as int - 32) as char else c
  }

  function LowerChar(c: char): (l: char)
    ensures !('A' <= l <= 'Z')
  {
    if 'A' <= c <= 'Z' then (c as int + 32) as char else c
  }

  function ToUpper(s: string): (r: string)
    ensures |r| == |s|
    ensures forall i :: 0 <= i < |s| ==> r[i] == UpperChar(s[i])
  {
    seq(|s|, i requires 0 <= i < |s| => UpperChar(s[i]))
  }

  function ToLower(s: string): (r: string)
    ensures |r| == |s|
    ensures forall i :: 0 <= i < |s| ==> r[i] == LowerChar(s[i])
  {
    seq(|s|, i requires 0 <= i < |s| => LowerChar(s[i]))
  }

  /** `pat` occurs in `s` starting at position `i`. */
  predicate OccursAt(s: string, pat: string, i: int) {
    0 <= i && i + |pat| <= |s| && s[i..i + |pat|] == pat
  }

  /** `s.includes(sub)`. */
  predicate Includes(s: string, sub: string) {
    exists i | 0 <= i <= |s| - |sub| :: OccursAt(s, sub, i)
  }

  lemma OccursAtTail(s: string, pat: string, i: int)
    requires |s| > 0 && i >= 0
    ensures OccursAt(s[1..], pat, i) <==> OccursAt(s, pat, i + 1)
  {
    if 0 <= i && i + |pat| <= |s| - 1 {
      assert s[1..][i..i + |pat|] == s[i + 1..i + 1 + |pat|];
    }
  }

  /** `s.indexOf(pat)`: the first position at which `pat` occurs, or -1. */
  function IndexOf(s: string, pat: string): (k: int)
    ensures k >= 0 ==> OccursAt(s, pat, k)
    ensures k >= 0 ==> forall j :: 0 <= j < k ==> !OccursAt(s, pat, j)
    ensures k == -1 <==> !Includes(s, pat)
    ensures k >= -1
    decreases |s|
  {
    if |pat| > |s| then -1
    else if s[..|pat|] == pat then
      assert OccursAt(s, pat, 0);
      0
    else
      var k' := IndexOf(s[1..], pat);
      assert !OccursAt(s, pat, 0);
      forall i | OccursAt(s, pat, i) ensures i >= 1 && OccursAt(s[1..], pat, i - 1) {
        OccursAtTail(s, pat, i - 1);
      }
      if k' == -1 then -1
      else
        OccursAtTail(s, pat, k');
        forall j | 1 <= j < k' + 1 ensures !OccursAt(s, pat, j) {
          OccursAtTail(s, pat, j - 1);
        }
        k' + 1
  }

  /** `s.replace(pat, rep)` with a string pattern: only the first occurrence is replaced. */
  function ReplaceFirst(s: string, pat: string, rep: string): (r: string)
    ensures !Includes(s, pat) ==> r == s
    ensures OccursAt(s, pat, 0) ==> r == rep + s[|pat|..]
  {
    var k := IndexOf(s, pat);
    if k == -1 then s else s[..k] + rep + s[k + |pat|..]
  }

  /** `s.split(sep)` with a one-character separator. */
  function Split(s: string, sep: char): (parts: seq<string>)
    ensures |parts| >= 1
    ensures forall p :: p in parts ==> sep !in p
  {
    if sep !in s then [s]
    else
      var k := FirstIndex(s, sep);
      [s[..k]] + Split(s[k + 1..], sep)
  }

  /** `parts.join(sep)`: the inverse of `Split`. */
  function Join(parts: seq<string>, sep: char): string
    requires |parts| >= 1
  {
    if |parts| == 1 then parts[0] else parts[0] + [sep] + Join(parts[1..], sep)
  }

  lemma {:induction false} JoinSplit(s: string, sep: char)
    ensures Join(Split(s, sep), sep) == s
    decreases |s|
  {
    if sep in s {
      var k := FirstIndex(s, sep);
      JoinSplit(s[k + 1..], sep);
      assert s == s[..k] + [sep] + s[k + 1..];
    }
  }

  /** Splitting two separator-free pieces joined by the separator gives them back. */
  lemma SplitPair(a: string, b: string, sep: char)
    requires sep !in a && sep !in b
    ensures Split(a + [sep] + b, sep) == [a, b]
  {
    var s := a + [sep] + b;
    assert s[..|a|] == a;
    FirstIndexAt(s, sep, |a|);
    assert s[|a| + 1..] == b;
  }

  /** The first occurrence is at `i` when `x` is at `i` and not before it. */
  lemma {:induction false} FirstIndexAt<T>(xs: seq<T>, x: T, i: nat)
    requires i < |xs| && xs[i] == x && x !in xs[..i]
    ensures FirstIndex(xs, x) == i
  {
    if i > 0 {
      assert xs[0] in xs[..i];
      assert xs[1..][..i - 1] == xs[..i][1..];
      FirstIndexAt(xs[1..], x, i - 1);
    }
  }

  /** Position of the first occurrence of an element (`indexOf` on an array), or -1. */
  function FirstIndex<T(==)>(xs: seq<T>, x: T): (k: int)
    ensures -1 <= k < |xs|
    ensures k >= 0 ==> xs[k] == x && x !in xs[..k]
    ensures k == -1 <==> x !in xs
  {
    if |xs| == 0 then -1
    else if xs[0] == x then 0
    else
      var k' := FirstIndex(xs[1..], x);
      assert xs == [xs[0]] + xs[1..];
      if k' == -1 then -1
      else
        assert xs[..k' + 1] == [xs[0]] + xs[1..][..k'];
        k' + 1
  }

  // ---------------------------------------------------------------- numbers as text

  predicate IsDigit(c: char) {
    '0' <= c <= '9'
  }

  function DigitChar(d: nat): (c: char)
    requires d < 10
    ensures IsDigit(c)
  {
    ('0' as int + d) as char
  }

  function DigitValue(c: char): (d: nat)
    requires IsDigit(c)
    ensures d < 10
  {
    c as int - '0' as int
  }

  /** `parseInt` of a string made of decimal digits only. */
  function ParseDigits(s: string): nat
    requires forall i :: 0 <= i < |s| ==> IsDigit(s[i])
  {
    if |s| == 0 then 0 else 10 * ParseDigits(s[..|s| - 1]) + DigitValue(s[|s| - 1])
  }

  /** `n.toString()` for a natural number. */
  function NatToString(n: nat): (s: string)
    ensures |s| >= 1
    ensures forall i :: 0 <= i < |s| ==> IsDigit(s[i])
  {
    if n < 10 then [DigitChar(n)] else NatToString(n / 10) + [DigitChar(n % 10)]
  }

  /** `n.toString()` for an integer. */
  function IntToString(n: int): string {
    if n < 0 then "-" + NatToString(-n) else NatToString(n)
  }

  lemma {:induction false} ParseNatToString(n: nat)
    ensures ParseDigits(NatToString(n)) == n
  {
    if n >= 10 {
      var s := NatToString(n);
      ParseNatToString(n / 10);
      assert s[..|s| - 1] == NatToString(n / 10);
    }
  }

  /** Four-digit numbers are written with exactly four characters. */
  lemma FourDigitString(n: nat)
    requires 1000 <= n < 10000
    ensures |NatToString(n)| == 4
  {
    assert |NatToString(n / 1000)| == 1;
    assert (n / 10) / 10 == n / 100 && (n / 100) / 10 == n / 1000;
    assert |NatToString(n / 100)| == 2;
    assert |NatToString(n / 10)| == 3;
  }

  // ---------------------------------------------------------------- Math.min / Math.max

  function MinInt(xs: seq<int>): (m: int)
    requires |xs| > 0
    ensures m in xs
    ensures forall x :: x in xs ==> m <= x
  {
    if |xs| == 1 then xs[0]
    else
      var m' := MinInt(xs[1..]);
      assert xs == [xs[0]] + xs[1..];
      if xs[0] <= m' then xs[0] else m'
  }

  function MaxInt(xs: seq<int>): (m: int)
    requires |xs| > 0
    ensures m in xs
    ensures forall x :: x in xs ==> x <= m
  {
    if |xs| == 1 then xs[0]
    else
      var m' := MaxInt(xs[1..]);
      assert xs == [xs[0]] + xs[1..];
      if xs[0] >= m' then xs[0] else m'
  }

  function MinReal(xs: seq<real>): (m: real)
    requires |xs| > 0
    ensures m in xs
    ensures forall x :: x in xs ==> m <= x
  {
    if |xs| == 1 then xs[0]
    else
      var m' := MinReal(xs[1..]);
      assert xs == [xs[0]] + xs[1..];
      if xs[0] <= m' then xs[0] else m'
  }

  function MaxReal(xs: seq<real>): (m: real)
    requires |xs| > 0
    ensures m in xs
    ensures forall x :: x in xs ==> x <= m
  {
    if |xs| == 1 then xs[0]
    else
      var m' := MaxReal(xs[1..]);
      assert xs == [xs[0]] + xs[1..];
      if xs[0] >= m' then xs[0] else m'
  }

  // ---------------------------------------------------------------- rounding

  function Pow10(d: nat): (p: nat)
    ensures p >= 1
  {
    if d == 0 then 1 else 10 * Pow10(d - 1)
  }

  /** `parseFloat(x.toFixed(d))` on the exact value of `x`: the nearest multiple of
      10^-d, ties away from zero. */
  function ToFixed(x: real, d: nat): real {
    var scale := Pow10(d) as real;
    if x >= 0.0 then RoundScaledHalfUp(x, scale) else -RoundScaledHalfUp(-x, scale)
  }

  /** The multiple of 1/s nearest to v, ties upwards. */
  function RoundScaledHalfUp(v: real, s: real): real
    requires s > 0.0
  {
    ((v * s + 0.5).Floor as real) / s
  }

  /** `Math.round(x)`: the nearest integer, ties towards +infinity. */
  function MathRound(x: real): int {
    (x + 0.5).Floor
  }

  lemma RoundedWithinHalf(y: real)
    ensures y - 0.5 < (y + 0.5).Floor as real <= y + 0.5
  {
  }

  /** Rounding a non-negative value at scale `s` moves it by at most half a unit. */
  lemma RoundScaled(v: real, s: real)
    requires v >= 0.0 && s > 0.0
    ensures v - 0.5 / s <= RoundScaledHalfUp(v, s) <= v + 0.5 / s
  {
    var y := v * s;
    var f := (y + 0.5).Floor as real;
    RoundedWithinHalf(y);
    DivideMonotone(y - 0.5, f, s);
    DivideMonotone(f, y + 0.5, s);
    assert y / s == v;
    assert (y - 0.5) / s == y / s - 0.5 / s;
    assert (y + 0.5) / s == y / s + 0.5 / s;
  }

  /** toFixed moves a value by at most half a unit of its last kept decimal. */
  lemma ToFixedError(x: real, d: nat)
    ensures var half := 0.5 / (Pow10(d) as real);
      x - half <= ToFixed(x, d) <= x + half
  {
    var scale := Pow10(d) as real;
    if x >= 0.0 {
      RoundScaled(x, scale);
    } else {
      RoundScaled(-x, scale);
    }
  }

  lemma DivideMonotone(a: real, b: real, s: real)
    requires a <= b && s > 0.0
    ensures a / s <= b / s
  {
    assert b / s - a / s == (b - a) / s;
  }

  /** toFixed keeps the sign of a non-negative value. */
  lemma ToFixedNonNegative(x: real, d: nat)
    requires x >= 0.0
    ensures ToFixed(x, d) >= 0.0
  {
    var scale := Pow10(d) as real;
    assert (x * scale + 0.5).Floor >= 0;
    DivideMonotone(0.0, (x * scale + 0.5).Floor as real, scale);
  }

  /** toFixed preserves the order of non-negative values. */
  lemma ToFixedMonotone(x: real, y: real, d: nat)
    requires 0.0 <= x <= y
    ensures ToFixed(x, d) <= ToFixed(y, d)
  {
    RoundScaledMonotone(x, y, Pow10(d) as real);
  }

  lemma RoundScaledMonotone(v: real, w: real, s: real)
    requires v <= w && s > 0.0
    ensures RoundScaledHalfUp(v, s) <= RoundScaledHalfUp(w, s)
  {
    assert v * s <= w * s;
    var fv := (v * s + 0.5).Floor;
    var fw := (w * s + 0.5).Floor;
    assert fv as real <= v * s + 0.5 <= w * s + 0.5 < fw as real + 1.0;
    assert (fv as real) < ((fw + 1) as real);
    assert fv <= fw;
    DivideMonotone(fv as real, fw as real, s);
  }

  // ---------------------------------------------------------------- time

  const SECOND_MS: int := 1000
  const DAY_MS: int := 24 * 60 * 60 * 1000

  /** `new Date(ms).toISOString().split('T')[0]` as a UTC day number. */
  function DayOf(ms: int): int {
    ms / DAY_MS
  }

  /** Largest magnitude of a valid `Date`; `toISOString` throws beyond it. */
  const MAX_DATE_MS: int := 8_640_000_000_000_000

  predicate IsoRepresentable(ms: int) {
    -MAX_DATE_MS <= ms <= MAX_DATE_MS
  }

  lemma DayOfMonotone(a: int, b: int)
    requires a <= b
    ensures DayOf(a) <= DayOf(b)
  {
  }
}
