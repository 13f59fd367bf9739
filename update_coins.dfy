/** The database update script (update-coins.js): it checks every coin of the raw
    database, stops when any coin is invalid, and otherwise generates the calculator's
    coin list and variants and the two overview lists. Values are kept as JSON values
    where the script only tests their truthiness or copies them. */
module UpdateCoins {
  import opened Js

  /** A variant's `collectorsValueRange`: an object (with its `min` and `max`), or any
      other value (`undefined` when the key is absent). */
  datatype RawRange = RangeObject(min: Json, max: Json) | RangeOther(v: Json)

  /** A variant as read from the file; a number that is absent or `null` is `None`. */
  datatype RawVariant = RawVariant(
    id: Json,
    name: Json,
    years: Json,
    weight: Option<real>,
    goldPercentage: Option<real>,
    silverPercentage: Option<real>,
    collectorsValueRange: RawRange)

  datatype RawOverview = RawOverview(years: Json, weight: Json, metalContent: Json, description: Json)

  /** A coin as read from the file; `variants` and `overviewData` are `None` when absent. */
  datatype RawCoin = RawCoin(
    id: Json,
    name: Json,
    slug: Json,
    metalType: Json,
    variants: Option<seq<RawVariant>>,
    overviewData: Option<RawOverview>)

  datatype RawEntry = RawEntry(slug: string, coin: RawCoin)

  const GOLD: string := "GOLD"
  const SILVER: string := "SILVER"

  // ------------------------------------------------------------------ validateCoin

  /** One message of `validateCoin`, with the variant's index where it names one. */
  datatype CoinError =
    | MissingId | MissingName | MissingSlug | BadMetalType | NoVariants
    | VariantMissingId(idx: nat) | VariantMissingName(idx: nat) | BadWeight(idx: nat)
    | BadGoldPercentage(idx: nat) | BadSilverPercentage(idx: nat) | BadCollectorsRange(idx: nat)

  /** `['GOLD', 'SILVER'].includes(metalType)`. */
  predicate KnownMetal(metalType: Json) {
    metalType == Str(GOLD) || metalType == Str(SILVER)
  }

  /** The opposite of `!x || x <= 0`. */
  predicate Positive(x: Option<real>) {
    x.Some? && x.value > 0.0
  }

  /** A truthy range that is not an object with numeric `min` and `max`, both positive,
      `min <= max`. */
  predicate RangeRejected(r: RawRange) {
    match r
    case RangeOther(v) => Truthy(v)
    case RangeObject(min, max) => !(min.Num? && max.Num? && min.n > 0.0 && max.n > 0.0 && min.n <= max.n)
  }

  /** The messages about the coin itself, in the order the script checks. */
  function CoinLevelErrors(c: RawCoin): seq<CoinError> {
    (if !Truthy(c.id) then [MissingId] else [])
    + (if !Truthy(c.name) then [MissingName] else [])
    + (if !Truthy(c.slug) then [MissingSlug] else [])
    + (if !KnownMetal(c.metalType) then [BadMetalType] else [])
    + (if c.variants.None? || |c.variants.value| == 0 then [NoVariants] else [])
  }

  /** `[e]` when the check fails. */
  function Flag(failed: bool, e: CoinError): seq<CoinError> {
    if failed then [e] else []
  }

  /** The messages about variant number `idx`, in the order the script checks. */
  function VariantErrors(metalType: Json, v: RawVariant, idx: nat): seq<CoinError> {
    Flag(!Truthy(v.id), VariantMissingId(idx))
    + Flag(!Truthy(v.name), VariantMissingName(idx))
    + Flag(!Positive(v.weight), BadWeight(idx))
    + Flag(metalType == Str(GOLD) && !Positive(v.goldPercentage), BadGoldPercentage(idx))
    + Flag(metalType == Str(SILVER) && !Positive(v.silverPercentage), BadSilverPercentage(idx))
    + Flag(RangeRejected(v.collectorsValueRange), BadCollectorsRange(idx))
  }

  /** `f(xs[0], 0) + ... + f(xs[n - 1], n - 1)`: what a `forEach` with index pushes. */
  function ConcatUpTo<T, U>(f: (T, nat) -> seq<U>, xs: seq<T>, n: nat): seq<U>
    requires n <= |xs|
  {
    if n == 0 then [] else ConcatUpTo(f, xs, n - 1) + f(xs[n - 1], n - 1)
  }

  /** An element of the concatenation comes from one of its parts. */
  lemma {:induction false} ConcatUpToMembers<T, U>(f: (T, nat) -> seq<U>, xs: seq<T>, n: nat, u: U)
    requires n <= |xs|
    ensures u in ConcatUpTo(f, xs, n) <==> exists k | 0 <= k < n :: u in f(xs[k], k)
  {
    if n > 0 {
      ConcatUpToMembers(f, xs, n - 1, u);
    }
  }

  /** The concatenation up to `n` is a prefix of the one up to `m`. */
  lemma {:induction false} ConcatUpToPrefix<T, U>(f: (T, nat) -> seq<U>, xs: seq<T>, n: nat, m: nat)
    requires n <= m <= |xs|
    ensures |ConcatUpTo(f, xs, n)| <= |ConcatUpTo(f, xs, m)|
    decreases m - n
  {
    if n < m {
      ConcatUpToPrefix(f, xs, n, m - 1);
    }
  }

  /** The messages about the first `n` variants. */
  function VariantsErrors(metalType: Json, vs: seq<RawVariant>, n: nat): seq<CoinError>
    requires n <= |vs|
  {
    ConcatUpTo((v: RawVariant, k: nat) => VariantErrors(metalType, v, k), vs, n)
  }

  /** Everything `validateCoin` reports about a coin. */
  function CoinErrors(c: RawCoin): seq<CoinError> {
    CoinLevelErrors(c) + (if c.variants.Some? then VariantsErrors(c.metalType, c.variants.value, |c.variants.value|) else [])
  }

  /** The checks of the coin itself. */
  method CheckCoin(c: RawCoin) returns (errors: seq<CoinError>)
    ensures errors == CoinLevelErrors(c)
  {
    errors := [];
    if !Truthy(c.id) { errors := errors + [MissingId]; }
    if !Truthy(c.name) { errors := errors + [MissingName]; }
    if !Truthy(c.slug) { errors := errors + [MissingSlug]; }
    if !KnownMetal(c.metalType) { errors := errors + [BadMetalType]; }
    if c.variants.None? || |c.variants.value| == 0 { errors := errors + [NoVariants]; }
  }

  /** The body of `coin.variants?.forEach((variant, idx) => ...)`. */
  method CheckVariant(metalType: Json, v: RawVariant, idx: nat) returns (found: seq<CoinError>)
    ensures found == VariantErrors(metalType, v, idx)
  {
    found := [];
    if !Truthy(v.id) { found := found + [VariantMissingId(idx)]; }
    assert found == Flag(!Truthy(v.id), VariantMissingId(idx));
    if !Truthy(v.name) { found := found + [VariantMissingName(idx)]; }
    ghost var upTo2 := found;
    assert upTo2 == Flag(!Truthy(v.id), VariantMissingId(idx)) + Flag(!Truthy(v.name), VariantMissingName(idx));
    if !Positive(v.weight) { found := found + [BadWeight(idx)]; }
    assert found == upTo2 + Flag(!Positive(v.weight), BadWeight(idx));
    ghost var upTo3 := found;
    if metalType == Str(GOLD) && !Positive(v.goldPercentage) { found := found + [BadGoldPercentage(idx)]; }
    assert found == upTo3 + Flag(metalType == Str(GOLD) && !Positive(v.goldPercentage), BadGoldPercentage(idx));
    ghost var upTo4 := found;
    if metalType == Str(SILVER) && !Positive(v.silverPercentage) { found := found + [BadSilverPercentage(idx)]; }
    assert found == upTo4 + Flag(metalType == Str(SILVER) && !Positive(v.silverPercentage), BadSilverPercentage(idx));
    ghost var upTo5 := found;
    if RangeRejected(v.collectorsValueRange) { found := found + [BadCollectorsRange(idx)]; }
    assert found == upTo5 + Flag(RangeRejected(v.collectorsValueRange), BadCollectorsRange(idx));
  }

  /** `coin.variants?.forEach(...)` over a present variants list. */
  method CheckVariants(metalType: Json, vs: seq<RawVariant>) returns (errors: seq<CoinError>)
    ensures errors == VariantsErrors(metalType, vs, |vs|)
  {
    errors := [];
    for idx := 0 to |vs|
      invariant errors == VariantsErrors(metalType, vs, idx)
    {
      var found := CheckVariant(metalType, vs[idx], idx);
      errors := errors + found;
    }
  }

  /** `validateCoin(slug, coin)`. */
  method ValidateCoin(c: RawCoin) returns (errors: seq<CoinError>)
    ensures errors == CoinErrors(c)
  {
    errors := CheckCoin(c);
    if c.variants.Some? {
      var found := CheckVariants(c.metalType, c.variants.value);
      errors := errors + found;
    } else {
      assert errors + [] == errors;
    }
  }

  /** The variant a message is about, or -1 for a message about the coin. */
  function ErrorIndex(e: CoinError): int {
    if e.VariantMissingId? || e.VariantMissingName? || e.BadWeight? || e.BadGoldPercentage?
       || e.BadSilverPercentage? || e.BadCollectorsRange?
    then e.idx else -1
  }

  /** What is wrong with a variant when the message is reported. */
  predicate VariantFault(metalType: Json, v: RawVariant, e: CoinError) {
    match e
    case VariantMissingId(_) => !Truthy(v.id)
    case VariantMissingName(_) => !Truthy(v.name)
    case BadWeight(_) => !Positive(v.weight)
    case BadGoldPercentage(_) => metalType == Str(GOLD) && !Positive(v.goldPercentage)
    case BadSilverPercentage(_) => metalType == Str(SILVER) && !Positive(v.silverPercentage)
    case BadCollectorsRange(_) => RangeRejected(v.collectorsValueRange)
    case _ => false
  }

  /** What is wrong with the coin when the message is reported. */
  predicate Explains(c: RawCoin, e: CoinError) {
    match e
    case MissingId => !Truthy(c.id)
    case MissingName => !Truthy(c.name)
    case MissingSlug => !Truthy(c.slug)
    case BadMetalType => !KnownMetal(c.metalType)
    case NoVariants => c.variants.None? || |c.variants.value| == 0
    case _ => c.variants.Some? && 0 <= ErrorIndex(e) < |c.variants.value|
              && VariantFault(c.metalType, c.variants.value[ErrorIndex(e)], e)
  }

  /** The messages about one variant are exactly its faults. */
  lemma VariantErrorsMembers(metalType: Json, v: RawVariant, idx: nat, e: CoinError)
    ensures e in VariantErrors(metalType, v, idx) <==> ErrorIndex(e) == idx && VariantFault(metalType, v, e)
  {
    FlagsMembers(!Truthy(v.id), !Truthy(v.name), !Positive(v.weight),
      metalType == Str(GOLD) && !Positive(v.goldPercentage),
      metalType == Str(SILVER) && !Positive(v.silverPercentage),
      RangeRejected(v.collectorsValueRange), idx, e);
  }

  /** The six flags of one variant, with the checks' outcomes as parameters. */
  lemma FlagsMembers(b1: bool, b2: bool, b3: bool, b4: bool, b5: bool, b6: bool, idx: nat, e: CoinError)
    ensures e in Flag(b1, VariantMissingId(idx)) + Flag(b2, VariantMissingName(idx)) + Flag(b3, BadWeight(idx))
                 + Flag(b4, BadGoldPercentage(idx)) + Flag(b5, BadSilverPercentage(idx)) + Flag(b6, BadCollectorsRange(idx))
      <==> ErrorIndex(e) == idx
           && ((e.VariantMissingId? && b1) || (e.VariantMissingName? && b2) || (e.BadWeight? && b3)
               || (e.BadGoldPercentage? && b4) || (e.BadSilverPercentage? && b5) || (e.BadCollectorsRange? && b6))
  {
    InSix(Flag(b1, VariantMissingId(idx)), Flag(b2, VariantMissingName(idx)), Flag(b3, BadWeight(idx)),
      Flag(b4, BadGoldPercentage(idx)), Flag(b5, BadSilverPercentage(idx)), Flag(b6, BadCollectorsRange(idx)), e);
    FlagMembers(b1, VariantMissingId(idx), e);
    FlagMembers(b2, VariantMissingName(idx), e);
    FlagMembers(b3, BadWeight(idx), e);
    FlagMembers(b4, BadGoldPercentage(idx), e);
    FlagMembers(b5, BadSilverPercentage(idx), e);
    FlagMembers(b6, BadCollectorsRange(idx), e);
  }

  /** A flag holds its message exactly when the check failed. */
  lemma FlagMembers(failed: bool, e0: CoinError, e: CoinError)
    ensures e in Flag(failed, e0) <==> failed && e == e0
  {
  }

  /** Membership in six concatenated lists. */
  lemma InSix<T>(a: seq<T>, b: seq<T>, c: seq<T>, d: seq<T>, f: seq<T>, g: seq<T>, x: T)
    ensures x in a + b + c + d + f + g <==> x in a || x in b || x in c || x in d || x in f || x in g
  {
  }

  /** The messages about the coin itself are exactly its coin-level faults. */
  lemma CoinLevelMembers(c: RawCoin, e: CoinError)
    ensures e in CoinLevelErrors(c) <==> ErrorIndex(e) == -1 && Explains(c, e)
  {
  }

  /** Every message about a variant names one of its faults. */
  lemma ReportedVariantFault(c: RawCoin, e: CoinError)
    requires c.variants.Some?
    requires e in VariantsErrors(c.metalType, c.variants.value, |c.variants.value|)
    ensures ErrorIndex(e) != -1 && Explains(c, e)
  {
    var vs := c.variants.value;
    ConcatUpToMembers((v: RawVariant, k: nat) => VariantErrors(c.metalType, v, k), vs, |vs|, e);
    var k :| 0 <= k < |vs| && e in VariantErrors(c.metalType, vs[k], k);
    VariantErrorsMembers(c.metalType, vs[k], k, e);
  }

  /** Every fault of a variant is reported. */
  lemma VariantFaultReported(c: RawCoin, e: CoinError)
    requires c.variants.Some?
    requires ErrorIndex(e) != -1 && Explains(c, e)
    ensures e in VariantsErrors(c.metalType, c.variants.value, |c.variants.value|)
  {
    var vs := c.variants.value;
    var k := ErrorIndex(e);
    VariantErrorsMembers(c.metalType, vs[k], k, e);
    ConcatUpToMembers((v: RawVariant, k: nat) => VariantErrors(c.metalType, v, k), vs, |vs|, e);
  }

  /** A message is reported exactly when its reason holds. */
  lemma ErrorsExplained(c: RawCoin, e: CoinError)
    ensures e in CoinErrors(c) <==> Explains(c, e)
  {
    CoinLevelMembers(c, e);
    if c.variants.Some? {
      if e in VariantsErrors(c.metalType, c.variants.value, |c.variants.value|) {
        ReportedVariantFault(c, e);
      }
      if ErrorIndex(e) != -1 && Explains(c, e) {
        VariantFaultReported(c, e);
      }
    } else {
      assert CoinErrors(c) == CoinLevelErrors(c);
    }
  }

  /** A variant the script accepts. */
  predicate VariantWellFormed(metalType: Json, v: RawVariant) {
    Truthy(v.id) && Truthy(v.name) && Positive(v.weight)
    && (metalType == Str(GOLD) ==> Positive(v.goldPercentage))
    && (metalType == Str(SILVER) ==> Positive(v.silverPercentage))
    && !RangeRejected(v.collectorsValueRange)
  }

  /** A coin the script accepts, stated without the message list. */
  predicate WellFormed(c: RawCoin) {
    Truthy(c.id) && Truthy(c.name) && Truthy(c.slug) && KnownMetal(c.metalType)
    && c.variants.Some? && |c.variants.value| > 0
    && forall k | 0 <= k < |c.variants.value| :: VariantWellFormed(c.metalType, c.variants.value[k])
  }

  /** A coin without messages has well-formed variants. */
  lemma NoErrorsVariantsWellFormed(c: RawCoin, k: int)
    requires |CoinErrors(c)| == 0 && c.variants.Some? && 0 <= k < |c.variants.value|
    ensures VariantWellFormed(c.metalType, c.variants.value[k])
  {
    var vs := c.variants.value;
    var found := VariantErrors(c.metalType, vs[k], k);
    ConcatUpToPrefix((v: RawVariant, j: nat) => VariantErrors(c.metalType, v, j), vs, k + 1, |vs|);
    FlagsEmpty(!Truthy(vs[k].id), !Truthy(vs[k].name), !Positive(vs[k].weight),
      c.metalType == Str(GOLD) && !Positive(vs[k].goldPercentage),
      c.metalType == Str(SILVER) && !Positive(vs[k].silverPercentage),
      RangeRejected(vs[k].collectorsValueRange), k);
  }

  /** No message about a variant is reported only when all six checks pass. */
  lemma FlagsEmpty(b1: bool, b2: bool, b3: bool, b4: bool, b5: bool, b6: bool, idx: nat)
    ensures |Flag(b1, VariantMissingId(idx)) + Flag(b2, VariantMissingName(idx)) + Flag(b3, BadWeight(idx))
             + Flag(b4, BadGoldPercentage(idx)) + Flag(b5, BadSilverPercentage(idx)) + Flag(b6, BadCollectorsRange(idx))| == 0
      <==> !b1 && !b2 && !b3 && !b4 && !b5 && !b6
  {
  }

  /** A coin is valid, `errors.length === 0`, exactly when it is well formed. */
  lemma ValidIffWellFormed(c: RawCoin)
    ensures |CoinErrors(c)| == 0 <==> WellFormed(c)
  {
    if |CoinErrors(c)| == 0 {
      ErrorsExplained(c, MissingId);
      ErrorsExplained(c, MissingName);
      ErrorsExplained(c, MissingSlug);
      ErrorsExplained(c, BadMetalType);
      ErrorsExplained(c, NoVariants);
      forall k | 0 <= k < |c.variants.value|
        ensures VariantWellFormed(c.metalType, c.variants.value[k])
      {
        NoErrorsVariantsWellFormed(c, k);
      }
    } else {
      var e := CoinErrors(c)[0];
      ErrorsExplained(c, e);
    }
  }

  /** The validation loop over all coins: `hasErrors` is set exactly when some coin
      reports a message. */
  method ValidateAll(db: seq<RawEntry>) returns (hasErrors: bool)
    ensures hasErrors <==> exists i | 0 <= i < |db| :: |CoinErrors(db[i].coin)| > 0
  {
    hasErrors := false;
    for i := 0 to |db|
      invariant hasErrors <==> exists k | 0 <= k < i :: |CoinErrors(db[k].coin)| > 0
    {
      var errors := ValidateCoin(db[i].coin);
      if |errors| > 0 {
        hasErrors := true;
      }
    }
  }

  // ------------------------------------------------------------------ generateCalculatorData

  datatype MockCoin = MockCoin(id: Json, name: Json, slug: Json, metalType: Json)

  /** The one percentage a generated variant carries. */
  datatype MetalShare = GoldShare(goldPercentage: Option<real>) | SilverShare(silverPercentage: Option<real>)

  datatype MockVariant = MockVariant(
    id: Json,
    years: Json,
    name: Json,
    weight: Option<real>,
    share: MetalShare,
    collectorsValueRange: Option<RawRange>)

  /** `range &&` in the spread: the range is copied when it is truthy. */
  predicate RangeTruthy(r: RawRange) {
    r.RangeObject? || Truthy(r.v)
  }

  /** One generated variant: the gold percentage exactly for a GOLD coin, the silver
      percentage otherwise, and the range only when it is truthy. */
  function MockVariantOf(metalType: Json, v: RawVariant): (r: MockVariant)
    ensures r.id == v.id && r.years == v.years && r.name == v.name && r.weight == v.weight
    ensures r.share.GoldShare? <==> metalType == Str(GOLD)
    ensures r.share == (if metalType == Str(GOLD) then GoldShare(v.goldPercentage) else SilverShare(v.silverPercentage))
    ensures r.collectorsValueRange.Some? <==> RangeTruthy(v.collectorsValueRange)
    ensures r.collectorsValueRange.Some? ==> r.collectorsValueRange.value == v.collectorsValueRange
  {
    MockVariant(v.id, v.years, v.name, v.weight,
                if metalType == Str(GOLD) then GoldShare(v.goldPercentage) else SilverShare(v.silverPercentage),
                if RangeTruthy(v.collectorsValueRange) then Some(v.collectorsValueRange) else None)
  }

  /** `coin.variants.map(...)`. */
  function MockVariants(c: RawCoin): (r: seq<MockVariant>)
    requires c.variants.Some?
    ensures |r| == |c.variants.value|
    ensures forall k | 0 <= k < |r| :: r[k] == MockVariantOf(c.metalType, c.variants.value[k])
  {
    var vs := c.variants.value;
    seq(|vs|, k requires 0 <= k < |vs| => MockVariantOf(c.metalType, vs[k]))
  }

  /** No later entry has the same coin id. */
  predicate LastWithId(db: seq<RawEntry>, i: int, n: int)
    requires 0 <= i < |db| && n <= |db|
  {
    forall j | i < j < n :: db[j].coin.id != db[i].coin.id
  }

  /** `generateCalculatorData()`: one coin per entry, in order, and the variants under
      each coin id; when two coins share an id, the later one's variants stay. Only
      reached on a validated database, where every coin has its variants. */
  method GenerateCalculatorData(db: seq<RawEntry>) returns (mockCoins: seq<MockCoin>, mockVariants: map<Json, seq<MockVariant>>)
    requires forall i | 0 <= i < |db| :: db[i].coin.variants.Some?
    ensures |mockCoins| == |db|
    ensures forall i | 0 <= i < |db| ::
      mockCoins[i] == MockCoin(db[i].coin.id, db[i].coin.name, db[i].coin.slug, db[i].coin.metalType)
    ensures forall id :: id in mockVariants <==> exists i | 0 <= i < |db| :: db[i].coin.id == id
    ensures forall i | 0 <= i < |db| && LastWithId(db, i, |db|) :: mockVariants[db[i].coin.id] == MockVariants(db[i].coin)
  {
    mockCoins := [];
    mockVariants := map[];
    for i := 0 to |db|
      invariant |mockCoins| == i
      invariant forall k | 0 <= k < i ::
        mockCoins[k] == MockCoin(db[k].coin.id, db[k].coin.name, db[k].coin.slug, db[k].coin.metalType)
      invariant forall id :: id in mockVariants <==> exists k | 0 <= k < i :: db[k].coin.id == id
      invariant forall k | 0 <= k < i && LastWithId(db, k, i) :: mockVariants[db[k].coin.id] == MockVariants(db[k].coin)
    {
      var coin := db[i].coin;
      mockCoins := mockCoins + [MockCoin(coin.id, coin.name, coin.slug, coin.metalType)];
      mockVariants := mockVariants[coin.id := MockVariants(coin)];
    }
  }

  /** With two coins under one id, the map keeps the second coin's variants. */
  lemma LaterCoinWins(db: seq<RawEntry>, mockVariants: map<Json, seq<MockVariant>>, i: int, j: int)
    requires forall k | 0 <= k < |db| :: db[k].coin.variants.Some?
    requires forall id :: id in mockVariants <==> exists k | 0 <= k < |db| :: db[k].coin.id == id
    requires forall k | 0 <= k < |db| && LastWithId(db, k, |db|) :: mockVariants[db[k].coin.id] == MockVariants(db[k].coin)
    requires 0 <= i < j < |db| && db[i].coin.id == db[j].coin.id
    ensures exists k | j <= k < |db| :: mockVariants[db[i].coin.id] == MockVariants(db[k].coin)
    decreases |db| - j
  {
    if LastWithId(db, j, |db|) {
    } else {
      var k :| j < k < |db| && db[k].coin.id == db[j].coin.id;
      LaterCoinWins(db, mockVariants, i, k);
    }
  }

  // ------------------------------------------------------------------ generateOverviewData

  /** One row of an overview list; `contentKey` is the name of its content field. */
  datatype OverviewRow = OverviewRow(slug: Json, name: Json, years: Json, weight: Json,
                                     contentKey: string, content: Json, description: Json)

  /** The entries whose `metalType` is exactly `metalType`, in order. */
  function Selected(db: seq<RawEntry>, metalType: string): (r: seq<RawEntry>)
    ensures |r| <= |db|
  {
    if |db| == 0 then []
    else
      var last := db[|db| - 1];
      Selected(db[..|db| - 1], metalType) + (if last.coin.metalType == Str(metalType) then [last] else [])
  }

  /** The list holds an entry exactly when the entry has the metal. */
  lemma {:induction false} SelectedMembers(db: seq<RawEntry>, metalType: string, e: RawEntry)
    ensures e in Selected(db, metalType) <==> e in db && e.coin.metalType == Str(metalType)
  {
    if |db| > 0 {
      SelectedMembers(db[..|db| - 1], metalType, e);
      assert db == db[..|db| - 1] + [db[|db| - 1]];
    }
  }

  /** `${metalType.toLowerCase()}Content`. */
  function ContentKey(metalType: string): string {
    ToLower(metalType) + "Content"
  }

  /** The row of a coin with its `overviewData`. */
  function OverviewRowOf(c: RawCoin, metalType: string): OverviewRow
    requires c.overviewData.Some?
  {
    var o := c.overviewData.value;
    OverviewRow(c.slug, c.name, o.years, o.weight, ContentKey(metalType), o.metalContent, o.description)
  }

  /** Every selected coin has its `overviewData`; reading a field of a missing one throws. */
  predicate AllHaveOverview(entries: seq<RawEntry>) {
    forall k | 0 <= k < |entries| :: entries[k].coin.overviewData.Some?
  }

  /** The rows of the selected coins, in order. */
  function OverviewRows(entries: seq<RawEntry>, metalType: string): (rows: seq<OverviewRow>)
    requires AllHaveOverview(entries)
    ensures |rows| == |entries|
    ensures forall k | 0 <= k < |rows| :: rows[k] == OverviewRowOf(entries[k].coin, metalType)
  {
    seq(|entries|, k requires 0 <= k < |entries| => OverviewRowOf(entries[k].coin, metalType))
  }

  /** `generateOverviewData(metalType)`: a row for each coin of the metal, in order, or
      the slug of the first such coin without `overviewData`, where the script throws. */
  method GenerateOverviewData(db: seq<RawEntry>, metalType: string) returns (r: Result<seq<OverviewRow>, string>)
    ensures r.Ok? <==> AllHaveOverview(Selected(db, metalType))
    ensures r.Ok? ==> r.value == OverviewRows(Selected(db, metalType), metalType)
    ensures r.Err? ==> exists k | 0 <= k < |db| ::
      db[k].slug == r.error && db[k].coin.metalType == Str(metalType) && db[k].coin.overviewData.None?
  {
    var coinsData := [];
    for i := 0 to |db|
      invariant AllHaveOverview(Selected(db[..i], metalType))
      invariant coinsData == OverviewRows(Selected(db[..i], metalType), metalType)
    {
      assert db[..i + 1][..i] == db[..i];
      var entry := db[i];
      if entry.coin.metalType == Str(metalType) {
        if entry.coin.overviewData.None? {
          SelectedMembers(db, metalType, entry);
          var sel := Selected(db, metalType);
          var k :| 0 <= k < |sel| && sel[k] == entry;
          return Err(entry.slug);
        }
        coinsData := coinsData + [OverviewRowOf(entry.coin, metalType)];
      }
    }
    assert db[..|db|] == db;
    return Ok(coinsData);
  }

  /** An overview list shows exactly the coins of its metal, one row each, with the
      content field named after the metal. */
  lemma OverviewRowsExactlyMetal(db: seq<RawEntry>, metalType: string, e: RawEntry)
    requires AllHaveOverview(Selected(db, metalType))
    ensures var rows := OverviewRows(Selected(db, metalType), metalType);
      && (e in Selected(db, metalType) <==> e in db && e.coin.metalType == Str(metalType))
      && |rows| == |Selected(db, metalType)|
      && forall k | 0 <= k < |rows| :: rows[k].slug == Selected(db, metalType)[k].coin.slug
                                      && rows[k].contentKey == ToLower(metalType) + "Content"
  {
    SelectedMembers(db, metalType, e);
  }

  // ------------------------------------------------------------------ the run

  datatype RunOutcome =
    | Aborted
    | Updated(mockCoins: seq<MockCoin>, mockVariants: map<Json, seq<MockVariant>>,
              gold: Result<seq<OverviewRow>, string>, silver: Result<seq<OverviewRow>, string>)

  /** The script: validation first, and the generators only when every coin is valid. */
  method Run(db: seq<RawEntry>) returns (outcome: RunOutcome)
    ensures outcome.Aborted? <==> exists i | 0 <= i < |db| :: |CoinErrors(db[i].coin)| > 0
    ensures outcome.Updated? ==>
      (|outcome.mockCoins| == |db|
       && (outcome.gold.Ok? <==> AllHaveOverview(Selected(db, GOLD)))
       && (outcome.silver.Ok? <==> AllHaveOverview(Selected(db, SILVER))))
  {
    var hasErrors := ValidateAll(db);
    if hasErrors {
      return Aborted;
    }
    forall i | 0 <= i < |db|
      ensures db[i].coin.variants.Some?
    {
      ValidIffWellFormed(db[i].coin);
    }
    var mockCoins, mockVariants := GenerateCalculatorData(db);
    var gold := GenerateOverviewData(db, GOLD);
    var silver := GenerateOverviewData(db, SILVER);
    return Updated(mockCoins, mockVariants, gold, silver);
  }
}
