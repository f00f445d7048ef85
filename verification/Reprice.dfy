/** internal/billing/reprice.go: recovering the charge of a row that had no price. */
module Reprice {
  import opened Arithmetic
  import opened Cost
  import Text
  import Marker

  datatype Format = Chat | Responses | ResponsesWS | Anthropic | Images | Search

  datatype Usage = Usage(
    id: int64, userId: int64, groupId: int64,
    model: string, mappedModel: string, format: Format, billingTier: string,
    inputTokens: int64, outputTokens: int64, totalTokens: int64,
    cacheReadTokens: int64, cacheCreationTokens: int64, callCount: int64,
    upstreamMultiplier: Option<int64>)

  /** The billing columns written back to the row. */
  datatype Repriced = Repriced(
    id: int64, billingTier: string,
    priceInput: Option<int64>, priceOutput: Option<int64>,
    priceCacheRead: Option<int64>, priceCacheCreation: Option<int64>, pricePerCall: Option<int64>,
    rawCost: int64, money: Money)

  /** Charge, and upstream economics when the upstream multiplier is known. */
  datatype Money = Money(cost: int64, upstream: Option<int64>, profit: Option<int64>, margin: Option<int64>)

  /** ResolvePrices at the row's creation time: model, prompt tokens, tier. */
  type Resolver = (string, int64, string) -> (Prices, bool)

  const DEFAULT_SEARCH_PRICE: int64 := 1000

  predicate NonNegative(p: Option<int64>) { p.Some? && p.value >= 0 }

  predicate IsResponses(f: Format) { f == Responses || f == ResponsesWS }

  function PricingPromptTokens(u: Usage): (r: int64)
  {
    var prompt := u.inputTokens;
    if (u.format == Chat || IsResponses(u.format))
       && u.cacheReadTokens > 0 && prompt <= INT64_MAX - u.cacheReadTokens
    then prompt + u.cacheReadTokens
    else prompt
  }

  predicate ResolvedPricesUsable(u: Usage, rp: Prices) {
    match u.format
    case Images =>
      && (if rp.imgIn.Some? || rp.imgOut.Some?
          then && (u.inputTokens > 0 ==> NonNegative(rp.imgIn))
               && (u.outputTokens > 0 ==> NonNegative(rp.imgOut))
          else u.inputTokens > 0 || u.outputTokens > 0 ==> NonNegative(rp.perImage))
      && !(u.callCount > 0 && !NonNegative(rp.perImage) && u.inputTokens == 0 && u.outputTokens == 0)
    case Search => u.callCount <= 0 || NonNegative(rp.perCall)
    case _ =>
      if u.callCount > 0 && IsResponses(u.format) && !NonNegative(rp.perImage) then false
      else if u.inputTokens > 0 || u.outputTokens > 0 || u.totalTokens > 0
      then NonNegative(rp.input) && NonNegative(rp.output)
      else true
  }

  function WithCacheFallback(u: Usage, rp: Prices): Prices {
    if rp.input.None? then rp
    else
      var rp1 := if u.cacheReadTokens > 0 && rp.cacheRead.None? then rp.(cacheRead := rp.input) else rp;
      if u.cacheCreationTokens > 0 && rp1.cacheWrite.None? then rp1.(cacheWrite := rp1.input) else rp1
  }

  /** The unrounded raw amount of a row under given prices. */
  function RawParts(u: Usage, rp: Prices): (p: CostParts)
    ensures p.Normal()
  {
    match u.format
    case Images => ImageCostPartsFromResolved(rp, u.inputTokens, u.outputTokens, u.callCount)
    case Search => CostParts(CallCostFromResolved(rp, u.callCount), 0)
    case _ =>
      var image := if u.callCount > 0 && rp.perImage.Some?
                   then AddCostParts(CostParts(0, 0), ImageCostPartsFromResolved(rp, 0, 0, u.callCount))
                   else CostParts(0, 0);
      AddCostParts(image, CostPartsFromResolved(rp, u.inputTokens, u.outputTokens, u.cacheReadTokens,
                                                u.cacheCreationTokens))
  }

  function RawCost(u: Usage, rp: Prices): int64 { RoundCostParts(RawParts(u, rp)) }

  /** Charge and economics from the raw amount; m is the recovered multiplier. */
  function Settle(raw: int64, m: int64, upstreamMultiplier: Option<int64>): (r: Money)
  {
    var scaled := ApplyMultiplier(raw, m);
    var cost: int64 := if raw > 0 && scaled == 0 && m > 0 then 1 else scaled;
    if upstreamMultiplier.None? then Money(cost, None, None, None)
    else
      var upstream := ApplyUpstreamMultiplier(raw, upstreamMultiplier.value);
      var profit: int64 := cost - upstream;
      Money(cost, Some(upstream), Some(profit), if cost > 0 then Some(SignedMulDivBP(profit, cost)) else None)
  }

  function PriceColumns(u: Usage, rp: Prices, tier: string, m: int64): Repriced {
    var money := Settle(RawCost(u, rp), m, u.upstreamMultiplier);
    var perImage := if u.callCount > 0 then rp.perImage else None;
    match u.format
    case Images =>
      Repriced(u.id, tier, rp.imgIn, rp.imgOut, None, None, perImage, RawCost(u, rp), money)
    case Search =>
      Repriced(u.id, tier, None, None, None, None, rp.perCall, RawCost(u, rp), money)
    case _ =>
      Repriced(u.id, tier, rp.input, rp.output,
               if u.cacheReadTokens > 0 then rp.cacheRead else None,
               if u.cacheCreationTokens > 0 then rp.cacheWrite else None,
               perImage, RawCost(u, rp), money)
  }

  /** The resolved prices a row is charged with, or None while it must stay unpriced. */
  function UsablePrices(u: Usage, resolver: Option<Resolver>): Option<Prices> {
    var mapped := Text.Trim(u.mappedModel);
    var model := if mapped == "" then Text.Trim(u.model) else mapped;
    if model == "" || resolver.None? then None
    else
      var (resolved, found) := resolver.value(model, PricingPromptTokens(u), Marker.RecoveryTier(u.billingTier));
      var defaulted := u.format == Search && (!found || !NonNegative(resolved.perCall));
      var rp := if defaulted then resolved.(perCall := Some(DEFAULT_SEARCH_PRICE)) else resolved;
      if (found || defaulted) && ResolvedPricesUsable(u, rp) then Some(rp) else None
  }

  function RepriceUsage(u: Usage, resolver: Option<Resolver>, multiplier: int64): Option<Repriced> {
    var rp := UsablePrices(u, resolver);
    if rp.None? then None
    else
      var shown := if u.format == Images || u.format == Search then rp.value else WithCacheFallback(u, rp.value);
      Some(PriceColumns(u, shown, Marker.RecoveryTier(u.billingTier),
                        Marker.RecoveryMultiplier(u.billingTier, multiplier)))
  }

  /** signedMulDivBP: value * 10000 / divisor through a 128-bit product and uint64 quotient. */
  function SignedMulDivBP(value: int64, divisor: int64): (r: int64)
  {
    if value == 0 || divisor <= 0 then 0
    else
      var magnitude: int64 := MulDivMagnitude(Abs(value) * 10_000, divisor);
      if value < 0 then -magnitude else magnitude
  }

  function MulDivMagnitude(product: nat, divisor: nat): (r: int64)
    requires divisor > 0
    ensures r >= 0
  {
    if product / UINT64_RANGE >= divisor then INT64_MAX
    else
      var quotient: nat := product / divisor;
      var rounded := if product % divisor >= (divisor + 1) / 2 then (quotient + 1) % UINT64_RANGE else quotient;
      if rounded > INT64_MAX then INT64_MAX else rounded
  }

  // ----- The margin quotient: exact unless the rounding increment wraps -----

  /** The largest uint64 quotient, about to be rounded up. */
  predicate IncrementWraps(value: int64, divisor: int64)
    requires divisor > 0
  {
    var product := Abs(value) * 10_000;
    product / divisor == UINT64_RANGE - 1 && product % divisor >= (divisor + 1) / 2
  }

  ghost function SaturatedMargin(value: int64, divisor: int64): int64
    requires divisor > 0
  {
    Min(Max(HalfAway(value * 10_000, divisor), INT64_MIN + 1), INT64_MAX)
  }

  lemma HalfUpOfQuotient(n: nat, d: nat)
    requires d > 0
    ensures HalfUp(n, d) == n / d + if n % d >= (d + 1) / 2 then 1 else 0
  {
    assert n == d * (n / d) + n % d;
    HalfUpFromParts(n / d, n % d, d);
  }

  lemma QuotientBelowRange(product: nat, d: nat)
    requires d > 0
    ensures product / UINT64_RANGE >= d <==> product / d >= UINT64_RANGE
  {
    assert product == d * (product / d) + product % d;
    if product / d >= UINT64_RANGE {
      MulMonotone(UINT64_RANGE, product / d, d);
    } else {
      MulMonotone(product / d + 1, UINT64_RANGE, d);
    }
  }

  lemma MulDivMagnitudeExactIff(product: nat, d: nat)
    requires d > 0
    ensures MulDivMagnitude(product, d) == Min(HalfUp(product, d), INT64_MAX)
       <==> !(product / d == UINT64_RANGE - 1 && product % d >= (d + 1) / 2)
  {
    HalfUpOfQuotient(product, d);
    QuotientBelowRange(product, d);
  }

  /** Exact and saturating for every value and divisor except where the increment wraps to zero. */
  lemma SignedMulDivBPExactIff(value: int64, divisor: int64)
    requires divisor > 0
    ensures SignedMulDivBP(value, divisor) == SaturatedMargin(value, divisor) <==> !IncrementWraps(value, divisor)
  {
    MulDivMagnitudeExactIff(Abs(value) * 10_000, divisor);
    assert Abs(value * 10_000) == Abs(value) * 10_000;
    if value == 0 {
      HalfUpFromParts(0, 0, divisor);
    }
  }

  /** A concrete wrap: the margin comes out 0 instead of INT64_MAX. */
  lemma SignedMulDivBPWraps()
    ensures IncrementWraps(970298738277122415, 526)
    ensures SignedMulDivBP(970298738277122415, 526) == 0
  {
  }

  // ----- Recovery arithmetic end to end -----

  /** The exact raw amount of a row in 1/SCALE units. */
  ghost function ExactRaw(u: Usage, rp: Prices): nat {
    match u.format
    case Images => ImageTotal(rp, u.inputTokens, u.outputTokens, u.callCount)
    case Search => SCALE * (if u.callCount > 0 && PriceOf(rp.perCall) > 0
                            then Min(u.callCount * PriceOf(rp.perCall), IMAGE_TOTAL_CAP) else 0)
    case _ => ImageTotal(rp, 0, 0, u.callCount)
              + TokenTotal(rp, u.inputTokens, u.outputTokens, u.cacheReadTokens, u.cacheCreationTokens)
  }

  lemma RawPartsExact(u: Usage, rp: Prices)
    ensures RawParts(u, rp).Exact() == ExactRaw(u, rp) <= SCALE * (2 * IMAGE_TOTAL_CAP)
  {
  }

  lemma RawCostExact(u: Usage, rp: Prices)
    ensures RawCost(u, rp) == HalfUp(ExactRaw(u, rp), SCALE)
    ensures 0 <= RawCost(u, rp) <= 2 * IMAGE_TOTAL_CAP
  {
    RawPartsExact(u, rp);
    RoundIsHalfUp(RawParts(u, rp));
    HalfUpMonotone(ExactRaw(u, rp), SCALE * (2 * IMAGE_TOTAL_CAP), SCALE);
    HalfUpFromParts(2 * IMAGE_TOTAL_CAP, 0, SCALE);
  }

  /** Half-up scaling by m ten-thousandths stays within one of the exact quotient. */
  lemma ScaledBounds(raw: nat, m: int, ceiling: nat)
    ensures var k := Min(Max(m, 0), ceiling);
            var s := Scaled(raw, m, ceiling);
            raw * k - 5_000 <= 10_000 * s <= raw * k + 5_000
  {
  }

  /** No step of Settle saturates, so every amount is the exact one. */
  lemma SettleExact(raw: int64, m: int64, up: Option<int64>)
    requires 0 <= raw <= 2 * IMAGE_TOTAL_CAP
    ensures var r := Settle(raw, m, up);
            && r.cost == (if raw > 0 && m > 0 then Max(Scaled(raw, m, 100_000), 1) else 0)
            && (up.Some? ==> r.upstream == Some(Scaled(raw, up.value, 1_000_000)))
  {
    ApplyMultiplierExact(raw, m);
    ScaledBounds(raw, m, 100_000);
    MulMonotone(Min(Max(m, 0), 100_000), 100_000, raw);
    if up.Some? {
      ApplyMultiplierExact(raw, up.value);
      ScaledBounds(raw, up.value, 1_000_000);
      MulMonotone(Min(Max(up.value, 0), 1_000_000), 1_000_000, raw);
    }
  }

  /** The upstream cost is at most 1.6 million times a positive charge. */
  lemma UpstreamRatio(raw: int64, m: int64, up: int64)
    requires 0 < raw <= 2 * IMAGE_TOTAL_CAP && m > 0
    ensures Scaled(raw, up, 1_000_000) <= 1_600_000 * Max(Scaled(raw, m, 100_000), 1)
  {
    ScaledBounds(raw, m, 100_000);
    ScaledBounds(raw, up, 1_000_000);
    MulMonotone(1, Min(m, 100_000), raw);
    MulMonotone(Min(Max(up, 0), 1_000_000), 1_000_000, raw);
  }

  /** A quotient this small neither wraps nor saturates. */
  lemma MarginExact(profit: int64, cost: int64)
    requires cost > 0 && -1_600_000 * cost <= profit <= cost
    ensures SignedMulDivBP(profit, cost) == HalfAway(profit * 10_000, cost)
    ensures HalfAway(profit * 10_000, cost) <= 10_000
  {
    var product := Abs(profit) * 10_000;
    HalfUpMonotone(product, 16_000_000_000 * cost, cost);
    HalfUpFromParts(16_000_000_000, 0, cost);
    if profit >= 0 {
      HalfUpMonotone(product, 10_000 * cost, cost);
      HalfUpFromParts(10_000, 0, cost);
    }
    HalfUpOfQuotient(product, cost);
    SignedMulDivBPExactIff(profit, cost);
  }

  /** Charge, upstream cost, profit and margin as exact roundings of unbounded arithmetic. */
  ghost predicate ExactMoney(raw: nat, m: int64, up: Option<int64>, r: Money) {
    && r.cost == (if raw > 0 && m > 0 then Max(Scaled(raw, m, 100_000), 1) else 0)
    && (r.cost == 0 <==> raw == 0 || m <= 0)
    && (up.None? ==> r.upstream == None && r.profit == None && r.margin == None)
    && (up.Some? ==>
          && r.upstream == Some(Scaled(raw, up.value, 1_000_000))
          && r.profit == Some(r.cost - r.upstream.value)
          && (r.cost == 0 ==> r.margin == None)
          && (r.cost > 0 ==> r.margin == Some(HalfAway(r.profit.value * 10_000, r.cost)) && r.margin.value <= 10_000))
  }

  lemma SettleIsExactMoney(raw: int64, m: int64, up: Option<int64>)
    requires 0 <= raw <= 2 * IMAGE_TOTAL_CAP
    ensures ExactMoney(raw, m, up, Settle(raw, m, up))
  {
    SettleExact(raw, m, up);
    var r := Settle(raw, m, up);
    if up.Some? && r.cost > 0 {
      UpstreamRatio(raw, m, up.value);
      MarginExact(r.profit.value, r.cost);
    }
  }

  /**
    For every row and every resolver: raw cost, charge, upstream cost, profit and
    margin are the exact roundings of unbounded arithmetic; nothing wraps or saturates.
   */
  lemma RecoveryArithmetic(u: Usage, resolver: Option<Resolver>, multiplier: int64)
    requires RepriceUsage(u, resolver, multiplier).Some?
    ensures var r, rp := RepriceUsage(u, resolver, multiplier).value, UsablePrices(u, resolver).value;
            && r.rawCost == HalfUp(ExactRaw(u, rp), SCALE)
            && ExactMoney(r.rawCost, Marker.RecoveryMultiplier(u.billingTier, multiplier), u.upstreamMultiplier,
                          r.money)
  {
    var r, rp := RepriceUsage(u, resolver, multiplier).value, UsablePrices(u, resolver).value;
    RawCostExact(u, rp);
    if u.format != Images && u.format != Search {
      CacheFallbackKeepsCost(u, rp);
    }
    SettleIsExactMoney(r.rawCost, Marker.RecoveryMultiplier(u.billingTier, multiplier), u.upstreamMultiplier);
  }

  // ----- Reproducible charge -----

  /** The prices a reader of the ledger row can see. */
  function FromColumns(f: Format, r: Repriced): Prices {
    match f
    case Images => Prices(None, None, None, None, None, r.priceInput, r.priceOutput, r.pricePerCall)
    case Search => Prices(None, None, None, None, r.pricePerCall, None, None, None)
    case _ => Prices(r.priceInput, r.priceOutput, r.priceCacheRead, r.priceCacheCreation, None, None, None,
                     r.pricePerCall)
  }

  lemma FallbackKeepsTotal(u: Usage, rp: Prices)
    ensures TokenTotal(WithCacheFallback(u, rp), u.inputTokens, u.outputTokens, u.cacheReadTokens,
                       u.cacheCreationTokens)
         == TokenTotal(rp, u.inputTokens, u.outputTokens, u.cacheReadTokens, u.cacheCreationTokens)
  {
  }

  lemma FallbackKeepsExact(u: Usage, rp: Prices)
    requires u.format != Images && u.format != Search
    ensures ExactRaw(u, WithCacheFallback(u, rp)) == ExactRaw(u, rp)
  {
    FallbackKeepsTotal(u, rp);
  }

  /** Filling in missing cache prices is only for the audit trail: it never changes a charge. */
  lemma CacheFallbackKeepsCost(u: Usage, rp: Prices)
    requires u.format != Images && u.format != Search
    ensures RawCost(u, WithCacheFallback(u, rp)) == RawCost(u, rp)
  {
    FallbackKeepsExact(u, rp);
    RawCostExact(u, rp);
    RawCostExact(u, WithCacheFallback(u, rp));
  }

  lemma ColumnsReproduce(u: Usage, rp: Prices, tier: string, m: int64)
    ensures RawCost(u, FromColumns(u.format, PriceColumns(u, rp, tier, m))) == RawCost(u, rp)
  {
    var seen := FromColumns(u.format, PriceColumns(u, rp, tier, m));
    RawCostExact(u, rp);
    RawCostExact(u, seen);
    assert ExactRaw(u, rp) == ExactRaw(u, seen);
  }

  /** The persisted price columns and counters alone reproduce the persisted raw cost. */
  lemma ReproducibleCharge(u: Usage, resolver: Option<Resolver>, multiplier: int64)
    requires RepriceUsage(u, resolver, multiplier).Some?
    ensures var r := RepriceUsage(u, resolver, multiplier).value;
            RawCost(u, FromColumns(u.format, r)) == r.rawCost
  {
    var rp := UsablePrices(u, resolver).value;
    var shown := if u.format == Images || u.format == Search then rp else WithCacheFallback(u, rp);
    ColumnsReproduce(u, shown, Marker.RecoveryTier(u.billingTier),
                     Marker.RecoveryMultiplier(u.billingTier, multiplier));
  }

  // ----- Which price is looked up, and when a row is refused -----

  /** With a mapped model, the requested one plays no part. */
  lemma MappedModelDecides(u: Usage, model: string, resolver: Option<Resolver>, multiplier: int64)
    requires Text.Trim(u.mappedModel) != ""
    ensures RepriceUsage(u.(model := model), resolver, multiplier) == RepriceUsage(u, resolver, multiplier)
  {
    SameLookup(u, u.(model := model), resolver, multiplier);
  }

  /** Rows that differ in their model names only and are priced alike are charged alike. */
  lemma SameLookup(u: Usage, v: Usage, resolver: Option<Resolver>, multiplier: int64)
    requires v == u.(model := v.model, mappedModel := v.mappedModel)
    requires UsablePrices(v, resolver) == UsablePrices(u, resolver)
    ensures RepriceUsage(v, resolver, multiplier) == RepriceUsage(u, resolver, multiplier)
  {
    if UsablePrices(u, resolver).Some? {
      var rp := UsablePrices(u, resolver).value;
      assert WithCacheFallback(v, rp) == WithCacheFallback(u, rp);
      SameColumns(u, v, if u.format == Images || u.format == Search then rp else WithCacheFallback(u, rp),
                  Marker.RecoveryTier(u.billingTier), Marker.RecoveryMultiplier(u.billingTier, multiplier));
    }
  }

  /** Without one, the requested model takes its place. */
  lemma RequestedModelSteppedIn(u: Usage, resolver: Option<Resolver>, multiplier: int64)
    requires Text.Trim(u.mappedModel) == ""
    ensures RepriceUsage(u, resolver, multiplier) == RepriceUsage(u.(mappedModel := u.model), resolver, multiplier)
  {
    var v := u.(mappedModel := u.model);
    if Text.Trim(u.model) == "" {
      assert UsablePrices(v, resolver) == None == UsablePrices(u, resolver);
    } else {
      assert UsablePrices(v, resolver) == UsablePrices(u, resolver);
    }
    SameLookup(u, v, resolver, multiplier);
  }

  lemma SameColumns(u: Usage, v: Usage, rp: Prices, tier: string, m: int64)
    requires v == u.(model := v.model, mappedModel := v.mappedModel)
    ensures PriceColumns(v, rp, tier, m) == PriceColumns(u, rp, tier, m)
  {
    assert RawParts(v, rp) == RawParts(u, rp);
  }

  /** Blank models and a missing resolver leave the row as it is. */
  lemma NothingToLookUp(u: Usage, resolver: Option<Resolver>, multiplier: int64)
    requires resolver.None? || (Text.Trim(u.mappedModel) == "" && Text.Trim(u.model) == "")
    ensures RepriceUsage(u, resolver, multiplier) == None
  {
  }

  /** The whole prompt: what was read from the cache counts where the provider reports it separately. */
  function WholePrompt(u: Usage): int64 {
    if u.format in {Chat, Responses, ResponsesWS} && u.cacheReadTokens > 0
       && u.inputTokens + u.cacheReadTokens <= INT64_MAX
    then u.inputTokens + u.cacheReadTokens else u.inputTokens
  }

  /** The result depends on the resolver at one point only: the trimmed model, the whole prompt, the recovered tier. */
  lemma OneLookup(u: Usage, f: Resolver, g: Resolver, multiplier: int64)
    requires Text.Trim(u.mappedModel) != ""
    requires f(Text.Trim(u.mappedModel), WholePrompt(u), Marker.RecoveryTier(u.billingTier))
          == g(Text.Trim(u.mappedModel), WholePrompt(u), Marker.RecoveryTier(u.billingTier))
    ensures RepriceUsage(u, Some(f), multiplier) == RepriceUsage(u, Some(g), multiplier)
  {
    assert PricingPromptTokens(u) == WholePrompt(u);
  }

  predicate HasTokens(u: Usage) { u.inputTokens > 0 || u.outputTokens > 0 || u.totalTokens > 0 }

  predicate Known(p: Option<int64>) { p.Some? && p.value >= 0 }

  /** A chat or messages row is priced exactly when the model is known and its tokens, if any, have both prices. */
  lemma ChatPricedIff(u: Usage, f: Resolver, multiplier: int64)
    requires Text.Trim(u.mappedModel) != "" && u.format in {Chat, Anthropic}
    ensures var (rp, found) := f(Text.Trim(u.mappedModel), WholePrompt(u), Marker.RecoveryTier(u.billingTier));
            RepriceUsage(u, Some(f), multiplier).Some?
            <==> found && (HasTokens(u) ==> Known(rp.input) && Known(rp.output))
  {
    assert PricingPromptTokens(u) == WholePrompt(u);
  }

  /** A responses row with image calls also needs the per-image price. */
  lemma ResponsesPricedIff(u: Usage, f: Resolver, multiplier: int64)
    requires Text.Trim(u.mappedModel) != "" && u.format in {Responses, ResponsesWS}
    ensures var (rp, found) := f(Text.Trim(u.mappedModel), WholePrompt(u), Marker.RecoveryTier(u.billingTier));
            RepriceUsage(u, Some(f), multiplier).Some?
            <==> && found && (HasTokens(u) ==> Known(rp.input) && Known(rp.output))
                 && (u.callCount > 0 ==> Known(rp.perImage))
  {
    assert PricingPromptTokens(u) == WholePrompt(u);
  }

  /** An images row needs the prices of the tokens it has, or a per-image price if the model has no token prices. */
  lemma ImagesPricedIff(u: Usage, f: Resolver, multiplier: int64)
    requires Text.Trim(u.mappedModel) != "" && u.format == Images
    ensures var (rp, found) := f(Text.Trim(u.mappedModel), u.inputTokens, Marker.RecoveryTier(u.billingTier));
            RepriceUsage(u, Some(f), multiplier).Some?
            <==> && found
                 && (rp.imgIn.Some? || rp.imgOut.Some? ==>
                       (u.inputTokens > 0 ==> Known(rp.imgIn)) && (u.outputTokens > 0 ==> Known(rp.imgOut)))
                 && (rp.imgIn.None? && rp.imgOut.None? && (u.inputTokens > 0 || u.outputTokens > 0) ==>
                       Known(rp.perImage))
                 && (u.callCount > 0 && u.inputTokens == 0 && u.outputTokens == 0 ==> Known(rp.perImage))
  {
    assert PricingPromptTokens(u) == u.inputTokens;
    var (rp, found) := f(Text.Trim(u.mappedModel), u.inputTokens, Marker.RecoveryTier(u.billingTier));
    assert RepriceUsage(u, Some(f), multiplier).Some? <==> found && ResolvedPricesUsable(u, rp);
  }

  /** A search row is always priced: per call at the known price, or at 1000 while none is known. */
  lemma SearchAlwaysPriced(u: Usage, f: Resolver, multiplier: int64)
    requires Text.Trim(u.mappedModel) != "" && u.format == Search
    ensures var (rp, found) := f(Text.Trim(u.mappedModel), u.inputTokens, Marker.RecoveryTier(u.billingTier));
            var r := RepriceUsage(u, Some(f), multiplier);
            && r.Some? && r.value.pricePerCall == Some(if found && Known(rp.perCall) then rp.perCall.value else 1000)
            && r.value.rawCost == Min(Max(u.callCount, 0) * r.value.pricePerCall.value, IMAGE_TOTAL_CAP)
  {
    var rp := UsablePrices(u, Some(f)).value;
    assert rp.perCall.Some? && rp.perCall.value >= 0;
    RoundIsHalfUp(CostParts(CallCostFromResolved(rp, u.callCount), 0));
  }

  /** Every column holds the price its name says, where the row has something that price applies to. */
  lemma ColumnsHoldTheirPrices(u: Usage, rp: Prices, tier: string, m: int64)
    ensures var r := PriceColumns(u, rp, tier, m);
            && r.id == u.id && r.billingTier == tier
            && (u.format == Images ==> r.priceInput == rp.imgIn && r.priceOutput == rp.imgOut
                                       && r.pricePerCall == (if u.callCount > 0 then rp.perImage else None))
            && (u.format !in {Images, Search} ==>
                  && r.priceInput == rp.input && r.priceOutput == rp.output
                  && r.priceCacheRead == (if u.cacheReadTokens > 0 then rp.cacheRead else None)
                  && r.priceCacheCreation == (if u.cacheCreationTokens > 0 then rp.cacheWrite else None)
                  && r.pricePerCall == (if u.callCount > 0 then rp.perImage else None))
  {
  }

  /** The written tier is the recovered one, and the row keeps its id. */
  lemma RepricedKeepsIdentity(u: Usage, resolver: Option<Resolver>, multiplier: int64)
    requires RepriceUsage(u, resolver, multiplier).Some?
    ensures var r := RepriceUsage(u, resolver, multiplier).value;
            r.id == u.id && r.billingTier == Marker.RecoveryTier(u.billingTier)
  {
  }
}
