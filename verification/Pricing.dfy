/**
 The pricing formula of src/gateway/billing.py and the package back-solve of src/admin/routes.py,
 over real numbers.
 */
module Pricing {
  import opened Prelude

  datatype PricingConfig = PricingConfig(
    withholdingRate: real, marginRate: real, ivaRate: real, usdPerCredit: real, minBalanceToCall: real)

  /** What the billing code uses when the singleton row is missing. */
  const FALLBACK_PRICING := PricingConfig(0.0, 0.6, 0.16, 0.01, 1.0)

  datatype ComputeRate = ComputeRate(usdPerVcpuSec: real, usdPerGbEgress: real, creditBasePerCallUsd: real)

  datatype CostProfile = CostProfile(computeRateName: string, llmMarginOverride: Option<real>, fixedSurchargeUsd: real)

  datatype ModelPrice = ModelPrice(inputPer1k: real, outputPer1k: real, cachedInputPer1k: Option<real>)

  /** LLM usage an upstream reports: exact USD, or a model with token counts. */
  datatype UsageMeta = UsageMeta(
    usageUsd: Option<real>, model: Option<string>, inputTokens: int, outputTokens: int, cachedInputTokens: int)

  datatype CostBreakdown = CostBreakdown(
    computeUsd: real, llmUsd: real, rawUsd: real, sellUsd: real, creditsCharged: real)

  const BYTES_PER_GB := 1024.0 * 1024.0 * 1024.0

  function Max(a: int, b: int): int { if a > b then a else b }

  function Min(a: int, b: int): int { if a < b then a else b }

  function FreshTokens(usage: UsageMeta): int {
    Max(usage.inputTokens - usage.cachedInputTokens, 0)
  }

  function CachedTokens(usage: UsageMeta): int {
    Min(usage.cachedInputTokens, usage.inputTokens)
  }

  /** The price of x, in units of `unit`. */
  function Share(x: real, unit: real, price: real): real
    requires unit != 0.0
  {
    x / unit * price
  }

  function PerThousand(tokens: int, per1k: real): real {
    Share(tokens as real, 1000.0, per1k)
  }

  function TokenCost(usage: UsageMeta, price: ModelPrice): real {
    PerThousand(FreshTokens(usage), price.inputPer1k)
    + PerThousand(Max(usage.outputTokens, 0), price.outputPer1k)
    + (if CachedTokens(usage) != 0 && price.cachedInputPer1k.Some?
       then PerThousand(CachedTokens(usage), price.cachedInputPer1k.value) else 0.0)
  }

  /** The model whose price the formula looks up: none when exact USD is reported or no model is named. */
  function PricedModel(usage: UsageMeta): Option<string> {
    if usage.usageUsd.None? && usage.model.Some? && usage.model.value != "" then usage.model else None
  }

  function LlmUsd(usage: UsageMeta, price: Option<ModelPrice>): real {
    if usage.usageUsd.Some? then (if usage.usageUsd.value > 0.0 then usage.usageUsd.value else 0.0)
    else if PricedModel(usage).Some? && price.Some? then TokenCost(usage, price.value)
    else 0.0
  }

  function ComputeUsd(rate: ComputeRate, durationMs: int, responseBytes: int): real {
    Share(Max(durationMs, 0) as real, 1000.0, rate.usdPerVcpuSec)
    + Share(Max(responseBytes, 0) as real, BYTES_PER_GB, rate.usdPerGbEgress)
  }

  function Sell(pricing: PricingConfig, rawUsd: real): real {
    rawUsd * (1.0 + pricing.withholdingRate) * (1.0 + pricing.marginRate) * (1.0 + pricing.ivaRate)
  }

  /** round(x, 4): the nearest multiple of a ten-thousandth, ties to the even one. */
  function Round4(x: real): real {
    var scaled := x * 10000.0;
    var below := scaled.Floor;
    var rest := scaled - below as real;
    var nearest := if rest < 0.5 then below
                   else if rest > 0.5 then below + 1
                   else if below % 2 == 0 then below else below + 1;
    nearest as real / 10000.0
  }

  function Credits(pricing: PricingConfig, sellUsd: real): real {
    Round4(if pricing.usdPerCredit > 0.0 then sellUsd / pricing.usdPerCredit else 0.0)
  }

  function Cost(pricing: PricingConfig, profile: CostProfile, rate: ComputeRate, price: Option<ModelPrice>,
                durationMs: int, responseBytes: int, usage: UsageMeta): CostBreakdown {
    var computeUsd := ComputeUsd(rate, durationMs, responseBytes);
    var llmUsd := LlmUsd(usage, price);
    var rawUsd := computeUsd + llmUsd + rate.creditBasePerCallUsd + profile.fixedSurchargeUsd;
    var sellUsd := Sell(pricing, rawUsd);
    CostBreakdown(computeUsd, llmUsd, rawUsd, sellUsd, Credits(pricing, sellUsd))
  }

  // ---------------------------------------------------------------------------------------------
  // Rates and counts for which the formula is meant
  // ---------------------------------------------------------------------------------------------

  predicate NonNegativePricing(p: PricingConfig) {
    p.withholdingRate >= 0.0 && p.marginRate >= 0.0 && p.ivaRate >= 0.0
  }

  predicate NonNegativeRate(r: ComputeRate) {
    r.usdPerVcpuSec >= 0.0 && r.usdPerGbEgress >= 0.0
  }

  predicate NonNegativePrice(p: ModelPrice) {
    p.inputPer1k >= 0.0 && p.outputPer1k >= 0.0 && (p.cachedInputPer1k.Some? ==> p.cachedInputPer1k.value >= 0.0)
  }

  /** Every reported input token is priced exactly once, whatever the counts. */
  lemma InputTokensSplitExactly(usage: UsageMeta)
    ensures FreshTokens(usage) + CachedTokens(usage) == usage.inputTokens
    ensures usage.inputTokens >= 0 && usage.cachedInputTokens >= 0
            ==> FreshTokens(usage) >= 0 && CachedTokens(usage) >= 0
  {
  }

  lemma RoundedWithinHalfStep(x: real)
    ensures x - 0.00005 <= Round4(x) <= x + 0.00005
  {
  }

  lemma RoundingIsMonotone(x: real, y: real)
    requires x <= y
    ensures Round4(x) <= Round4(y)
  {
    var a, b := x * 10000.0, y * 10000.0;
    assert a.Floor <= b.Floor;
  }

  lemma ScaleMonotone(x: real, y: real, factor: real)
    requires x <= y && factor >= 0.0
    ensures x * factor <= y * factor
  {
    assert (y - x) * factor >= 0.0;
    assert (y - x) * factor == y * factor - x * factor;
  }

  lemma ScaleBack(x: real, y: real, factor: real)
    requires x * factor <= y * factor && factor > 0.0
    ensures x <= y
  {
    assert (x - y) * factor == x * factor - y * factor;
    assert x - y > 0.0 ==> (x - y) * factor > 0.0;
  }

  lemma DivideMonotone(x: real, y: real, divisor: real)
    requires x <= y && divisor > 0.0
    ensures x / divisor <= y / divisor
  {
    DivideBack(x, divisor);
    DivideBack(y, divisor);
    ScaleBack(x / divisor, y / divisor, divisor);
  }

  lemma DivideBack(x: real, y: real)
    requires y != 0.0
    ensures x / y * y == x
  {
  }

  lemma SellIsMonotone(pricing: PricingConfig, x: real, y: real)
    requires NonNegativePricing(pricing) && x <= y
    ensures Sell(pricing, x) <= Sell(pricing, y)
  {
    var w, m, i := 1.0 + pricing.withholdingRate, 1.0 + pricing.marginRate, 1.0 + pricing.ivaRate;
    ScaleMonotone(x, y, w);
    ScaleMonotone(x * w, y * w, m);
    ScaleMonotone(x * w * m, y * w * m, i);
  }

  lemma CreditsAreMonotone(pricing: PricingConfig, x: real, y: real)
    requires x <= y
    ensures Credits(pricing, x) <= Credits(pricing, y)
  {
    if pricing.usdPerCredit > 0.0 {
      var c := pricing.usdPerCredit;
      DivideMonotone(x, y, c);
      RoundingIsMonotone(x / c, y / c);
    }
  }

  lemma TokenCostIsMonotone(u: UsageMeta, v: UsageMeta, price: ModelPrice)
    requires NonNegativePrice(price) && u.cachedInputTokens == v.cachedInputTokens
    requires u.inputTokens <= v.inputTokens && u.outputTokens <= v.outputTokens
    requires u.inputTokens >= 0 && u.cachedInputTokens >= 0
    ensures TokenCost(u, price) <= TokenCost(v, price)
  {
    PerThousandMonotone(FreshTokens(u), FreshTokens(v), price.inputPer1k);
    PerThousandMonotone(Max(u.outputTokens, 0), Max(v.outputTokens, 0), price.outputPer1k);
    if price.cachedInputPer1k.Some? {
      PerThousandMonotone(CachedTokens(u), CachedTokens(v), price.cachedInputPer1k.value);
      PerThousandMonotone(0, CachedTokens(v), price.cachedInputPer1k.value);
    }
  }

  lemma PerThousandMonotone(a: int, b: int, per1k: real)
    requires a <= b && per1k >= 0.0
    ensures PerThousand(a, per1k) <= PerThousand(b, per1k)
  {
    ShareMonotone(a as real, b as real, 1000.0, per1k);
  }

  lemma PerThousandAdds(a: int, b: int, per1k: real)
    ensures PerThousand(a + b, per1k) == PerThousand(a, per1k) + PerThousand(b, per1k)
  {
    assert (a + b) as real / 1000.0 == a as real / 1000.0 + b as real / 1000.0;
  }

  lemma PerThousandCheaper(tokens: int, cheap: real, dear: real)
    requires tokens >= 0 && cheap <= dear
    ensures PerThousand(tokens, cheap) <= PerThousand(tokens, dear)
  {
    var thousands := tokens as real / 1000.0;
    ScaleMonotone(cheap, dear, thousands);
    assert thousands * cheap == cheap * thousands && thousands * dear == dear * thousands;
  }

  lemma ShareMonotone(x: real, y: real, unit: real, price: real)
    requires x <= y && unit > 0.0 && price >= 0.0
    ensures Share(x, unit, price) <= Share(y, unit, price)
  {
    DivideMonotone(x, y, unit);
    ScaleMonotone(x / unit, y / unit, price);
  }

  lemma ComputeUsdIsMonotone(rate: ComputeRate, d1: int, d2: int, b1: int, b2: int)
    requires NonNegativeRate(rate) && d1 <= d2 && b1 <= b2
    ensures ComputeUsd(rate, d1, b1) <= ComputeUsd(rate, d2, b2)
  {
    ShareMonotone(Max(d1, 0) as real, Max(d2, 0) as real, 1000.0, rate.usdPerVcpuSec);
    ShareMonotone(Max(b1, 0) as real, Max(b2, 0) as real, BYTES_PER_GB, rate.usdPerGbEgress);
  }

  /** More time, more bytes or more input or output tokens never lower the charge. */
  lemma ChargeIsMonotone(pricing: PricingConfig, profile: CostProfile, rate: ComputeRate, price: Option<ModelPrice>,
                         d1: int, d2: int, b1: int, b2: int, u: UsageMeta, v: UsageMeta)
    requires pricing.withholdingRate >= 0.0 && pricing.marginRate >= 0.0 && pricing.ivaRate >= 0.0
    requires rate.usdPerVcpuSec >= 0.0 && rate.usdPerGbEgress >= 0.0
    requires price.Some? ==>
               && price.value.inputPer1k >= 0.0 && price.value.outputPer1k >= 0.0
               && (price.value.cachedInputPer1k.Some? ==> price.value.cachedInputPer1k.value >= 0.0)
    requires d1 <= d2 && b1 <= b2
    requires u.usageUsd == v.usageUsd && u.model == v.model && u.cachedInputTokens == v.cachedInputTokens
    requires 0 <= u.inputTokens <= v.inputTokens && u.outputTokens <= v.outputTokens && u.cachedInputTokens >= 0
    ensures Cost(pricing, profile, rate, price, d1, b1, u).creditsCharged
            <= Cost(pricing, profile, rate, price, d2, b2, v).creditsCharged
    ensures Cost(pricing, profile, rate, price, d1, b1, u).sellUsd
            <= Cost(pricing, profile, rate, price, d2, b2, v).sellUsd
  {
    var x, y := Cost(pricing, profile, rate, price, d1, b1, u), Cost(pricing, profile, rate, price, d2, b2, v);
    ComputeUsdIsMonotone(rate, d1, d2, b1, b2);
    if price.Some? {
      TokenCostIsMonotone(u, v, price.value);
    }
    assert LlmUsd(u, price) <= LlmUsd(v, price);
    SellIsMonotone(pricing, x.rawUsd, y.rawUsd);
    CreditsAreMonotone(pricing, x.sellUsd, y.sellUsd);
  }

  /** Cached tokens are free, and others not negative, or cached ones are no dearer. */
  predicate CachedIsCheaper(price: ModelPrice) {
    if price.cachedInputPer1k.None? then price.inputPer1k >= 0.0 else price.cachedInputPer1k.value <= price.inputPer1k
  }

  /** Serving more of the input from the cache never costs more: true exactly when cached tokens are free or no dearer. */
  lemma CachingNeverCostsMoreIff(price: ModelPrice, usage: UsageMeta)
    ensures (forall inp: nat, c1: nat, c2: nat :: c1 <= c2 ==>
               TokenCost(usage.(inputTokens := inp, cachedInputTokens := c2), price)
               <= TokenCost(usage.(inputTokens := inp, cachedInputTokens := c1), price))
            <==> CachedIsCheaper(price)
  {
    if CachedIsCheaper(price) {
      forall inp: nat, c1: nat, c2: nat | c1 <= c2
        ensures TokenCost(usage.(inputTokens := inp, cachedInputTokens := c2), price)
             <= TokenCost(usage.(inputTokens := inp, cachedInputTokens := c1), price)
      {
        CachingOneCase(price, usage, inp, c1, c2);
      }
    } else {
      WarmTokenCostsMore(price, usage);
    }
  }

  /** One input token, served from the cache or not. */
  lemma WarmTokenCostsMore(price: ModelPrice, usage: UsageMeta)
    requires !CachedIsCheaper(price)
    ensures TokenCost(usage.(inputTokens := 1, cachedInputTokens := 0), price)
            < TokenCost(usage.(inputTokens := 1, cachedInputTokens := 1), price)
  {
    var warm, cold := usage.(inputTokens := 1, cachedInputTokens := 1), usage.(inputTokens := 1, cachedInputTokens := 0);
    assert FreshTokens(cold) == 1 && CachedTokens(cold) == 0 && FreshTokens(warm) == 0 && CachedTokens(warm) == 1;
  }

  lemma SellIsStrictlyMonotone(pricing: PricingConfig, x: real, y: real)
    requires NonNegativePricing(pricing) && x < y
    ensures Sell(pricing, x) < Sell(pricing, y)
  {
    var w, m, i := 1.0 + pricing.withholdingRate, 1.0 + pricing.marginRate, 1.0 + pricing.ivaRate;
    ScaleStrictly(x, y, w);
    ScaleStrictly(x * w, y * w, m);
    ScaleStrictly(x * w * m, y * w * m, i);
    assert Sell(pricing, x) == x * w * m * i && Sell(pricing, y) == y * w * m * i;
  }

  lemma ScaleStrictly(x: real, y: real, factor: real)
    requires x < y && factor > 0.0
    ensures x * factor < y * factor
  {
    if y * factor <= x * factor {
      ScaleBack(y, x, factor);
    }
  }

  /** The call is priced by the token counts of a known model. */
  predicate TokenPriced(usage: UsageMeta, price: Option<ModelPrice>) {
    PricedModel(usage).Some? && price.Some?
  }

  /** The price of a call with these input tokens, this many of them cached. */
  function CachedCost(pricing: PricingConfig, profile: CostProfile, rate: ComputeRate, price: Option<ModelPrice>,
                      durationMs: int, responseBytes: int, usage: UsageMeta, inp: nat, cached: nat): CostBreakdown {
    Cost(pricing, profile, rate, price, durationMs, responseBytes, usage.(inputTokens := inp, cachedInputTokens := cached))
  }

  /** Where caching never costs more, the charge in credits never rises with it either. */
  lemma CachingNeverRaisesTheCharge(pricing: PricingConfig, profile: CostProfile, rate: ComputeRate, price: Option<ModelPrice>,
                                    durationMs: int, responseBytes: int, usage: UsageMeta, inp: nat, c1: nat, c2: nat)
    requires pricing.withholdingRate >= 0.0 && pricing.marginRate >= 0.0 && pricing.ivaRate >= 0.0 && c1 <= c2
    requires TokenPriced(usage, price) ==> CachedIsCheaper(price.value)
    ensures CachedCost(pricing, profile, rate, price, durationMs, responseBytes, usage, inp, c2).sellUsd
            <= CachedCost(pricing, profile, rate, price, durationMs, responseBytes, usage, inp, c1).sellUsd
    ensures CachedCost(pricing, profile, rate, price, durationMs, responseBytes, usage, inp, c2).creditsCharged
            <= CachedCost(pricing, profile, rate, price, durationMs, responseBytes, usage, inp, c1).creditsCharged
  {
    var more := CachedCost(pricing, profile, rate, price, durationMs, responseBytes, usage, inp, c2);
    var less := CachedCost(pricing, profile, rate, price, durationMs, responseBytes, usage, inp, c1);
    if TokenPriced(usage, price) {
      CachingOneCase(price.value, usage, inp, c1, c2);
    }
    SellIsMonotone(pricing, more.rawUsd, less.rawUsd);
    CreditsAreMonotone(pricing, more.sellUsd, less.sellUsd);
  }

  /** For a call priced by tokens the sell price never rises with more cached tokens, exactly when these are free or no dearer. */
  lemma CachingNeverRaisesThePriceIff(pricing: PricingConfig, profile: CostProfile, rate: ComputeRate, price: Option<ModelPrice>,
                                      durationMs: int, responseBytes: int, usage: UsageMeta)
    requires pricing.withholdingRate >= 0.0 && pricing.marginRate >= 0.0 && pricing.ivaRate >= 0.0 && TokenPriced(usage, price)
    ensures (forall inp: nat, c1: nat, c2: nat :: c1 <= c2 ==>
               CachedCost(pricing, profile, rate, price, durationMs, responseBytes, usage, inp, c2).sellUsd
               <= CachedCost(pricing, profile, rate, price, durationMs, responseBytes, usage, inp, c1).sellUsd)
            <==> CachedIsCheaper(price.value)
  {
    if CachedIsCheaper(price.value) {
      forall inp: nat, c1: nat, c2: nat | c1 <= c2
        ensures CachedCost(pricing, profile, rate, price, durationMs, responseBytes, usage, inp, c2).sellUsd
             <= CachedCost(pricing, profile, rate, price, durationMs, responseBytes, usage, inp, c1).sellUsd
      {
        CachingNeverRaisesTheCharge(pricing, profile, rate, price, durationMs, responseBytes, usage, inp, c1, c2);
      }
    } else {
      WarmTokenCostsMore(price.value, usage);
      var cold := CachedCost(pricing, profile, rate, price, durationMs, responseBytes, usage, 1, 0);
      var warm := CachedCost(pricing, profile, rate, price, durationMs, responseBytes, usage, 1, 1);
      assert cold.rawUsd < warm.rawUsd;
      SellIsStrictlyMonotone(pricing, cold.rawUsd, warm.rawUsd);
    }
  }

  lemma CachingOneCase(price: ModelPrice, usage: UsageMeta, inp: nat, c1: nat, c2: nat)
    requires c1 <= c2
    requires CachedIsCheaper(price)
    ensures TokenCost(usage.(inputTokens := inp, cachedInputTokens := c2), price)
         <= TokenCost(usage.(inputTokens := inp, cachedInputTokens := c1), price)
  {
    var u, v := usage.(inputTokens := inp, cachedInputTokens := c1), usage.(inputTokens := inp, cachedInputTokens := c2);
    InputTokensSplitExactly(u);
    InputTokensSplitExactly(v);
    var moved := CachedTokens(v) - CachedTokens(u);
    var c := if price.cachedInputPer1k.Some? then price.cachedInputPer1k.value else 0.0;
    assert FreshTokens(u) == FreshTokens(v) + moved && CachedTokens(v) == CachedTokens(u) + moved;
    PerThousandAdds(FreshTokens(v), moved, price.inputPer1k);
    PerThousandAdds(CachedTokens(u), moved, c);
    PerThousandCheaper(moved, c, price.inputPer1k);
    TokenCostInParts(u, price, c);
    TokenCostInParts(v, price, c);
  }

  /** A price that is absent counts as zero, and so do zero cached tokens. */
  lemma TokenCostInParts(u: UsageMeta, price: ModelPrice, c: real)
    requires c == if price.cachedInputPer1k.Some? then price.cachedInputPer1k.value else 0.0
    ensures TokenCost(u, price) == PerThousand(FreshTokens(u), price.inputPer1k)
                                   + PerThousand(Max(u.outputTokens, 0), price.outputPer1k)
                                   + PerThousand(CachedTokens(u), c)
  {
    assert PerThousand(0, c) == 0.0;
    assert price.cachedInputPer1k.None? ==> PerThousand(CachedTokens(u), c) == 0.0;
  }

  /** The charge in credits is the sell price over the credit price, to half a ten-thousandth. */
  lemma ChargeMatchesSellPrice(pricing: PricingConfig, profile: CostProfile, rate: ComputeRate, price: Option<ModelPrice>,
                               durationMs: int, responseBytes: int, usage: UsageMeta)
    requires pricing.usdPerCredit > 0.0
    ensures var cost := Cost(pricing, profile, rate, price, durationMs, responseBytes, usage);
            var exact := cost.sellUsd / pricing.usdPerCredit;
            exact - 0.00005 <= cost.creditsCharged <= exact + 0.00005
  {
    var cost := Cost(pricing, profile, rate, price, durationMs, responseBytes, usage);
    RoundedWithinHalfStep(cost.sellUsd / pricing.usdPerCredit);
  }

  /** The per-MCP margin override is stored and cached but never enters the price. */
  lemma MarginOverrideIsIgnored(pricing: PricingConfig, profile: CostProfile, other: Option<real>, rate: ComputeRate,
                                price: Option<ModelPrice>, durationMs: int, responseBytes: int, usage: UsageMeta)
    ensures Cost(pricing, profile.(llmMarginOverride := other), rate, price, durationMs, responseBytes, usage)
            == Cost(pricing, profile, rate, price, durationMs, responseBytes, usage)
  {
  }

  // ---------------------------------------------------------------------------------------------
  // The package back-solve
  // ---------------------------------------------------------------------------------------------

  datatype PackageMetrics = PackageMetrics(ivaPortionUsd: real, netExclIvaUsd: real, rawCostUsd: real, grossMarginUsd: real)

  /** USD passes through, meticais are divided by the exchange rate, any other currency has no price. */
  function PriceUsd(priceAmount: real, currency: string, fxUsdMzn: real): Option<real> {
    if currency == "USD" then Some(priceAmount)
    else if currency == "MZN" || currency == "MT" then Some(if fxUsdMzn != 0.0 then priceAmount / fxUsdMzn else 0.0)
    else None
  }

  function BackSolve(priceUsd: real, pricing: PricingConfig): PackageMetrics
    requires 1.0 + pricing.ivaRate != 0.0 && 1.0 + pricing.marginRate != 0.0
  {
    var net := priceUsd / (1.0 + pricing.ivaRate);
    NonZeroProduct(1.0 + pricing.marginRate, 1.0 + pricing.ivaRate);
    var raw := priceUsd / ((1.0 + pricing.marginRate) * (1.0 + pricing.ivaRate));
    PackageMetrics(priceUsd * pricing.ivaRate / (1.0 + pricing.ivaRate), net, raw, net - raw)
  }

  lemma NonZeroProduct(x: real, y: real)
    requires x != 0.0 && y != 0.0
    ensures x * y != 0.0
  {
    assert x * y / y == x;
  }

  /** IVA, margin and raw cost add up to the price, and selling the raw cost gives the price back up to withholding. */
  lemma BackSolveInvertsSell(priceUsd: real, pricing: PricingConfig)
    requires 1.0 + pricing.ivaRate != 0.0 && 1.0 + pricing.marginRate != 0.0
    ensures var m := BackSolve(priceUsd, pricing);
            && m.ivaPortionUsd + m.grossMarginUsd + m.rawCostUsd == priceUsd
            && Sell(pricing, m.rawCostUsd) == priceUsd * (1.0 + pricing.withholdingRate)
  {
    var m := BackSolve(priceUsd, pricing);
    var i, g, w := 1.0 + pricing.ivaRate, 1.0 + pricing.marginRate, 1.0 + pricing.withholdingRate;
    DivideBack(priceUsd, i);
    assert priceUsd * pricing.ivaRate == priceUsd * i - priceUsd;
    assert m.ivaPortionUsd == priceUsd - m.netExclIvaUsd by {
      assert (priceUsd * i - priceUsd) / i == priceUsd - priceUsd / i;
    }
    assert g * i != 0.0;
    DivideBack(priceUsd, g * i);
    calc {
      Sell(pricing, m.rawCostUsd);
      m.rawCostUsd * w * g * i;
      m.rawCostUsd * (g * i) * w;
      priceUsd * w;
    }
  }

  /** For the rates it is passed, the back-solve inverts the sell formula exactly when nothing is withheld (or the price is zero). */
  lemma BackSolveExactIff(priceUsd: real, pricing: PricingConfig)
    requires 1.0 + pricing.ivaRate != 0.0 && 1.0 + pricing.marginRate != 0.0
    ensures Sell(pricing, BackSolve(priceUsd, pricing).rawCostUsd) == priceUsd
            <==> pricing.withholdingRate == 0.0 || priceUsd == 0.0
  {
    BackSolveInvertsSell(priceUsd, pricing);
    assert priceUsd * (1.0 + pricing.withholdingRate) == priceUsd + priceUsd * pricing.withholdingRate;
    if priceUsd * pricing.withholdingRate == 0.0 && priceUsd != 0.0 {
      DivideBack(pricing.withholdingRate, priceUsd);
    }
  }

  /** The economics shown for a package; none for a currency without an exchange rate of its own. */
  function PackageEconomics(priceAmount: real, currency: string, fxUsdMzn: real, pricing: PricingConfig): Option<PackageMetrics>
    requires 1.0 + pricing.ivaRate != 0.0 && 1.0 + pricing.marginRate != 0.0
  {
    var price := PriceUsd(priceAmount, currency, fxUsdMzn);
    if price.Some? then Some(BackSolve(price.value, pricing)) else None
  }

  /** In dollars or meticais the three parts, converted back, add up to the listed price; without an exchange rate to zero. */
  lemma PackagePartsAddUp(priceAmount: real, currency: string, fxUsdMzn: real, pricing: PricingConfig)
    requires 1.0 + pricing.ivaRate != 0.0 && 1.0 + pricing.marginRate != 0.0
    ensures var m := PackageEconomics(priceAmount, currency, fxUsdMzn, pricing);
            && (m.None? <==> currency != "USD" && currency != "MZN" && currency != "MT")
            && (m.Some? ==>
                  var total := m.value.ivaPortionUsd + m.value.grossMarginUsd + m.value.rawCostUsd;
                  && (currency == "USD" ==> total == priceAmount)
                  && (currency != "USD" && fxUsdMzn != 0.0 ==> total * fxUsdMzn == priceAmount)
                  && (currency != "USD" && fxUsdMzn == 0.0 ==> total == 0.0))
  {
    var price := PriceUsd(priceAmount, currency, fxUsdMzn);
    if price.Some? {
      BackSolveInvertsSell(price.value, pricing);
      if currency != "USD" && fxUsdMzn != 0.0 {
        DivideBack(priceAmount, fxUsdMzn);
      }
    }
  }

  // ---------------------------------------------------------------------------------------------
  // The back-solve on the package page
  // ---------------------------------------------------------------------------------------------

  /** The singleton row of pricing_config; its columns are NOT NULL. */
  datatype StoredPricing = StoredPricing(rates: PricingConfig, fxUsdMzn: real)

  /** float(x or default): a stored zero reads as the default. */
  function OrDefault(x: real, default: real): real {
    if x == 0.0 then default else x
  }

  /** The rates the page computes with. */
  function PageConfig(row: Option<StoredPricing>): StoredPricing {
    if row.None? then StoredPricing(FALLBACK_PRICING, 64.0)
    else
      var r := row.value.rates;
      StoredPricing(
        r.(usdPerCredit := OrDefault(r.usdPerCredit, 0.01), ivaRate := OrDefault(r.ivaRate, 0.16),
           marginRate := OrDefault(r.marginRate, 0.6), withholdingRate := OrDefault(r.withholdingRate, 0.0)),
        OrDefault(row.value.fxUsdMzn, 64.0))
  }

  /** The rates the billing code charges with. */
  function BillingConfig(row: Option<StoredPricing>): PricingConfig {
    if row.Some? then row.value.rates else FALLBACK_PRICING
  }

  /** The page can divide by its rates. */
  predicate Solvable(row: Option<StoredPricing>) {
    1.0 + PageConfig(row).rates.ivaRate != 0.0 && 1.0 + PageConfig(row).rates.marginRate != 0.0
  }

  /** The raw cost the page shows for a price in dollars. */
  function PageRawCost(priceUsd: real, row: Option<StoredPricing>): real
    requires Solvable(row)
  {
    BackSolve(priceUsd, PageConfig(row).rates).rawCostUsd
  }

  /** The one withholding rate with which the page's reading of the stored rates still inverts the sell formula. */
  function ExactWithholding(row: Option<StoredPricing>): real {
    var noMargin, noIva := row.Some? && row.value.rates.marginRate == 0.0, row.Some? && row.value.rates.ivaRate == 0.0;
    if noMargin && noIva then 0.856 else if noMargin then 0.6 else if noIva then 0.16 else 0.0
  }

  lemma EqualProducts(k: real, x: real, y: real)
    ensures k * x == k * y <==> k == 0.0 || x == y
  {
    assert k * x - k * y == k * (x - y);
    if k != 0.0 && x != y {
      NonZeroProduct(k, x - y);
    }
  }

  /** The price is the raw cost with the stored margin and IVA, times what the page's defaults add to them. */
  lemma PriceInStoredRates(priceUsd: real, row: Option<StoredPricing>)
    requires Solvable(row)
    ensures var r, b := PageRawCost(priceUsd, row), BillingConfig(row);
            r * (1.0 + b.marginRate) * (1.0 + b.ivaRate) * (1.0 + ExactWithholding(row)) == priceUsd
  {
    var p, b := PageConfig(row).rates, BillingConfig(row);
    var r, m, i := PageRawCost(priceUsd, row), 1.0 + p.marginRate, 1.0 + p.ivaRate;
    NonZeroProduct(m, i);
    DivideBack(priceUsd, m * i);
    assert r * (m * i) == r * m * i;
    var noMargin, noIva := b.marginRate == 0.0, b.ivaRate == 0.0;
    if noMargin && noIva {
      assert r * m * i == r * 1.856;
    } else if noMargin {
      assert r * 1.6 * i == r * i * 1.6;
    } else if noIva {
      assert r * m * 1.16 == r * m * 1.0 * 1.16;
    }
  }

  /**
   Over the stored rates: selling the raw cost the page shows gives the price back exactly when the
   price is zero or the withholding rate is the one that makes up for the defaults the page puts in the
   place of stored zeros; without such zeros, exactly when nothing is withheld.
   */
  lemma PageBackSolveExactIff(priceUsd: real, row: Option<StoredPricing>)
    requires Solvable(row)
    ensures Sell(BillingConfig(row), PageRawCost(priceUsd, row)) == priceUsd
            <==> priceUsd == 0.0 || BillingConfig(row).withholdingRate == ExactWithholding(row)
  {
    var r, b := PageRawCost(priceUsd, row), BillingConfig(row);
    PriceInStoredRates(priceUsd, row);
    SellReordered(b, r);
    FactorsAgreeIff(r * (1.0 + b.marginRate) * (1.0 + b.ivaRate), b.withholdingRate, ExactWithholding(row), Sell(b, r), priceUsd);
  }

  lemma FactorsAgreeIff(k: real, w: real, v: real, sell: real, price: real)
    requires sell == k * (1.0 + w) && price == k * (1.0 + v) && 1.0 + v != 0.0
    ensures sell == price <==> price == 0.0 || w == v
  {
    EqualProducts(k, 1.0 + w, 1.0 + v);
    ZeroProduct(k, 1.0 + v);
  }

  lemma ZeroProduct(k: real, f: real)
    requires f != 0.0
    ensures k * f == 0.0 <==> k == 0.0
  {
    if k != 0.0 {
      NonZeroProduct(k, f);
    }
  }

  lemma SellReordered(pricing: PricingConfig, raw: real)
    ensures Sell(pricing, raw)
            == raw * (1.0 + pricing.marginRate) * (1.0 + pricing.ivaRate) * (1.0 + pricing.withholdingRate)
  {
    var w, m, i := 1.0 + pricing.withholdingRate, 1.0 + pricing.marginRate, 1.0 + pricing.ivaRate;
    assert raw * w * m == raw * m * w;
    assert raw * m * w * i == raw * m * i * w;
  }

  /** With IVA stored as zero the page still takes 16 per cent off, so its raw cost sells for less than the price. */
  lemma ZeroIvaBreaksTheBackSolve(priceUsd: real, row: StoredPricing)
    requires priceUsd > 0.0 && row.rates.ivaRate == 0.0 && row.rates.marginRate == 0.6 && row.rates.withholdingRate == 0.0
    ensures Solvable(Some(row))
    ensures Sell(row.rates, PageRawCost(priceUsd, Some(row))) * 1.16 == priceUsd
    ensures Sell(row.rates, PageRawCost(priceUsd, Some(row))) < priceUsd
  {
    PriceInStoredRates(priceUsd, Some(row));
    SellReordered(row.rates, PageRawCost(priceUsd, Some(row)));
  }

  /** On the page the three parts of a package in dollars or meticais always add up to the listed price: its exchange rate is never zero. */
  lemma PagePartsAddUp(priceAmount: real, currency: string, row: Option<StoredPricing>)
    requires Solvable(row)
    ensures var page := PageConfig(row);
            var m := PackageEconomics(priceAmount, currency, page.fxUsdMzn, page.rates);
            && page.fxUsdMzn != 0.0
            && (m.None? <==> currency != "USD" && currency != "MZN" && currency != "MT")
            && (m.Some? ==>
                  var total := m.value.ivaPortionUsd + m.value.grossMarginUsd + m.value.rawCostUsd;
                  total * (if currency == "USD" then 1.0 else page.fxUsdMzn) == priceAmount)
  {
    PackagePartsAddUp(priceAmount, currency, PageConfig(row).fxUsdMzn, PageConfig(row).rates);
  }
}
