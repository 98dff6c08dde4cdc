/**
 What a call costs, amount by amount: the fixed parts, what each unit of time, traffic and usage adds,
 and the factors from the raw cost to the credits charged.
 */
module PricingAmounts {
  import opened Prelude
  import opened Pricing

  /** The raw cost of a call. */
  function Raw(profile: CostProfile, rate: ComputeRate, price: Option<ModelPrice>, durationMs: int, responseBytes: int, usage: UsageMeta): real {
    Cost(FALLBACK_PRICING, profile, rate, price, durationMs, responseBytes, usage).rawUsd
  }

  const NO_USAGE := UsageMeta(None, None, 0, 0, 0)

  /** The pricing rates do not enter the raw cost. */
  lemma RawIsCost(pricing: PricingConfig, profile: CostProfile, rate: ComputeRate, price: Option<ModelPrice>,
                  durationMs: int, responseBytes: int, usage: UsageMeta)
    ensures Cost(pricing, profile, rate, price, durationMs, responseBytes, usage).rawUsd
            == Raw(profile, rate, price, durationMs, responseBytes, usage)
  {
  }

  /** A call without time, traffic or usage costs the base of its compute rate plus the surcharge of its profile. */
  lemma BareCallCost(profile: CostProfile, rate: ComputeRate, price: Option<ModelPrice>)
    ensures Raw(profile, rate, price, 0, 0, NO_USAGE) == rate.creditBasePerCallUsd + profile.fixedSurchargeUsd
  {
  }

  /** Time, traffic and usage add up: each adds the same, whatever the other two are. */
  lemma PartsAddUp(profile: CostProfile, rate: ComputeRate, price: Option<ModelPrice>, durationMs: int, responseBytes: int, usage: UsageMeta)
    ensures var bare := Raw(profile, rate, price, 0, 0, NO_USAGE);
            Raw(profile, rate, price, durationMs, responseBytes, usage) - bare
            == (Raw(profile, rate, price, durationMs, 0, NO_USAGE) - bare)
               + (Raw(profile, rate, price, 0, responseBytes, NO_USAGE) - bare)
               + (Raw(profile, rate, price, 0, 0, usage) - bare)
  {
  }

  /** A part of a unit costs that part of its price; nothing costs nothing. */
  lemma ShareOf(x: real, unit: real, price: real)
    requires unit != 0.0
    ensures Share(x, unit, price) * unit == x * price
    ensures x == unit ==> Share(x, unit, price) == price
    ensures x == 0.0 ==> Share(x, unit, price) == 0.0
  {
    DivideBack(x, unit);
    assert x / unit * price * unit == x / unit * unit * price;
  }

  /** What time and traffic add to a bare call. */
  lemma AddedCost(profile: CostProfile, rate: ComputeRate, price: Option<ModelPrice>, durationMs: int, responseBytes: int)
    ensures Raw(profile, rate, price, durationMs, responseBytes, NO_USAGE)
            == Raw(profile, rate, price, 0, 0, NO_USAGE) + ComputeUsd(rate, durationMs, responseBytes)
  {
    ShareOf(0.0, 1000.0, rate.usdPerVcpuSec);
    ShareOf(0.0, BYTES_PER_GB, rate.usdPerGbEgress);
  }

  lemma TimePart(rate: ComputeRate, durationMs: int)
    ensures ComputeUsd(rate, durationMs, 0) == Share(Max(durationMs, 0) as real, 1000.0, rate.usdPerVcpuSec)
  {
    ShareOf(0.0, BYTES_PER_GB, rate.usdPerGbEgress);
  }

  lemma TrafficPart(rate: ComputeRate, responseBytes: int)
    ensures ComputeUsd(rate, 0, responseBytes) == Share(Max(responseBytes, 0) as real, 1073741824.0, rate.usdPerGbEgress)
  {
    ShareOf(0.0, 1000.0, rate.usdPerVcpuSec);
  }

  /** A second adds the price of a second, and milliseconds their share of it; a negative time adds nothing. */
  lemma TimeAdds(profile: CostProfile, rate: ComputeRate, price: Option<ModelPrice>, durationMs: int)
    ensures var added := Raw(profile, rate, price, durationMs, 0, NO_USAGE) - Raw(profile, rate, price, 0, 0, NO_USAGE);
            && (durationMs == 1000 ==> added == rate.usdPerVcpuSec)
            && (durationMs >= 0 ==> added * 1000.0 == durationMs as real * rate.usdPerVcpuSec)
            && (durationMs < 0 ==> added == 0.0)
  {
    AddedCost(profile, rate, price, durationMs, 0);
    TimePart(rate, durationMs);
    ShareOf(Max(durationMs, 0) as real, 1000.0, rate.usdPerVcpuSec);
  }

  /** A gigabyte adds the price of a gigabyte, and bytes their share of it; a negative count adds nothing. */
  lemma TrafficAdds(profile: CostProfile, rate: ComputeRate, price: Option<ModelPrice>, responseBytes: int)
    ensures var added := Raw(profile, rate, price, 0, responseBytes, NO_USAGE) - Raw(profile, rate, price, 0, 0, NO_USAGE);
            && (responseBytes == 1024 * 1024 * 1024 ==> added == rate.usdPerGbEgress)
            && (responseBytes >= 0 ==> added * 1073741824.0 == responseBytes as real * rate.usdPerGbEgress)
            && (responseBytes < 0 ==> added == 0.0)
  {
    AddedCost(profile, rate, price, 0, responseBytes);
    TrafficPart(rate, responseBytes);
    ShareOf(Max(responseBytes, 0) as real, 1073741824.0, rate.usdPerGbEgress);
  }

  /** What a call's LLM usage adds to its raw cost. */
  function Usage(profile: CostProfile, rate: ComputeRate, price: Option<ModelPrice>, usage: UsageMeta): real {
    Raw(profile, rate, price, 0, 0, usage) - Raw(profile, rate, price, 0, 0, NO_USAGE)
  }

  /** Dollars the upstream reports are added as they are, negative ones as zero, whatever else it reports. */
  lemma ReportedDollarsAdd(profile: CostProfile, rate: ComputeRate, price: Option<ModelPrice>, usage: UsageMeta, dollars: real)
    requires usage.usageUsd == Some(dollars)
    ensures dollars >= 0.0 ==> Usage(profile, rate, price, usage) == dollars
    ensures dollars < 0.0 ==> Usage(profile, rate, price, usage) == 0.0
  {
  }

  /** Tokens add nothing without a model that has a price. */
  lemma UnpricedTokensAreFree(profile: CostProfile, rate: ComputeRate, price: Option<ModelPrice>, usage: UsageMeta)
    requires usage.usageUsd.None? && (usage.model.None? || usage.model.value == "" || price.None?)
    ensures Usage(profile, rate, price, usage) == 0.0
  {
  }

  /** Usage by token counts of a model with that price. */
  predicate ByTokens(usage: UsageMeta, price: Option<ModelPrice>) {
    usage.usageUsd.None? && usage.model.Some? && usage.model.value != "" && price.Some?
  }

  lemma UsageByTokens(profile: CostProfile, rate: ComputeRate, price: Option<ModelPrice>, usage: UsageMeta)
    requires ByTokens(usage, price)
    ensures Usage(profile, rate, price, usage) == TokenCost(usage, price.value)
  {
  }

  lemma TokenCostParts(usage: UsageMeta, price: ModelPrice, cached: real)
    requires 0 <= usage.cachedInputTokens <= usage.inputTokens && 0 <= usage.outputTokens
    requires cached == if price.cachedInputPer1k.Some? then price.cachedInputPer1k.value else 0.0
    ensures TokenCost(usage, price)
            == PerThousand(usage.inputTokens - usage.cachedInputTokens, price.inputPer1k)
               + PerThousand(usage.outputTokens, price.outputPer1k) + PerThousand(usage.cachedInputTokens, cached)
  {
    TokenCostInParts(usage, price, cached);
  }

  lemma Shares(tokens: int, per1k: real)
    ensures PerThousand(tokens, per1k) * 1000.0 == tokens as real * per1k
  {
    ShareOf(tokens as real, 1000.0, per1k);
  }

  /**
   A thousand tokens add the price of a thousand, and tokens their share of it: of the input, the cached
   ones at the cached price if there is one, the rest at the input price, and the output at its own.
   */
  lemma TokensAdd(profile: CostProfile, rate: ComputeRate, price: Option<ModelPrice>, usage: UsageMeta)
    requires ByTokens(usage, price) && 0 <= usage.cachedInputTokens <= usage.inputTokens && 0 <= usage.outputTokens
    ensures var uncached := usage.inputTokens - usage.cachedInputTokens;
            var cached := match price.value.cachedInputPer1k case Some(dollars) => dollars case None => 0.0;
            Usage(profile, rate, price, usage) * 1000.0
            == uncached as real * price.value.inputPer1k + usage.outputTokens as real * price.value.outputPer1k
               + usage.cachedInputTokens as real * cached
  {
    var uncached, out, hit := usage.inputTokens - usage.cachedInputTokens, usage.outputTokens, usage.cachedInputTokens;
    var cached := match price.value.cachedInputPer1k case Some(dollars) => dollars case None => 0.0;
    UsageByTokens(profile, rate, price, usage);
    TokenCostParts(usage, price.value, cached);
    Shares(uncached, price.value.inputPer1k);
    Shares(out, price.value.outputPer1k);
    Shares(hit, cached);
  }

  /** A thousand tokens of one kind. */
  lemma ThousandTokensAdd(profile: CostProfile, rate: ComputeRate, model: string, price: ModelPrice)
    requires model != ""
    ensures Usage(profile, rate, Some(price), UsageMeta(None, Some(model), 1000, 0, 0)) == price.inputPer1k
    ensures Usage(profile, rate, Some(price), UsageMeta(None, Some(model), 0, 1000, 0)) == price.outputPer1k
    ensures Usage(profile, rate, Some(price), UsageMeta(None, Some(model), 1000, 0, 1000))
            == match price.cachedInputPer1k case Some(cached) => cached case None => 0.0
  {
  }

  /** Counts that make no sense: more cached than input counts as all cached, and negative output as none. */
  lemma OddCountsAdd(profile: CostProfile, rate: ComputeRate, price: Option<ModelPrice>, usage: UsageMeta)
    requires ByTokens(usage, price)
    ensures usage.cachedInputTokens > usage.inputTokens ==>
              Usage(profile, rate, price, usage) == Usage(profile, rate, price, usage.(cachedInputTokens := usage.inputTokens))
    ensures usage.outputTokens < 0 ==>
              Usage(profile, rate, price, usage) == Usage(profile, rate, price, usage.(outputTokens := 0))
  {
  }

  /** The sell price is the raw cost with withholding, margin and IVA on top of each other. */
  lemma SellFactors(pricing: PricingConfig, profile: CostProfile, rate: ComputeRate, price: Option<ModelPrice>,
                    durationMs: int, responseBytes: int, usage: UsageMeta)
    ensures var cost := Cost(pricing, profile, rate, price, durationMs, responseBytes, usage);
            cost.sellUsd == cost.rawUsd * (1.0 + pricing.withholdingRate) * (1.0 + pricing.marginRate) * (1.0 + pricing.ivaRate)
  {
  }

  /** The breakdown's parts: compute and traffic together, and the usage. */
  lemma BreakdownAddsUp(pricing: PricingConfig, profile: CostProfile, rate: ComputeRate, price: Option<ModelPrice>,
                        durationMs: int, responseBytes: int, usage: UsageMeta)
    ensures var cost := Cost(pricing, profile, rate, price, durationMs, responseBytes, usage);
            && cost.llmUsd == Usage(profile, rate, price, usage)
            && cost.computeUsd + cost.llmUsd + rate.creditBasePerCallUsd + profile.fixedSurchargeUsd == cost.rawUsd
  {
  }

  /** The charge is a whole number of ten-thousandths, and of two as near it is the even one. */
  lemma RoundedToTenThousandths(x: real) returns (n: int)
    ensures Round4(x) == n as real / 10000.0
    ensures n as real - x * 10000.0 == 0.5 || x * 10000.0 - n as real == 0.5 ==> n % 2 == 0
  {
    var scaled := x * 10000.0;
    var below := scaled.Floor;
    var rest := scaled - below as real;
    n := if rest < 0.5 || (rest == 0.5 && below % 2 == 0) then below else below + 1;
  }

  /** Without a positive credit price nothing is charged. */
  lemma NoCreditPriceNoCharge(pricing: PricingConfig, profile: CostProfile, rate: ComputeRate, price: Option<ModelPrice>,
                              durationMs: int, responseBytes: int, usage: UsageMeta)
    requires pricing.usdPerCredit <= 0.0
    ensures Cost(pricing, profile, rate, price, durationMs, responseBytes, usage).creditsCharged == 0.0
  {
  }

  // ---------------------------------------------------------------------------------------------
  // The package page
  // ---------------------------------------------------------------------------------------------

  /** The parts of a package one by one: the net price with IVA is the price, the raw cost with its margin is the net price. */
  lemma PackageParts(priceUsd: real, pricing: PricingConfig)
    requires 1.0 + pricing.ivaRate != 0.0 && 1.0 + pricing.marginRate != 0.0
    ensures var m := BackSolve(priceUsd, pricing);
            && m.netExclIvaUsd * (1.0 + pricing.ivaRate) == priceUsd && m.ivaPortionUsd == priceUsd - m.netExclIvaUsd
            && m.rawCostUsd * (1.0 + pricing.marginRate) == m.netExclIvaUsd && m.grossMarginUsd == m.netExclIvaUsd - m.rawCostUsd
  {
    BackSolveInvertsSell(priceUsd, pricing);
    var m, i, g := BackSolve(priceUsd, pricing), 1.0 + pricing.ivaRate, 1.0 + pricing.marginRate;
    DivideBack(priceUsd, i);
    NonZeroProduct(g, i);
    DivideBack(priceUsd, g * i);
    Reordered(m.rawCostUsd, g, i);
    EqualProducts(i, m.rawCostUsd * g, m.netExclIvaUsd);
  }

  lemma Reordered(x: real, y: real, z: real)
    ensures x * (y * z) == z * (x * y)
  {
  }

  /**
   The rates the page uses for a missing row or a stored zero: 0.01 a credit, 64 meticais a dollar, 16
   per cent IVA, 60 per cent margin, no withholding.
   */
  lemma PageDefaults(row: Option<StoredPricing>)
    ensures var page := PageConfig(row);
            && page.rates.usdPerCredit == (if row.Some? && row.value.rates.usdPerCredit != 0.0 then row.value.rates.usdPerCredit else 0.01)
            && page.fxUsdMzn == (if row.Some? && row.value.fxUsdMzn != 0.0 then row.value.fxUsdMzn else 64.0)
            && page.rates.ivaRate == (if row.Some? && row.value.rates.ivaRate != 0.0 then row.value.rates.ivaRate else 0.16)
            && page.rates.marginRate == (if row.Some? && row.value.rates.marginRate != 0.0 then row.value.rates.marginRate else 0.6)
            && page.rates.withholdingRate == (if row.Some? then row.value.rates.withholdingRate else 0.0)
  {
  }

  /** A missing row is billed at those rates too, and asks for one credit of balance. */
  lemma BillingDefaults()
    ensures BillingConfig(None) == PricingConfig(0.0, 0.6, 0.16, 0.01, 1.0)
  {
  }
}
