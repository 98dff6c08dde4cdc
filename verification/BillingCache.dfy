/**
 The four cached price lookups of src/gateway/billing.py and the write handlers of
 src/admin/cost_model.py that clear them.  Each method runs as a whole; table reads succeed.
 */
module BillingCache {
  import opened Prelude
  import opened TtlCache
  import opened Pricing

  const CONFIG_TTL := 60.0
  const MODEL_TTL := 300.0

  datatype ProfileRow = ProfileRow(computeRateName: string, llmMarginOverride: Option<real>, fixedSurchargeUsd: real)

  /** The four pricing tables; pricing_config is a singleton that may be missing. */
  datatype PriceTables = PriceTables(
    pricing: Option<PricingConfig>,
    rates: map<string, ComputeRate>,
    profiles: map<string, ProfileRow>,
    models: map<string, ModelPrice>)

  const FALLBACK_RATE := ComputeRate(0.0000077, 0.05, 0.0001)

  // Reading the tables directly.

  function ReadPricing(db: PriceTables): PricingConfig {
    if db.pricing.Some? then db.pricing.value else FALLBACK_PRICING
  }

  function ReadRate(db: PriceTables, name: string): ComputeRate {
    if name in db.rates then db.rates[name] else FALLBACK_RATE
  }

  function ReadProfile(db: PriceTables, slug: string): CostProfile {
    if slug in db.profiles then
      var row := db.profiles[slug];
      CostProfile(if row.computeRateName == "" then "default" else row.computeRateName,
                  row.llmMarginOverride, row.fixedSurchargeUsd)
    else
      CostProfile("default", None, 0.0)
  }

  function ReadModel(db: PriceTables, model: string): Option<ModelPrice> {
    if model in db.models then Some(db.models[model]) else None
  }

  /** The cost of a call according to the tables as they stand. */
  function DirectCost(db: PriceTables, slug: string, durationMs: int, responseBytes: int, usage: UsageMeta): CostBreakdown {
    var profile := ReadProfile(db, slug);
    var price := if PricedModel(usage).Some? then ReadModel(db, PricedModel(usage).value) else None;
    Cost(ReadPricing(db), profile, ReadRate(db, profile.computeRateName), price, durationMs, responseBytes, usage)
  }

  /** A model of the OpenRouter list; a price that does not parse is absent. */
  datatype Quote = Quote(id: string, promptUsd: Option<real>, completionUsd: Option<real>)

  predicate Usable(q: Quote) {
    q.promptUsd.Some? && q.completionUsd.Some? && q.id != "" && q.promptUsd.value > 0.0
  }

  function ApplyQuotes(models: map<string, ModelPrice>, quotes: seq<Quote>): map<string, ModelPrice> {
    if quotes == [] then models
    else
      var before := ApplyQuotes(models, quotes[..|quotes| - 1]);
      var q := quotes[|quotes| - 1];
      if Usable(q) then
        before["openrouter/" + q.id := ModelPrice(q.promptUsd.value * 1000.0, q.completionUsd.value * 1000.0, None)]
      else before
  }

  datatype ProfileEdit = ProfileEdit(slug: string, row: ProfileRow)

  function ApplyEdits(profiles: map<string, ProfileRow>, edits: seq<ProfileEdit>): map<string, ProfileRow> {
    if edits == [] then profiles
    else ApplyEdits(profiles, edits[..|edits| - 1])[edits[|edits| - 1].slug := edits[|edits| - 1].row]
  }

  class Billing {
    var db: PriceTables
    const pricingCache: Cache<string, PricingConfig>
    const rateCache: Cache<string, ComputeRate>
    const profileCache: Cache<string, CostProfile>
    /** None is the empty-dict entry remembered for an unknown model. */
    const modelCache: Cache<string, Option<ModelPrice>>

    /** Whatever a cache holds, expired or not, is what the tables say now. */
    ghost predicate Valid()
      reads this, pricingCache, rateCache, profileCache, modelCache
    {
      && pricingCache.maxsize == 1 && rateCache.maxsize == 16
      && profileCache.maxsize == 256 && modelCache.maxsize == 128
      && (forall k :: k in pricingCache.store ==> pricingCache.store[k].value == ReadPricing(db))
      && (forall k :: k in rateCache.store ==> rateCache.store[k].value == ReadRate(db, k))
      && (forall k :: k in profileCache.store ==> profileCache.store[k].value == ReadProfile(db, k))
      && (forall k :: k in modelCache.store ==> modelCache.store[k].value == ReadModel(db, k))
    }

    constructor (db: PriceTables)
      ensures Valid() && this.db == db
      ensures fresh(pricingCache) && fresh(rateCache) && fresh(profileCache) && fresh(modelCache)
      ensures pricingCache.ttl == 60.0 && rateCache.ttl == 60.0 && profileCache.ttl == 60.0 && modelCache.ttl == 300.0
    {
      this.db := db;
      pricingCache := new Cache(CONFIG_TTL, 1);
      rateCache := new Cache(CONFIG_TTL, 16);
      profileCache := new Cache(CONFIG_TTL, 256);
      modelCache := new Cache(MODEL_TTL, 128);
    }

    method GetPricingConfig(now: real) returns (config: PricingConfig)
      requires Valid()
      modifies pricingCache
      ensures Valid() && config == ReadPricing(db)
      ensures Answer(old(pricingCache.store), "singleton", now).None? ==>
                "singleton" in pricingCache.store && pricingCache.store["singleton"].expiresAt == now + 60.0
    {
      var cached := pricingCache.Get("singleton", now);
      if cached.Some? {
        return cached.value;
      }
      config := if db.pricing.Some? then db.pricing.value else FALLBACK_PRICING;
      pricingCache.Set("singleton", config, CONFIG_TTL, now);
    }

    method GetComputeRate(name: string, now: real) returns (rate: ComputeRate)
      requires Valid()
      modifies rateCache
      ensures Valid() && rate == ReadRate(db, name)
      ensures Answer(old(rateCache.store), name, now).None? ==> name in rateCache.store && rateCache.store[name].expiresAt == now + 60.0
    {
      var cached := rateCache.Get(name, now);
      if cached.Some? {
        return cached.value;
      }
      rate := if name in db.rates then db.rates[name] else FALLBACK_RATE;
      rateCache.Set(name, rate, CONFIG_TTL, now);
    }

    method GetMcpProfile(slug: string, now: real) returns (profile: CostProfile)
      requires Valid()
      modifies profileCache
      ensures Valid() && profile == ReadProfile(db, slug)
      ensures Answer(old(profileCache.store), slug, now).None? ==>
                slug in profileCache.store && profileCache.store[slug].expiresAt == now + 60.0
    {
      var cached := profileCache.Get(slug, now);
      if cached.Some? {
        return cached.value;
      }
      if slug in db.profiles {
        var row := db.profiles[slug];
        var name := if row.computeRateName == "" then "default" else row.computeRateName;
        profile := CostProfile(name, row.llmMarginOverride, row.fixedSurchargeUsd);
      } else {
        profile := CostProfile("default", None, 0.0);
      }
      profileCache.Set(slug, profile, CONFIG_TTL, now);
    }

    method GetModelPrice(model: string, now: real) returns (price: Option<ModelPrice>)
      requires Valid()
      modifies modelCache
      ensures Valid() && price == ReadModel(db, model)
      ensures Answer(old(modelCache.store), model, now).None? ==>
                model in modelCache.store && modelCache.store[model].expiresAt == now + 300.0
    {
      var cached := modelCache.Get(model, now);
      if cached.Some? {
        return cached.value;
      }
      if model !in db.models {
        modelCache.Set(model, None, MODEL_TTL, now);
        return None;
      }
      price := Some(db.models[model]);
      modelCache.Set(model, price, MODEL_TTL, now);
    }

    /** The cached computation answers exactly what the tables say, at every clock reading. */
    method ComputeCost(slug: string, durationMs: int, responseBytes: int, usage: UsageMeta, now: real)
      returns (cost: CostBreakdown)
      requires Valid()
      modifies pricingCache, rateCache, profileCache, modelCache
      ensures Valid() && db == old(db)
      ensures cost == DirectCost(db, slug, durationMs, responseBytes, usage)
    {
      var pricing := GetPricingConfig(now);
      var profile := GetMcpProfile(slug, now);
      var rate := GetComputeRate(profile.computeRateName, now);
      var price: Option<ModelPrice> := None;
      if PricedModel(usage).Some? {
        price := GetModelPrice(PricedModel(usage).value, now);
      }
      cost := Cost(pricing, profile, rate, price, durationMs, responseBytes, usage);
    }

    method GetMinBalanceToCall(now: real) returns (minBalance: real)
      requires Valid()
      modifies pricingCache
      ensures Valid() && minBalance == ReadPricing(db).minBalanceToCall
    {
      var pricing := GetPricingConfig(now);
      minBalance := pricing.minBalanceToCall;
    }

    method InvalidateCaches()
      modifies pricingCache, rateCache, profileCache, modelCache
      ensures pricingCache.store == map[] && rateCache.store == map[]
      ensures profileCache.store == map[] && modelCache.store == map[]
    {
      pricingCache.Clear();
      rateCache.Clear();
      profileCache.Clear();
      modelCache.Clear();
    }

    // The write handlers.

    /** Updates the singleton row; without that row the update matches nothing. */
    method SavePricing(config: PricingConfig)
      requires Valid()
      modifies this, pricingCache, rateCache, profileCache, modelCache
      ensures Valid()
      ensures db == old(db).(pricing := if old(db).pricing.Some? then Some(config) else None)
    {
      if db.pricing.Some? {
        db := db.(pricing := Some(config));
      }
      InvalidateCaches();
    }

    method SaveRate(name: string, rate: ComputeRate)
      requires Valid()
      modifies this, pricingCache, rateCache, profileCache, modelCache
      ensures Valid() && db == old(db).(rates := old(db).rates[name := rate])
    {
      db := db.(rates := db.rates[name := rate]);
      InvalidateCaches();
    }

    method ModelsUpsert(model: string, price: ModelPrice)
      requires Valid()
      modifies this, pricingCache, rateCache, profileCache, modelCache
      ensures Valid() && db == old(db).(models := old(db).models[model := price])
    {
      db := db.(models := db.models[model := price]);
      InvalidateCaches();
    }

    method ModelsDelete(model: string)
      requires Valid()
      modifies this, pricingCache, rateCache, profileCache, modelCache
      ensures Valid() && db == old(db).(models := old(db).models - {model})
    {
      db := db.(models := db.models - {model});
      InvalidateCaches();
    }

    /** A failed fetch leaves tables and caches alone. */
    method ModelsRefresh(fetched: Option<seq<Quote>>)
      requires Valid()
      modifies this, pricingCache, rateCache, profileCache, modelCache
      ensures Valid()
      ensures db == if fetched.None? then old(db)
                    else old(db).(models := ApplyQuotes(old(db).models, fetched.value))
    {
      if fetched.None? {
        return;
      }
      var quotes := fetched.value;
      for i := 0 to |quotes|
        invariant db == old(db).(models := ApplyQuotes(old(db).models, quotes[..i]))
      {
        var q := quotes[i];
        assert quotes[..i + 1][..i] == quotes[..i];
        if !Usable(q) {
          continue;
        }
        var price := ModelPrice(q.promptUsd.value * 1000.0, q.completionUsd.value * 1000.0, None);
        db := db.(models := db.models["openrouter/" + q.id := price]);
      }
      assert quotes[..|quotes|] == quotes;
      InvalidateCaches();
    }

    method ProfilesSave(edits: seq<ProfileEdit>)
      requires Valid()
      modifies this, pricingCache, rateCache, profileCache, modelCache
      ensures Valid() && db == old(db).(profiles := ApplyEdits(old(db).profiles, edits))
    {
      for i := 0 to |edits|
        invariant db == old(db).(profiles := ApplyEdits(old(db).profiles, edits[..i]))
      {
        assert edits[..i + 1][..i] == edits[..i];
        db := db.(profiles := db.profiles[edits[i].slug := edits[i].row]);
      }
      assert edits[..|edits|] == edits;
      InvalidateCaches();
    }
  }
}
