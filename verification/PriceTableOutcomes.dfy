/**
 What the price lookups read from the tables, row present or missing, and what the bulk edits of
 src/admin/cost_model.py leave in them.
 */
module PriceTableOutcomes {
  import opened Prelude
  import opened Pricing
  import opened BillingCache

  // ---------------------------------------------------------------------------------------------
  // Reads
  // ---------------------------------------------------------------------------------------------

  /** Rows that are there are read as they are; only an empty rate name means the default one. */
  lemma RowsAreRead(db: PriceTables, name: string, slug: string, model: string)
    ensures db.pricing.Some? ==> ReadPricing(db) == db.pricing.value
    ensures name in db.rates ==> ReadRate(db, name) == db.rates[name]
    ensures slug in db.profiles ==>
              var row, profile := db.profiles[slug], ReadProfile(db, slug);
              && profile.computeRateName == (if row.computeRateName == "" then "default" else row.computeRateName)
              && profile.llmMarginOverride == row.llmMarginOverride && profile.fixedSurchargeUsd == row.fixedSurchargeUsd
    ensures model in db.models ==> ReadModel(db, model) == Some(db.models[model])
  {
  }

  /** What counts in place of a missing row: the seed rates, no surcharge, and no price for the model. */
  lemma MissingRowsAreRead(db: PriceTables, name: string, slug: string, model: string)
    ensures db.pricing.None? ==> ReadPricing(db) == PricingConfig(0.0, 0.6, 0.16, 0.01, 1.0)
    ensures name !in db.rates ==> ReadRate(db, name) == ComputeRate(0.0000077, 0.05, 0.0001)
    ensures slug !in db.profiles ==> ReadProfile(db, slug) == CostProfile("default", None, 0.0)
    ensures model !in db.models ==> ReadModel(db, model).None?
  {
  }

  /** A call is priced at the rate its profile names, the pricing row, and the model's price if it reports tokens. */
  lemma CallIsPricedByItsRows(db: PriceTables, slug: string, durationMs: int, responseBytes: int, usage: UsageMeta)
    requires db.pricing.Some? && slug in db.profiles && db.profiles[slug].computeRateName in db.rates
    requires db.profiles[slug].computeRateName != ""
    requires usage.usageUsd.None? && usage.model.Some? && usage.model.value != "" && usage.model.value in db.models
    ensures var row := db.profiles[slug];
            DirectCost(db, slug, durationMs, responseBytes, usage)
            == Cost(db.pricing.value, CostProfile(row.computeRateName, row.llmMarginOverride, row.fixedSurchargeUsd),
                    db.rates[row.computeRateName], Some(db.models[usage.model.value]), durationMs, responseBytes, usage)
  {
  }

  // ---------------------------------------------------------------------------------------------
  // Bulk edits
  // ---------------------------------------------------------------------------------------------

  /** The quote sets a price: it has both prices, a name, and a prompt price above zero. */
  predicate SetsPrice(q: Quote, id: string) {
    q.id == id && id != "" && q.promptUsd.Some? && q.completionUsd.Some? && q.promptUsd.value > 0.0
  }

  /** The model's price is a thousand times the last usable quote per token, without a cached price. */
  lemma {:induction false} LastQuoteIsStored(models: map<string, ModelPrice>, quotes: seq<Quote>, id: string, i: nat)
    requires i < |quotes| && SetsPrice(quotes[i], id) && forall j :: i < j < |quotes| ==> !SetsPrice(quotes[j], id)
    ensures var after := ApplyQuotes(models, quotes);
            && "openrouter/" + id in after
            && after["openrouter/" + id] == ModelPrice(quotes[i].promptUsd.value * 1000.0, quotes[i].completionUsd.value * 1000.0, None)
  {
    var before, q := quotes[..|quotes| - 1], quotes[|quotes| - 1];
    if i < |quotes| - 1 {
      LastQuoteIsStored(models, before, id, i);
      SlugsDiffer(q.id, id);
    }
  }

  lemma SlugsDiffer(a: string, b: string)
    ensures "openrouter/" + a == "openrouter/" + b ==> a == b
  {
    assert ("openrouter/" + a)[11..] == a && ("openrouter/" + b)[11..] == b;
  }

  /** A model that no usable quote names keeps its price, or stays without. */
  lemma {:induction false} UnquotedModelsStay(models: map<string, ModelPrice>, quotes: seq<Quote>, model: string)
    requires forall j :: 0 <= j < |quotes| ==> !(SetsPrice(quotes[j], quotes[j].id) && model == "openrouter/" + quotes[j].id)
    ensures model in ApplyQuotes(models, quotes) <==> model in models
    ensures model in models ==> ApplyQuotes(models, quotes)[model] == models[model]
  {
    if quotes != [] {
      var before := quotes[..|quotes| - 1];
      assert forall j :: 0 <= j < |before| ==> before[j] == quotes[j];
      UnquotedModelsStay(models, before, model);
    }
  }

  /** Of several edits of one profile the last one counts. */
  lemma {:induction false} LastEditIsStored(profiles: map<string, ProfileRow>, edits: seq<ProfileEdit>, i: nat)
    requires i < |edits| && forall j :: i < j < |edits| ==> edits[j].slug != edits[i].slug
    ensures var after := ApplyEdits(profiles, edits);
            edits[i].slug in after && after[edits[i].slug] == edits[i].row
  {
    if i < |edits| - 1 {
      LastEditIsStored(profiles, edits[..|edits| - 1], i);
    }
  }

  /** A profile no edit names stays as it is, or stays without a row. */
  lemma {:induction false} UneditedProfilesStay(profiles: map<string, ProfileRow>, edits: seq<ProfileEdit>, slug: string)
    requires forall j :: 0 <= j < |edits| ==> edits[j].slug != slug
    ensures slug in ApplyEdits(profiles, edits) <==> slug in profiles
    ensures slug in profiles ==> ApplyEdits(profiles, edits)[slug] == profiles[slug]
  {
    if edits != [] {
      UneditedProfilesStay(profiles, edits[..|edits| - 1], slug);
    }
  }
}
