/**
  The price catalog: per-model rates and the three-step lookup of
  `getPricingForModel` (exact key, then some key that is a prefix of the
  requested name, then a fixed default).

  Go ranges over a map in an order the runtime picks afresh each time. The
  model makes that order an explicit argument, a sequence that enumerates the
  catalog's keys; no contract here says which of several matching prefix keys
  wins, only that one of them does.
*/
module Pricing {
  import opened Wrappers
  import opened Strings

  /** One price-list entry. Rates are US dollars per one million tokens. */
  datatype ModelPricing = ModelPricing(
    model: string,
    version: string,
    input: real,
    cachedInput: real,
    output: real)

  /** Model identifier (a family name or a dated release) to its entry. */
  type Catalog = map<string, ModelPricing>

  /** Rates used when no key matches: the GPT-4 list prices, 30 and 60 dollars. */
  const DefaultPricing: ModelPricing := ModelPricing("default", "", 30.0, 0.0, 60.0)

  /** The entry a lookup resolved to, and whether it came from the catalog. */
  datatype Lookup = Lookup(pricing: ModelPricing, found: bool)

  /**
    `order` is one pass of Go's `range` over `catalog`: every key, each exactly
    once, in whatever order the runtime chose.
  */
  predicate Enumerates(order: seq<string>, catalog: Catalog) {
    && (forall i :: 0 <= i < |order| ==> order[i] in catalog)
    && (forall k :: k in catalog ==> k in order)
    && (forall i, j :: 0 <= i < j < |order| ==> order[i] != order[j])
  }

  /** All rates of the catalog are non-negative. */
  predicate NonNegativeRates(catalog: Catalog) {
    forall k :: k in catalog ==> catalog[k].input >= 0.0 && catalog[k].output >= 0.0
  }

  /** The first key of `order` that is a prefix of `model`, if any. */
  function FirstPrefixKey(order: seq<string>, model: string): (r: Option<string>)
    ensures r.Some? ==> r.value in order && HasPrefix(model, r.value)
    ensures r.None? <==> forall i :: 0 <= i < |order| ==> !HasPrefix(model, order[i])
    decreases |order|
  {
    if |order| == 0 then None
    else if HasPrefix(model, order[0]) then Some(order[0])
    else FirstPrefixKey(order[1..], model)
  }

  /**
    `getPricingForModel`: an exact key wins; otherwise the entry of some key
    that is a prefix of `model`; otherwise the default with `found == false`.
  */
  function GetPricingForModel(catalog: Catalog, order: seq<string>, model: string): (r: Lookup)
    requires Enumerates(order, catalog)
    ensures model in catalog ==> r == Lookup(catalog[model], true)
    ensures r.found <==> exists k :: k in catalog && HasPrefix(model, k)
    ensures r.found ==> exists k :: k in catalog && HasPrefix(model, k) && r.pricing == catalog[k]
    ensures !r.found ==> r.pricing == DefaultPricing
  {
    if model in catalog then
      assert HasPrefix(model, model);
      Lookup(catalog[model], true)
    else
      match FirstPrefixKey(order, model)
      case Some(k) => Lookup(catalog[k], true)
      case None => Lookup(DefaultPricing, false)
  }

  /** When exactly one key is a prefix of `model`, the iteration order cannot matter. */
  lemma UniquePrefixWins(catalog: Catalog, order: seq<string>, model: string, key: string)
    requires Enumerates(order, catalog)
    requires key in catalog && HasPrefix(model, key)
    requires forall k :: k in catalog && HasPrefix(model, k) ==> k == key
    ensures GetPricingForModel(catalog, order, model) == Lookup(catalog[key], true)
  {
  }

  /** Every entry a lookup can return has non-negative rates when the catalog's have. */
  lemma LookupRatesNonNegative(catalog: Catalog, order: seq<string>, model: string)
    requires Enumerates(order, catalog)
    requires NonNegativeRates(catalog)
    ensures GetPricingForModel(catalog, order, model).pricing.input >= 0.0
    ensures GetPricingForModel(catalog, order, model).pricing.output >= 0.0
  {
  }

  /**
    `getAvailableModels`: the catalog's keys, gathered by ranging over the
    map, so in an order the runtime picks.
  */
  method GetAvailableModels(catalog: Catalog) returns (models: seq<string>)
    ensures Enumerates(models, catalog)
    ensures |models| == |catalog|
  {
    models := [];
    var rest := catalog.Keys;
    while rest != {}
      invariant rest <= catalog.Keys
      invariant forall i :: 0 <= i < |models| ==> models[i] in catalog && models[i] !in rest
      invariant forall k :: k in catalog ==> k in models || k in rest
      invariant forall i, j :: 0 <= i < j < |models| ==> models[i] != models[j]
      invariant |models| + |rest| == |catalog.Keys|
      decreases |rest|
    {
      var k :| k in rest;
      models := models + [k];
      rest := rest - {k};
    }
  }
}
