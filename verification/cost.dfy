/**
  The cost calculator: tokens times the resolved per-million rates, and the
  six-decimal truncation applied to the cost reported back to the caller.
*/
module Cost {
  import opened Strings
  import opened Pricing

  /** Token counts priced at one entry's per-million rates. */
  function PriceTokens(promptTokens: int, completionTokens: int, pricing: ModelPricing): real {
    promptTokens as real * (pricing.input / 1000000.0)
      + completionTokens as real * (pricing.output / 1000000.0)
  }

  /** `calculateCost`: resolve the model's rates, then price prompt and completion tokens. */
  function CalculateCost(promptTokens: int, completionTokens: int, model: string,
                         catalog: Catalog, order: seq<string>): real
    requires Enumerates(order, catalog)
  {
    PriceTokens(promptTokens, completionTokens, GetPricingForModel(catalog, order, model).pricing)
  }

  /** Pricing no tokens costs nothing, whatever the model. */
  lemma CostOfNoTokens(model: string, catalog: Catalog, order: seq<string>)
    requires Enumerates(order, catalog)
    ensures CalculateCost(0, 0, model, catalog, order) == 0.0
  {
  }

  /** The cost is linear in the token counts: pricing two batches together equals pricing them apart. */
  lemma CostIsLinear(p1: int, c1: int, p2: int, c2: int, model: string, catalog: Catalog, order: seq<string>)
    requires Enumerates(order, catalog)
    ensures CalculateCost(p1 + p2, c1 + c2, model, catalog, order)
         == CalculateCost(p1, c1, model, catalog, order) + CalculateCost(p2, c2, model, catalog, order)
  {
    var pricing := GetPricingForModel(catalog, order, model).pricing;
    var a := pricing.input / 1000000.0;
    var b := pricing.output / 1000000.0;
    assert (p1 + p2) as real * a == p1 as real * a + p2 as real * a;
    assert (c1 + c2) as real * b == c1 as real * b + c2 as real * b;
  }

  /** For a model that is itself a catalog key, the cost uses that key's rates. */
  lemma CostOfExactKey(promptTokens: int, completionTokens: int, model: string, catalog: Catalog, order: seq<string>)
    requires Enumerates(order, catalog)
    requires model in catalog
    ensures CalculateCost(promptTokens, completionTokens, model, catalog, order) * 1000000.0
         == promptTokens as real * catalog[model].input + completionTokens as real * catalog[model].output
  {
  }

  /** For a model no key is a prefix of, the cost uses the default 30/60 rates. */
  lemma CostOfUnknownModel(promptTokens: int, completionTokens: int, model: string, catalog: Catalog, order: seq<string>)
    requires Enumerates(order, catalog)
    requires forall k :: k in catalog ==> !HasPrefix(model, k)
    ensures CalculateCost(promptTokens, completionTokens, model, catalog, order) * 1000000.0
         == 30.0 * promptTokens as real + 60.0 * completionTokens as real
  {
  }

  /** With non-negative rates, more tokens never cost less, and no tokens cost nothing negative. */
  lemma CostIsMonotone(p1: int, c1: int, p2: int, c2: int, model: string, catalog: Catalog, order: seq<string>)
    requires Enumerates(order, catalog)
    requires NonNegativeRates(catalog)
    requires 0 <= p1 <= p2 && 0 <= c1 <= c2
    ensures 0.0 <= CalculateCost(p1, c1, model, catalog, order) <= CalculateCost(p2, c2, model, catalog, order)
  {
    LookupRatesNonNegative(catalog, order, model);
    PriceIsMonotone(p1, c1, p2, c2, GetPricingForModel(catalog, order, model).pricing);
  }

  /** At one entry's non-negative rates, more tokens never cost less. */
  lemma PriceIsMonotone(p1: int, c1: int, p2: int, c2: int, pricing: ModelPricing)
    requires 0 <= p1 <= p2 && 0 <= c1 <= c2
    requires pricing.input >= 0.0 && pricing.output >= 0.0
    ensures 0.0 <= PriceTokens(p1, c1, pricing) <= PriceTokens(p2, c2, pricing)
  {
    var a := pricing.input / 1000000.0;
    var b := pricing.output / 1000000.0;
    assert 0.0 <= p1 as real * a && 0.0 <= c1 as real * b;
    assert p2 as real * a - p1 as real * a == (p2 - p1) as real * a;
    assert c2 as real * b - c1 as real * b == (c2 - c1) as real * b;
  }

  /**
    `float64(int(cost*1e6)) / 1e6`: the cost cut to whole micro-dollars. Go's
    integer conversion truncates toward zero, so the result never lies farther
    from zero than the cost and is less than a micro-dollar away from it.
  */
  function TruncateToMicros(cost: real): (r: real)
    ensures 0.0 <= cost ==> 0.0 <= r <= cost && cost - r < 1.0 / 1000000.0
    ensures cost <= 0.0 ==> cost <= r <= 0.0 && r - cost < 1.0 / 1000000.0
    ensures (r * 1000000.0).Floor as real == r * 1000000.0
  {
    var scaled := cost * 1000000.0;
    var whole := if scaled >= 0.0 then scaled.Floor else -((-scaled).Floor);
    whole as real / 1000000.0
  }

  /** Truncating an already truncated cost changes nothing. */
  lemma TruncateToMicrosIdempotent(cost: real)
    ensures TruncateToMicros(TruncateToMicros(cost)) == TruncateToMicros(cost)
  {
    var r := TruncateToMicros(cost);
    var scaled := r * 1000000.0;
    assert scaled.Floor as real == scaled;
    if scaled < 0.0 {
      assert (-scaled).Floor == -scaled.Floor;
    }
  }
}
