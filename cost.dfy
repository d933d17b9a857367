/** src/lib/utils/cost-calculation.ts: the price of one request from its token usage. */
module Cost {
  import opened Wrappers
  import opened Json

  /** The token counts of a response's `usage` (`UsageMetrics`); `None` is an absent field. */
  datatype UsageMetrics = UsageMetrics(
    inputTokens: Option<real>,
    outputTokens: Option<real>,
    cacheCreationInputTokens: Option<real>,
    cacheReadInputTokens: Option<real>)

  const NoUsage := UsageMetrics(None, None, None, None)

  /** The names of the four price fields the calculation reads. */
  const InputPrice := "input_cost_per_token"
  const OutputPrice := "output_cost_per_token"
  const CacheCreationPrice := "cache_creation_input_token_cost"
  const CacheReadPrice := "cache_read_input_token_cost"

  /** `tokens && price`: both factors present and non-zero. */
  predicate BothTruthy(tokens: Option<real>, price: Option<real>) {
    tokens.Some? && tokens.value != 0.0 && price.Some? && price.value != 0.0
  }

  /** One `if (tokens && price) cost += tokens * price` term. */
  function Term(tokens: Option<real>, price: Option<real>): (r: real)
    ensures tokens.None? || price.None? ==> r == 0.0
    ensures tokens.Some? && price.Some? ==> r == tokens.value * price.value
  {
    if BothTruthy(tokens, price) then tokens.value * price.value else 0.0
  }

  /** What `calculateRequestCost(usage, priceData)` returns. */
  function RequestCost(usage: UsageMetrics, priceData: Json): real {
    Term(usage.inputTokens, NumberField(priceData, InputPrice))
    + Term(usage.outputTokens, NumberField(priceData, OutputPrice))
    + Term(usage.cacheCreationInputTokens, NumberField(priceData, CacheCreationPrice))
    + Term(usage.cacheReadInputTokens, NumberField(priceData, CacheReadPrice))
  }

  /** `calculateRequestCost`: the accumulator and its four guarded additions. */
  method CalculateRequestCost(usage: UsageMetrics, priceData: Json) returns (cost: real)
    ensures cost == RequestCost(usage, priceData)
  {
    cost := 0.0;
    var price := NumberField(priceData, InputPrice);
    if BothTruthy(usage.inputTokens, price) {
      cost := cost + usage.inputTokens.value * price.value;
    }
    ghost var sum := Term(usage.inputTokens, price);
    assert cost == sum;
    price := NumberField(priceData, OutputPrice);
    if BothTruthy(usage.outputTokens, price) {
      cost := cost + usage.outputTokens.value * price.value;
    }
    sum := sum + Term(usage.outputTokens, price);
    assert cost == sum;
    price := NumberField(priceData, CacheCreationPrice);
    if BothTruthy(usage.cacheCreationInputTokens, price) {
      cost := cost + usage.cacheCreationInputTokens.value * price.value;
    }
    sum := sum + Term(usage.cacheCreationInputTokens, price);
    assert cost == sum;
    price := NumberField(priceData, CacheReadPrice);
    if BothTruthy(usage.cacheReadInputTokens, price) {
      cost := cost + usage.cacheReadInputTokens.value * price.value;
    }
    sum := sum + Term(usage.cacheReadInputTokens, price);
    assert cost == sum;
    assert sum == RequestCost(usage, priceData);
  }

  // ---------------------------------------------------------------------------------------
  // Properties

  /** Empty usage costs nothing, whatever the prices. */
  lemma EmptyUsageIsFree(priceData: Json)
    ensures RequestCost(NoUsage, priceData) == 0.0
  {
  }

  /** A price table that is not an object, or has none of the four prices, charges nothing;
      a token count without a price contributes nothing and is no error. */
  lemma NoPricesIsFree(usage: UsageMetrics, fields: seq<(string, Json)>)
    requires forall i :: 0 <= i < |fields| ==>
      fields[i].0 !in {InputPrice, OutputPrice, CacheCreationPrice, CacheReadPrice}
    ensures RequestCost(usage, JObject(fields)) == 0.0
  {
  }

  predicate NonNegative(usage: UsageMetrics) {
    (usage.inputTokens.Some? ==> usage.inputTokens.value >= 0.0)
    && (usage.outputTokens.Some? ==> usage.outputTokens.value >= 0.0)
    && (usage.cacheCreationInputTokens.Some? ==> usage.cacheCreationInputTokens.value >= 0.0)
    && (usage.cacheReadInputTokens.Some? ==> usage.cacheReadInputTokens.value >= 0.0)
  }

  predicate NonNegativePrice(priceData: Json, name: string) {
    NumberField(priceData, name).Some? ==> NumberField(priceData, name).value >= 0.0
  }

  predicate NonNegativePrices(priceData: Json) {
    NonNegativePrice(priceData, InputPrice) && NonNegativePrice(priceData, OutputPrice)
    && NonNegativePrice(priceData, CacheCreationPrice) && NonNegativePrice(priceData, CacheReadPrice)
  }

  lemma TermNonNegative(tokens: Option<real>, price: Option<real>)
    requires tokens.Some? ==> tokens.value >= 0.0
    requires price.Some? ==> price.value >= 0.0
    ensures Term(tokens, price) >= 0.0
  {
  }

  /** Non-negative counts and prices give a non-negative cost. */
  lemma CostIsNonNegative(usage: UsageMetrics, priceData: Json)
    requires NonNegative(usage) && NonNegativePrices(priceData)
    ensures RequestCost(usage, priceData) >= 0.0
  {
    TermNonNegative(usage.inputTokens, NumberField(priceData, InputPrice));
    TermNonNegative(usage.outputTokens, NumberField(priceData, OutputPrice));
    TermNonNegative(usage.cacheCreationInputTokens, NumberField(priceData, CacheCreationPrice));
    TermNonNegative(usage.cacheReadInputTokens, NumberField(priceData, CacheReadPrice));
  }

  /** `a` is at most `b` as a token count (absent counts as 0). */
  predicate AtMost(a: Option<real>, b: Option<real>) {
    a.GetOr(0.0) <= b.GetOr(0.0)
  }

  /** A term is its count (absent as 0) times its price, or 0 without a price. */
  lemma TermIsProduct(tokens: Option<real>, price: Option<real>)
    ensures Term(tokens, price) == if price.Some? then tokens.GetOr(0.0) * price.value else 0.0
  {
  }

  lemma ProductMonotone(x: real, y: real, p: real)
    requires 0.0 <= x <= y && 0.0 <= p
    ensures x * p <= y * p
  {
  }

  lemma TermMonotone(a: Option<real>, b: Option<real>, price: Option<real>)
    requires a.Some? ==> a.value >= 0.0
    requires AtMost(a, b)
    requires price.Some? ==> price.value >= 0.0
    ensures Term(a, price) <= Term(b, price)
  {
    TermIsProduct(a, price);
    TermIsProduct(b, price);
    if price.Some? {
      ProductMonotone(a.GetOr(0.0), b.GetOr(0.0), price.value);
    }
  }

  /** More tokens of any kind never cost less. */
  lemma CostIsMonotone(u: UsageMetrics, v: UsageMetrics, priceData: Json)
    requires NonNegative(u) && NonNegativePrices(priceData)
    requires AtMost(u.inputTokens, v.inputTokens) && AtMost(u.outputTokens, v.outputTokens)
    requires AtMost(u.cacheCreationInputTokens, v.cacheCreationInputTokens)
    requires AtMost(u.cacheReadInputTokens, v.cacheReadInputTokens)
    ensures RequestCost(u, priceData) <= RequestCost(v, priceData)
  {
    TermMonotone(u.inputTokens, v.inputTokens, NumberField(priceData, InputPrice));
    TermMonotone(u.outputTokens, v.outputTokens, NumberField(priceData, OutputPrice));
    TermMonotone(u.cacheCreationInputTokens, v.cacheCreationInputTokens, NumberField(priceData, CacheCreationPrice));
    TermMonotone(u.cacheReadInputTokens, v.cacheReadInputTokens, NumberField(priceData, CacheReadPrice));
  }

  /** Price fields other than the four read here (`cache_creation_input_token_cost_above_1hr`,
      `output_cost_per_image`, …) never change the cost. */
  lemma OtherPriceFieldsAreIgnored(usage: UsageMetrics, fields: seq<(string, Json)>, other: (string, Json))
    requires other.0 !in {InputPrice, OutputPrice, CacheCreationPrice, CacheReadPrice}
    ensures RequestCost(usage, JObject(fields + [other])) == RequestCost(usage, JObject(fields))
  {
    PriceIgnoresAppended(fields, other, InputPrice);
    PriceIgnoresAppended(fields, other, OutputPrice);
    PriceIgnoresAppended(fields, other, CacheCreationPrice);
    PriceIgnoresAppended(fields, other, CacheReadPrice);
  }

  lemma PriceIgnoresAppended(fields: seq<(string, Json)>, other: (string, Json), name: string)
    requires other.0 != name
    ensures NumberField(JObject(fields + [other]), name) == NumberField(JObject(fields), name)
  {
    LookupIgnoresAppended(fields, other, name);
  }

  /** The cost is the sum of the four products when every factor is present. */
  lemma CostIsSumOfProducts(usage: UsageMetrics, priceData: Json)
    requires usage.inputTokens.Some? && usage.outputTokens.Some?
    requires usage.cacheCreationInputTokens.Some? && usage.cacheReadInputTokens.Some?
    requires NumberField(priceData, InputPrice).Some? && NumberField(priceData, OutputPrice).Some?
    requires NumberField(priceData, CacheCreationPrice).Some? && NumberField(priceData, CacheReadPrice).Some?
    ensures RequestCost(usage, priceData)
         == usage.inputTokens.value * NumberField(priceData, InputPrice).value
          + usage.outputTokens.value * NumberField(priceData, OutputPrice).value
          + usage.cacheCreationInputTokens.value * NumberField(priceData, CacheCreationPrice).value
          + usage.cacheReadInputTokens.value * NumberField(priceData, CacheReadPrice).value
  {
    TermsAreProducts(usage, NumberField(priceData, InputPrice), NumberField(priceData, OutputPrice),
                     NumberField(priceData, CacheCreationPrice), NumberField(priceData, CacheReadPrice));
  }

  lemma TermsAreProducts(usage: UsageMetrics, input: Option<real>, output: Option<real>,
                         creation: Option<real>, read: Option<real>)
    requires usage.inputTokens.Some? && usage.outputTokens.Some?
    requires usage.cacheCreationInputTokens.Some? && usage.cacheReadInputTokens.Some?
    requires input.Some? && output.Some? && creation.Some? && read.Some?
    ensures Term(usage.inputTokens, input) + Term(usage.outputTokens, output)
            + Term(usage.cacheCreationInputTokens, creation) + Term(usage.cacheReadInputTokens, read)
         == usage.inputTokens.value * input.value + usage.outputTokens.value * output.value
          + usage.cacheCreationInputTokens.value * creation.value + usage.cacheReadInputTokens.value * read.value
  {
  }
}
