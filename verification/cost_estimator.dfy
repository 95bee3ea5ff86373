/** Cost estimation (burn-tokens.js:109-141): a per-million-token price table
    for text models and a model x quality x size table of flat per-image
    prices. Prices are exact rationals, not binary floating point. */
module CostEstimator {

  /** Token usage reported for one text completion. */
  datatype Usage = Usage(promptTokens: nat, completionTokens: nat, totalTokens: nat)

  /** Input and output price, in dollars per million tokens. */
  datatype Price = Price(input: real, output: real)

  const TokensPerMillion: real := 1000000.0

  const CostPerMillionTokens: map<string, Price> := map[
    "gpt-5-2025-08-07" := Price(15.0, 60.0),
    "gpt-5-mini-2025-08-07" := Price(1.5, 6.0),
    "gpt-5-nano-2025-08-07" := Price(0.4, 1.6)
  ]

  const ImageCosts: map<string, map<string, map<string, real>>> := map[
    "gpt-image-1" := map[
      "low" := map["1024x1024" := 0.02, "1536x1536" := 0.07, "2048x2048" := 0.19],
      "medium" := map["1024x1024" := 0.07, "1536x1536" := 0.13, "2048x2048" := 0.38],
      "high" := map["1024x1024" := 0.19, "1536x1536" := 0.38, "2048x2048" := 0.75]
    ]
  ]

  /** The estimate used whenever the image table has no entry. */
  const FallbackImageCost: real := 0.19

  /** Estimated dollar cost of one text completion; an unpriced model costs
      nothing. */
  function CalculateCost(usage: Usage, model: string): (cost: real)
    ensures cost >= 0.0
    ensures model !in CostPerMillionTokens ==> cost == 0.0
  {
    if model !in CostPerMillionTokens then 0.0
    else
      var costs := CostPerMillionTokens[model];
      var inputCost := (usage.promptTokens as real / TokensPerMillion) * costs.input;
      var outputCost := (usage.completionTokens as real / TokensPerMillion) * costs.output;
      inputCost + outputCost
  }

  /** Usages added component-wise. */
  function Plus(a: Usage, b: Usage): Usage {
    Usage(a.promptTokens + b.promptTokens,
          a.completionTokens + b.completionTokens,
          a.totalTokens + b.totalTokens)
  }

  /** The estimate is linear in the usage: two completions cost what one
      completion of their combined usage costs. */
  lemma CostIsAdditive(a: Usage, b: Usage, model: string)
    ensures CalculateCost(Plus(a, b), model) == CalculateCost(a, model) + CalculateCost(b, model)
  {
  }

  /** The table entries are what a million tokens cost: a million prompt tokens
      cost the input price, a million completion tokens the output price, and
      the reported total plays no part. */
  lemma CostOfAMillionTokens(model: string, total: nat)
    requires model in CostPerMillionTokens
    ensures CalculateCost(Usage(1000000, 0, total), model) == CostPerMillionTokens[model].input
    ensures CalculateCost(Usage(0, 1000000, total), model) == CostPerMillionTokens[model].output
  {
  }

  /** More tokens never cost less. */
  lemma CostIsMonotone(a: Usage, b: Usage, model: string)
    requires a.promptTokens <= b.promptTokens
    requires a.completionTokens <= b.completionTokens
    ensures CalculateCost(a, model) <= CalculateCost(b, model)
  {
    if model in CostPerMillionTokens {
      var c := CostPerMillionTokens[model];
      var d := Usage(b.promptTokens - a.promptTokens, b.completionTokens - a.completionTokens, 0);
      CostIsAdditive(a, d, model);
      assert Plus(a, d).promptTokens == b.promptTokens;
      assert Plus(a, d).completionTokens == b.completionTokens;
    }
  }

  /** Whether the image table holds an entry for the triple. */
  predicate ImageCostListed(model: string, size: string, quality: string) {
    model in ImageCosts && quality in ImageCosts[model] && size in ImageCosts[model][quality]
  }

  /** Every listed image price is positive and at most the top tier. */
  lemma ImageCostsAreBounded(model: string, size: string, quality: string)
    requires ImageCostListed(model, size, quality)
    ensures 0.0 < ImageCosts[model][quality][size] <= 0.75
  {
  }

  /** Estimated cost of one image. A miss at any of the three levels, or a
      listed price of zero (falsy in the source's `||`), gives the fallback. */
  function CalculateImageCost(model: string, size: string, quality: string): (cost: real)
    ensures 0.0 < cost <= 0.75
    ensures !ImageCostListed(model, size, quality) ==> cost == FallbackImageCost
    ensures ImageCostListed(model, size, quality) ==> cost == ImageCosts[model][quality][size]
  {
    if model !in ImageCosts then FallbackImageCost
    else
      var modelCosts := ImageCosts[model];
      if quality !in modelCosts then FallbackImageCost
      else
        var qualityCosts := modelCosts[quality];
        if size in qualityCosts && qualityCosts[size] != 0.0 then
          ImageCostsAreBounded(model, size, quality);
          qualityCosts[size]
        else FallbackImageCost
  }

  /** The quality the source's signature defaults to. */
  const DefaultImageQuality: string := "high"

  /** The fallback is the table's own high-quality 1024x1024 tier. */
  lemma FallbackIsHighSquareTier()
    ensures ImageCostListed("gpt-image-1", "1024x1024", DefaultImageQuality)
    ensures CalculateImageCost("gpt-image-1", "1024x1024", DefaultImageQuality) == FallbackImageCost
  {
  }
}
