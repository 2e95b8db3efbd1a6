/**
 `recommend_pattern` and `model_config`: pick a prompting pattern from two
 substring tests, and derive the sampling configuration from the domain and
 pattern temperature tables.
 */
module Patterns {
  import opened Text
  import opened Tables

  /** `recommend_pattern(domain, prompt)`; `domain` is accepted and ignored,
      as in the source. */
  function RecommendPattern(domain: string, prompt: string): (r: string)
    ensures r in PatternNames()
    ensures r != RolePlay && r != StructuredOutput && r != MetaPrompting
    ensures r == ChainOfThought <==> Contains(Lower(prompt), "step by step")
    ensures r == FewShot <==> !Contains(Lower(prompt), "step by step") && Contains(Lower(prompt), "example")
    ensures r == ZeroShot <==> !Contains(Lower(prompt), "step by step") && !Contains(Lower(prompt), "example")
  {
    assert PatternNames()[0] == ZeroShot && PatternNames()[1] == FewShot && PatternNames()[2] == ChainOfThought;
    if Contains(Lower(prompt), "step by step") then ChainOfThought
    else if Contains(Lower(prompt), "example") then FewShot
    else ZeroShot
  }

  /** The recommendation does not depend on the domain argument. */
  lemma RecommendationIgnoresDomain(d1: string, d2: string, prompt: string)
    ensures RecommendPattern(d1, prompt) == RecommendPattern(d2, prompt)
  {
  }

  /** The dict `{"temperature": ..., "max_tokens": ...}`; temperature in hundredths. */
  datatype SamplingConfig = SamplingConfig(temperature: nat, maxTokens: nat)

  /** The output token budget of every request. */
  const MaxTokens := 3000

  /** `model_config(domain, pattern)`: the mean of the domain's and the
      pattern's temperature (0.5 for a name missing from its table), which
      is a whole number of hundredths, so `round(..., 2)` leaves it as is. */
  function ModelConfig(domain: string, pattern: string): (cfg: SamplingConfig)
    ensures cfg.maxTokens == MaxTokens
    ensures 2 * cfg.temperature == DomainTemperature(domain) + PatternTemperature(pattern)
    ensures cfg.temperature % 5 == 0
    ensures DomainTemperature(domain) <= PatternTemperature(pattern) ==>
              DomainTemperature(domain) <= cfg.temperature <= PatternTemperature(pattern)
    ensures PatternTemperature(pattern) <= DomainTemperature(domain) ==>
              PatternTemperature(pattern) <= cfg.temperature <= DomainTemperature(domain)
  {
    var base := DomainTemperature(domain);
    var pat := PatternTemperature(pattern);
    TemperaturesAreTenths(domain, pattern);
    MeanOfTenths(base, pat);
    SamplingConfig((base + pat) / 2, MaxTokens)
  }

  /** The mean of two multiples of 0.1 is an exact multiple of 0.05. */
  lemma MeanOfTenths(a: nat, b: nat)
    requires a % 10 == 0 && b % 10 == 0
    ensures 2 * ((a + b) / 2) == a + b
    ensures ((a + b) / 2) % 5 == 0
  {
    var tenths := a / 10 + b / 10;
    assert a + b == 10 * tenths;
    assert (a + b) / 2 == 5 * tenths;
  }

  /** The "general" fallback domain has no table entry, so it contributes the
      default temperature 0.5. */
  lemma GeneralUsesDefault(pattern: string)
    ensures 2 * ModelConfig(General, pattern).temperature == DefaultTemperature + PatternTemperature(pattern)
  {
    TablesWellFormed();
  }
}
