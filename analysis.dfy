/**
 The button handler of PromptLens up to the point where it calls the
 language model: validate the inputs, then run the four heuristics on the
 raw prompt. The request to the model and the rendering of its answer are
 not part of this model.
 */
module Analysis {
  import opened Text
  import opened Tables
  import opened DomainDetection
  import opened Quality
  import opened Patterns

  /** Everything the heuristics compute for one prompt. */
  datatype AnalysisResult = AnalysisResult(
    domain: string,
    confidence: real,
    quality: QualityReport,
    pattern: string,
    config: SamplingConfig)

  /** How one press of the button ends before the model is called: with the
      missing-key error, with the empty-prompt warning, or with an analysis. */
  datatype Submission = MissingApiKey | EmptyPrompt | Analyzed(result: AnalysisResult)

  /** The four heuristics in the order the handler runs them; the pattern
      and the configuration are derived from the detected domain. */
  function Analyze(prompt: string): (r: AnalysisResult)
    ensures Detection(r.domain, r.confidence) == DomainOf(prompt)
    ensures r.quality == QualityOf(prompt)
    ensures r.domain == General || r.domain in DomainNames()
    ensures r.quality.score in {6, 8, 10}
    ensures r.pattern in {ZeroShot, FewShot, ChainOfThought}
    ensures r.pattern == RecommendPattern(r.domain, prompt)
    ensures r.config == ModelConfig(r.domain, r.pattern)
  {
    var detection := DomainOf(prompt);
    var pattern := RecommendPattern(detection.domain, prompt);
    AnalysisResult(detection.domain, detection.confidence, QualityOf(prompt), pattern,
                   ModelConfig(detection.domain, pattern))
  }

  /** The button handler: an empty API key is refused first, then a prompt
      that is empty after `strip()`; only then is the prompt analysed. */
  function Submit(apiKey: string, prompt: string): (r: Submission)
    ensures r == MissingApiKey <==> apiKey == []
    ensures r == EmptyPrompt <==> apiKey != [] && IsBlank(prompt)
    ensures r.Analyzed? <==> apiKey != [] && !IsBlank(prompt)
    ensures r.Analyzed? ==> r.result == Analyze(prompt)
  {
    StripEmptyIffNoWords(prompt);
    if apiKey == [] then MissingApiKey
    else if Strip(prompt) == [] then EmptyPrompt
    else Analyzed(Analyze(prompt))
  }

  /** A prompt that gets past validation has at least one word, so it is
      reported as too short only when it has one to four words. */
  lemma {:induction false} AnalyzedPromptHasWords(apiKey: string, prompt: string)
    requires apiKey != [] && !IsBlank(prompt)
    ensures Submit(apiKey, prompt).Analyzed?
    ensures WordCount(prompt) >= 1
    ensures TooShort in Submit(apiKey, prompt).result.quality.issues <==> 1 <= WordCount(prompt) <= 4
  {
    StripEmptyIffNoWords(prompt);
  }

  /** For every prompt, the configuration sent to the model has the fixed
      token budget and a temperature between 0.15 and 0.55: the domain
      temperature lies in [0.1, 0.8] and the pattern is one of the three
      that are ever recommended, whose temperatures lie in [0.2, 0.3]. */
  lemma {:induction false} AnalysisTemperatureRange(prompt: string)
    ensures Analyze(prompt).config.maxTokens == MaxTokens
    ensures 15 <= Analyze(prompt).config.temperature <= 55
  {
    var r := Analyze(prompt);
    TemperaturesAreTenths(r.domain, r.pattern);
    assert PromptPatterns[0].name == ZeroShot && PromptPatterns[1].name == FewShot && PromptPatterns[2].name == ChainOfThought;
    assert 20 <= PatternTemperature(r.pattern) <= 30;
  }
}
