/**
 Concrete inputs with the outputs the heuristics give for them.
 */
module Scenarios {
  import opened Text
  import opened Tables
  import opened DomainDetection
  import opened Quality
  import opened Patterns

  /** `model_config("coding", "Structured Output")`: temperature 0.10, 3000 tokens. */
  lemma CodingStructured()
    ensures ModelConfig("coding", StructuredOutput) == SamplingConfig(10, 3000)
  {
  }

  /** `analyze_prompt_quality("hi")`: both issues, short one first, score 6. */
  lemma ShortPrompt()
    ensures QualityOf("hi") == QualityReport([TooShort, NoFormat], 6)
  {
  }

  /** "step by step" selects Chain-of-Thought, whatever the domain argument. */
  lemma StepByStep()
    ensures RecommendPattern("any", "Solve step by step") == ChainOfThought
  {
    assert OccursAt(Lower("Solve step by step"), "step by step", 6);
  }

  /** "example" in any case selects Few-Shot. */
  lemma ExampleFirst()
    ensures RecommendPattern("any", "An EXAMPLE") == FewShot
  {
    var p := Lower("An EXAMPLE");
    assert p == "an example";
    assert OccursAt(p, "example", 3);
  }
}
