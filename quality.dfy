/**
 `analyze_prompt_quality`: two independent textual checks, each of which may
 add an issue to an ordered list, and a score derived from how many issues
 were found.
 */
module Quality {
  import opened Text

  const TooShort := "Too short \U{2013} add more context"
  const NoFormat := "No output format specified"

  /** A prompt with fewer words than this is reported as too short. */
  const MinWords := 5

  /** The dict `{"issues": ..., "score": ...}` that `analyze_prompt_quality` returns. */
  datatype QualityReport = QualityReport(issues: seq<string>, score: int)

  /** `max(1, 10 - len(issues) * 2)`. */
  function ScoreFor(issueCount: nat): (score: int)
    ensures 1 <= score <= 10
    ensures issueCount <= 4 ==> score == 10 - 2 * issueCount
    ensures issueCount >= 5 ==> score == 1
  {
    if 10 - issueCount * 2 < 1 then 1 else 10 - issueCount * 2
  }

  /** The quality report of a prompt: "too short" when it has fewer than
      `MinWords` words, then "no output format" when the lower-cased prompt
      does not contain "format"; nothing else is ever reported. */
  function QualityOf(prompt: string): (r: QualityReport)
    ensures TooShort in r.issues <==> WordCount(prompt) < MinWords
    ensures NoFormat in r.issues <==> !Contains(Lower(prompt), "format")
    ensures forall x :: x in r.issues ==> x == TooShort || x == NoFormat
    ensures |r.issues| <= 2
    ensures |r.issues| == 2 ==> r.issues == [TooShort, NoFormat]
    ensures r.score == 10 - 2 * |r.issues|
    ensures r.score in {6, 8, 10}
  {
    var short := if WordCount(prompt) < MinWords then [TooShort] else [];
    var unformatted := if !Contains(Lower(prompt), "format") then [NoFormat] else [];
    var issues := short + unformatted;
    QualityReport(issues, ScoreFor(|issues|))
  }

  /** `analyze_prompt_quality`, as the source runs it: start from an empty
      issue list, append to it, then score it. */
  method AnalyzePromptQuality(prompt: string) returns (report: QualityReport)
    ensures report == QualityOf(prompt)
  {
    var issues: seq<string> := [];
    var words := WordCount(prompt);
    if words < MinWords {
      issues := issues + [TooShort];
    }
    if !Contains(Lower(prompt), "format") {
      issues := issues + [NoFormat];
    }
    report := QualityReport(issues, ScoreFor(|issues|));
  }

  /** The floor of 1 in the score never takes effect: with at most two
      issues the score never drops below 6. */
  lemma ScoreFloorInactive(prompt: string)
    ensures QualityOf(prompt).score >= 6
    ensures QualityOf(prompt).score == 10 - 2 * |QualityOf(prompt).issues|
  {
  }

  /** A prompt's score is 10 exactly when it has at least `MinWords` words and
      mentions "format" in any case. */
  lemma PerfectScoreIff(prompt: string)
    ensures QualityOf(prompt).score == 10 <==> WordCount(prompt) >= MinWords && Contains(Lower(prompt), "format")
  {
  }
}
