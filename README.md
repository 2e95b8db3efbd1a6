# PromptLens heuristics in Dafny

PromptLens is a Streamlit page that takes a user's prompt, classifies it
with keyword heuristics, and asks a Groq-hosted language model to rewrite
it. This project models the local analysis that happens before the model
is called, in `app.py`:

- the two static tables `PROMPT_PATTERNS` (six patterns with a sampling
  temperature each) and `DOMAIN_PATTERNS` (four domains with trigger
  keywords and a temperature), in `tables.dfy`;
- `detect_domain`: counting keyword hits per domain in the lower-cased
  prompt, keeping the nonzero counts in a dict and taking Python's `max`
  over it, with a `("general", 0.5)` fallback (`domain_detection.dfy`);
- `analyze_prompt_quality`: the "too short" and "no output format" checks
  and the score `max(1, 10 - 2 * len(issues))` (`quality.dfy`);
- `recommend_pattern` and `model_config` (`patterns.dfy`);
- the button handler's validation and the order in which it runs the four
  heuristics (`analysis.dfy`);
- the Python string operations these rely on: `str.lower`, `in`,
  `str.split()` and `str.strip()` (`text.dfy`);
- a few concrete inputs and their results (`scenarios.dfy`).

Temperatures are integers in hundredths (0.3 is 30). Every table value is
a multiple of 0.1, so the mean of two of them is an exact multiple of 0.05;
`round(..., 2)` in `model_config` only removes floating-point noise, and
`ModelConfig` proves that its integer mean is exact. Confidence is a
`real`, `min(count, 3) / 3`.

`detect_domain` and `analyze_prompt_quality` build a local dict or list step
by step, so each is a method (`DetectDomain`, `AnalyzePromptQuality`)
proved equal to a specification function (`DomainOf`, `QualityOf`) about
which the properties are proved. `recommend_pattern` and `model_config`
are expressions and are functions.

Facts about `app.py` that the model keeps as they are:
- the issue texts are exactly those of app.py:87 and app.py:89, with no
  trailing period;
- "general" is not a key of `DOMAIN_PATTERNS`, so `model_config` takes the
  0.5 default for every prompt that contains no keyword (app.py:79, 103);
- three pattern names (Role-Play, Structured Output, Meta-Prompting) are
  never recommended.

## Model

| member | source | states |
|---|---|---|
| Text.IsSpace | app.py:85 | the characters Python's `split()` and `strip()` treat as whitespace: U+0009-U+000D, U+001C-U+001F, space, U+0085, U+00A0, U+1680, U+2000-U+200A, U+2028, U+2029, U+202F, U+205F, U+3000 |
| Text.LowerChar | app.py:72 | lower-casing maps an upper-case ASCII letter to its lower-case letter and leaves every other character unchanged |
| Text.Lower | app.py:72 | `lower()` keeps the length and lower-cases each character on its own |
| Text.LowerIdempotent | app.py:72 | lower-casing an already lower-cased prompt changes nothing |
| Text.Contains | app.py:75 | `w in s` holds exactly when `w` occurs at some index of `s` |
| Text.SplitFrom | app.py:85 | every word `split()` returns is non-empty and holds no whitespace |
| Text.SplitFromCountsStarts | app.py:85 | scanning from a word boundary yields one word per word start (a non-space after whitespace or the start) |
| Text.WordCountIsStarts | app.py:85 | `len(s.split())` is the number of word starts in `s` |
| Text.Strip | app.py:175 | `strip()` returns a slice of the input that neither starts nor ends with whitespace |
| Text.StripEmptyIffNoWords | app.py:175 | `strip()` is empty exactly when the prompt is all whitespace, which is exactly when `split()` finds no word |
| Tables.DomainTemperature | app.py:103 | a table domain gets its own temperature; any other name gets 0.5 |
| Tables.PatternTemperature | app.py:104 | a table pattern gets its own temperature; any other name gets 0.5 |
| Tables.TemperaturesAreTenths | app.py:41-68 | every looked-up temperature is a multiple of 0.1, in [0.1, 0.8] for domains and [0.1, 0.5] for patterns |
| Tables.TablesWellFormed | app.py:41-68 | the keys of both tables are distinct and "general" is not a domain key |
| DomainDetection.KeywordScore | app.py:75 | a domain's count is the number of its keyword positions whose keyword occurs in the prompt, so at most its number of keywords, and positive exactly when one of its keywords occurs |
| DomainDetection.ScoreSeesOnlyOccurrence | app.py:75 | a keyword counts once however often it occurs: prompts with the same occurring keywords get the same count |
| DomainDetection.Scores | app.py:74-77 | one count per table domain, in table order |
| DomainDetection.FirstMax | app.py:80 | Python's `max` picks a position no other position exceeds, and every earlier position is strictly smaller |
| DomainDetection.FirstMaxUnique | app.py:80 | those two properties determine the position `max` picks |
| DomainDetection.Confidence | app.py:81 | `min(n / 3, 1.0)` is n/3 below 3 and 1 from 3 on |
| DomainDetection.FallbackIffNoKeyword | app.py:74-79 | the result is ("general", 0.5) exactly when no keyword of any domain occurs in the lower-cased prompt |
| DomainDetection.DetectedIsFirstMaximal | app.py:74-81 | otherwise the result is the table domain with the largest count, earlier domains win ties, and the confidence is `min(count / 3, 1)` |
| DomainDetection.DomainOf | app.py:71-81 | `detect_domain` returns the fallback or a table domain with confidence in [1/3, 1] |
| DomainDetection.DetectionIgnoresCase | app.py:72 | the classification depends only on the lower-cased prompt |
| DomainDetection.DictMaxIsFirstMax | app.py:73-80 | the first largest entry of the dict of nonzero counts is the first largest table domain |
| DomainDetection.CountKeywords | app.py:75 | the generator sum counts the keywords that occur |
| DomainDetection.MaxByScore | app.py:80 | `max(scores, key=scores.get)` returns the first entry that no entry exceeds |
| DomainDetection.DetectDomain | app.py:71-81 | the imperative `detect_domain` returns exactly `DomainOf(prompt)` |
| Quality.ScoreFor | app.py:92 | the score lies in [1, 10] and is 10 - 2n for up to four issues |
| Quality.QualityOf | app.py:83-93 | "too short" is reported exactly when there are fewer than 5 words, "no output format" exactly when "format" is missing from the lower-cased prompt, nothing else is reported, the short issue comes first, and the score is 6, 8 or 10 |
| Quality.AnalyzePromptQuality | app.py:83-93 | the list-appending `analyze_prompt_quality` returns exactly `QualityOf(prompt)` |
| Quality.ScoreFloorInactive | app.py:92 | the floor of 1 never takes effect: the score is always 10 - 2 * issues and at least 6 |
| Quality.PerfectScoreIff | app.py:84-92 | the score is 10 exactly when the prompt has at least 5 words and mentions "format" |
| Patterns.RecommendPattern | app.py:95-100 | Chain-of-Thought exactly when "step by step" occurs (even with "example"), Few-Shot exactly when only "example" occurs, Zero-Shot otherwise; always a table pattern, never Role-Play, Structured Output or Meta-Prompting |
| Patterns.RecommendationIgnoresDomain | app.py:95 | the domain argument has no effect on the recommendation |
| Patterns.ModelConfig | app.py:102-108 | the temperature is the exact mean of the two looked-up temperatures, a multiple of 0.05 lying between them, and `max_tokens` is 3000 |
| Patterns.MeanOfTenths | app.py:106 | the mean of two multiples of 0.1 is an exact multiple of 0.05, so rounding to two decimals changes nothing |
| Patterns.GeneralUsesDefault | app.py:103 | the "general" domain contributes the default temperature 0.5 |
| Analysis.Analyze | app.py:179-182 | the domain and confidence are those `detect_domain` gives for the prompt and the report is the one `analyze_prompt_quality` gives; the detected domain is "general" or a table domain, the score is 6, 8 or 10, the pattern is Zero-Shot, Few-Shot or Chain-of-Thought and is recommended for the detected domain, and the configuration is built from that domain and pattern |
| Analysis.Submit | app.py:172-182 | an empty API key gives the key error, otherwise a blank prompt gives the warning, otherwise the prompt is analysed |
| Analysis.AnalyzedPromptHasWords | app.py:172-180 | with a key and a prompt that is not all whitespace the prompt is analysed; it then has a word, so it is too short only with one to four words |
| Analysis.AnalysisTemperatureRange | app.py:179-182 | for every prompt the requested temperature lies in [0.15, 0.55] and the token budget is 3000 |
| Scenarios.CodingStructured | app.py:102-108 | coding with Structured Output gives temperature 0.10 and 3000 tokens |
| Scenarios.ShortPrompt | app.py:83-93 | "hi" gets both issues, the short one first, and score 6 |
| Scenarios.StepByStep | app.py:96-97 | "Solve step by step" gets Chain-of-Thought |
| Scenarios.ExampleFirst | app.py:98-99 | "An EXAMPLE" gets Few-Shot |

## Left out

- Streamlit page setup, styling, sidebar, widgets, metrics and markdown output (app.py:1-38, 138-169, 184-192, 216-232): presentation only.
- The Groq client, the chat-completion request and the catch-all `except` that shows its error (app.py:196-228): an opaque call to a remote service; `Submit` stops where it would be made.
- `time.sleep(0.5)` (app.py:194): a cosmetic delay.
- `build_analysis_prompt` (app.py:110-136): a fixed text template that only interpolates the pattern, the domain and the temperature's float formatting.
- Text.Lower, Text.LowerChar: Python's `lower()` applies full Unicode case mapping; the model lower-cases ASCII letters only. Every string the heuristics search for is ASCII, contains no `k` and does not end in `i`; the only non-ASCII characters whose lower case contains an ASCII letter are U+212A (to `k`) and U+0130 (to `i` followed by U+0307), so the substring tests give the same answers under both.
- Floating point: the confidence is an exact `real` and temperatures exact hundredths, so float rounding of `count / 3` and of the mean is not modelled.
