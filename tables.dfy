/**
 The two static configuration tables of PromptLens: the prompting patterns
 and the topic domains, each with a default sampling temperature, and the
 domains with their trigger keywords. Temperatures are kept in hundredths
 (0.3 is 30). Both tables are Python dicts, whose iteration order is their
 insertion order; here they are sequences in that order.
 */
module Tables {

  datatype Option<T> = None | Some(value: T)

  /** One entry of the domain table: its name, trigger keywords and temperature. */
  datatype Domain = Domain(name: string, keywords: seq<string>, temperature: nat)

  /** One entry of the pattern table: its name and temperature. */
  datatype Pattern = Pattern(name: string, temperature: nat)

  const ZeroShot := "Zero-Shot"
  const FewShot := "Few-Shot"
  const ChainOfThought := "Chain-of-Thought"
  const RolePlay := "Role-Play"
  const StructuredOutput := "Structured Output"
  const MetaPrompting := "Meta-Prompting"

  const PromptPatterns: seq<Pattern> := [
    Pattern(ZeroShot, 30),
    Pattern(FewShot, 20),
    Pattern(ChainOfThought, 20),
    Pattern(RolePlay, 40),
    Pattern(StructuredOutput, 10),
    Pattern(MetaPrompting, 50)
  ]

  const DomainPatterns: seq<Domain> := [
    Domain("coding", ["code", "function", "debug", "python", "program"], 10),
    Domain("data_analysis", ["data", "analyze", "statistics", "trend"], 20),
    Domain("creative", ["story", "write", "creative", "poem"], 80),
    Domain("research", ["research", "compare", "study", "analysis"], 30)
  ]

  /** The domain reported when no keyword matches; it is not in the table. */
  const General := "general"

  /** The temperature `dict.get` falls back to for a name missing from a table. */
  const DefaultTemperature: nat := 50

  function PatternNames(): (names: seq<string>)
    ensures |names| == |PromptPatterns|
    ensures forall i :: 0 <= i < |names| ==> names[i] == PromptPatterns[i].name
  {
    seq(|PromptPatterns|, i requires 0 <= i < |PromptPatterns| => PromptPatterns[i].name)
  }

  function DomainNames(): (names: seq<string>)
    ensures |names| == |DomainPatterns|
    ensures forall i :: 0 <= i < |names| ==> names[i] == DomainPatterns[i].name
  {
    seq(|DomainPatterns|, i requires 0 <= i < |DomainPatterns| => DomainPatterns[i].name)
  }

  /** The position of `name` among `names`, if it is there (a dict key lookup). */
  function IndexOf(names: seq<string>, name: string): (r: Option<nat>)
    ensures r.Some? ==> r.value < |names| && names[r.value] == name
    ensures r.None? <==> name !in names
  {
    if names == [] then None
    else if names[0] == name then Some(0)
    else match IndexOf(names[1..], name)
      case None => None
      case Some(i) => Some(i + 1)
  }

  /** `DOMAIN_PATTERNS.get(name, {}).get("temperature", 0.5)`. */
  function DomainTemperature(name: string): (t: nat)
    ensures forall i :: 0 <= i < |DomainPatterns| && DomainPatterns[i].name == name ==>
              t == DomainPatterns[i].temperature
    ensures name !in DomainNames() ==> t == DefaultTemperature
  {
    match IndexOf(DomainNames(), name)
    case Some(i) => DomainPatterns[i].temperature
    case None => DefaultTemperature
  }

  /** `PROMPT_PATTERNS.get(name, {}).get("temperature", 0.5)`. */
  function PatternTemperature(name: string): (t: nat)
    ensures forall i :: 0 <= i < |PromptPatterns| && PromptPatterns[i].name == name ==>
              t == PromptPatterns[i].temperature
    ensures name !in PatternNames() ==> t == DefaultTemperature
  {
    match IndexOf(PatternNames(), name)
    case Some(i) => PromptPatterns[i].temperature
    case None => DefaultTemperature
  }

  /** Every temperature the lookups can return is a multiple of 0.1, in
      [0.1, 0.8] for domains and [0.1, 0.5] for patterns. */
  lemma TemperaturesAreTenths(domain: string, pattern: string)
    ensures DomainTemperature(domain) % 10 == 0 && 10 <= DomainTemperature(domain) <= 80
    ensures PatternTemperature(pattern) % 10 == 0 && 10 <= PatternTemperature(pattern) <= 50
  {
    DomainTemperatureTenths(domain);
    PatternTemperatureTenths(pattern);
  }

  lemma DomainTemperatureTenths(domain: string)
    ensures DomainTemperature(domain) % 10 == 0 && 10 <= DomainTemperature(domain) <= 80
  {
    match IndexOf(DomainNames(), domain) {
      case None =>
      case Some(i) =>
        assert DomainTemperature(domain) == DomainPatterns[i].temperature;
        assert i == 0 || i == 1 || i == 2 || i == 3;
    }
  }

  lemma PatternTemperatureTenths(pattern: string)
    ensures PatternTemperature(pattern) % 10 == 0 && 10 <= PatternTemperature(pattern) <= 50
  {
    match IndexOf(PatternNames(), pattern) {
      case None =>
      case Some(i) =>
        assert PatternTemperature(pattern) == PromptPatterns[i].temperature;
        assert i == 0 || i == 1 || i == 2 || i == 3 || i == 4 || i == 5;
    }
  }

  /** The keys of each table are distinct and `General` is not a table key. */
  lemma TablesWellFormed()
    ensures forall i, j :: 0 <= i < j < |DomainPatterns| ==> DomainPatterns[i].name != DomainPatterns[j].name
    ensures forall i, j :: 0 <= i < j < |PromptPatterns| ==> PromptPatterns[i].name != PromptPatterns[j].name
    ensures General !in DomainNames()
  {
  }
}
