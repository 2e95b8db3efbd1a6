/**
 `detect_domain`: classify a prompt into one of the four table domains by
 counting which of each domain's keywords occur in the lower-cased prompt,
 falling back to "general" when none does.
 */
module DomainDetection {
  import opened Text
  import opened Tables

  /** A domain name with the classifier's confidence in it. */
  datatype Detection = Detection(domain: string, confidence: real)

  /** What `detect_domain` returns when no keyword of any domain occurs. */
  const Fallback := Detection(General, 0.5)

  /** The positions in `keywords` of the keywords that occur in `p`. */
  ghost function Hits(p: string, keywords: seq<string>): set<int> {
    set j | 0 <= j < |keywords| && Contains(p, keywords[j])
  }

  /** `sum(1 for k in keywords if k in p)`: how many of the keywords occur in `p`. */
  function KeywordScore(p: string, keywords: seq<string>): (n: nat)
    ensures n == |Hits(p, keywords)|
    ensures n <= |keywords|
    ensures n > 0 <==> exists k :: k in keywords && Contains(p, k)
    decreases |keywords|
  {
    if keywords == [] then
      assert Hits(p, keywords) == {};
      0
    else
      var init := keywords[..|keywords| - 1];
      var last := keywords[|keywords| - 1];
      var n := KeywordScore(p, init) + (if Contains(p, last) then 1 else 0);
      assert forall k :: k in keywords <==> k in init || k == last;
      if Contains(p, last) then
        assert Hits(p, keywords) == Hits(p, init) + {|keywords| - 1};
        n
      else
        assert Hits(p, keywords) == Hits(p, init);
        n
  }

  /** The score only sees WHICH keywords occur, not where or how often: two
      prompts in which the same keywords occur get the same score. */
  lemma {:induction false} ScoreSeesOnlyOccurrence(p: string, q: string, keywords: seq<string>)
    requires forall k :: k in keywords ==> (Contains(p, k) <==> Contains(q, k))
    ensures KeywordScore(p, keywords) == KeywordScore(q, keywords)
    decreases |keywords|
  {
    if keywords != [] {
      var init := keywords[..|keywords| - 1];
      assert forall k :: k in init ==> k in keywords;
      ScoreSeesOnlyOccurrence(p, q, init);
    }
  }

  /** The keyword count of every table domain, in table order. */
  function Scores(p: string): (s: seq<nat>)
    ensures |s| == |DomainPatterns|
    ensures forall i :: 0 <= i < |s| ==> s[i] == KeywordScore(p, DomainPatterns[i].keywords)
  {
    seq(|DomainPatterns|, i requires 0 <= i < |DomainPatterns| => KeywordScore(p, DomainPatterns[i].keywords))
  }

  /** Python's `max` over a sequence: the first position holding the largest
      value (a later value replaces the current best only when strictly larger). */
  function FirstMax(s: seq<nat>): (b: nat)
    requires |s| > 0
    ensures b < |s|
    ensures forall j :: 0 <= j < |s| ==> s[j] <= s[b]
    ensures forall j :: 0 <= j < b ==> s[j] < s[b]
    decreases |s|
  {
    if |s| == 1 then
      0
    else
      var b := FirstMax(s[..|s| - 1]);
      assert forall j :: 0 <= j < |s| - 1 ==> s[..|s| - 1][j] == s[j];
      if s[|s| - 1] > s[b] then |s| - 1 else b
  }

  /** The two properties of `FirstMax` pin its result down. */
  lemma FirstMaxUnique(s: seq<nat>, b: nat)
    requires b < |s|
    requires forall j :: 0 <= j < |s| ==> s[j] <= s[b]
    requires forall j :: 0 <= j < b ==> s[j] < s[b]
    ensures FirstMax(s) == b
  {
  }

  /** `min(n / 3, 1.0)`. */
  function Confidence(n: nat): (c: real)
    ensures 0.0 <= c <= 1.0
    ensures n < 3 ==> 3.0 * c == n as real
    ensures n >= 3 ==> c == 1.0
  {
    if 1.0 < n as real / 3.0 then 1.0 else n as real / 3.0
  }

  /** `detect_domain(prompt)`: the first domain with the largest keyword count
      in the lower-cased prompt, or `Fallback` when that count is 0. The result
      is the fallback or a table domain whose confidence lies in [1/3, 1]. */
  function DomainOf(prompt: string): (r: Detection)
    ensures r == Fallback || (r.domain in DomainNames() && 1.0 / 3.0 <= r.confidence <= 1.0)
  {
    var s := Scores(Lower(prompt));
    var b := FirstMax(s);
    if s[b] == 0 then Fallback else Detection(DomainPatterns[b].name, Confidence(s[b]))
  }

  /** No keyword of any domain occurs in the lower-cased prompt. */
  predicate NoKeyword(prompt: string) {
    forall i, k :: 0 <= i < |DomainPatterns| && k in DomainPatterns[i].keywords ==> !Contains(Lower(prompt), k)
  }

  /** The fallback is returned exactly when no keyword occurs. */
  lemma FallbackIffNoKeyword(prompt: string)
    ensures DomainOf(prompt) == Fallback <==> NoKeyword(prompt)
  {
    var s := Scores(Lower(prompt));
    var b := FirstMax(s);
    TablesWellFormed();
    if s[b] != 0 {
      assert DomainPatterns[b].name in DomainNames();
      var k :| k in DomainPatterns[b].keywords && Contains(Lower(prompt), k);
      assert !NoKeyword(prompt);
    } else {
      forall i, k | 0 <= i < |DomainPatterns| && k in DomainPatterns[i].keywords
        ensures !Contains(Lower(prompt), k)
      {
        assert s[i] == 0;
      }
    }
  }

  /** When a keyword occurs, the result is a table domain whose count is
      largest, every domain before it in the table has a strictly smaller
      count, and the confidence is `min(count / 3, 1)`. */
  lemma DetectedIsFirstMaximal(prompt: string)
    requires !NoKeyword(prompt)
    ensures exists b :: 0 <= b < |DomainPatterns| && IsFirstMaximal(prompt, b)
                        && DomainOf(prompt) == Detection(DomainPatterns[b].name, Confidence(Scores(Lower(prompt))[b]))
  {
    FallbackIffNoKeyword(prompt);
    var s := Scores(Lower(prompt));
    var b := FirstMax(s);
    assert IsFirstMaximal(prompt, b);
  }

  /** Domain `b` has a positive count, no domain has a larger one, and every
      domain before it has a smaller one. */
  predicate IsFirstMaximal(prompt: string, b: nat)
    requires b < |DomainPatterns|
  {
    var s := Scores(Lower(prompt));
    && s[b] > 0
    && (forall j :: 0 <= j < |s| ==> s[j] <= s[b])
    && (forall j :: 0 <= j < b ==> s[j] < s[b])
  }

  /** The classifier sees the prompt only through its lower-case form. */
  lemma DetectionIgnoresCase(prompt: string)
    ensures DomainOf(Lower(prompt)) == DomainOf(prompt)
  {
    LowerIdempotent(prompt);
  }

  /** One entry of the local `scores` dict: a domain name and its nonzero count. */
  datatype Entry = Entry(domain: string, score: nat)

  /** The dict `scores` as the loop of `detect_domain` leaves it after the
      first `i` table domains: one entry per domain with a nonzero count, in
      table order; `at` gives each entry's table index. */
  ghost predicate DictOfScores(s: seq<nat>, i: nat, scores: seq<Entry>, at: seq<nat>)
    requires |s| == |DomainPatterns| && i <= |s|
  {
    && |at| == |scores|
    && (forall n :: 0 <= n < |at| ==>
          at[n] < i && s[at[n]] > 0 && scores[n] == Entry(DomainPatterns[at[n]].name, s[at[n]]))
    && (forall n, m :: 0 <= n < m < |at| ==> at[n] < at[m])
    && (forall t :: 0 <= t < i && s[t] > 0 ==> t in at)
  }

  /** Adding domain `i` to the dict when its count is nonzero keeps the dict
      in step with the table. */
  lemma DictExtend(s: seq<nat>, i: nat, scores: seq<Entry>, at: seq<nat>)
    requires |s| == |DomainPatterns| && i < |s|
    requires DictOfScores(s, i, scores, at)
    ensures s[i] == 0 ==> DictOfScores(s, i + 1, scores, at)
    ensures s[i] != 0 ==> DictOfScores(s, i + 1, scores + [Entry(DomainPatterns[i].name, s[i])], at + [i])
  {
  }

  /** The first entry with the largest count in the dict is the first
      table domain with the largest count. */
  lemma {:induction false} DictMaxIsFirstMax(s: seq<nat>, scores: seq<Entry>, at: seq<nat>, best: nat)
    requires |s| == |DomainPatterns| && DictOfScores(s, |s|, scores, at)
    requires best < |scores|
    requires forall n :: 0 <= n < |scores| ==> scores[n].score <= scores[best].score
    requires forall n :: 0 <= n < best ==> scores[n].score < scores[best].score
    ensures FirstMax(s) == at[best]
  {
    var b := at[best];
    forall t | 0 <= t < |s|
      ensures s[t] <= s[b] && (t < b ==> s[t] < s[b])
    {
      if s[t] > 0 {
        var n :| 0 <= n < |at| && at[n] == t;
        if n > best {
          assert at[best] < at[n];
        }
      }
    }
    FirstMaxUnique(s, b);
  }

  /** `sum(1 for k in keywords if k in p)`, one keyword at a time. */
  method CountKeywords(p: string, keywords: seq<string>) returns (score: nat)
    ensures score == KeywordScore(p, keywords)
  {
    score := 0;
    var m := 0;
    while m < |keywords|
      invariant 0 <= m <= |keywords|
      invariant score == KeywordScore(p, keywords[..m])
    {
      assert keywords[..m + 1][..m] == keywords[..m];
      if Contains(p, keywords[m]) {
        score := score + 1;
      }
      m := m + 1;
    }
    assert keywords[..m] == keywords;
  }

  /** `max(scores, key=scores.get)`: the first entry whose count no other
      entry exceeds. */
  method MaxByScore(scores: seq<Entry>) returns (best: nat)
    requires |scores| > 0
    ensures best < |scores|
    ensures forall n :: 0 <= n < |scores| ==> scores[n].score <= scores[best].score
    ensures forall n :: 0 <= n < best ==> scores[n].score < scores[best].score
  {
    best := 0;
    var j := 1;
    while j < |scores|
      invariant 1 <= j <= |scores|
      invariant best < j
      invariant forall n :: 0 <= n < j ==> scores[n].score <= scores[best].score
      invariant forall n :: 0 <= n < best ==> scores[n].score < scores[best].score
    {
      if scores[j].score > scores[best].score {
        best := j;
      }
      j := j + 1;
    }
  }

  /** `detect_domain`, as the source runs it: fill a dict with the nonzero
      counts in table order, then take Python's `max` over it by count. */
  method DetectDomain(prompt: string) returns (domain: string, confidence: real)
    ensures Detection(domain, confidence) == DomainOf(prompt)
  {
    var p := Lower(prompt);
    ghost var s := Scores(p);
    var scores: seq<Entry> := [];
    ghost var at: seq<nat> := [];
    var i := 0;
    while i < |DomainPatterns|
      invariant 0 <= i <= |DomainPatterns|
      invariant DictOfScores(s, i, scores, at)
    {
      var score := CountKeywords(p, DomainPatterns[i].keywords);
      DictExtend(s, i, scores, at);
      if score != 0 {
        scores := scores + [Entry(DomainPatterns[i].name, score)];
        at := at + [i];
      }
      i := i + 1;
    }
    if scores == [] {
      assert forall t :: 0 <= t < |s| ==> s[t] == 0;
      return Fallback.domain, Fallback.confidence;
    }
    var best := MaxByScore(scores);
    DictMaxIsFirstMax(s, scores, at, best);
    domain := scores[best].domain;
    confidence := Confidence(scores[best].score);
  }
}
