/**
 The few operations on Python `str` values that the prompt heuristics use:
 `str.isspace` on one character, `str.lower`, the substring test `w in s`,
 `str.split()` with no separator and `str.strip()` with no argument.
 */
module Text {

  /** Python's whitespace test for one character: the characters that
      `str.split()` and `str.strip()` treat as separators. */
  predicate IsSpace(c: char) {
    || ('\t' <= c <= '\r')                       // U+0009 .. U+000D
    || ('\U{1C}' <= c <= '\U{1F}')               // file, group, record, unit separators
    || c == ' '
    || c == '\U{85}' || c == '\U{A0}' || c == '\U{1680}'
    || ('\U{2000}' <= c <= '\U{200A}')
    || c == '\U{2028}' || c == '\U{2029}' || c == '\U{202F}' || c == '\U{205F}'
    || c == '\U{3000}'
  }

  predicate IsUpper(c: char) {
    'A' <= c <= 'Z'
  }

  /** Lower-case one character (ASCII letters only). */
  function LowerChar(c: char): (d: char)
    ensures !IsUpper(d)
    ensures IsUpper(c) ==> d as int == c as int + 32
    ensures !IsUpper(c) ==> d == c
  {
    if IsUpper(c) then (c as int + 32) as char else c
  }

  /** `s.lower()`, character by character. */
  function Lower(s: string): (r: string)
    ensures |r| == |s|
    ensures forall i :: 0 <= i < |s| ==> r[i] == LowerChar(s[i])
  {
    seq(|s|, i requires 0 <= i < |s| => LowerChar(s[i]))
  }

  /** Lower-casing twice is lower-casing once. */
  lemma LowerIdempotent(s: string)
    ensures Lower(Lower(s)) == Lower(s)
  {
    assert forall i :: 0 <= i < |s| ==> LowerChar(LowerChar(s[i])) == LowerChar(s[i]);
  }

  /** `w` occurs in `s` starting at index `i`. */
  predicate OccursAt(s: string, w: string, i: int) {
    0 <= i && i + |w| <= |s| && s[i..i + |w|] == w
  }

  /** Python's `w in s`: `w` is a contiguous substring of `s` (the empty
      string occurs in every string). */
  function Contains(s: string, w: string): (r: bool)
    ensures r <==> exists i :: OccursAt(s, w, i)
    decreases |s|
  {
    if |w| > |s| then
      false
    else if s[..|w|] == w then
      assert OccursAt(s, w, 0);
      true
    else
      var r := Contains(s[1..], w);
      ShiftOccurrence(s, w);
      assert !OccursAt(s, w, 0);
      r
  }

  /** Occurrences in `s[1..]` are the occurrences in `s` past index 0. */
  lemma ShiftOccurrence(s: string, w: string)
    requires |s| > 0
    ensures forall i :: OccursAt(s, w, i) ==> i == 0 || OccursAt(s[1..], w, i - 1)
    ensures forall i :: OccursAt(s[1..], w, i) ==> OccursAt(s, w, i + 1)
  {
    forall i | OccursAt(s[1..], w, i)
      ensures OccursAt(s, w, i + 1)
    {
      assert s[1..][i..i + |w|] == s[i + 1..i + 1 + |w|];
    }
    forall i | OccursAt(s, w, i) && i > 0
      ensures OccursAt(s[1..], w, i - 1)
    {
      assert s[1..][i - 1..i - 1 + |w|] == s[i..i + |w|];
    }
  }

  /** The first index at or after `i` that does not hold whitespace (`|s|` if none). */
  function SkipSpace(s: string, i: nat): (j: nat)
    requires i <= |s|
    ensures i <= j <= |s|
    ensures forall k :: i <= k < j ==> IsSpace(s[k])
    ensures j < |s| ==> !IsSpace(s[j])
    decreases |s| - i
  {
    if i == |s| || !IsSpace(s[i]) then i else SkipSpace(s, i + 1)
  }

  /** The first index at or after `i` that holds whitespace (`|s|` if none). */
  function SkipWord(s: string, i: nat): (j: nat)
    requires i <= |s|
    ensures i <= j <= |s|
    ensures forall k :: i <= k < j ==> !IsSpace(s[k])
    ensures j < |s| ==> IsSpace(s[j])
    decreases |s| - i
  {
    if i == |s| || IsSpace(s[i]) then i else SkipWord(s, i + 1)
  }

  /** A word of `str.split()`: non-empty and free of whitespace. */
  predicate IsWord(w: string) {
    |w| > 0 && forall k :: 0 <= k < |w| ==> !IsSpace(w[k])
  }

  /** The words of `s[i..]`, scanning left to right. */
  function SplitFrom(s: string, i: nat): (words: seq<string>)
    requires i <= |s|
    ensures forall n :: 0 <= n < |words| ==> IsWord(words[n])
    decreases |s| - i
  {
    var j := SkipSpace(s, i);
    if j == |s| then
      []
    else
      var k := SkipWord(s, j);
      [s[j..k]] + SplitFrom(s, k)
  }

  /** `s.split()`: the maximal runs of non-whitespace characters, in order. */
  function Split(s: string): seq<string> {
    SplitFrom(s, 0)
  }

  /** `len(s.split())`. */
  function WordCount(s: string): nat {
    |Split(s)|
  }

  /** Index `i` begins a word: it holds a non-space that follows whitespace
      or the start of the string. */
  predicate WordStartAt(s: string, i: nat)
    requires i < |s|
  {
    !IsSpace(s[i]) && (i == 0 || IsSpace(s[i - 1]))
  }

  /** The number of word starts in `s[i..]`: a count of words that does not
      build the list of them. */
  function StartsFrom(s: string, i: nat): nat
    requires i <= |s|
    decreases |s| - i
  {
    if i == |s| then 0 else (if WordStartAt(s, i) then 1 else 0) + StartsFrom(s, i + 1)
  }

  /** A stretch `[a, b)` without word starts adds nothing to the count. */
  lemma {:induction false} StartsSkip(s: string, a: nat, b: nat)
    requires a <= b <= |s|
    requires forall k :: a <= k < b ==> !WordStartAt(s, k)
    ensures StartsFrom(s, a) == StartsFrom(s, b)
    decreases b - a
  {
    if a < b {
      StartsSkip(s, a + 1, b);
    }
  }

  /** Scanning from a word boundary, `SplitFrom` finds one word per word start. */
  lemma {:induction false} SplitFromCountsStarts(s: string, i: nat)
    requires i <= |s|
    requires i == 0 || i == |s| || IsSpace(s[i - 1]) || IsSpace(s[i])
    ensures |SplitFrom(s, i)| == StartsFrom(s, i)
    decreases |s| - i
  {
    var j := SkipSpace(s, i);
    StartsSkip(s, i, j);
    if j < |s| {
      var k := SkipWord(s, j);
      assert WordStartAt(s, j);
      StartsSkip(s, j + 1, k);
      SplitFromCountsStarts(s, k);
    }
  }

  /** The number of words `split()` returns is the number of word starts. */
  lemma WordCountIsStarts(s: string)
    ensures WordCount(s) == StartsFrom(s, 0)
  {
    SplitFromCountsStarts(s, 0);
  }

  /** The first index `j` in `[i, e]` such that `s[j..e]` is all whitespace. */
  function TrimEnd(s: string, i: nat, e: nat): (j: nat)
    requires i <= e <= |s|
    ensures i <= j <= e
    ensures forall k :: j <= k < e ==> IsSpace(s[k])
    ensures j > i ==> !IsSpace(s[j - 1])
    decreases e - i
  {
    if e == i || !IsSpace(s[e - 1]) then e else TrimEnd(s, i, e - 1)
  }

  /** `s.strip()`: `s` without its leading and trailing whitespace. */
  function Strip(s: string): (r: string)
    ensures |r| > 0 ==> !IsSpace(r[0]) && !IsSpace(r[|r| - 1])
    ensures exists a, b :: 0 <= a <= b <= |s| && r == s[a..b]
  {
    var a := SkipSpace(s, 0);
    var b := TrimEnd(s, a, |s|);
    s[a..b]
  }

  /** Every character of `s` is whitespace. */
  predicate IsBlank(s: string) {
    forall k :: 0 <= k < |s| ==> IsSpace(s[k])
  }

  /** `not s.strip()` holds exactly when `s.split()` is empty: both say that
      `s` is blank. */
  lemma StripEmptyIffNoWords(s: string)
    ensures Strip(s) == [] <==> IsBlank(s)
    ensures WordCount(s) == 0 <==> IsBlank(s)
  {
    var a := SkipSpace(s, 0);
    if a < |s| {
      var b := TrimEnd(s, a, |s|);
      assert b > a;
      assert Strip(s)[b - 1 - a] == s[b - 1];
      assert |Split(s)| > 0;
    }
  }
}
