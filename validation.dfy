/**
 * The output validation gate: an ordered, fail-fast chain of checks on the
 * enhanced text, the confidence score, and three lint-style checks that
 * report lists of issues.
 */
module Validation {
  import opened Wrappers
  import opened Text
  import opened Models

  datatype ValidationError =
    | EmptyPrompt
    | TooShort
    | TooLong
    | InappropriateContent(word: string)
    | TooSimple

  const InappropriatePrefix := "Inappropriate content detected: "

  /** The `Display` text of a validation error. */
  function ErrorMessage(e: ValidationError): (m: string)
    ensures e.InappropriateContent? ==> m == InappropriatePrefix + e.word
    ensures IsPrefix("Enhanced prompt is ", m) <==> !e.InappropriateContent?
  {
    match e
    case EmptyPrompt => "Enhanced prompt is empty"
    case TooShort => "Enhanced prompt is too short"
    case TooLong => "Enhanced prompt is too long"
    case InappropriateContent(w) =>
      assert (InappropriatePrefix + w)[0] == 'I';
      InappropriatePrefix + w
    case TooSimple => "Enhanced prompt is too simple"
  }

  /** Different errors have different messages, so a message names its error. */
  lemma ErrorMessageInjective(e1: ValidationError, e2: ValidationError)
    requires ErrorMessage(e1) == ErrorMessage(e2)
    ensures e1 == e2
  {
    if e1.InappropriateContent? && e2.InappropriateContent? {
      var m := ErrorMessage(e1);
      assert e1.word == m[|InappropriatePrefix|..];
      assert e2.word == m[|InappropriatePrefix|..];
    } else if !e1.InappropriateContent? && !e2.InappropriateContent? {
      assert |ErrorMessage(e1)| == |ErrorMessage(e2)|;
    }
  }

  const MinBytes: nat := 10
  const MaxBytes: nat := 5000
  const MinWords: nat := 10

  /** The denylist, in the order it is searched. */
  const BadWords: seq<string> := ["inappropriate", "offensive"]

  type Verdict = Result<(), ValidationError>

  /** The first entry of `words` that occurs in `lower`. */
  function FirstDenied(lower: string, words: seq<string>): (r: Option<string>)
    ensures r.Some? ==> r.value in words && Contains(lower, r.value)
    ensures r.None? <==> forall j | 0 <= j < |words| :: !Contains(lower, words[j])
  {
    if words == [] then None
    else if Contains(lower, words[0]) then Some(words[0])
    else
      var r := FirstDenied(lower, words[1..]);
      assert forall j | 1 <= j < |words| :: words[j] == words[1..][j - 1];
      r
  }

  /** When no earlier entry occurs and entry `i` does, entry `i` is the one reported. */
  lemma {:induction false} FirstDeniedAt(lower: string, words: seq<string>, i: nat)
    requires i < |words| && Contains(lower, words[i])
    requires forall j | 0 <= j < i :: !Contains(lower, words[j])
    ensures FirstDenied(lower, words) == Some(words[i])
  {
    if i > 0 {
      FirstDeniedAt(lower, words[1..], i - 1);
    }
  }

  /** What `validate_enhanced_prompt` decides about a text. */
  function Check(text: string): Verdict {
    if Trim(text) == [] then Failure(EmptyPrompt)
    else if ByteLen(text) < MinBytes then Failure(TooShort)
    else if ByteLen(text) > MaxBytes then Failure(TooLong)
    else if WordCount(text) < MinWords then Failure(TooSimple)
    else
      match FirstDenied(ToLower(text), BadWords)
      case Some(w) => Failure(InappropriateContent(w))
      case None => Success(())
  }

  /** Rust's `validate_enhanced_prompt`: the checks in order, the first failure wins. */
  method ValidateEnhancedPrompt(prompt: EnhancedPrompt) returns (r: Verdict)
    ensures r == Check(prompt.text)
  {
    var text := prompt.text;
    if Trim(text) == [] {
      return Failure(EmptyPrompt);
    }
    var len := ByteLen(text);
    if len < MinBytes {
      return Failure(TooShort);
    }
    if len > MaxBytes {
      return Failure(TooLong);
    }
    var wordCount := WordCount(text);
    if wordCount < MinWords {
      return Failure(TooSimple);
    }
    var i := 0;
    while i < |BadWords|
      invariant 0 <= i <= |BadWords|
      invariant forall j | 0 <= j < i :: !Contains(ToLower(text), BadWords[j])
    {
      var word := BadWords[i];
      if Contains(ToLower(text), word) {
        FirstDeniedAt(ToLower(text), BadWords, i);
        return Failure(InappropriateContent(word));
      }
      i := i + 1;
    }
    return Success(());
  }

  /** All five conditions of the gate, stated without reference to their order. */
  predicate PassesGate(text: string) {
    && !IsBlank(text)
    && MinBytes <= ByteLen(text) <= MaxBytes
    && WordCount(text) >= MinWords
    && forall j | 0 <= j < |BadWords| :: !Contains(ToLower(text), BadWords[j])
  }

  /** The gate accepts a text exactly when every check passes. */
  lemma CheckOkIff(text: string)
    ensures Check(text).Success? <==> PassesGate(text)
  {
    TrimEmptyIffBlank(text);
  }

  /**
   * The checks are fail-fast and ordered: a blank text is `EmptyPrompt`
   * whatever its length, the byte-length checks come before the word
   * count, and the word count comes before the denylist.
   */
  lemma CheckOrder(text: string)
    ensures IsBlank(text) ==> Check(text) == Failure(EmptyPrompt)
    ensures !IsBlank(text) && ByteLen(text) < MinBytes ==> Check(text) == Failure(TooShort)
    ensures !IsBlank(text) && ByteLen(text) > MaxBytes ==> Check(text) == Failure(TooLong)
    ensures Check(text) == Failure(TooSimple) ==> MinBytes <= ByteLen(text) <= MaxBytes && WordCount(text) < MinWords
    ensures Check(text).Failure? && Check(text).error.InappropriateContent? ==>
      && PassesGate(text) == false
      && MinBytes <= ByteLen(text) <= MaxBytes && WordCount(text) >= MinWords
      && Check(text).error.word in BadWords
      && Contains(ToLower(text), Check(text).error.word)
  {
    TrimEmptyIffBlank(text);
  }

  /** A text that passes the size checks is judged by the denylist alone. */
  lemma DenylistDecides(text: string, w: string)
    requires !IsBlank(text) && MinBytes <= ByteLen(text) <= MaxBytes && WordCount(text) >= MinWords
    requires FirstDenied(ToLower(text), BadWords) == Some(w)
    ensures Check(text) == Failure(InappropriateContent(w))
  {
    TrimEmptyIffBlank(text);
  }

  /** The denylist reports the first listed word that occurs, case-insensitively. */
  lemma DenylistOrder(text: string)
    requires !IsBlank(text) && MinBytes <= ByteLen(text) <= MaxBytes && WordCount(text) >= MinWords
    ensures Contains(ToLower(text), "inappropriate") ==> Check(text) == Failure(InappropriateContent("inappropriate"))
    ensures !Contains(ToLower(text), "inappropriate") && Contains(ToLower(text), "offensive") ==>
      Check(text) == Failure(InappropriateContent("offensive"))
  {
    if Contains(ToLower(text), "inappropriate") {
      FirstDeniedAt(ToLower(text), BadWords, 0);
      DenylistDecides(text, "inappropriate");
    } else if Contains(ToLower(text), "offensive") {
      FirstDeniedAt(ToLower(text), BadWords, 1);
      DenylistDecides(text, "offensive");
    }
  }

  // ---- confidence ----

  function MinReal(a: real, b: real): real {
    if a <= b then a else b
  }

  /** The score for a text of `bytes` bytes and `words` words. */
  function Score(bytes: nat, words: nat): (c: real)
    ensures 0.0 <= c <= 1.0
  {
    (MinReal(bytes as real / 1000.0, 1.0) + MinReal(words as real / 50.0, 1.0)) / 2.0
  }

  /** Rust's `compute_confidence` (computed exactly rather than in `f32`). */
  function ComputeConfidence(text: string): (c: real)
    ensures 0.0 <= c <= 1.0
  {
    Score(ByteLen(text), WordCount(text))
  }

  /** The score is exactly 1 once the text has 1000 bytes and 50 words, and only then. */
  lemma ScoreIsOneIff(bytes: nat, words: nat)
    ensures Score(bytes, words) == 1.0 <==> bytes >= 1000 && words >= 50
  {
  }

  /** The score is non-decreasing in both the byte length and the word count. */
  lemma ScoreMonotone(b1: nat, w1: nat, b2: nat, w2: nat)
    requires b1 <= b2 && w1 <= w2
    ensures Score(b1, w1) <= Score(b2, w2)
  {
  }

  /** Any non-empty text gets a positive confidence. */
  lemma ConfidencePositive(text: string)
    ensures ComputeConfidence(text) > 0.0 <==> text != []
  {
  }

  // ---- lint-style checks ----

  const DoubleSpacesIssue := "Contains double spaces"
  const TrailingSpaceIssue := "Some lines end with space"
  const LongSentencesIssue := "Average sentence length is too long (>100 chars), may affect clarity"
  const ShortSentencesIssue := "Average sentence length is too short (<10 chars), may be too choppy"
  const DuplicateSentenceIssue := "Duplicate sentence found"
  const SpacingIssue := "Inconsistent spacing around punctuation"
  const MissingSpaceIssue := "Missing spaces after punctuation"

  const SentenceEnds: set<char> := {'.', '!', '?'}

  /** The pieces of `text` between sentence-ending punctuation. */
  function Sentences(text: string): seq<string> {
    SplitOn(text, SentenceEnds)
  }

  /** Total byte length of `parts`. */
  function SumBytes(parts: seq<string>): nat {
    if parts == [] then 0 else SumBytes(parts[..|parts| - 1]) + ByteLen(parts[|parts| - 1])
  }

  /** Average sentence length in bytes, rounded down (`usize` division). */
  function AverageSentenceLength(text: string): nat {
    SumBytes(Sentences(text)) / |Sentences(text)|
  }

  /** The per-line test of `check_grammar_and_clarity`: the line, trimmed at the end, ends with a space. */
  predicate EndsWithSpaceAfterTrimEnd(line: string) {
    IsSuffix(" ", TrimEnd(line))
  }

  /** Some line of `text` passes the per-line test. */
  predicate AnyLineEndsWithSpace(text: string) {
    exists j | 0 <= j < |Lines(text)| :: EndsWithSpaceAfterTrimEnd(Lines(text)[j])
  }

  /**
   * `trim_end` removes every trailing space, so the per-line test never
   * holds and "Some lines end with space" is never reported.
   */
  lemma TrailingSpaceNeverReported(text: string)
    ensures !AnyLineEndsWithSpace(text)
  {
    forall j | 0 <= j < |Lines(text)|
      ensures !EndsWithSpaceAfterTrimEnd(Lines(text)[j])
    {
      var t := TrimEnd(Lines(text)[j]);
      assert t == [] || !IsWhitespace(t[|t| - 1]);
    }
  }

  /** Rust's `check_grammar_and_clarity`. */
  method CheckGrammarAndClarity(text: string) returns (issues: seq<string>)
    ensures DoubleSpacesIssue in issues <==> Contains(text, "  ")
    ensures TrailingSpaceIssue in issues <==> AnyLineEndsWithSpace(text)
    ensures LongSentencesIssue in issues <==> AverageSentenceLength(text) > 100
    ensures ShortSentencesIssue in issues <==> AverageSentenceLength(text) < 10
    ensures Contains(text, "  ") ==> issues[0] == DoubleSpacesIssue
    ensures |issues| <= 3
    ensures forall i | 0 <= i < |issues| ::
      issues[i] in {DoubleSpacesIssue, TrailingSpaceIssue, LongSentencesIssue, ShortSentencesIssue}
    ensures forall i, j | 0 <= i < j < |issues| :: issues[i] != issues[j]
  {
    issues := [];
    if Contains(text, "  ") {
      issues := issues + [DoubleSpacesIssue];
    }
    if AnyLineEndsWithSpace(text) {
      issues := issues + [TrailingSpaceIssue];
    }
    var sentences := Sentences(text);
    var total := 0;
    var k := 0;
    while k < |sentences|
      invariant 0 <= k <= |sentences|
      invariant total == SumBytes(sentences[..k])
    {
      assert sentences[..k + 1][..k] == sentences[..k];
      total := total + ByteLen(sentences[k]);
      k := k + 1;
    }
    assert sentences[..k] == sentences;
    var avg := total / if |sentences| > 1 then |sentences| else 1;
    if avg > 100 {
      issues := issues + [LongSentencesIssue];
    }
    if avg < 10 {
      issues := issues + [ShortSentencesIssue];
    }
  }

  /** The key a sentence is compared by: trimmed and lower-cased; blank sentences have none. */
  function SentenceKey(sentence: string): (k: Option<string>)
    ensures k.None? <==> IsBlank(sentence)
  {
    TrimEmptyIffBlank(sentence);
    var trimmed := Trim(sentence);
    if trimmed == [] then None else Some(ToLower(trimmed))
  }

  // The scan below is stated for any key function, so that its proof does
  // not depend on how keys are computed.

  /** The keys of the first `n` pieces of `s` that have one. */
  function KeysBefore(key: string -> Option<string>, s: seq<string>, n: nat): set<string>
    requires n <= |s|
  {
    if n == 0 then {}
    else KeysBefore(key, s, n - 1) + if key(s[n - 1]).Some? then {key(s[n - 1]).value} else {}
  }

  /** A key is collected exactly when one of the first `n` pieces has it. */
  lemma {:induction false} KeysBeforeSpec(key: string -> Option<string>, s: seq<string>, n: nat, k: string)
    requires n <= |s|
    ensures k in KeysBefore(key, s, n) <==> exists j | 0 <= j < n :: key(s[j]) == Some(k)
  {
    if n > 0 {
      KeysBeforeSpec(key, s, n - 1, k);
    }
  }

  /** Two of the first `n` pieces of `s` have the same key. */
  predicate DuplicateWithin(key: string -> Option<string>, s: seq<string>, n: nat)
    requires n <= |s|
  {
    exists a, b | 0 <= a < b < n :: key(s[a]).Some? && key(s[a]) == key(s[b])
  }

  /** Two non-blank sentences are the same once trimmed and lower-cased. */
  predicate HasDuplicate(sentences: seq<string>) {
    DuplicateWithin(SentenceKey, sentences, |sentences|)
  }

  /** One step of the scan: a repeated key is a duplicate, otherwise the scan state advances. */
  lemma ScanStep(key: string -> Option<string>, s: seq<string>, n: nat, seen: set<string>)
    requires n < |s| && seen == KeysBefore(key, s, n) && !DuplicateWithin(key, s, n)
    ensures key(s[n]).Some? && key(s[n]).value in seen ==> DuplicateWithin(key, s, |s|)
    ensures key(s[n]).Some? && key(s[n]).value !in seen ==>
      seen + {key(s[n]).value} == KeysBefore(key, s, n + 1) && !DuplicateWithin(key, s, n + 1)
    ensures key(s[n]).None? ==> seen == KeysBefore(key, s, n + 1) && !DuplicateWithin(key, s, n + 1)
  {
    if key(s[n]).Some? {
      var k := key(s[n]).value;
      KeysBeforeSpec(key, s, n, k);
      if k in seen {
        var j :| 0 <= j < n && key(s[j]) == Some(k);
        assert key(s[j]).Some? && key(s[j]) == key(s[n]);
      }
    }
    if DuplicateWithin(key, s, n + 1) {
      var a, b :| 0 <= a < b < n + 1 && key(s[a]).Some? && key(s[a]) == key(s[b]);
      assert b == n;
      KeysBeforeSpec(key, s, n, key(s[a]).value);
    }
  }

  /**
   * The scan of `check_consistency`: keys are inserted into a set in order,
   * and the scan stops at the first key already present.
   */
  method ScanForDuplicate(key: string -> Option<string>, s: seq<string>) returns (found: bool)
    ensures found <==> DuplicateWithin(key, s, |s|)
  {
    found := false;
    var seen: set<string> := {};
    var i := 0;
    while i < |s|
      invariant 0 <= i <= |s|
      invariant seen == KeysBefore(key, s, i)
      invariant !DuplicateWithin(key, s, i)
    {
      ScanStep(key, s, i, seen);
      var k := key(s[i]);
      if k.Some? {
        if k.value in seen {
          found := true;
          break;
        }
        seen := seen + {k.value};
      }
      i := i + 1;
    }
  }

  /** Rust's `check_consistency`: one issue at most, reported iff some sentence repeats. */
  method CheckConsistency(text: string) returns (issues: seq<string>)
    ensures issues == [] || issues == [DuplicateSentenceIssue]
    ensures issues == [DuplicateSentenceIssue] <==> HasDuplicate(Sentences(text))
  {
    issues := [];
    var found := ScanForDuplicate(SentenceKey, Sentences(text));
    if found {
      issues := issues + [DuplicateSentenceIssue];
    }
  }

  predicate HasSpaceBeforePunctuation(text: string) {
    Contains(text, " ,") || Contains(text, " .") || Contains(text, " !") || Contains(text, " ?")
  }

  predicate HasDoubledPunctuation(text: string) {
    Contains(text, "..") || Contains(text, "!!") || Contains(text, "??")
  }

  /** Rust's `check_formatting`: at most the two issues, in this order. */
  method CheckFormatting(text: string) returns (issues: seq<string>)
    ensures SpacingIssue in issues <==> HasSpaceBeforePunctuation(text)
    ensures MissingSpaceIssue in issues <==> HasDoubledPunctuation(text)
    ensures |issues| <= 2
    ensures |issues| == 2 ==> issues == [SpacingIssue, MissingSpaceIssue]
    ensures forall k | 0 <= k < |issues| :: issues[k] in {SpacingIssue, MissingSpaceIssue}
  {
    issues := [];
    if Contains(text, " ,") || Contains(text, " .") || Contains(text, " !") || Contains(text, " ?") {
      issues := issues + [SpacingIssue];
    }
    if Contains(text, "..") || Contains(text, "!!") || Contains(text, "??") {
      issues := issues + [MissingSpaceIssue];
    }
  }
}
