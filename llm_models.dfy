/** The analysis logic of `llm_models.py`: the keyword lexicon, the rating-and-keyword
    sentiment rule, the keyword sentence filters, the two summarisers and the guarded
    recommendation generator. The Hugging Face pipelines are opaque: each one is a
    `Backend` that is either absent (loading failed) or a function from its input text
    to a `Reply` (an exception or an output text). */
module LlmModels {
  import opened Strings

  // ---------------------------------------------------------------------------
  // Keyword lexicon (llm_models.py:32-41)
  // ---------------------------------------------------------------------------

  const NegativeKeywords: seq<string> := [
    "slow", "overpriced", "issue", "problem", "bug", "crash",
    "expensive", "difficult", "limited", "ads", "doesn\U{2019}t",
    "lack", "not unique"
  ]

  const PositiveKeywords: seq<string> := [
    "useful", "great", "excellent", "clean", "fast",
    "intuitive", "helpful", "responsive"
  ]

  /** `any(kw in s.lower() for kw in NEGATIVE_KEYWORDS)` */
  predicate HasNegative(s: string) {
    exists kw :: kw in NegativeKeywords && Contains(Lower(s), kw)
  }

  /** `any(kw in s.lower() for kw in POSITIVE_KEYWORDS)` */
  predicate HasPositive(s: string) {
    exists kw :: kw in PositiveKeywords && Contains(Lower(s), kw)
  }

  // ---------------------------------------------------------------------------
  // Sentiment rule (llm_models.py:44-60)
  // ---------------------------------------------------------------------------

  datatype Sentiment = Negative | Neutral | Positive | Mixed {
    /** The label string the source returns. */
    function Label(): string {
      match this
      case Negative => "Negative"
      case Neutral => "Neutral"
      case Positive => "Positive"
      case Mixed => "Mixed"
    }
  }

  /** A rating-only rule: four stars or more is positive,
      three is neutral, anything lower is negative. */
  function RatingRule(rating: int): Sentiment {
    if rating >= 4 then Positive else if rating == 3 then Neutral else Negative
  }

  /** A keyword override: a positive-leaning verdict on a text
      that names a negative keyword becomes Mixed. */
  function KeywordOverride(text: string, verdict: Sentiment): Sentiment {
    if verdict == Positive && HasNegative(text) then Mixed else verdict
  }

  /** `classify_sentiment(text, rating)`. For ratings 1..5 it is the rating rule
      refined by the keyword override; any other rating (0, 6, -1, ...) falls to the
      final else-branch and is Positive, never Mixed, because the Mixed test asks for
      a rating of exactly 4 or 5. */
  function ClassifySentiment(text: string, rating: int): (s: Sentiment)
    ensures 1 <= rating <= 5 ==> s == KeywordOverride(text, RatingRule(rating))
    ensures !(1 <= rating <= 5) ==> s == Positive
    ensures rating == 1 || rating == 2 ==> s == Negative
    ensures rating == 3 ==> s == Neutral
    ensures rating == 4 || rating == 5 ==> (s == Mixed <==> HasNegative(text))
    ensures s == Mixed <==> (rating == 4 || rating == 5) && HasNegative(text)
  {
    if (rating == 4 || rating == 5) && HasNegative(text) then Mixed
    else if rating == 1 || rating == 2 then Negative
    else if rating == 3 then Neutral
    else Positive
  }

  // ---------------------------------------------------------------------------
  // Sentences and the keyword filters (llm_models.py:63-81)
  // ---------------------------------------------------------------------------

  /** What the filters keep of a fragment: non-empty, stripped, and free of
      sentence terminators. */
  predicate IsSentence(s: string) {
    s != "" && IsStripped(s) && NoTerminator(s)
  }

  /** Stripping a fragment without terminators leaves a piece without terminators. */
  lemma StripNoTerminator(s: string)
    requires NoTerminator(s)
    ensures NoTerminator(Strip(s))
  {
    var start := StripRemovesOnlySpace(s);
    forall c | c in Strip(s) ensures !IsTerminator(c) {
      var i :| 0 <= i < |Strip(s)| && Strip(s)[i] == c;
      assert s[start + i] == c;
    }
  }

  /** The stripped, non-empty fragments, in order (`s_clean = s.strip(); if s_clean: ...`). */
  function Cleaned(fragments: seq<string>): (r: seq<string>)
    ensures |r| <= |fragments|
  {
    if fragments == [] then []
    else
      var clean := Strip(fragments[|fragments| - 1]);
      Cleaned(fragments[..|fragments| - 1]) + (if clean == "" then [] else [clean])
  }

  /** What survives of fragments without terminators is a list of sentences. */
  lemma {:induction false} CleanedAreSentences(fragments: seq<string>)
    requires forall k :: 0 <= k < |fragments| ==> NoTerminator(fragments[k])
    ensures forall k :: 0 <= k < |Cleaned(fragments)| ==> IsSentence(Cleaned(fragments)[k])
  {
    if fragments != [] {
      var last := fragments[|fragments| - 1];
      CleanedAreSentences(fragments[..|fragments| - 1]);
      StripNoTerminator(last);
    }
  }

  /** The sentences of one feedback text: split on `.`, `!`, `?`, stripped, empties dropped. */
  function Sentences(text: string): (r: seq<string>)
    ensures |r| <= Terminators(text) + 1
  {
    Cleaned(Split(text))
  }

  /** The sentences of every text of the list, text after text. */
  function AllSentences(texts: seq<string>): seq<string> {
    if texts == [] then []
    else AllSentences(texts[..|texts| - 1]) + Sentences(texts[|texts| - 1])
  }

  /** Every sentence the filters and the router see is non-empty, stripped and free of
      `.`, `!` and `?`. */
  lemma {:induction false} AllSentencesAreSentences(texts: seq<string>)
    ensures forall k :: 0 <= k < |AllSentences(texts)| ==> IsSentence(AllSentences(texts)[k])
  {
    if texts != [] {
      AllSentencesAreSentences(texts[..|texts| - 1]);
      SplitPieces(texts[|texts| - 1]);
      CleanedAreSentences(Split(texts[|texts| - 1]));
    }
  }

  /** A sentence is its own only sentence. */
  lemma SentencesOfSentence(s: string)
    requires IsSentence(s)
    ensures Sentences(s) == [s]
  {
    SplitNoTerminator(s);
    StripOfStripped(s);
    assert [s][..0] == [];
  }

  /** Re-splitting a list of sentences gives the same list back. */
  lemma {:induction false} AllSentencesOfSentences(ss: seq<string>)
    requires forall k :: 0 <= k < |ss| ==> IsSentence(ss[k])
    ensures AllSentences(ss) == ss
  {
    if ss != [] {
      var init := ss[..|ss| - 1];
      AllSentencesOfSentences(init);
      SentencesOfSentence(ss[|ss| - 1]);
      assert ss[|ss| - 1..] == [ss[|ss| - 1]];
      assert init + ss[|ss| - 1..] == ss;
    }
  }

  /** The buckets a sentence can be selected into: `Pain` (has a negative keyword:
      `filter_negative_sentences`, the `pains_list`), `NotPain` (has none:
      `filter_positive_sentences`) and `Praise` (none negative, some positive:
      the `praises_list`). */
  datatype Bucket = Pain | NotPain | Praise

  predicate Belongs(s: string, b: Bucket) {
    match b
    case Pain => HasNegative(s)
    case NotPain => !HasNegative(s)
    case Praise => !HasNegative(s) && HasPositive(s)
  }

  /** The sentences of `ss` that belong to bucket `b`, in their original order. */
  function Select(ss: seq<string>, b: Bucket): (r: seq<string>)
    ensures |r| <= |ss|
  {
    if ss == [] then []
    else
      var last := ss[|ss| - 1];
      Select(ss[..|ss| - 1], b) + (if Belongs(last, b) then [last] else [])
  }

  /** Selecting from a concatenation selects from each part in turn:
      sentences of earlier texts stay ahead of sentences of later texts. */
  lemma {:induction false} SelectAppend(a: seq<string>, c: seq<string>, b: Bucket)
    ensures Select(a + c, b) == Select(a, b) + Select(c, b)
  {
    if c != [] {
      var init := c[..|c| - 1];
      var last := c[|c| - 1];
      var step := if Belongs(last, b) then [last] else [];
      SelectAppend(a, init, b);
      assert (a + c)[..|a + c| - 1] == a + init;
      assert (a + c)[|a + c| - 1] == last;
      assert Select(a + c, b) == Select(a, b) + Select(init, b) + step;
      assert Select(c, b) == Select(init, b) + step;
    } else {
      assert a + c == a;
    }
  }

  /** Each sentence is selected exactly as often as it occurs, when it belongs to
      the bucket, and never otherwise: duplicates are kept and nothing is invented. */
  lemma {:induction false} SelectCount(ss: seq<string>, b: Bucket, s: string)
    ensures multiset(Select(ss, b))[s] == if Belongs(s, b) then multiset(ss)[s] else 0
  {
    if ss != [] {
      var init := ss[..|ss| - 1];
      var last := ss[|ss| - 1];
      SelectCount(init, b, s);
      assert multiset(ss) == multiset(init) + multiset{last} by {
        assert ss[|ss| - 1..] == [last];
        assert ss == init + ss[|ss| - 1..];
      }
      var step := if Belongs(last, b) then [last] else [];
      assert multiset(Select(ss, b)) == multiset(Select(init, b)) + multiset(step);
    }
  }

  /** A list whose every sentence belongs to the bucket is selected whole. */
  lemma {:induction false} SelectEvery(ss: seq<string>, b: Bucket)
    requires forall k :: 0 <= k < |ss| ==> Belongs(ss[k], b)
    ensures Select(ss, b) == ss
  {
    if ss != [] {
      SelectEvery(ss[..|ss| - 1], b);
      assert ss[|ss| - 1..] == [ss[|ss| - 1]];
      assert ss[..|ss| - 1] + ss[|ss| - 1..] == ss;
    }
  }

  /** What a selection returns belongs to the bucket, and is a sentence when the list
      holds only sentences. */
  lemma {:induction false} SelectKeeps(ss: seq<string>, b: Bucket)
    ensures forall k :: 0 <= k < |Select(ss, b)| ==> Belongs(Select(ss, b)[k], b)
    ensures (forall k :: 0 <= k < |ss| ==> IsSentence(ss[k])) ==>
      forall k :: 0 <= k < |Select(ss, b)| ==> IsSentence(Select(ss, b)[k])
  {
    if ss != [] {
      SelectKeeps(ss[..|ss| - 1], b);
    }
  }

  /** The two filters split the sentences of a list between them: every sentence
      goes to exactly one of the two outputs, as often as it occurs. */
  lemma FiltersPartition(texts: seq<string>, s: string)
    ensures var all := AllSentences(texts);
      multiset(Select(all, Pain))[s] + multiset(Select(all, NotPain))[s] == multiset(all)[s]
    ensures var all := AllSentences(texts);
      !(s in Select(all, Pain) && s in Select(all, NotPain))
  {
    var all := AllSentences(texts);
    SelectCount(all, Pain, s);
    SelectCount(all, NotPain, s);
  }

  /** One step over the fragments of a text: the next stripped fragment is kept when
      it is non-empty and belongs to the bucket. */
  lemma CleanedStep(fragments: seq<string>, j: nat, b: Bucket)
    requires j < |fragments|
    ensures var clean := Strip(fragments[j]);
      Select(Cleaned(fragments[..j + 1]), b) ==
      Select(Cleaned(fragments[..j]), b) + (if clean != "" && Belongs(clean, b) then [clean] else [])
  {
    var clean := Strip(fragments[j]);
    var f := fragments[..j + 1];
    assert f[..j] == fragments[..j];
    assert f[|f| - 1] == fragments[j];
    var c := Cleaned(fragments[..j]);
    assert Cleaned(f) == c + (if clean == "" then [] else [clean]);
    if clean != "" {
      var y := c + [clean];
      assert y[..|y| - 1] == c;
      assert y[|y| - 1] == clean;
    } else {
      assert Cleaned(f) == c;
    }
  }

  /** One step over a list of texts: the sentences of one more text are appended. */
  lemma AllSentencesStep(texts: seq<string>, i: nat, b: Bucket)
    requires i < |texts|
    ensures Select(AllSentences(texts[..i + 1]), b) ==
      Select(AllSentences(texts[..i]), b) + Select(Sentences(texts[i]), b)
  {
    assert texts[..i + 1][..i] == texts[..i];
    SelectAppend(AllSentences(texts[..i]), Sentences(texts[i]), b);
  }

  /** The inner loop of both filters, over the fragments of one text:
      `for s in re.split(r"[.!?]", text): s_clean = s.strip(); if s_clean and <test>: append`. */
  method KeepSentences(text: string, b: Bucket) returns (kept: seq<string>)
    requires b != Praise
    ensures kept == Select(Sentences(text), b)
  {
    kept := [];
    var sentences := Split(text);
    for j := 0 to |sentences|
      invariant kept == Select(Cleaned(sentences[..j]), b)
    {
      var sClean := Strip(sentences[j]);
      CleanedStep(sentences, j, b);
      var test := if b == Pain then HasNegative(sClean) else !HasNegative(sClean);
      assert test == Belongs(sClean, b);
      if sClean != "" && test {
        kept := kept + [sClean];
      }
    }
    assert sentences[..|sentences|] == sentences;
  }

  /** `filter_positive_sentences(feedback_list)`: the sentences without a negative keyword. */
  method FilterPositiveSentences(feedbackList: seq<string>) returns (positiveSentences: seq<string>)
    ensures positiveSentences == Select(AllSentences(feedbackList), NotPain)
  {
    positiveSentences := [];
    for i := 0 to |feedbackList|
      invariant positiveSentences == Select(AllSentences(feedbackList[..i]), NotPain)
    {
      var kept := KeepSentences(feedbackList[i], NotPain);
      positiveSentences := positiveSentences + kept;
      AllSentencesStep(feedbackList, i, NotPain);
    }
    assert feedbackList[..|feedbackList|] == feedbackList;
  }

  /** `filter_negative_sentences(feedback_list)`: the sentences with a negative keyword. */
  method FilterNegativeSentences(feedbackList: seq<string>) returns (negativeSentences: seq<string>)
    ensures negativeSentences == Select(AllSentences(feedbackList), Pain)
  {
    negativeSentences := [];
    for i := 0 to |feedbackList|
      invariant negativeSentences == Select(AllSentences(feedbackList[..i]), Pain)
    {
      var kept := KeepSentences(feedbackList[i], Pain);
      negativeSentences := negativeSentences + kept;
      AllSentencesStep(feedbackList, i, Pain);
    }
    assert feedbackList[..|feedbackList|] == feedbackList;
  }

  // ---------------------------------------------------------------------------
  // Backends and the summarisers (llm_models.py:84-122)
  // ---------------------------------------------------------------------------

  /** What one call of a pipeline does: raise, or produce a text. */
  datatype Reply = Raised | Output(text: string)

  /** A pipeline: `None` when loading failed, otherwise a deterministic function
      from the text it is given to its reply. */
  datatype Backend = Absent | Loaded(call: string -> Reply)

  const PraiseSentinel: string := "No major praises detected."
  const PainSentinel: string := "No major pain points detected."

  /** The text a backend produces for `input`, if it is loaded and does not raise. */
  function Answer(backend: Backend, input: string): Reply {
    match backend
    case Absent => Raised
    case Loaded(call) => call(input)
  }

  /** What a summariser returns for the sentences it selected: the sentinel when there
      are none (the backend is not consulted), otherwise the stripped summary, or the
      space-joined sentences when the backend is absent or raises. */
  function Summarized(sentences: seq<string>, sentinel: string, summarizer: Backend): string {
    if sentences == [] then sentinel
    else
      var joined := JoinSpace(sentences);
      match Answer(summarizer, joined)
      case Raised => joined
      case Output(summary) => Strip(summary)
  }

  /** Without a usable summary, a summariser gives its sentinel exactly when it found no
      sentence: the joined sentences hold no `.`, and each sentinel ends with one. */
  lemma SummarizedSentinel(sentences: seq<string>, sentinel: string, summarizer: Backend)
    requires forall k :: 0 <= k < |sentences| ==> IsSentence(sentences[k])
    requires !NoTerminator(sentinel)
    requires sentences != [] ==> Answer(summarizer, JoinSpace(sentences)).Raised?
    ensures Summarized(sentences, sentinel, summarizer) == sentinel <==> sentences == []
    ensures sentences != [] ==> Summarized(sentences, sentinel, summarizer) == JoinSpace(sentences)
  {
    if sentences != [] {
      JoinSpaceNoTerminator(sentences);
    }
  }

  /** `summarize_praises(feedback_list)`. */
  method SummarizePraises(feedbackList: seq<string>, summarizer: Backend) returns (summary: string)
    ensures var sentences := Select(AllSentences(feedbackList), NotPain);
      summary == Summarized(sentences, PraiseSentinel, summarizer) &&
      (sentences == [] ==> summary == PraiseSentinel) &&
      (sentences != [] && !Answer(summarizer, JoinSpace(sentences)).Output? ==>
         summary == JoinSpace(sentences) && summary != PraiseSentinel)
  {
    var positiveSentences := FilterPositiveSentences(feedbackList);
    if positiveSentences == [] {
      return PraiseSentinel;
    }
    var textToSummarize := JoinSpace(positiveSentences);
    match summarizer {
      case Absent =>
        summary := textToSummarize;
      case Loaded(call) =>
        match call(textToSummarize) {
          case Raised => summary := textToSummarize;
          case Output(summaryText) => summary := Strip(summaryText);
        }
    }
    if !Answer(summarizer, textToSummarize).Output? {
      assert PraiseSentinel[25] == '.' && PraiseSentinel[25] in PraiseSentinel;
      AllSentencesAreSentences(feedbackList);
      SelectKeeps(AllSentences(feedbackList), NotPain);
      SummarizedSentinel(positiveSentences, PraiseSentinel, summarizer);
    }
  }

  /** `summarize_pain_points(feedback_list)`. */
  method SummarizePainPoints(feedbackList: seq<string>, summarizer: Backend) returns (summary: string)
    ensures var sentences := Select(AllSentences(feedbackList), Pain);
      summary == Summarized(sentences, PainSentinel, summarizer) &&
      (sentences == [] ==> summary == PainSentinel) &&
      (sentences != [] && !Answer(summarizer, JoinSpace(sentences)).Output? ==>
         summary == JoinSpace(sentences) && summary != PainSentinel)
  {
    var negativeSentences := FilterNegativeSentences(feedbackList);
    if negativeSentences == [] {
      return PainSentinel;
    }
    var textToSummarize := JoinSpace(negativeSentences);
    match summarizer {
      case Absent =>
        summary := textToSummarize;
      case Loaded(call) =>
        match call(textToSummarize) {
          case Raised => summary := textToSummarize;
          case Output(summaryText) => summary := Strip(summaryText);
        }
    }
    if !Answer(summarizer, textToSummarize).Output? {
      assert PainSentinel[29] == '.' && PainSentinel[29] in PainSentinel;
      AllSentencesAreSentences(feedbackList);
      SelectKeeps(AllSentences(feedbackList), Pain);
      SummarizedSentinel(negativeSentences, PainSentinel, summarizer);
    }
  }

  // ---------------------------------------------------------------------------
  // Recommendation (llm_models.py:125-167)
  // ---------------------------------------------------------------------------

  const NoFeedbackMessage: string := "No feedback available to generate recommendations."
  const AllPositiveMessage: string :=
    "All feedback is positive; the team should maintain their current approach."
  const GenerationFailedMessage: string := "Recommendation generation failed."
  const GeneratorErrorMessage: string :=
    "The team should prioritize fixing technical issues and improving performance."
  const SafeFallbackMessage: string :=
    "The team should enhance stability, performance, and affordability to improve user trust and satisfaction."

  /** The fixed strings the recommendation step can return instead of generated text. */
  predicate IsFixedMessage(m: string) {
    m == NoFeedbackMessage || m == AllPositiveMessage || m == GenerationFailedMessage ||
    m == GeneratorErrorMessage || m == SafeFallbackMessage
  }

  /** The safety filter's word list; matched case-insensitively as substrings. */
  const BannedWords: seq<string> := ["I ", "me ", "my ", "the app", "the service", "the design"]

  /** `any(word.lower() in recommendation.lower() for word in banned_words)` */
  predicate Echoes(recommendation: string) {
    exists word :: word in BannedWords && Contains(Lower(recommendation), Lower(word))
  }

  /** `all("Positive" in c for c in classifications)`: a substring test on the whole
      "name: label" string, so a name holding "Positive" counts too. */
  predicate AllMentionPositive(classifications: seq<string>) {
    forall k :: 0 <= k < |classifications| ==> Contains(classifications[k], "Positive")
  }

  /** The fixed text of the prompt before the feedback corpus. */
  const PromptHead: string :=
    "You are a senior consultant advising a PRODUCT and SERVICE team.\n"
    + "Analyze the following customer feedback and provide ONE ACTIONABLE RECOMMENDATION.\n\n"
    + "Rules:\n"
    + "- Write directly to the team (e.g., 'The team should ...').\n"
    + "- Do NOT repeat or paraphrase customer sentences.\n"
    + "- Focus on the BIGGEST improvement opportunity.\n"
    + "- Keep it short (1\U{2013}2 sentences).\n\n"
    + "Customer Feedback:\n"
  /** The fixed text of the prompt after the feedback corpus. */
  const PromptTail: string := "\n\nFinal Recommendation for the team:"

  /** The instruction handed to the generator, with the feedback corpus embedded. */
  function Prompt(allText: string): string {
    PromptHead + allText + PromptTail
  }

  /** `generate_recommendation(all_text, classifications)`, its checks in the source's
      order: no labels, all labels mentioning "Positive", no generator, a raising
      generator, and finally the banned-word filter on the stripped output. Whatever
      it returns is either one of the fixed messages or generated text that passed
      the filter. */
  function GenerateRecommendation(allText: string, classifications: seq<string>, generator: Backend): (r: string)
    ensures classifications == [] ==> r == NoFeedbackMessage
    ensures classifications != [] && AllMentionPositive(classifications) ==> r == AllPositiveMessage
    ensures IsFixedMessage(r) || !Echoes(r)
    ensures !IsFixedMessage(r) ==>
      Answer(generator, Prompt(allText)).Output? && r == Strip(Answer(generator, Prompt(allText)).text)
    ensures classifications != [] && !AllMentionPositive(classifications) ==>
      var reply := Answer(generator, Prompt(allText));
      r == (if generator.Absent? then GenerationFailedMessage
            else if reply.Raised? then GeneratorErrorMessage
            else if Echoes(Strip(reply.text)) then SafeFallbackMessage
            else Strip(reply.text))
  {
    if classifications == [] then NoFeedbackMessage
    else if AllMentionPositive(classifications) then AllPositiveMessage
    else
      match generator
      case Absent => GenerationFailedMessage
      case Loaded(call) =>
        match call(Prompt(allText))
        case Raised => GeneratorErrorMessage
        case Output(text) =>
          var recommendation := Strip(text);
          if Echoes(recommendation) then SafeFallbackMessage else recommendation
  }

  /** The "Positive" test reads the whole "name: label" string: one entry from someone
      whose name holds "Positive" yields the all-positive message whatever its label,
      and the generator is never consulted. */
  lemma PositiveTestIncludesNames(allText: string, name: string, verdict: Sentiment, generator: Backend)
    requires Contains(name, "Positive")
    ensures GenerateRecommendation(allText, [name + ": " + verdict.Label()], generator) == AllPositiveMessage
  {
    var line := name + ": " + verdict.Label();
    assert AllMentionPositive([line]) by {
      ContainsExtended(name, ": " + verdict.Label(), "Positive");
      assert line == name + (": " + verdict.Label());
    }
  }
}
