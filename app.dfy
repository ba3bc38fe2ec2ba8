/** The web layer's own logic around the analysis helpers: the per-row
    classification lines, the analysis run behind the "/analyze" page and the
    "/api/analyze" endpoint, and the validation of a submitted feedback form.
    The database is a parameter: a list of rows in the order the query returns them. */
module App {
  import opened Strings
  import opened LlmModels

  /** One stored feedback row: who wrote it, what they wrote, how many stars. */
  datatype Feedback = Feedback(name: string, text: string, rating: int)

  /** What an analysis run hands to the page or returns as JSON. */
  datatype Analysis = Analysis(
    classifications: seq<string>,
    painSummary: string,
    praiseSummary: string,
    recommendation: string)

  // ---------------------------------------------------------------------------
  // Classification lines and the feedback corpus
  // ---------------------------------------------------------------------------

  /** `f"{name}: {classification}"` for one row. */
  function ClassificationLine(fb: Feedback): string {
    fb.name + ": " + ClassifySentiment(fb.text, fb.rating).Label()
  }

  /** The classification line of every row, in row order. */
  function Lines(fbs: seq<Feedback>): (r: seq<string>)
    ensures |r| == |fbs|
  {
    seq(|fbs|, k requires 0 <= k < |fbs| => ClassificationLine(fbs[k]))
  }

  /** The texts of the rows, in row order. */
  function Texts(fbs: seq<Feedback>): (r: seq<string>)
    ensures |r| == |fbs|
  {
    seq(|fbs|, k requires 0 <= k < |fbs| => fbs[k].text)
  }

  /** `f"{name}: {text} (Rating: {rating})\n"`: one row's entry in the corpus. */
  function Entry(fb: Feedback): string {
    fb.name + ": " + fb.text + " (Rating: " + Show(fb.rating) + ")\n"
  }

  /** The corpus entry of every row, in row order. */
  function Entries(fbs: seq<Feedback>): (r: seq<string>)
    ensures |r| == |fbs|
  {
    seq(|fbs|, k requires 0 <= k < |fbs| => Entry(fbs[k]))
  }

  /** `all_text`: the entries of all rows, one after the other. */
  function Corpus(fbs: seq<Feedback>): string {
    Concat(Entries(fbs))
  }

  /** Every row's entry appears in the corpus handed to the generator. */
  lemma CorpusHoldsEntries(fbs: seq<Feedback>, k: nat)
    requires k < |fbs|
    ensures Contains(Corpus(fbs), Entry(fbs[k]))
  {
    ConcatHolds(Entries(fbs), k);
  }

  /** A row labelled Positive yields a line that mentions "Positive", whatever its name. */
  lemma PositiveLineMentionsPositive(fb: Feedback)
    requires ClassifySentiment(fb.text, fb.rating) == Positive
    ensures Contains(ClassificationLine(fb), "Positive")
  {
    ContainsSuffix(fb.name + ": ", "Positive");
  }

  /** When every row is labelled Positive, every classification line mentions "Positive". */
  lemma AllPositiveLines(fbs: seq<Feedback>)
    requires forall k :: 0 <= k < |fbs| ==> ClassifySentiment(fbs[k].text, fbs[k].rating) == Positive
    ensures AllMentionPositive(Lines(fbs))
  {
    forall k | 0 <= k < |fbs|
      ensures Contains(Lines(fbs)[k], "Positive")
    {
      PositiveLineMentionsPositive(fbs[k]);
    }
  }

  /** When every row is labelled Positive, the recommendation is the fixed
      all-positive message and the generator is not consulted. */
  lemma AllPositiveRecommendation(fbs: seq<Feedback>, generator: Backend)
    requires fbs != []
    requires forall k :: 0 <= k < |fbs| ==> ClassifySentiment(fbs[k].text, fbs[k].rating) == Positive
    ensures GenerateRecommendation(Corpus(fbs), Lines(fbs), generator) == AllPositiveMessage
  {
    AllPositiveLines(fbs);
  }

  /** One more row adds its line at the end of the classification lines. */
  lemma LinesStep(fbs: seq<Feedback>, i: nat)
    requires i < |fbs|
    ensures Lines(fbs[..i + 1]) == Lines(fbs[..i]) + [ClassificationLine(fbs[i])]
  {
  }

  /** One more row adds its entry at the end of the corpus. */
  lemma CorpusStep(fbs: seq<Feedback>, i: nat)
    requires i < |fbs|
    ensures Corpus(fbs[..i + 1]) == Corpus(fbs[..i]) + Entry(fbs[i])
  {
    var e := Entry(fbs[i]);
    assert Entries(fbs[..i + 1]) == Entries(fbs[..i]) + [e];
    ConcatAppend(Entries(fbs[..i]), [e]);
    assert [e][1..] == [];
  }

  /** `get_default_classifications(feedbacks)`: one "name: label" line per row, in order. */
  method GetDefaultClassifications(feedbacks: seq<Feedback>) returns (classifications: seq<string>)
    ensures classifications == Lines(feedbacks)
  {
    classifications := [];
    for i := 0 to |feedbacks|
      invariant classifications == Lines(feedbacks)[..i]
    {
      var sentiment := ClassifySentiment(feedbacks[i].text, feedbacks[i].rating);
      classifications := classifications + [feedbacks[i].name + ": " + sentiment.Label()];
    }
  }

  // ---------------------------------------------------------------------------
  // analyze_feedback: the "/analyze" page
  // ---------------------------------------------------------------------------

  /** The inner loop of `analyze_feedback` over the fragments of one text: a stripped,
      non-empty fragment goes to the pains when it names a negative keyword, otherwise
      to the praises when it names a positive one, otherwise nowhere. */
  method RouteSentences(text: string) returns (pains: seq<string>, praises: seq<string>)
    ensures pains == Select(Sentences(text), Pain)
    ensures praises == Select(Sentences(text), Praise)
  {
    pains, praises := [], [];
    var sentences := Split(text);
    for j := 0 to |sentences|
      invariant pains == Select(Cleaned(sentences[..j]), Pain)
      invariant praises == Select(Cleaned(sentences[..j]), Praise)
    {
      var sClean := Strip(sentences[j]);
      CleanedStep(sentences, j, Pain);
      CleanedStep(sentences, j, Praise);
      if sClean != "" {
        if HasNegative(sClean) {
          pains := pains + [sClean];
        } else if HasPositive(sClean) {
          praises := praises + [sClean];
        }
      }
    }
    assert sentences[..|sentences|] == sentences;
  }

  /** The pains of all rows: their sentences that name a negative keyword. */
  function Pains(fbs: seq<Feedback>): seq<string> {
    Select(AllSentences(Texts(fbs)), Pain)
  }

  /** The praises of all rows: their sentences that name no negative keyword but a
      positive one. */
  function Praises(fbs: seq<Feedback>): seq<string> {
    Select(AllSentences(Texts(fbs)), Praise)
  }

  /** One more row appends the selection of its own sentences to the selection
      over the rows before it. */
  lemma TextsStep(fbs: seq<Feedback>, i: nat, b: Bucket)
    requires i < |fbs|
    ensures Select(AllSentences(Texts(fbs[..i + 1])), b) ==
      Select(AllSentences(Texts(fbs[..i])), b) + Select(Sentences(fbs[i].text), b)
  {
    var texts := Texts(fbs[..i + 1]);
    assert texts[..i] == Texts(fbs[..i]);
    assert texts[i] == fbs[i].text;
    assert texts[..i + 1] == texts;
    AllSentencesStep(texts, i, b);
  }

  /** The loop of `analyze_feedback`: classification lines, the corpus, and the
      sentences routed to pains and praises, row after row. */
  method ScanFeedback(feedbacks: seq<Feedback>)
    returns (classifications: seq<string>, allText: string, painsList: seq<string>, praisesList: seq<string>)
    ensures classifications == Lines(feedbacks)
    ensures allText == Corpus(feedbacks)
    ensures painsList == Pains(feedbacks)
    ensures praisesList == Praises(feedbacks)
  {
    allText := "";
    painsList, praisesList := [], [];
    classifications := [];
    for i := 0 to |feedbacks|
      invariant classifications == Lines(feedbacks[..i])
      invariant allText == Corpus(feedbacks[..i])
      invariant painsList == Pains(feedbacks[..i])
      invariant praisesList == Praises(feedbacks[..i])
    {
      var fb := feedbacks[i];
      classifications := classifications + [ClassificationLine(fb)];
      allText := allText + Entry(fb);
      var pains, praises := RouteSentences(fb.text);
      LinesStep(feedbacks, i);
      CorpusStep(feedbacks, i);
      TextsStep(feedbacks, i, Pain);
      TextsStep(feedbacks, i, Praise);
      painsList := painsList + pains;
      praisesList := praisesList + praises;
    }
    assert feedbacks[..|feedbacks|] == feedbacks;
  }

  /** A list of sentences that all belong to a bucket passes through a filter whole. */
  lemma Refiltered(ss: seq<string>, from: Bucket, b: Bucket)
    requires forall k :: 0 <= k < |ss| ==> IsSentence(ss[k]) && Belongs(ss[k], from)
    requires from == b || (from == Praise && b == NotPain)
    ensures Select(AllSentences(ss), b) == ss
  {
    AllSentencesOfSentences(ss);
    SelectEvery(ss, b);
  }

  /** `analyze_feedback()`: the lists the loop builds are handed to the summarisers,
      which split and filter them again; that second pass keeps every sentence, so the
      summaries are those of the routed pains and praises. */
  method AnalyzeFeedback(feedbacks: seq<Feedback>, summarizer: Backend, generator: Backend)
    returns (result: Analysis)
    ensures result.classifications == Lines(feedbacks)
    ensures result.painSummary == Summarized(Pains(feedbacks), PainSentinel, summarizer)
    ensures result.praiseSummary == Summarized(Praises(feedbacks), PraiseSentinel, summarizer)
    ensures result.recommendation == GenerateRecommendation(Corpus(feedbacks), Lines(feedbacks), generator)
  {
    var classifications, allText, painsList, praisesList := ScanFeedback(feedbacks);
    var all := AllSentences(Texts(feedbacks));
    AllSentencesAreSentences(Texts(feedbacks));
    SelectKeeps(all, Pain);
    SelectKeeps(all, Praise);
    Refiltered(painsList, Pain, Pain);
    Refiltered(praisesList, Praise, NotPain);
    var painSummary := SummarizePainPoints(painsList, summarizer);
    var praiseSummary := SummarizePraises(praisesList, summarizer);
    var recommendation := GenerateRecommendation(allText, classifications, generator);
    result := Analysis(classifications, painSummary, praiseSummary, recommendation);
  }

  /** Each sentence lands in the pains or the praises at most once per occurrence, never
      in both, and in neither when it names no keyword at all. */
  lemma RoutingPartition(fbs: seq<Feedback>, s: string)
    ensures multiset(Pains(fbs))[s] + multiset(Praises(fbs))[s] ==
      if HasNegative(s) || HasPositive(s) then multiset(AllSentences(Texts(fbs)))[s] else 0
    ensures !(s in Pains(fbs) && s in Praises(fbs))
  {
    var all := AllSentences(Texts(fbs));
    SelectCount(all, Pain, s);
    SelectCount(all, Praise, s);
  }

  /** The page's praises are a sub-multiset of what `filter_positive_sentences` keeps:
      a sentence with neither kind of keyword is a praise for the summariser but not
      for the page. */
  lemma PraisesWithinPositive(fbs: seq<Feedback>)
    ensures multiset(Praises(fbs)) <= multiset(Select(AllSentences(Texts(fbs)), NotPain))
  {
    var all := AllSentences(Texts(fbs));
    forall s ensures multiset(Praises(fbs))[s] <= multiset(Select(all, NotPain))[s] {
      SelectCount(all, Praise, s);
      SelectCount(all, NotPain, s);
    }
  }

  // ---------------------------------------------------------------------------
  // Analyze.post: the "/api/analyze" endpoint
  // ---------------------------------------------------------------------------

  /** The rows whose label is `verdict`, in row order
      (`[f for f in feedbacks if classify_sentiment(...) == verdict]`). */
  function Labelled(fbs: seq<Feedback>, verdict: Sentiment): (r: seq<Feedback>)
    ensures |r| <= |fbs|
  {
    if fbs == [] then []
    else
      var last := fbs[|fbs| - 1];
      Labelled(fbs[..|fbs| - 1], verdict) +
        (if ClassifySentiment(last.text, last.rating) == verdict then [last] else [])
  }

  /** A row is among the rows with a label exactly when it is a row and has that label. */
  lemma {:induction false} LabelledMembers(fbs: seq<Feedback>, verdict: Sentiment, fb: Feedback)
    ensures fb in Labelled(fbs, verdict) <==> fb in fbs && ClassifySentiment(fb.text, fb.rating) == verdict
  {
    if fbs != [] {
      var init := fbs[..|fbs| - 1];
      LabelledMembers(init, verdict, fb);
      assert fbs[|fbs| - 1..] == [fbs[|fbs| - 1]];
      assert fbs == init + fbs[|fbs| - 1..];
    }
  }

  /** Every row carries exactly one of the four labels, so the four selections share out
      the rows: Mixed and Neutral rows feed neither summary of the endpoint. */
  lemma {:induction false} LabelledShare(fbs: seq<Feedback>)
    ensures |Labelled(fbs, Negative)| + |Labelled(fbs, Positive)| +
      |Labelled(fbs, Neutral)| + |Labelled(fbs, Mixed)| == |fbs|
  {
    if fbs != [] {
      LabelledShare(fbs[..|fbs| - 1]);
    }
  }

  /** The texts handed to `summarize_pain_points` by the endpoint: those of rows with one
      or two stars. */
  lemma NegativeRowsAreLowRated(fbs: seq<Feedback>, fb: Feedback)
    requires fb in Labelled(fbs, Negative)
    ensures fb in fbs && (fb.rating == 1 || fb.rating == 2)
  {
    LabelledMembers(fbs, Negative, fb);
  }

  /** `Analyze.post()`: classification lines and the corpus from one loop, then the
      summaries of the texts of the Negative rows and of the Positive rows, and the
      recommendation. */
  method AnalyzeEndpoint(feedbacks: seq<Feedback>, summarizer: Backend, generator: Backend)
    returns (result: Analysis)
    ensures result.classifications == Lines(feedbacks)
    ensures result.painSummary ==
      Summarized(Select(AllSentences(Texts(Labelled(feedbacks, Negative))), Pain), PainSentinel, summarizer)
    ensures result.praiseSummary ==
      Summarized(Select(AllSentences(Texts(Labelled(feedbacks, Positive))), NotPain), PraiseSentinel, summarizer)
    ensures result.recommendation == GenerateRecommendation(Corpus(feedbacks), Lines(feedbacks), generator)
  {
    var classifications, allText := [], "";
    for i := 0 to |feedbacks|
      invariant classifications == Lines(feedbacks[..i])
      invariant allText == Corpus(feedbacks[..i])
    {
      var fb := feedbacks[i];
      LinesStep(feedbacks, i);
      classifications := classifications + [ClassificationLine(fb)];
      CorpusStep(feedbacks, i);
      allText := allText + Entry(fb);
    }
    assert feedbacks[..|feedbacks|] == feedbacks;
    var painSummary := SummarizePainPoints(Texts(Labelled(feedbacks, Negative)), summarizer);
    var praiseSummary := SummarizePraises(Texts(Labelled(feedbacks, Positive)), summarizer);
    var recommendation := GenerateRecommendation(allText, classifications, generator);
    result := Analysis(classifications, painSummary, praiseSummary, recommendation);
  }

  // ---------------------------------------------------------------------------
  // index: validation of a submitted form
  // ---------------------------------------------------------------------------

  datatype Option<T> = None | Some(value: T)

  /** The outcome of a submission: a row to insert, the error shown on the page, or
      an unhandled exception (the request fails and nothing is inserted). */
  datatype Verdict = Accepted(row: Feedback) | Rejected(message: string) | Crashed

  const FieldsRequiredMessage: string := "\U{26A0}\U{FE0F} All fields are required"
  const RatingRangeMessage: string := "\U{26A0}\U{FE0F} Rating must be between 1 and 5"

  /** CPython's default bound on the number of digits `int()` converts from a decimal
      string; a longer digit string makes `int()` raise ValueError. */
  const MaxStrDigits: nat := 4300

  /** The first check of the form: stripped name and text non-empty, and a rating
      field that is present, non-empty and all digits. */
  predicate FieldsPresent(name: string, text: string, rating: Option<string>) {
    Strip(name) != "" && Strip(text) != "" && rating.Some? && IsDigits(rating.value)
  }

  /** The validation of a POST to "/" that carries a name: the row to insert, the
      error message, or the exception `int()` raises on an over-long rating. */
  function ValidateSubmission(name: string, text: string, rating: Option<string>): (v: Verdict)
    ensures v.Crashed? <==> FieldsPresent(name, text, rating) && |rating.value| > MaxStrDigits
    ensures v.Accepted? <==>
      FieldsPresent(name, text, rating) && |rating.value| <= MaxStrDigits &&
      1 <= ParseDigits(rating.value) <= 5
    ensures v.Accepted? ==>
      v.row.name == Strip(name) && v.row.text == Strip(text) && v.row.rating == ParseDigits(rating.value)
    ensures v.Rejected? ==>
      v.message == if FieldsPresent(name, text, rating) then RatingRangeMessage else FieldsRequiredMessage
  {
    if !FieldsPresent(name, text, rating) then Rejected(FieldsRequiredMessage)
    else if |rating.value| > MaxStrDigits then Crashed
    else
      var r := ParseDigits(rating.value);
      if r < 1 || r > 5 then Rejected(RatingRangeMessage)
      else Accepted(Feedback(Strip(name), Strip(text), r))
  }

  /** An accepted row meets the table's constraints: a non-empty name and text with no
      white space at either end, and a rating from 1 to 5; its label is therefore the
      rating rule refined by the keyword override. */
  lemma AcceptedRowIsValid(name: string, text: string, rating: Option<string>)
    requires ValidateSubmission(name, text, rating).Accepted?
    ensures var row := ValidateSubmission(name, text, rating).row;
      row.name != "" && IsStripped(row.name) && row.text != "" && IsStripped(row.text) &&
      1 <= row.rating <= 5 &&
      ClassifySentiment(row.text, row.rating) == KeywordOverride(row.text, RatingRule(row.rating))
  {
  }

  /** Resubmitting a stored row, with its rating written out in decimal, accepts
      that very row. */
  lemma ResubmitRow(fb: Feedback)
    requires fb.name != "" && IsStripped(fb.name) && fb.text != "" && IsStripped(fb.text)
    requires 1 <= fb.rating <= 5
    ensures ValidateSubmission(fb.name, fb.text, Some(Show(fb.rating))) == Accepted(fb)
  {
    var digits := Show(fb.rating);
    assert FieldsPresent(fb.name, fb.text, Some(digits)) && |digits| <= MaxStrDigits &&
      ParseDigits(digits) == fb.rating && Strip(fb.name) == fb.name && Strip(fb.text) == fb.text
    by {
      ParseShow(fb.rating);
      StripOfStripped(fb.name);
      StripOfStripped(fb.text);
      assert digits == [DigitChar(fb.rating)];
    }
  }
}
