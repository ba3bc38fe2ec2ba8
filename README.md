# Customer feedback analyser — a Dafny model

The application is a small web service. It stores customer feedback as rows with a
name, a text and a star rating, and it analyses them. Each row gets a sentiment
label: Positive, Neutral, Negative or Mixed. The label comes from the rating and from
a list of negative keywords. Each text is split into sentences at `.`, `!` and `?`,
and keyword filters choose which sentences are pain points and which are praises.
A summarisation model condenses each list. A text-generation model, guarded by a
word filter, writes one recommendation for the product team.

The model has three modules:

- `Strings` (`strings.dfy`) models the Python string built-ins the analyser uses:
  `strip`, `lower`, substring containment, `re.split` on `[.!?]`, `" ".join`,
  `str(int)`, `isdigit` and `int`. They work on ASCII. It proves what each one keeps
  and drops: `strip` removes only white space and is idempotent, the split pieces
  rejoined with the terminators give back the text, and `int(str(n)) == n`.
- `LlmModels` (`llm_models.dfy`) models the keyword lists, `classify_sentiment`, the
  two sentence filters (loops proved against a selection function), the two
  summarisers and `generate_recommendation`. The summariser and the generator are a
  `Backend`: either `Absent` (the model failed to load) or a deterministic function
  from the input text to a `Reply` (`Raised`, or an output text). The source loads
  the summariser and the generator in one `try` block (llm_models.py:13-29), so both
  are loaded or both are `None`; the model takes them as two independent `Backend`s,
  which covers that case and also the mixed ones.
- `App` (`app.dfy`) models the web layer's logic over a list of rows:
  - `get_default_classifications`;
  - the loop of the `/analyze` page, which routes each sentence to pains or praises;
  - the `/api/analyze` endpoint, which instead summarises the texts of the
    Negative rows and of the Positive rows;
  - the validation of a submitted form.

Two behaviours of the code are worth knowing before reading the contracts:

- Ratings outside 1..5 are classified Positive, and Mixed needs a rating of exactly
  4 or 5. Only ratings that the form and the table reject reach the first case.
- The recommendation step removes no customer names and does not check the output
  for verbatim repetition of the feedback. Its only guard is the banned-word filter,
  and the model has the same guard.

## Model

| member | source | states |
|---|---|---|
| Strings.Strip | llm_models.py:68 | `s.strip()` yields a string with no white space at either end |
| Strings.StripRemovesOnlySpace | llm_models.py:68 | the stripped result is a contiguous piece of the input and everything outside it is white space |
| Strings.TrimmedBothEnds | llm_models.py:68 | trimming white space from the front and then from the back leaves the piece of the input that only white space surrounds |
| Strings.StripOfStripped | app.py:78-79 | stripping an already stripped string changes nothing |
| Strings.StripIdempotent | llm_models.py:68 | stripping twice is stripping once |
| Strings.Lower | llm_models.py:48 | `lower()` keeps the length |
| Strings.Contains | llm_models.py:49 | Python's `sub in s`: `sub` occurs as a contiguous piece of `s`, so it is never longer than `s`; ContainsAt and ContainsWitness tie it to an occurrence at a position |
| Strings.ContainsAt | llm_models.py:49 | an occurrence at a known position makes `kw in s` true |
| Strings.ContainsWitness | llm_models.py:49 | `kw in s` true means an occurrence exists at some position |
| Strings.ContainsMiddle | app.py:150 | a string contains each piece it is concatenated from |
| Strings.ContainsSuffix | llm_models.py:132 | a string contains each of its suffixes |
| Strings.ContainsExtended | llm_models.py:132 | whatever a string contains, it still contains with more text appended |
| Strings.ConcatAppend | app.py:150 | concatenating the strings of two lists joined is concatenating each list's strings, in order |
| Strings.ConcatHolds | app.py:150 | the concatenation of a list of strings contains each of them |
| Strings.Split | llm_models.py:66 | `re.split(r'[.!?]', s)` has one piece more than `s` has terminators; SplitRejoin fixes where the cuts fall |
| Strings.Terms | llm_models.py:66 | the separators `re.split` drops, in order: one per terminator of `s`, each a terminator |
| Strings.SplitRejoin | llm_models.py:66 | `s` is cut exactly at its terminators: the pieces rejoined with the terminators, in order, give `s` back |
| Strings.SplitPieces | llm_models.py:66 | no piece holds a terminator, and the pieces concatenated give `s` with its terminators erased |
| Strings.SplitNoTerminator | llm_models.py:66 | a string without terminators splits into itself alone |
| Strings.EraseNoTerminator | llm_models.py:66 | erasing terminators from a string with none changes nothing |
| Strings.JoinSpace | llm_models.py:89 | `" ".join(ss)`: the pieces in order with one space between neighbours; JoinSpaceNoTerminator is its property |
| Strings.JoinSpaceNoTerminator | llm_models.py:89 | `" ".join` of pieces without terminators holds no terminator |
| Strings.IsDigits | app.py:82 | `s.isdigit()`: non-empty and made only of decimal digits |
| Strings.Show | app.py:150 | `str(n)`: a minus sign for negative numbers, then the decimal digits without leading zeros; ParseShow is its inverse |
| Strings.ParseDigits | app.py:96 | `int(s)` of a digit string, leading zeros allowed, for any length (the digit bound is applied by App.ValidateSubmission); ParseShow shows it undoes Show |
| Strings.ParseShow | app.py:82-96 | `str(n)` of a natural number passes `isdigit()` and `int(str(n)) == n` |
| LlmModels.NegativeKeywords | llm_models.py:31-35 | the thirteen negative keywords, in order, with the U+2019 apostrophe in "doesn’t" |
| LlmModels.PositiveKeywords | llm_models.py:37-40 | the eight positive keywords, in order |
| LlmModels.HasNegative | llm_models.py:49 | some negative keyword occurs in the lower-cased text (also app.py:158 and the filters at llm_models.py:69, 79) |
| LlmModels.HasPositive | app.py:160 | some positive keyword occurs in the lower-cased text |
| LlmModels.Sentiment.Label | llm_models.py:52-60 | the label strings "Negative", "Neutral", "Positive" and "Mixed" the classifier returns |
| LlmModels.ClassifySentiment | llm_models.py:44-60 | ratings 1..5 follow the rating rule with the Mixed override; 1-2 Negative, 3 Neutral, 4-5 Mixed exactly when a negative keyword occurs; any other rating Positive; Mixed iff rating 4 or 5 with a negative keyword |
| LlmModels.StripNoTerminator | llm_models.py:66-68 | stripping a terminator-free fragment leaves it terminator-free |
| LlmModels.Cleaned | llm_models.py:67-69 | no more cleaned fragments than fragments |
| LlmModels.CleanedAreSentences | llm_models.py:66-69 | every kept fragment is non-empty, stripped and terminator-free |
| LlmModels.Sentences | llm_models.py:66-69 | a text has at most one sentence more than it has terminators |
| LlmModels.AllSentencesAreSentences | llm_models.py:65-69 | every sentence extracted from a list of texts is non-empty, stripped and terminator-free |
| LlmModels.SentencesOfSentence | llm_models.py:66-69 | a text that is already one sentence yields exactly itself |
| LlmModels.AllSentencesOfSentences | llm_models.py:65-69 | a list of sentences yields itself again when split and cleaned |
| LlmModels.AllSentences | llm_models.py:65-69 | the split, strip and drop-empty pass over every text, text after text (also app.py:153-156); AllSentencesAreSentences and AllSentencesStep state its properties |
| LlmModels.Belongs | llm_models.py:69-79 | the keyword test of each bucket: a negative keyword (llm_models.py:79, app.py:158), none (llm_models.py:69), or none negative and some positive (app.py:158-160) |
| LlmModels.Select | llm_models.py:69-70 | a selection is no longer than its input |
| LlmModels.SelectAppend | llm_models.py:65-70 | selecting from a concatenation selects from each part in order |
| LlmModels.SelectCount | llm_models.py:69-80 | each sentence is selected as often as it occurs when it belongs to the bucket, otherwise never |
| LlmModels.SelectEvery | llm_models.py:69-80 | a list whose sentences all belong to the bucket is selected whole |
| LlmModels.SelectKeeps | llm_models.py:69-80 | everything selected belongs to the bucket, and stays a sentence |
| LlmModels.FiltersPartition | llm_models.py:63-81 | the two filters share out the sentences: counts add up to the whole and no sentence lands in both |
| LlmModels.CleanedStep | llm_models.py:67-70 | one more fragment adds its stripped form exactly when non-empty and in the bucket |
| LlmModels.AllSentencesStep | llm_models.py:65-70 | one more text appends the selection of its sentences |
| LlmModels.KeepSentences | llm_models.py:66-70 | the inner loop over one text keeps exactly the selection of its sentences for the filter's bucket |
| LlmModels.FilterPositiveSentences | llm_models.py:63-71 | returns exactly the sentences, in order, that name no negative keyword |
| LlmModels.FilterNegativeSentences | llm_models.py:73-81 | returns exactly the sentences, in order, that name a negative keyword |
| LlmModels.Summarized | llm_models.py:86-102 | what a summariser returns for its selected sentences: the sentinel when there are none, otherwise the stripped summary, or the space-joined sentences when the backend is absent or raises |
| LlmModels.SummarizedSentinel | llm_models.py:86-102 | without a usable summary the sentinel is returned exactly when no sentence was found, otherwise the joined sentences |
| LlmModels.SummarizePraises | llm_models.py:84-102 | the sentinel when no sentence qualifies; otherwise the stripped summary, or the joined sentences (never equal to the sentinel) when the summariser is absent or raises |
| LlmModels.SummarizePainPoints | llm_models.py:104-122 | the same, for the sentences with a negative keyword and the pain-point sentinel |
| LlmModels.AllMentionPositive | llm_models.py:132 | every classification string contains "Positive" as a substring, names included |
| LlmModels.Prompt | llm_models.py:135-145 | the fixed instruction text with the feedback corpus embedded between its head and its tail |
| LlmModels.BannedWords | llm_models.py:158 | the six banned words of the safety filter, trailing spaces included |
| LlmModels.Echoes | llm_models.py:158-159 | some banned word, lower-cased, occurs in the lower-cased recommendation |
| LlmModels.GenerateRecommendation | llm_models.py:125-167 | no labels give the no-feedback message; all labels mentioning "Positive" give the all-positive message; otherwise a missing generator gives the failure message, a raising one the technical-issues message, an output whose stripped text holds a banned word the safe fallback, and any other output its stripped text; so the result is a fixed message or generated text that passed the banned-word filter |
| LlmModels.PositiveTestIncludesNames | llm_models.py:132-133 | the "Positive" test reads the whole "name: label" line: one row by anyone whose name holds "Positive" gives the all-positive message whatever its label |
| App.ClassificationLine | app.py:148 | `f"{name}: {classification}"` for one row |
| App.Lines | app.py:59-64 | one classification line per row |
| App.Texts | app.py:146 | one text per row |
| App.Entry | app.py:150 | `f"{name}: {text} (Rating: {rating})\n"` for one row |
| App.Entries | app.py:150 | one corpus entry per row |
| App.Corpus | app.py:141-150 | `all_text`: the entries of all rows one after the other; CorpusHoldsEntries and CorpusStep are its properties |
| App.CorpusHoldsEntries | app.py:150 | every row's "name: text (Rating: n)" entry occurs in the text handed to the generator |
| App.PositiveLineMentionsPositive | app.py:148 | a Positive row's line mentions "Positive" whatever the name |
| App.AllPositiveLines | app.py:145-148 | when every row is Positive, every line mentions "Positive" |
| App.AllPositiveRecommendation | app.py:145-165 | when every row is Positive, the page's recommendation is the all-positive message |
| App.LinesStep | app.py:148 | one more row appends its classification line |
| App.CorpusStep | app.py:150 | one more row appends its corpus entry |
| App.GetDefaultClassifications | app.py:59-64 | returns the "name: label" line of every row, in row order |
| App.RouteSentences | app.py:153-161 | over one text, pains are exactly its sentences with a negative keyword, praises exactly those with none negative and some positive |
| App.Pains | app.py:153-159 | the sentences of all rows, in row order, that name a negative keyword |
| App.Praises | app.py:153-161 | the sentences of all rows, in row order, that name no negative keyword but a positive one |
| App.ScanFeedback | app.py:141-161 | the loop yields the lines, the corpus, and the pains and praises of all rows in row order |
| App.TextsStep | app.py:145-161 | one more row appends the selection of its own sentences to the selection over the rows before it |
| App.Refiltered | app.py:163-164 | the routed pains or praises pass the summarisers' own filters unchanged |
| App.AnalyzeFeedback | app.py:141-165 | the page's summaries are those of the routed pains and praises, and its recommendation is generated from the corpus and the lines |
| App.RoutingPartition | app.py:158-161 | a sentence goes to pains or praises as often as it occurs when it names a keyword, to neither otherwise, never to both |
| App.PraisesWithinPositive | app.py:160-161 | the page's praises are a sub-multiset of what the praise summariser's own filter keeps |
| App.Labelled | app.py:241-244 | a label's selection is no longer than the rows |
| App.LabelledMembers | app.py:241-244 | a row is selected for a label exactly when it is a row with that label |
| App.LabelledShare | app.py:240-245 | the four label selections share out the rows exactly; Mixed and Neutral rows feed neither summary |
| App.NegativeRowsAreLowRated | app.py:241 | the texts summarised as pain points come from rows with one or two stars |
| App.AnalyzeEndpoint | app.py:233-246 | the endpoint's lines and corpus come from one loop; its summaries are of the texts of the Negative and of the Positive rows |
| App.FieldsPresent | app.py:82 | the first check of the form: stripped name and text non-empty, and a rating field present and all digits |
| App.ValidateSubmission | app.py:77-97 | raises exactly when the fields are present but the rating has more than 4300 digits (`int()` fails); accepted exactly when stripped name and text are non-empty, the rating is all digits, at most 4300 of them, and it lies in 1..5; the missing-field message when a field is missing, the range message when only the range fails |
| App.AcceptedRowIsValid | app.py:77-97 | an accepted row meets the table's constraints and is classified by the rating rule with the keyword override |
| App.ResubmitRow | app.py:77-97 | a stored row resubmitted with its rating in decimal is accepted as that very row |

## Left out

- The database (`init_db`, `get_db`, the SQL queries and the insert). Rows are a parameter, in the order the query returns them.
- Rendering templates and the JSON response. The `FeedbackList` resource with its `reqparse` validation is also left out.
- Loading the Hugging Face pipelines, and the models themselves. The summariser and the generator are an opaque deterministic `Backend`. Only their returned text, or a raised exception, is modelled.
- The generation parameters (`max_length`, `min_length`, `do_sample`) are not modelled. Neither are the exact shapes of a pipeline's result (`result[0]["summary_text"]`); a malformed result counts as `Raised`.
- `sentiment_classifier` is loaded by the source but never called, so it is not modelled.
- Logging is not modelled.
- Strings.ParseDigits: parses a digit string of any length. CPython's `int()` raises ValueError beyond 4300 digits by default (a bound set by `sys.set_int_max_str_digits` or `PYTHONINTMAXSTRDIGITS`, absent before Python 3.11, 3.10.7, 3.9.14, 3.8.14 and 3.7.14); App.ValidateSubmission, its only caller on user input, models the default bound as the `Crashed` verdict, and a changed bound is not modelled.
- Strings.Lower, Strings.Strip and Strings.IsDigits: only ASCII case folding, ASCII white space and ASCII digits. Python also handles the rest of Unicode.
- LlmModels.GenerateRecommendation: not modelled is that the function never returns text with white space at either end. That holds for each fixed message, but the model does not prove it.
- App.ValidateSubmission: models only a POST that carries a `name` field. A missing `feedback_text` field raises in the source and is not modelled. The success message is not modelled either.
- LlmModels.KeepSentences and App.RouteSentences are the inner loops of nested loops, written as separate methods. The source writes each nested loop inside a single function.
