# MedibotX triage rules in Dafny

This project models `rules.py`, the rules engine of the MedibotX symptom
checker. The engine has four parts, and each is a pure functional model here:

- **Text normalisation** (`preprocess`, in `Normalize`). The text is lowercased and `can't` is rewritten to `cant`. Every character outside `a-z`, `0-9` and whitespace is then replaced by a space. Finally, whitespace runs collapse to one space and the ends are trimmed.
- **Keyword scoring** (`keyword_match_score`, in `Scoring`). A keyword that contains a space scores 3 when it occurs as a substring. Any other keyword scores 2 when it matches between two regex word boundaries `\b`. The score of an entry is the sum over its keywords.
- **Condition matching** (`analyze_symptoms`, in `Matcher` and `Triage`). The matcher uses the catalog `CONDITIONS` (in `Catalog`) and `SEVERITY_RANK` (in `Entries`). It scores every entry and keeps those above 0. It stable-sorts them by descending score and keeps the top three. It then reports the first of those with the highest severity rank. When nothing scores, it returns the "Unidentified Symptoms" result.
- **Follow-up evaluation** (`evaluate_followup`, in `FollowUp` and `Numbers`). The evaluator dispatches on the condition id. The heart, breathing and uti branches detect a "yes". The viral, food_poisoning and stomach branches compare one number against a threshold. Any other id yields Low with the generic advice.

Modules that end in `Examples` pin the behaviour down on concrete inputs. `Chars` holds the character classes and `Options` holds the option type.

Some Python semantics are spelled out explicitly:

- **Truthiness** is modelled: a non-empty string is truthy even when it is `"No"` or `"0"`, and the number 0 is falsy.
- **`str(v).lower()`** is modelled: a number prints as its decimal digits.
- **`int()`** is modelled as `Numbers.ParseInt`: surrounding whitespace, an optional sign, and ASCII digits.

The source has some quirks, and the model keeps them as written:

- In the catalog, food_poisoning asks its number question as "How many times today?" (rules.py:138). The evaluator reads the answer under the key "How many times did you vomit or have loose motions today?" (rules.py:355). An answer from the catalog question is therefore never consulted, and food_poisoning cannot reach High that way (`Triage.FoodPoisoningNeverHighFromCatalog`).
- The no-match result has no doctor entry. This is `doctor == None` in `Matcher.Analysis`.
- Punctuation is replaced by a space, not deleted (rules.py:9). So "chest-pain" normalises to "chest pain".
- The heart branch tests truthiness, so the text answer "0" counts as a yes while the number 0 does not (`FollowUpExamples.HeartZeroQuirk`).

## Model

| member | source | states |
|---|---|---|
| Normalize.PreprocessIsNormal | rules.py:6-11 | the normalised text uses only `a-z`, `0-9` and spaces, never has two spaces in a row, and neither starts nor ends with a space |
| Normalize.PreprocessFixpoint | rules.py:6-11 | a text is left unchanged by normalisation exactly when it is already in normal form |
| Normalize.PreprocessIdempotent | rules.py:6-11 | normalising twice gives the same text as normalising once |
| Normalize.PreprocessKeepsAlnums | rules.py:6-11 | normalisation keeps every letter and digit of the lowercased text, in order, and adds none |
| Normalize.AlnumsReplaceCant | rules.py:8 | the `can't` rewrite keeps every letter and digit, in order |
| Normalize.ReplaceCantIdentity | rules.py:8 | a text with no apostrophe is not changed by the `can't` rewrite |
| Normalize.MaskPunctuationKeeps | rules.py:9 | the punctuation step leaves only `a-z`, `0-9` and whitespace, keeps every letter and digit in order, and changes a text exactly when it holds some other character |
| Normalize.CollapseShape | rules.py:10 | collapsing whitespace runs leaves single spaces only; the result is empty only for an empty input and starts with a space exactly when the input starts with whitespace |
| Normalize.CollapseRun | rules.py:10 | a whitespace run between a non-whitespace end and a non-whitespace start becomes exactly one space, and each side collapses on its own, so words are neither glued together nor split |
| Normalize.AlnumsCollapse | rules.py:10 | collapsing whitespace loses no letter or digit |
| Normalize.AlnumsStrip | rules.py:10 | trimming the ends loses no letter or digit |
| Normalize.CollapseTrailingSpace | rules.py:10 | a normal text followed by one space normalises back to itself |
| NormalizeExamples.CantBreatheExample | rules.py:7-10 | "Can't breathe" normalises to "cant breathe" |
| NormalizeExamples.PunctuationBecomesSpaceExample | rules.py:9-10 | "Chest-pain!" normalises to "chest pain": the hyphen becomes a word break |
| Scoring.KeywordScoreCases | rules.py:20-31 | a keyword scores 3 iff it has a space and occurs in the text, 2 iff it has no space and matches between word boundaries, and 0 otherwise |
| Scoring.PhraseNotFoundScoresZero | rules.py:25-31 | a phrase keyword that does not occur in the text falls to the word-boundary branch and adds 0 |
| Scoring.MatchScoreBounds | rules.py:20-33 | an entry's score lies between 0 and 3 times its number of keywords |
| Scoring.MatchScoreAppend | rules.py:20-33 | the score of two keyword lists joined is the sum of their scores, so each keyword contributes on its own |
| Scoring.DuplicateKeywordCountsTwice | rules.py:20-33 | a keyword listed twice contributes its score twice |
| Scoring.MatchScorePositive | rules.py:20-33 | an entry scores above 0 exactly when at least one of its keywords does |
| Scoring.WordMatchContains | rules.py:29-31 | a word-boundary match is in particular a substring occurrence |
| Scoring.TokenMatchIsWholeWord | rules.py:29-31 | on normalised text, a one-word keyword matches between word boundaries exactly when it is one of the text's space-separated words |
| Scoring.TokenKeywordScore | rules.py:28-31 | on any normalised input, a one-word keyword scores 2 when it is a word of the text and 0 otherwise |
| Scoring.TwoWordTokenScore | rules.py:28-31 | on a two-word text, a one-word keyword scores 2 iff it equals one of the two words |
| Scoring.PhraseNeedsSpace | rules.py:25 | a phrase keyword can only occur in a text that itself contains a space |
| Scoring.MissingCharNotContained | rules.py:25-31 | a keyword holding a character the text lacks does not occur in the text |
| Scoring.AbsentKeywordsScoreZero | rules.py:20-33 | an entry none of whose keywords occurs in the text scores 0 |
| Scoring.OnlyKeywordScores | rules.py:20-33 | when every other keyword is absent from the text, an entry scores what its one remaining keyword scores |
| Scoring.KeywordScoreByScan | rules.py:22-31 | on text of `a-z`, `0-9` and spaces, a keyword's score agrees with a scanning scorer: 3 for a phrase found by a left-to-right scan, 2 for a token that is one of the text's words |
| Scoring.MatchScoreByScan | rules.py:20-33 | an entry's score agrees with the scanning scorer summed over its keywords |
| ScoringExamples.GasolineExample | rules.py:28-31 | "gas" scores 0 on "gasoline issue": a word boundary is needed after the keyword |
| ScoringExamples.StomachGasExample | rules.py:28-31 | "gas" scores 2 on "stomach gas" |
| ScoringExamples.PhraseNeedsLiteralSpaceExample | rules.py:25-31 | the phrase "heart pain" scores 0 on "severepainintheheartarea": a phrase needs its literal space |
| Catalog.CatalogUniqueIds | rules.py:42-252 | no two catalog entries share an id |
| Catalog.CatalogSeveritiesRanked | rules.py:36-252 | every catalog severity is a key of the severity ranking |
| Catalog.CatalogQuestionTextsUnique | rules.py:42-252 | within each entry the follow-up question texts, which key the answers, are distinct |
| Catalog.CatalogBoundsOrdered | rules.py:42-252 | every number question has its minimum at most its maximum |
| Catalog.CatalogWellFormed | rules.py:36-252 | the catalog satisfies all four well-formedness conditions together |
| Matcher.Collect | rules.py:261-265 | every collected match carries its entry's true positive score, and the matches keep catalog order |
| Matcher.CollectComplete | rules.py:261-265 | every entry that scores above 0 is collected |
| Matcher.Insert | rules.py:279 | insertion into the sorted list is a permutation that adds exactly the new match |
| Matcher.InsertRanked | rules.py:279 | inserting an earlier catalog entry into a ranked list keeps it ranked, so ties keep catalog order |
| Matcher.SortByScore | rules.py:279 | the sort returns a permutation of its input |
| Matcher.SortByScoreRanked | rules.py:279 | the sorted list is in non-increasing score order, with equal scores in catalog order, as Python's stable reverse sort leaves them |
| Matcher.TopMatches | rules.py:279-282 | the top list holds min(3, number of matches) true matches, in ranked order |
| Matcher.TopMatchesComplete | rules.py:279-282 | a positive-scoring entry is either in the top list, or the top list is full and each of its three entries ranks before it |
| Matcher.MostSevere | rules.py:285-288 | the chosen position has the highest severity rank in the top list, and every earlier position has a strictly lower rank |
| Matcher.AnalyzeText | rules.py:258-300 | at most three possible conditions, and the id is absent exactly when that list is empty |
| Matcher.AnalyzeNoMatch | rules.py:258-276 | the result has no id exactly when no entry scores above 0 on the normalised text; that result is "Unidentified Symptoms", Low, with empty lists and no doctor |
| Matcher.AnalyzeTextReports | rules.py:279-300 | with a match, the reported entry is the first top match of maximal severity rank |
| Matcher.ReportReportsEntry | rules.py:290-300 | the report lists the top names in order and takes name, severity, advice, follow-ups and id from the chosen entry, and its doctor too, defaulting to "General Physician" |
| Matcher.AnalyzeMatched | rules.py:279-300 | with a match, 1 to 3 possible conditions, named in rank order, and every field taken from the first most-severe top match |
| Matcher.CollectOnly | rules.py:261-265 | when exactly one entry scores above 0, it is the only one collected, with its score |
| Matcher.OneCollectedReported | rules.py:279-300 | when one entry is collected, it is reported and is the only candidate |
| Matcher.SingleMatchReported | rules.py:261-300 | when exactly one entry scores above 0, it is reported and is the only candidate |
| Matcher.CollectTwo | rules.py:261-265 | when exactly two entries score above 0, both are collected, in catalog order, with their scores |
| Matcher.SortTwo | rules.py:279 | two matches with different scores sort higher score first, from either order |
| Matcher.TopOfCollectedTwo | rules.py:279-282 | when two entries are collected, the higher-scoring one is listed first, whatever their catalog order |
| Matcher.TopOfTwo | rules.py:261-282 | when exactly two entries score above 0, the top list holds both, higher score first |
| Matcher.SeverityOverridesCollected | rules.py:279-300 | when two entries are collected and the lower-scoring one has the higher severity rank, that one is reported, though it is listed second |
| Matcher.SeverityOverridesScore | rules.py:261-300 | when exactly two entries score above 0 and the lower-scoring one is more severe, it is reported, and the higher-scoring one is listed first |
| Triage.AnalyzeSymptoms | rules.py:258-301 | matching on the real catalog reports at most three possible conditions |
| TriageExamples.ChestPainCollected | rules.py:261-265 | on "chest pain" the real catalog's scoring loop collects the heart entry alone, with score 3 |
| TriageExamples.ChestPainReportsHeart | rules.py:258-300 | "Chest-pain!" is reported as "Possible Heart Issue", id "heart", severity High, doctor "Cardiologist", and is the only candidate |
| TriageExamples.StomachPainFitsCollected | rules.py:261-265 | on "stomach pain fits" the loop collects the seizure entry with 2, then the stomach entry with 3, and nothing else |
| TriageExamples.SeizureOutranksStomach | rules.py:258-300 | "stomach pain fits" is reported as the High seizure entry with doctor "Neurologist", although the Medium stomach entry scored more and is listed first |
| Triage.RuleIdsCoverCatalog | rules.py:308-384 | the six evaluator branches name six distinct catalog ids; the other ten catalog ids fall to the default |
| Triage.NumericKeysAgainstCatalog | rules.py:111-140 | viral and stomach read answers under a question their catalog entry asks; food_poisoning reads a key its entry never asks |
| Triage.FoodPoisoningNeverHighFromCatalog | rules.py:138 | answers keyed only by food_poisoning's own catalog questions always give Medium |
| Numbers.ParseIntRoundTrip | rules.py:317-321 | the parser reads back every integer's decimal text as that integer |
| Numbers.ParseIntRejectsLetters | rules.py:317-321 | a text containing a letter does not parse, so it counts as 0 |
| FollowUp.BranchFor | rules.py:324-384 | each of the six handled ids selects its own branch, and every other id selects the default |
| FollowUp.EvaluateFollowup | rules.py:308-389 | the final severity is always a ranked severity, and an id without a branch gives Low with the generic advice whatever the answers |
| FollowUp.HeartRuleTruthy | rules.py:324-330 | heart gives High iff some answer is a non-empty text or a non-zero number, and Medium otherwise |
| FollowUp.AnyYesIsSaysYes | rules.py:334-335 | the source's any-yes test holds iff some answer is a text whose lowercase is exactly "yes" |
| FollowUp.BreathingRuleYes | rules.py:333-339 | breathing gives High iff some answer says exactly "yes" in any case, and Medium otherwise |
| FollowUp.UtiRuleYes | rules.py:378-384 | uti gives Medium iff some answer says exactly "yes" in any case, and Low otherwise |
| FollowUp.NumberIsNeverYes | rules.py:334 | a number answer never prints as "yes" |
| FollowUp.AnsYesMeaning | rules.py:313-314 | the unused helper holds exactly when the answer is a text that reads "yes" after trimming and lowercasing; a missing key or a number never does |
| FollowUp.StripOfNumberIsNotYes | rules.py:313-314 | a number's decimal text, trimmed and lowercased, is never "yes" |
| FollowUp.ViralThreshold | rules.py:342-351 | viral gives Medium when the fever-days answer reads at least 3, and Low otherwise |
| FollowUp.FoodPoisoningThreshold | rules.py:354-363 | food_poisoning gives High when the episodes answer reads at least 6, and Medium otherwise |
| FollowUp.StomachThreshold | rules.py:366-375 | stomach gives Medium when the pain answer reads at least 7, and Low otherwise |
| FollowUp.NumericRuleMonotone | rules.py:342-375 | for the numeric branches a larger reading never lowers the severity rank |
| FollowUp.NumericRuleReadsOneKey | rules.py:342-375 | a numeric branch depends only on the answer under its one question key |
| FollowUp.NumericRuleReadsNumber | rules.py:317-375 | a numeric branch depends only on the number read from its key |
| FollowUp.NumericRuleDefaultsToZero | rules.py:317-321 | a missing or unparsable answer acts as the number 0 |
| FollowUp.SameReadingsSameOutcome | rules.py:308-389 | the outcome depends on the answers only through truthiness, the yes test and the three numeric readings |
| FollowUp.PrintedNumberSameOutcome | rules.py:317-384 | outside heart, a number answer and its decimal text give the same outcome |
| FollowUpExamples.HeartNoCountsAsYes | rules.py:324-330 | the answer "No" makes heart High |
| FollowUpExamples.HeartZeroQuirk | rules.py:324-330 | heart gives Medium for the number 0 but High for the text "0" |
| FollowUpExamples.UntrimmedYesIgnored | rules.py:333-339 | the answer " yes" with a leading space passes the trimming helper but leaves breathing at Medium, because the branch does not trim |
| FollowUpExamples.ViralExamples | rules.py:342-351 | a fever of "3" days gives Medium and "2" gives Low |
| FollowUpExamples.FoodPoisoningExamples | rules.py:354-363 | "6" episodes give High and "5" give Medium |
| FollowUpExamples.StomachTextExample | rules.py:317-321 | the unparsable pain answer "abc" counts as 0 and gives Low |
| FollowUpExamples.UnknownIdExample | rules.py:309-310 | an unknown id and "seizure" both give Low with the generic advice |

## Left out

- The Streamlit front end `app.py` is not part of this model. This covers styling, PDF export, session history and widget wiring. It is presentation and I/O around the engine. Its "General Physician" fallback for the doctor of the no-match result is not modelled, so that result has no doctor.
- `Chars.LowerStr` and `Chars.IsWordChar` cover ASCII only. Python's `str.lower`, regex `\w` and `\b` also act on non-ASCII letters. Regex `\s` is modelled with Python's full whitespace list.
- Numbers.ParseInt: accepts surrounding whitespace, an optional sign and ASCII digits. Python's `int()` also accepts underscores between digits and non-ASCII digits. It also truncates a float, and it reads `True`/`False` as 1/0. These are not modelled.
- Numbers.ParseInt: has no digit limit. CPython refuses to convert between text and `int` beyond 4300 digits. For such a text `ans_num` catches the error and returns 0, where the model reads the number. `str()` of such a number raises, where `Show` prints it. The app cannot reach this: `ans_num` reads only keys of number questions, and the app's number widgets keep those answers within the catalog's minimum and maximum (app.py:502-513).
- Answers are either a text or an integer. Other Python values such as floats, booleans, lists or `None` are not modelled.
- Advice texts and condition names are opaque constants copied from the catalog. Nothing is proved about their wording.
- Matcher.AnalyzeMatched, Matcher.TopMatchesComplete and Matcher.AnalyzeTextReports are stated for any text, not only for normalised text. `Matcher.AnalyzeNoMatch` connects them to `Preprocess`.
- FollowUp.PrintedNumberSameOutcome excludes heart, because there the text "0" is truthy and the number 0 is not (`FollowUpExamples.HeartZeroQuirk`).
