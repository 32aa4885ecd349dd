# Judgment-under-uncertainty evaluation harness, modelled in Dafny

The repository evaluates how language models reason about observed
relationships (structural, regime-dependent, coincidental-but-exploitable,
noise). A scenario file holds an observed relationship, optional context, a
task, grading axes, anchor answers and adversarial variants. This model covers
the logic at the centre of that pipeline:

- **Calibration scoring** (`src/calibration.py`):
  - the Brier score and the clamped log loss;
  - the binned expected calibration error (ECE);
  - the closeness/range score of one probability estimate;
  - the three-stage parser that pulls a probability out of a model's answer;
  - the batch calibration report.
- **Grading** (`src/grade.py`):
  - the rules that accept a typed score or a y/n answer;
  - the three-axis total with its cap at 6 after a critical error;
  - the in-place write-back of grades into a results list;
  - the counts and averages of the summary.
- **Running an evaluation** (`src/run_eval.py`):
  - section-by-section prompt assembly;
  - routing a model name to a provider;
  - the record that one scenario run produces.
- **Preference pairs** (`src/extract_pairs.py`): the pair prompt and the
  chosen/rejected record with its defaults.
- **Scenario schema** (`tests/test_scenarios.py`): the per-file checks as
  predicates over a loaded record. A record that passes them supplies every
  key the pair extractor reads.

Loaded YAML/JSON data is modelled by one dynamic datatype, `Values.Value`
(`None`, booleans, integers, reals, strings, lists and string-keyed
mappings). Helpers give Python's meaning to `d[k]`, `d.get(k, default)`, `k in v`,
`len`, truthiness, `.strip()` and `.lower()`, and each helper can fail with the
exception Python would raise (`KeyError`, `TypeError`, `AttributeError`). Every
operation on such values returns a `Result`, so a malformed scenario, result
or grading record follows the same error path the source takes. The
predictions of the calibration report are the exception: they are a typed
record, `CalibrationReport.Prediction`, so only its `IndexError` path is
modelled.

Modules and files:

| file | module | what it holds |
|---|---|---|
| `wrappers.dfy` | `Wrappers` | `Option`, `Result` |
| `text.dfy` | `Text` | digits, whitespace, `lower`, `strip`, `startswith`, substring `in`, `join` |
| `values.dfy` | `Values` | the dynamic value type and Python's dictionary operations on it |
| `calibration_scoring.dfy` | `CalibrationScoring` | Brier score, log loss, probability quality |
| `calibration_ece.dfy` | `CalibrationEce` | expected calibration error (loop over bins) |
| `calibration_parse.dfy` | `ProbabilityParse` | the three regular-expression stages and the parser |
| `calibration_report.dfy` | `CalibrationReport` | the batch report (loop over predictions) |
| `grade.dfy` | `Grade` | acceptance rules, totals, in-place grading, summary |
| `run_eval.dfy` | `RunEval` | prompt assembly, routing, one scenario run |
| `extract_pairs.dfy` | `ExtractPairs` | pair prompt and preference pair |
| `scenario_schema.dfy` | `ScenarioSchema` | the scenario-file checks |
| `pipeline.dfy` | `Pipeline` | what a record written by a run means to the rater |

**Imperative parts.** Where the source loops or mutates, the model does too,
and each method is proved equal to a specification function whose properties
are lemmas:

- `ExpectedCalibrationError` accumulates the error over bins.
- `BuildCalibrationReport` appends per-scenario entries.
- `ParseProbabilityFromResponse` loops over the percentage matches.
- `FirstAccepted` is the retry loop of the two prompts, over a finite stream of typed lines.
- `BuildPromptByAppends` and `AppendSections` append prompt parts; `BuildPairPromptByAppends` does the same for the pair prompt.
- `RunSingleEval` appends the adversarial evaluations.
- `GradeFile`, `GradeResultInPlace` and `GradeVariantsInPlace` write grades into an `array` of results and into each result's variant list.

**Parameters for what cannot be seen.** Four things enter the model as
parameters:

- The natural logarithm is a parameter `ln` of `LogLoss`.
- The two provider APIs are parameters `openai`/`anthropic` of type `Api`.
- The timestamp is a string parameter of `RunSingleEval`.
- The rater's typed answers are a function `Rater` from (result index, variant index) to the `Answers` typed for that response, with every axis score in 0..3 as `AcceptScore` admits; `GradeResponse` turns them into the grades written back.

## Model

| member | source | states |
|---|---|---|
| Text.LowerAt | src/calibration.py:224 | `lower()` keeps the length and maps each character on its own |
| Text.Strip | src/run_eval.py:50 | the stripped string is no longer and neither starts nor ends with whitespace |
| Text.StripDropsOnlySpaces | src/run_eval.py:50 | `strip()` keeps one contiguous piece of the string; everything dropped before and after it is whitespace |
| Text.StripLowerCommute | src/grade.py:61 | `s.strip().lower() == s.lower().strip()`: lower-casing neither creates nor removes whitespace |
| Text.LowerIdempotent | src/calibration.py:224 | lower-casing twice is lower-casing once |
| Values.Index | src/run_eval.py:143 | `d[k]` succeeds exactly on a mapping holding `k`; it fails with KeyError on a mapping without `k` and otherwise with TypeError |
| Values.Get | tests/test_scenarios.py:87 | `d.get(k, default)` succeeds exactly on mappings, giving the entry or the default; anything else fails with AttributeError |
| Values.Contains | tests/test_scenarios.py:79 | `k in v` is key membership on a mapping, element membership on a list and substring search on a string; it fails with TypeError on any other value |
| Values.Len | tests/test_scenarios.py:128 | `len(v)` is defined exactly on strings, lists and mappings |
| Values.StripValue | src/extract_pairs.py:52 | `.strip()` succeeds exactly on strings and gives `Strip` of them |
| Values.LowerValue | tests/test_scenarios.py:158 | `.lower()` succeeds exactly on strings and gives `Lower` of them |
| Values.SetKey | src/grade.py:113 | item assignment succeeds exactly on mappings |
| Values.SetKeyEffect | src/grade.py:113-114 | item assignment adds or replaces that one key and leaves every other entry unchanged |
| CalibrationScoring.CheckInputs | src/calibration.py:47-50 | no error iff `p` is in [0,1] and `y` is 0 or 1; a bad `p` is reported before a bad `y` |
| CalibrationScoring.BrierScore | src/calibration.py:47-51 | fails exactly on out-of-domain inputs; otherwise the score is in [0,1], 0 iff `p == y`, 1 iff `p == 1 - y` |
| CalibrationScoring.BrierScoreAtHalf | src/calibration.py:51 | the score of 0.5 is 0.25 whatever the outcome |
| CalibrationScoring.ExpectedBrierScoreExpanded | src/calibration.py:51 | the expected Brier score under outcome frequency `q` is `x² − 2qx + q` |
| CalibrationScoring.BrierScoreIsProper | src/calibration.py:51 | the expected score of forecast `p` exceeds that of the true frequency `q` by exactly `(p − q)²`, so only the honest forecast minimises it |
| CalibrationScoring.Clamp | src/calibration.py:74 | for `0 < eps <= 0.5` the clamped value lies in [eps, 1 − eps]; interior points are unchanged |
| CalibrationScoring.LogLoss | src/calibration.py:70-77 | out-of-domain inputs fail with the Brier checks' errors; math.log's domain error is reported for a non-positive argument; otherwise the loss is `-ln` of the clamped likelihood |
| CalibrationScoring.LogLossArgumentInRange | src/calibration.py:74-77 | for valid inputs and `0 < eps <= 0.5` the logarithm's argument lies in [eps, 1 − eps], so the loss never fails |
| CalibrationScoring.LogLossUnclampedZero | src/calibration.py:70-77 | with `eps = 0` a forecast of 0 for outcome 1, or of 1 for outcome 0, reaches `log(0)` and fails with the domain error |
| CalibrationScoring.LogLossInterior | src/calibration.py:74-77 | on interior `p` the loss is `-ln(p)` for `y = 1` and `-ln(1 − p)` for `y = 0` |
| CalibrationScoring.LogLossSymmetric | src/calibration.py:74-77 | `loss(p, 1) == loss(1 − p, 0)` for every `p` in [0,1] |
| CalibrationScoring.ScoreProbabilityQuality | src/calibration.py:170-199 | acknowledgment is 1 iff a range was given; range quality is 1 iff the closed intervals overlap; the distance is that of the estimate from the ground-truth range; calibration score in 0..3 from that distance; total is the sum, in 0..5 |
| CalibrationScoring.DistanceZeroIffInside | src/calibration.py:173-176 | the distance is 0 iff the estimate lies in the closed ground-truth interval |
| CalibrationScoring.DistanceToNearerEndpoint | src/calibration.py:173-176 | outside the interval the distance is the gap to the nearer endpoint |
| CalibrationScoring.CalibrationScoreMonotone | src/calibration.py:179-186 | the calibration score never increases as the distance grows |
| CalibrationScoring.CalibrationScoreBands | src/calibration.py:179-186 | score 3 iff distance 0, 2 iff in (0, 0.10], 1 iff in (0.10, 0.20], 0 beyond 0.20 |
| CalibrationScoring.FullScoreMeansInsideAndOverlapping | src/calibration.py:170-199 | total 5 iff the estimate is inside the interval and an overlapping range was given |
| CalibrationEce.Count | src/calibration.py:112-113 | a bin never holds more predictions than there are |
| CalibrationEce.Ece | src/calibration.py:97-141 | fails iff the lengths differ (ValueError) or a non-empty batch meets zero bins (ZeroDivisionError); an empty batch or a negative bin count gives `(0, [])`; otherwise one record per bin |
| CalibrationEce.ExpectedCalibrationError | src/calibration.py:97-141 | the loop over bins computes exactly `Ece`: mismatch error, empty result, zero-bin error, or the summed error with one record per bin |
| CalibrationEce.EdgesIncrease | src/calibration.py:102 | edges run from 0 to 1 and strictly increase |
| CalibrationEce.InBinIsProbability | src/calibration.py:112 | a prediction in any bin lies in [0,1] |
| CalibrationEce.BinOf | src/calibration.py:112 | every probability has a bin index in `0..n-1` whose half-open range holds it, 1.0 being in the last bin |
| CalibrationEce.InBinIff | src/calibration.py:112 | a prediction is in bin `b` iff it is a probability and `b` is its bin index, so it lies in exactly one bin |
| CalibrationEce.OneInLastBin | src/calibration.py:112 | 1.0 is in the last bin and in no other |
| CalibrationEce.InUnitCount | src/calibration.py:112 | the number of predictions in [0,1] is at most the number of predictions |
| CalibrationEce.BinCountsCoverUnit | src/calibration.py:107-113 | the bin counts add up to the number of predictions in [0,1] |
| CalibrationEce.BinSumsBounded | src/calibration.py:125-128 | a bin's confidence and outcome sums lie between 0 and its count |
| CalibrationEce.GapInUnit | src/calibration.py:125-129 | each bin's mean confidence, accuracy and gap lie in [0,1] |
| CalibrationEce.EceUpToBounded | src/calibration.py:107-131 | after `k` bins the partial error lies between 0 and the share of predictions counted so far |
| CalibrationEce.EceInUnit | src/calibration.py:97-141 | with binary outcomes the ECE and every bin's statistics lie in [0,1] |
| CalibrationEce.ContributionZeroIffCalibrated | src/calibration.py:125-131 | a bin's contribution is never negative, and is 0 iff its mean forecast equals its mean outcome |
| CalibrationEce.ZeroErrorIffCalibratedBins | src/calibration.py:107-131 | after `k` bins the error is 0 iff each of those bins has mean forecast equal to mean outcome |
| CalibrationEce.EceZeroIffCalibrated | src/calibration.py:97-141 | the returned error is 0 iff every record of the bin list has equal average confidence and accuracy |
| CalibrationEce.OnlyOneBinContributes | src/calibration.py:115-131 | for a constant forecast only the forecast's bin contributes, with its full weight |
| CalibrationEce.ConstantCalibratedForecastHasZeroError | src/calibration.py:115-131 | a constant forecast equal to the outcome frequency has ECE 0 |
| CalibrationEce.BinListShape | src/calibration.py:107-139 | exactly `n_bins` records, record `b` having range `(b/n, (b+1)/n)` |
| CalibrationEce.EceEdgeCases | src/calibration.py:97-102 | unequal lengths fail, empty input gives `(0, [])`, zero bins on non-empty input fails (ZeroDivisionError) |
| ProbabilityParse.Match | src/calibration.py:227 | a match ends within the text and captures as many groups as the pattern has, each a digit string |
| ProbabilityParse.MatchCapturesText | src/calibration.py:227-258 | every captured group is a slice `t[a..b]` of the text inside the matched span |
| ProbabilityParse.Search | src/calibration.py:228 | `re.search`: the leftmost position where the pattern matches, or none anywhere |
| ProbabilityParse.FindAll | src/calibration.py:242 | every `findall` capture is a non-empty digit string |
| ProbabilityParse.FindAllCapturesText | src/calibration.py:242 | every `findall` capture is a slice of the text at or after the scan's start |
| ProbabilityParse.FindAllStartsAtSearch | src/calibration.py:228-242 | `findall` finds something iff `search` matches before the end of the text, and its first capture is the group of that match |
| ProbabilityParse.DecimalFraction | src/calibration.py:258 | `float("0." + digits)` lies in [0,1) and is 0 iff the digits are all zero |
| ProbabilityParse.PercentValues | src/calibration.py:242-246 | one integer per percentage match, in order, with the matched digits' value |
| ProbabilityParse.FirstPlausible | src/calibration.py:245-247 | the first value in [1,99], with all earlier values outside it, or none when no value qualifies |
| ProbabilityParse.RangeStage | src/calibration.py:226-238 | a range estimate needs a range match and always carries both bounds; which numbers it carries is `RangeStageValue` |
| ProbabilityParse.RangeStageValue | src/calibration.py:228-238 | with the leftmost range match at `pos`, the stage returns its two numbers divided by 100 and their midpoint when the bounds are valid, and nothing otherwise |
| ProbabilityParse.PercentStage | src/calibration.py:240-252 | a percentage estimate exists iff some percentage match is plausible (1..99), and has no bounds; which value is `PercentStageValue` |
| ProbabilityParse.PercentStageValue | src/calibration.py:242-252 | when value `k` is the first plausible percentage, the stage returns it divided by 100, without bounds |
| ProbabilityParse.DecimalStage | src/calibration.py:254-264 | a decimal estimate needs a keyword-introduced decimal match and has no bounds; which value is `DecimalStageValue` |
| ProbabilityParse.DecimalStageValue | src/calibration.py:256-264 | with the leftmost decimal match at `pos`, the stage returns its number, without bounds, exactly when it lies strictly between 0 and 1 |
| ProbabilityParse.DecimalStageIffLeftmostValid | src/calibration.py:256-264 | the decimal stage succeeds iff the leftmost decimal match lies in (0,1) |
| ProbabilityParse.ParseProbability | src/calibration.py:224-266 | the parser: the stages in order on the lower-cased text; which number it returns is stated by `ParseReportsRange`, `ParseReportsPercentage`, `ParseReportsDecimal` and `ParseNoneIff`, its shape by `EstimateWellFormed` and `BoundsOnlyFromRangeStage` |
| ProbabilityParse.ParseReportsRange | src/calibration.py:224-238 | a valid leftmost range in the lower-cased text is returned as its two numbers divided by 100, with their midpoint as point |
| ProbabilityParse.ParseReportsPercentage | src/calibration.py:224-252 | without a valid leftmost range, the first plausible percentage divided by 100 is returned, without bounds |
| ProbabilityParse.ParseReportsDecimal | src/calibration.py:224-264 | without a valid range or a plausible percentage, the leftmost decimal match's number is returned iff it lies in (0,1) |
| ProbabilityParse.ParseNoneIff | src/calibration.py:224-266 | the parser returns None iff the leftmost range is invalid or absent, no percentage is plausible and the leftmost decimal is absent or outside (0,1) |
| ProbabilityParse.ParseProbabilityFromResponse | src/calibration.py:224-266 | the early-return stages and the loop over percentages compute exactly `ParseProbability` |
| ProbabilityParse.ParseByStages | src/calibration.py:226-266 | the range stage wins when it finds something; otherwise the percentage stage, then the decimal stage |
| ProbabilityParse.ExtremePercentagesIgnored | src/calibration.py:245-266 | text whose only percentages are 0% or 100%, with no range or decimal estimate, yields None |
| ProbabilityParse.FirstPlausibleIsFirst | src/calibration.py:245-247 | the index the loop stops at is the first plausible one |
| ProbabilityParse.EstimateWellFormed | src/calibration.py:229-264 | any estimate is strictly inside (0,1); a range has both bounds, `low < point = (low+high)/2 < high`; a percentage lies in [0.01, 0.99] |
| ProbabilityParse.RangeStageWellFormed | src/calibration.py:229-238 | a range estimate has `0 <= low < point < high <= 1` with the midpoint as point |
| ProbabilityParse.PercentStageWellFormed | src/calibration.py:243-252 | a percentage estimate has no bounds and lies in [0.01, 0.99] |
| ProbabilityParse.DecimalStageWellFormed | src/calibration.py:256-264 | a decimal estimate has no bounds and lies strictly between 0 and 1 |
| ProbabilityParse.RangeStageIffLeftmostValid | src/calibration.py:228-238 | the range stage succeeds iff the leftmost range match has `0 <= low < high <= 100` |
| ProbabilityParse.SearchFindsFirstRangeMatch | src/calibration.py:228 | the search result is the first range match, and no position matches when it finds none |
| ProbabilityParse.BoundsOnlyFromRangeStage | src/calibration.py:234-264 | the result carries bounds iff the range stage succeeded |
| ProbabilityParse.RangeStageTakesLeftmostMatch | src/calibration.py:226-238 | bounds appear iff the leftmost range match in the lower-cased text is valid; later matches are never examined |
| ProbabilityParse.ParseIgnoresCase | src/calibration.py:224 | the result depends only on the lower-cased text |
| CalibrationReport.ScoreEntry | src/calibration.py:285-302 | a prediction is scored iff every range it indexes has two bounds; id, estimate and ground truth are copied; acknowledgment is 1 iff a non-empty range was expressed; the calibration score is in 0..3 |
| CalibrationReport.ScoreAll | src/calibration.py:284-302 | one entry per prediction, in input order, each the prediction's own score; fails iff some prediction is malformed |
| CalibrationReport.Scores | src/calibration.py:303 | one calibration score per entry, in order |
| CalibrationReport.AckCount | src/calibration.py:307 | the acknowledgment count never exceeds the number of entries |
| CalibrationReport.CalibrationReport | src/calibration.py:281-317 | the report of a batch; stated by `ReportAggregates` and computed by `BuildCalibrationReport` |
| CalibrationReport.BuildCalibrationReport | src/calibration.py:281-317 | the loop appending entries and scores computes exactly `CalibrationReport` |
| CalibrationReport.ScoreAllFailsAt | src/calibration.py:284-302 | one malformed prediction anywhere makes the report fail with IndexError |
| CalibrationReport.ExpressedCount | src/calibration.py:289-291 | the number of predictions with an expressed range is at most their number |
| CalibrationReport.AckCountIsExpressedCount | src/calibration.py:306-310 | the acknowledgment count equals the number of predictions that expressed a range |
| CalibrationReport.ReportAggregates | src/calibration.py:304-317 | the report succeeds iff all predictions are well-formed; `num_scenarios` is their number; the average score lies in [0,3]; the acknowledgment rate is the fraction of predictions that expressed a range, in [0,1]; both are 0 on empty input |
| CalibrationReport.EntryScaleAgrees | src/calibration.py:285-295 | a scenario scores 3 iff its point estimate lies in the ground-truth range divided by 100 |
| CalibrationReport.EntryOnPercentScale | src/calibration.py:285-299 | on the 0-100 scale of the input: range quality 1 iff a stated range overlaps the ground truth; the distance is that of `100 * p` from the range, divided by 100; score 3 at distance 0, 2 up to 10 points, 1 up to 20, 0 beyond |
| CalibrationReport.EmptyExpressedRangeIgnored | src/calibration.py:290-291 | an empty expressed range is treated like no range |
| Grade.ParseInt | src/grade.py:50 | `int()` accepts only non-empty text, and a negative value only with a leading minus |
| Grade.DecimalStringValue | src/grade.py:50 | the decimal text of `n` denotes `n` |
| Grade.AcceptScore | src/grade.py:49-52 | an accepted score is the `int()` of the stripped line and lies in `[0, max_score]` |
| Grade.AcceptScoreRoundTrip | src/grade.py:49-52 | typing the decimal text of any `n <= max_score` is accepted as `n` |
| Grade.AcceptCriticalError | src/grade.py:61-65 | true only for "y"/"yes" and false only for "n"/"no", after strip and lower-casing; anything else is re-asked |
| Grade.AcceptCriticalErrorIgnoresCase | src/grade.py:61 | the answer does not depend on letter case |
| Grade.FirstAccepted | src/grade.py:47-55 | the retry loop returns the first acceptable line and how many lines it read; it returns nothing iff no line is acceptable |
| Grade.ScoresValueShape | src/grade.py:76-91 | the scores hold the three axes, `critical_error` as "fail"/"pass" and the capped total |
| Grade.GradeResponseMeaning | src/grade.py:69-95 | the scores hold the three axes as typed, `critical_error` "fail" iff a critical error was flagged and "pass" otherwise, total the raw sum, capped at 6 on "fail" only, and the stripped notes; for accepted answers the scores are well graded, so a "fail" totals at most 6 |
| Grade.TotalCap | src/grade.py:84-91 | on "fail" the total is `min(raw, 6)`: at most 6, and the raw sum whenever that is at most 6; on "pass" it is the raw sum |
| Grade.TotalRange | src/grade.py:84-91 | with axis scores in 0..3 the total is in 0..9, and in 0..6 after a critical error |
| Grade.CriticalErrorCost | src/grade.py:84-91 | flagging a critical error costs at most 3 points, and costs anything iff the raw sum exceeds 6 |
| Grade.GradedEval | src/grade.py:113-114 | writing the grades succeeds exactly on a mapping |
| Grade.GradedEvalWrites | src/grade.py:113-114 | the write-back sets exactly `scores` and `notes` and keeps every other field |
| Grade.VariantsOf | src/grade.py:117 | the variants iterated are none without the key, and the list itself when it is a list |
| Grade.GradeVariants | src/grade.py:117-121 | grading the variants succeeds iff every variant is a mapping, and keeps the list length |
| Grade.GradeVariantsElements | src/grade.py:117-121 | graded variant `j` is old variant `j` with the grades of `(i, j)` written back |
| Grade.GradeRecord | src/grade.py:111-121 | a non-mapping result fails with TypeError and one without `base_eval` with KeyError; grading succeeds iff the base evaluation and every variant iterated are mappings, and gives a mapping |
| Grade.GradeAll | src/grade.py:106-121 | grading all results succeeds iff each result grades; it keeps the list length and result `i` is `GradeRecord` of old result `i` with index `i` |
| Grade.GradeVariantsInPlace | src/grade.py:117-121 | the array of variants is updated in place to exactly `GradeVariants` of its old contents, or the first error is reported |
| Grade.GradeFile | src/grade.py:106-121 | the results array is updated in place to exactly `GradeAll` of its old contents, or the first error is reported |
| Grade.GradeResultInPlace | src/grade.py:111-121 | grading one result in place computes exactly `GradeRecord` |
| Grade.GradeRecordWritesBack | src/grade.py:111-121 | a graded result keeps its keys and every field but `base_eval` and `adversarial_evals`; the base and each variant at the same index carry the rater's scores and notes; the variant list keeps its length |
| Grade.GradeRecordScores | src/grade.py:111-121 | every scores record written into a result, base and each variant, is `grade_response`'s for the rater's answers to that response, and is well graded: axes in 0..3, "fail"/"pass", total the capped sum, never above 6 on "fail" |
| Grade.GradeAllScores | src/grade.py:106-121 | after grading a whole file every result's base evaluation carries the rater's well-graded scores |
| Grade.ScoresEntry | src/grade.py:148 | `r.get("base_eval", {}).get("scores")` succeeds iff the result and its base evaluation, when present, are mappings |
| Grade.GradedCount | src/grade.py:146-149 | the graded count is at most the number of results; it fails, with AttributeError, iff some lookup is on a non-mapping |
| Grade.FieldSum | src/grade.py:158 | summing a field fails only with KeyError or TypeError |
| Grade.FailCount | src/grade.py:159 | the number of "fail" scores is at most the number of scores |
| Grade.Averages | src/grade.py:158-167 | the averages fail only with KeyError or TypeError |
| Grade.SummaryAsWritten | src/grade.py:145-167 | the summary exactly as written, division by the number of truthy scores included; compared with the corrected one by `SummaryCorrectionIsConservative` and shown failing by `EmptyScoresDividesByZero` |
| Grade.PrintSummary | src/grade.py:145-167 | corrected summary: total is the number of results, the graded count at most that, the critical-error rate in [0,1], and it never divides by zero |
| Grade.EmptyScoresDividesByZero | src/grade.py:146-158 | one result with `{}` scores makes the summary as written divide by zero, while the corrected one reports 1 of 1 graded with no averages |
| Grade.SummaryCorrectionIsConservative | src/grade.py:145-159 | the two summaries agree except where the one as written divides by zero, which happens iff some scores are not None but none are truthy |
| Grade.NoneNotTruthy | src/grade.py:148-157 | when no scores are non-None, none are truthy |
| RunEval.StrippedField | src/run_eval.py:50 | `d[key].strip()` succeeds only on a mapping holding a string there, and gives that string stripped |
| RunEval.IsProbabilityModule | src/run_eval.py:67 | `scenario.get("module", "")` is read on mappings only; it is true iff the module is a string starting with "07"; a non-string module fails with AttributeError |
| RunEval.ReadPromptFields | src/run_eval.py:48-67 | the fields read: stripped observation and task; the context iff the key is present; the manipulation iff the variant is truthy; the instruction flag from the module |
| RunEval.AppendSections | src/run_eval.py:46-73 | appending heading and body for each section present builds exactly `Assemble` of the fields |
| RunEval.BuildPromptByAppends | src/run_eval.py:44-75 | the append-then-join procedure computes exactly `BuildPrompt`, failures included |
| RunEval.AssembleHeadings | src/run_eval.py:52-70 | each optional heading appears iff its section is present |
| RunEval.AssembleEnds | src/run_eval.py:48-73 | the parts open with the observation and close with the task, or with the instruction when it is present |
| RunEval.AssembleOrder | src/run_eval.py:52-73 | Context right after the observation, Additional Information right before Task, Important right after Task as the last two parts |
| RunEval.PromptSections | src/run_eval.py:44-75 | Context iff the key exists; Additional Information iff the variant is truthy; Task always; the instruction last iff the module starts with "07" |
| RunEval.PromptSectionOrder | src/run_eval.py:52-73 | in a built prompt the scenario's context follows the observation, a truthy variant's manipulation stands right before the Task section, and the module-07 instruction right after it |
| RunEval.PromptOpensWithObservation | src/run_eval.py:49-75 | the prompt starts with "## Observed Relationship", the separator and the stripped observation |
| RunEval.BuildPrompt | src/run_eval.py:44-75 | the evaluation prompt; stated by `PromptSections`, `PromptOpensWithObservation` and `VariantPromptIsAdversarial`, and computed by `BuildPromptByAppends` |
| RunEval.Route | src/run_eval.py:116-121 | OpenAI iff the name starts with "gpt" or "o1"; Anthropic iff it starts with neither but with "claude"; failure, always ValueError, iff it starts with none of the three |
| RunEval.RouteByPrefix | src/run_eval.py:116-119 | routing depends only on the name's prefix: extending a routable name keeps its provider |
| RunEval.RouteExamples | src/run_eval.py:114-121 | "gpt-…" and "o1-…" go to OpenAI, "claude-…" to Anthropic, "gemini-pro" fails |
| RunEval.CallModel | src/run_eval.py:114-121 | the call succeeds iff the model routes, and returns the routed provider's answer |
| RunEval.VariantsToRun | src/run_eval.py:164-165 | no variants unless requested and present; iteration fails only with TypeError |
| RunEval.VariantEval | src/run_eval.py:166-177 | an adversarial evaluation needs a mapping variant and is a mapping; its contents are `VariantEvalEntries` |
| RunEval.VariantEvalEntries | src/run_eval.py:166-177 | an entry is written iff the variant holds `variant_id`, `manipulation` and `expected_failure_mode`, the prompt builds and the model routes; it has exactly seven keys, copies those three unstripped, holds `build_prompt(scenario, variant)` and the routed API's answer, with `scores` None and `notes` "" |
| RunEval.VariantEvals | src/run_eval.py:164-177 | one evaluation per variant, each a mapping, and evaluation `k` is the run of variant `k` |
| RunEval.Header | src/run_eval.py:142-150 | the record starts with exactly the seven result keys |
| RunEval.SingleEval | src/run_eval.py:135-179 | one scenario run; stated by `SingleEvalKeys`, `SingleEvalEntries`, `SingleEvalVariantsInOrder` and `UnknownModelFails`, and computed by `RunSingleEval` |
| RunEval.RunSingleEval | src/run_eval.py:135-179 | the run filling the record and appending the variant evaluations computes exactly `SingleEval` |
| RunEval.SingleEvalKeys | src/run_eval.py:142-150 | the record has exactly the seven keys; id, relationship type, path, model and timestamp copied unchanged |
| RunEval.SingleEvalEntries | src/run_eval.py:154-177 | the base entry holds the variant-less prompt and its response, ungraded; one adversarial entry per variant run, none when adversarial runs are off |
| RunEval.SingleEvalVariantsInOrder | src/run_eval.py:164-177 | the adversarial entries are the runs of the variants, one each, in order |
| RunEval.UnknownModelFails | src/run_eval.py:120-121 | an unroutable model fails the whole run with ValueError once the prompt can be built |
| RunEval.VariantPromptIsAdversarial | src/run_eval.py:58-60 | every adversarial prompt carries the Additional Information section |
| ExtractPairs.PairPromptFields | src/extract_pairs.py:32-40 | the pair prompt reads the stripped observation, the context iff present, and the task; never a variant or the module |
| ExtractPairs.BuildPairPrompt | src/extract_pairs.py:28-42 | the pair prompt; stated by `PairPromptSections` and `PairPromptMatchesRunEval`, and computed by `BuildPairPromptByAppends` |
| ExtractPairs.BuildPairPromptByAppends | src/extract_pairs.py:28-42 | the append-then-join procedure computes exactly `BuildPairPrompt` |
| ExtractPairs.PairPromptSections | src/extract_pairs.py:32-40 | it opens with the observation, has Context iff the key exists, never Additional Information or Important, and ends with the task |
| ExtractPairs.PairPromptMatchesRunEval | src/extract_pairs.py:28-42 | outside module 07 it equals the evaluation prompt without a variant, failures included |
| ExtractPairs.PairPromptLacksInstruction | src/extract_pairs.py:28-42 | for module 07 the evaluation prompt's parts are the pair prompt's parts plus the instruction |
| ExtractPairs.PairPromptIgnoresModule | src/extract_pairs.py:28-42 | a non-string module fails the evaluation prompt, which the pair prompt never reads |
| ExtractPairs.AnchorAnswer | src/extract_pairs.py:52 | `scenario["anchor_answers"][grade]` succeeds iff both levels are mappings holding the keys |
| ExtractPairs.ExtractPreferencePair | src/extract_pairs.py:45-58 | a pair is a mapping with exactly the eight keys; failures are KeyError, TypeError or AttributeError |
| ExtractPairs.PairSucceedsIff | src/extract_pairs.py:47-57 | a pair is extracted iff the prompt builds, the id and relationship type exist and both answers have string responses |
| ExtractPairs.PairFailsOnlyOnStrip | src/extract_pairs.py:47-57 | with every key it reads present, extraction fails only on a non-string field it strips |
| ExtractPairs.PairFields | src/extract_pairs.py:47-57 | id and relationship type copied, the prompt is `build_prompt`, chosen/rejected the stripped strong/failing responses |
| ExtractPairs.PairDefaults | src/extract_pairs.py:54-56 | scores and notes are copied when present, else 11, 5 and "" |
| ScenarioSchema.IsValidYaml | tests/test_scenarios.py:66-70 | the file loads to something other than None |
| ScenarioSchema.HasRequiredFields | tests/test_scenarios.py:73-79 | each of the seven required fields is a key of the record |
| ScenarioSchema.RelationshipTypeIsValid | tests/test_scenarios.py:82-91 | `data.get("relationship_type")` is one of the four types |
| ScenarioSchema.GradingAxesComplete | tests/test_scenarios.py:94-103 | each of the four axes (the three scored axes and `critical_error`) is `in` `data.get("grading_axes", {})` |
| ScenarioSchema.AnchorAnswersComplete | tests/test_scenarios.py:106-115 | each of the three anchor answers is `in` `data.get("anchor_answers", {})` |
| ScenarioSchema.AnchorAnswersHaveResponse | tests/test_scenarios.py:118-130 | the anchor answers form a mapping, and every one holds a `response` whose length exceeds 100 |
| ScenarioSchema.IdMatchesFilename | tests/test_scenarios.py:137-146 | `data.get("id")` is the file stem |
| ScenarioSchema.FailingAnswerExplainsCriticalError | tests/test_scenarios.py:149-160 | the failing answer's lower-cased notes mention "critical error" or "critical_error" |
| ScenarioSchema.HasAdversarialVariants | tests/test_scenarios.py:163-171 | `data.get("adversarial_variants", [])` has length at least 2 |
| ScenarioSchema.ValidScenario | tests/test_scenarios.py:66-171 | a record that passes every per-file check; what it guarantees is stated by the `ValidScenario*` lemmas |
| ScenarioSchema.ValidScenarioFields | tests/test_scenarios.py:66-171 | a valid record is a mapping with the seven fields, its id is the file stem, its type one of the four, and it has at least two variants |
| ScenarioSchema.ValidScenarioAnswers | tests/test_scenarios.py:105-130 | the strong and failing answers of a valid record are mappings with a response |
| ScenarioSchema.ValidScenarioSuppliesPairKeys | tests/test_scenarios.py:13-41 | a valid record supplies every key the extractor reads: it can fail only on a non-string field it strips |
| ScenarioSchema.ValidScenarioGivesPair | tests/test_scenarios.py:148-160 | with string text fields a valid record gives a pair whose type is one of the four and whose rejection reason mentions the critical error |
| Pipeline.RunRecordIsGradeable | src/grade.py:106-121 | every record a run writes can be graded without error |
| Pipeline.RunRecordIsUngraded | src/grade.py:146-149 | a freshly written record counts as not graded in the summary |

## Left out

- File, YAML/JSON and command-line plumbing (`main`, `load_*`, `save_results`, scenario discovery), the directory tests of `tests/test_scenarios.py`, and all console output. This includes the summary's printed "/12" label (the total's maximum is 9) and the rounding of displayed values.
- The `input()` retry loops are interactive. `Grade.FirstAccepted` models them over a finite sequence of typed lines; an endless stream of bad answers, which the source would keep asking about, is not modelled.
- Interrupting the rater with Ctrl+C, with the partial save that follows, is left out; `Grade.GradeFile` models an uninterrupted run.
- Network and SDK calls (`call_openai`, `call_anthropic`, API keys, clients). They are the `Api` function parameters, so network and API errors are not modelled.
- The wall-clock timestamp is a string parameter.
- The natural logarithm is a parameter `ln`, so no concrete log value is modelled.
- Floating point is modelled as exact `real`. Bin edges `i/n`, the distance comparison with 0 and the averages are exact; IEEE-754 rounding and `round()` are not modelled.
- `str.lower()` is modelled on ASCII letters only, and `\d` and `int()` on ASCII digits only. `int()` also accepts underscores between digits; the model does not.
- A general regular-expression engine is not part of this model. The three fixed patterns are modelled as concrete scanners with leftmost-match semantics. `ParseProbabilityFromResponse` calls the range and decimal stages as functions and loops only over the percentage matches.
- YAML keys are modelled as strings; a mapping with non-string keys is not representable.
- Aliasing between nested dictionaries is not modelled: grading a result is an update of that result's value, stored back at its index. The JSON key order of records is not modelled.
- In `grade_file`, the display lookups (`eval_result['scenario_id']` at src/grade.py:108 and those inside `display_response`) can raise before grading. They are left out with the display.
- The rater's answers for a response are the `Rater` parameter's `Answers`; the prompts that accept them are `AcceptScore`/`AcceptCriticalError`, and `FirstAccepted` is their retry loop, but the model does not tie a particular typed line to a particular `Rater` value.
- CalibrationReport.Prediction: a prediction is a typed record (estimate, list of ground-truth bounds, optional list of stated bounds), so the `KeyError` of a missing `scenario_id`, `predicted_prob` or `ground_truth_range` key and the `TypeError` of a non-numeric bound (src/calibration.py:285-299) cannot arise in the model; only the `IndexError` of a range with fewer than two bounds is modelled.

## Findings

| source | as written | input that shows it | evidently intended | confidence | as-written member | corrected member |
|---|---|---|---|---|---|---|
| src/grade.py:146-158 | the graded count tests `scores is not None` (line 148), but the averages divide by the number of truthy scores (lines 157-158) | a results list with one result whose `base_eval.scores` is `{}`: counted as graded, then divided by zero | return before averaging when there are no truthy scores to average | not executed | Grade.EmptyScoresDividesByZero | Grade.PrintSummary |
