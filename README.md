# Video view prediction: feature pipeline and reporting, modelled in Dafny

This project models the deterministic core of a view-count predictor for
videos. It covers two layers.

1. The feature pipeline and the insight rules (`test_clean_models.py`):
   - `prepare_video_features` turns a video's metadata into the ordered
     feature row that the fitted scaler and regressors expect. Missing
     feature names are filled with zeros and extra ones are dropped.
   - the post-processing of `predict_views`: the optional inverse of the
     log1p target transform, then a clamp at zero;
   - the choice of the best estimate and its ±30 % band;
   - `generate_detailed_success_factors`: fixed if/elif rules that fill six
     categories of advice.
2. The reporting layer of the example (`examples/prediction_example.py`):
   - the mock feature dictionary;
   - the confidence band, the integer truncation and the quality label;
   - the displayed fields (cut description, `m:ss` duration, thousands
     separators);
   - the three rule-based classifiers, each with its fallback.

Modules, one per concern:

- `Common`: Option and Result types, and `Opt`, the zero-or-one message
  list that a single if-rule appends.
- `Text`: Python's `str.split(',')`, `str.split()`, `str.lower()`,
  substring `in`, `str(n)`, `f"{n:,}"` and `f"{n:02d}"`, with their
  round-trips.
- `Calendar`: the proleptic Gregorian day numbering that Python's
  `date.toordinal()` and `date.weekday()` use.
- `Features`: `prepare_video_features` and the schema reconciliation.
- `Ensemble`: `predict_views` post-processing, best estimate and band.
- `Insights`: `generate_detailed_success_factors`.
- `Reporting`: `VideoPredictionExample`.

Each advice message is an enum tag, not the emoji text the code prints.
Real thresholds are restated exactly on integers:

- `10 <= duration/60 <= 20` holds exactly when `600 <= duration <= 1200`;
- `engagement_rate > 10` holds exactly when `likes + dislikes > 10000`;
- `like_ratio > 0.9` holds exactly when `likes > 9·(dislikes + 1)`.

The model-agreement rule is stated twice. One form uses the coefficient of
variation with an uninterpreted square root. The other compares the
population variance with `(0.1·mean)²` and `(0.2·mean)²`. A lemma shows the
two forms agree for any true square root.

Inputs that the code takes from the outside world are parameters:

- "now", as the ordinal of the current day;
- the upload date, as year, month and day numbers;
- the raw output of each regressor;
- the loaded regressor and scaler, as function values;
- the random demo draw;
- the numpy functions `log1p`, `expm1`, `sin`, `cos`, `sqrt` and the
  constant `pi`.

Where the code and its documented behaviour disagree, the model follows
the code:

- `tags_count` counts every comma-separated piece, empty pieces included
  (`"a,,b"` gives 3). It is not a count of non-empty tags.
- `days_since_upload` only replaces a difference of 0 by 1. An upload date
  in the future gives a negative count; it is not floored at 1.
- "Improvement Recommendations" has no fallback message and can be empty
  (`Insights.ImprovementCanBeEmpty`, with the concrete upload of
  `Insights.BreadRecipeGetsNoAdvice`).
- `upload_hour` is always 0, because the date is parsed with the date-only
  format `%Y-%m-%d`. The hour rule therefore always says off-peak.
- For 1250 likes and 45 dislikes, `like_ratio` is 1250/1296 ≈ 0.96451.
- A model missing from the bundle is not an error anywhere in the code:
  `predict_views` predicts with whatever models the bundle holds.

## Model

| member | source | states |
|---|---|---|
| `Features.ParseUpload` | test_clean_models.py:64-68 | the date parses exactly when it exists in the calendar; the hour is then 0, the weekday lies in 0..6 and the month in 1..12 |
| `Features.TagsCount` | test_clean_models.py:50 | 0 for empty tag text, otherwise the number of commas plus one (empty pieces counted) |
| `Features.WordCount` | test_clean_models.py:61 | equals the number of maximal non-whitespace runs; 0 exactly when the title is empty or all whitespace |
| `Features.LikeRatio` | test_clean_models.py:57 | lies in [0, 1), is 0 exactly when there are no likes, and times `likes + dislikes + 1` gives the likes |
| `Features.EngagementRate` | test_clean_models.py:58 | non-negative, and 1000 times it is the sum of likes and dislikes |
| `Features.DurationMinutes` | test_clean_models.py:51 | 60 times it is the duration in seconds |
| `Features.IsWeekend` | test_clean_models.py:68 | 1 exactly when the weekday index is at least 5, else 0 |
| `Features.DaysSinceUpload` | test_clean_models.py:77-79 | never 0; a same-day upload gives 1; every other difference, negative ones included, passes through |
| `Features.ComputedFeatures` | test_clean_models.py:47-105 | the feature dictionary: the tag count, the word count, a like ratio in [0,1), the upload hour, the weekend flag and a non-zero day count |
| `Features.FeatureRow` | test_clean_models.py:83-108 | the one-row frame of a feature dictionary: the 21 feature names in the code's order, each column holding that feature's value |
| `Features.Lookup` | test_clean_models.py:119 | a name has a value exactly when some column carries that name |
| `Features.LookupValue` | test_clean_models.py:119 | a name that has columns reads back as the value of the first column carrying it |
| `Features.RowReadsBack` | test_clean_models.py:83-119 | in the frame built from the feature dictionary each of the 21 names reads back, and is reconciled, as its own feature's value |
| `Features.ZeroColumns` | test_clean_models.py:115-116 | one zero column per missing name, each name reading back as 0 |
| `Features.AddZeroColumns` | test_clean_models.py:115-116 | the loop over the missing set appends exactly one zero column per missing name (as many columns as missing names, each missing name among them and no other), in the set's iteration order |
| `Features.LookupReconciled` | test_clean_models.py:114-119 | after the zero columns are added, every computed or added name reads back as its computed value or 0 |
| `Features.Reconcile` | test_clean_models.py:110-119 | the row has one entry per target name in target order: the computed value or 0; the reported missing names are exactly the targets not computed |
| `Features.PrepareVideoFeatures` | test_clean_models.py:44-121 | fails exactly when the upload date does not exist; otherwise returns the reconciled row of the computed features, the missing names being the targets outside the 21 computed ones |
| `Features.TutorialScenario` | test_clean_models.py:317-323 | 2024-01-15 is a Monday (not a weekend); 900 s is 15 minutes; 1250 likes and 45 dislikes give a ratio of 1250/1296 |
| `Text.SplitCount` | test_clean_models.py:50 | `split(',')` yields one more piece than the text has commas |
| `Text.JoinSplit` | test_clean_models.py:50 | joining the pieces of `split(',')` with commas gives back the text |
| `Text.WordsCountRuns` | test_clean_models.py:61 | `split()` yields one word per maximal non-whitespace run |
| `Text.WordsEmpty` | test_clean_models.py:61 | `split()` is empty exactly when the text is all whitespace |
| `Text.SplitJoin` | test_clean_models.py:50 | splitting pieces joined with a comma none of them holds gives the pieces back |
| `Text.Lower` | test_clean_models.py:241 | keeps the length; maps each upper-case ASCII letter to lower case and leaves every other character alone |
| `Calendar.Weekday` | test_clean_models.py:66 | the weekday index of a valid date lies in 0..6 |
| `Calendar.NextDayInMonth` | test_clean_models.py:77 | the next day of the month has the next ordinal and the next weekday |
| `Calendar.NextDayAcrossYear` | test_clean_models.py:77 | 1 January follows 31 December of the year before by exactly one ordinal day |
| `Calendar.Monday2024January15` | test_clean_models.py:322 | 2024-01-15 is valid, has ordinal 738900 and weekday 0 (Monday) |
| `Calendar.Saturday2024January13` | test_clean_models.py:66 | 2024-01-13 is valid and has weekday 5 (Saturday) |
| `Ensemble.PostProcess` | test_clean_models.py:137-141 | the view count is non-negative, at least the (inverse-transformed when flagged) output, and either 0 or that output |
| `Ensemble.PostProcessIdentity` | test_clean_models.py:138-141 | with no transform, a non-negative output passes through unchanged |
| `Ensemble.PostProcessMonotone` | test_clean_models.py:141 | a larger transformed output never yields fewer views |
| `Ensemble.PredictViews` | test_clean_models.py:133-143 | one entry per model, in the bundle's order and with distinct names; each is the post-processed raw output and is non-negative |
| `Ensemble.Get` | test_clean_models.py:358 | a name has a value exactly when a model of that name is present, and the value is that model's estimate |
| `Ensemble.BestPrediction` | test_clean_models.py:358 | defined exactly when there is an estimate; the gradient-boosting estimate when present, else the first one |
| `Ensemble.BestIsAnEstimate` | test_clean_models.py:358 | the best estimate is one of the models' estimates, so it is non-negative after post-processing |
| `Ensemble.BestIsPreferred` | test_clean_models.py:358 | with distinct names, the best estimate is the gradient-boosting model's own |
| `Ensemble.Band` | test_clean_models.py:361 | the band is centred on the point with width 0.6 times the point, and contains a non-negative point |
| `Insights.TitleVerdict` | test_clean_models.py:182-187 | strong title exactly above 40 characters, short exactly below 20, adequate exactly for 20..40 |
| `Insights.DescriptionVerdict` | test_clean_models.py:189-194 | detailed exactly above 100 characters, good exactly in 51..100, short exactly at 50 or fewer |
| `Insights.HourVerdict` | test_clean_models.py:197-204 | prime time exactly for hours 14..18, evening exactly for 19..22, morning exactly for 9..13, off-peak exactly otherwise |
| `Insights.TagCoverage` | test_clean_models.py:231-238 | excellent exactly above 10 tags, good exactly for 6..10, moderate exactly for 3..5, low exactly at 2 or fewer |
| `Insights.PerformanceVerdict` | test_clean_models.py:250-259 | viral exactly above 50000, strong exactly in (20000, 50000], good exactly in (10000, 20000], moderate exactly in (5000, 10000], low exactly at 5000 or below |
| `Insights.CvVerdict` | test_clean_models.py:267-272 | high agreement exactly below 0.1, good exactly in [0.1, 0.2), mixed exactly at 0.2 or above |
| `Insights.LikeRatioAbove` | test_clean_models.py:212-221 | each like-ratio cut-off (0.9, 0.8, 0.7, 0.5) restated exactly on the like and dislike counts |
| `Insights.DurationVerdict` | test_clean_models.py:173-180 | optimal exactly for 600..1200 s, short below 300 s, long above 1800 s, good otherwise |
| `Insights.LikeRatioVerdict` | test_clean_models.py:212-221 | each of the five like-ratio messages, exactly in terms of the counts |
| `Insights.EngagementRateVerdict` | test_clean_models.py:223-228 | high exactly above 10000 likes and dislikes, good above 5000, low otherwise |
| `Insights.AgreementVerdict` | test_clean_models.py:262-272 | one of the three agreement messages; high when there is no positive mean; otherwise the cut-offs applied to std/mean |
| `Insights.VarianceVerdict` | test_clean_models.py:262-272 | the agreement rule on the variance against (0.1·mean)² and (0.2·mean)²; always one of the three messages |
| `Insights.AgreementWithoutRoot` | test_clean_models.py:262-272 | for any true square root, the std/mean rule and the variance rule give the same message |
| `Insights.UnanimousAgreement` | test_clean_models.py:262-268 | identical estimates always give high model agreement |
| `Insights.MinutesCompare` | test_clean_models.py:275-277 | `duration/60 < 10` exactly below 600 s, `> 25` exactly above 1500 s |
| `Insights.SeoFactors` | test_clean_models.py:230-247 | the appends, rule by rule, build exactly the list of the tag rule and the three keyword rules |
| `Insights.SeoListMeaning` | test_clean_models.py:230-247 | 1 to 4 messages: the tag-coverage message first, then each keyword message exactly when a word of its group occurs in the title, in rule order |
| `Insights.SeoRules` | test_clean_models.py:242-247 | whichever keyword rules fire, the list starts with the tag message, keeps rule order and holds each keyword message exactly when its rule fired |
| `Text.ContainsOccurs` | test_clean_models.py:242 | Python's substring `in` holds exactly when the word occurs at some position of the text |
| `Insights.GeneralTipsMembers` | test_clean_models.py:274-293 | each of the seven general recommendations is present exactly under its condition on the video |
| `Insights.GeneralTipsMeaning` | test_clean_models.py:274-293 | each of the seven general recommendations is present exactly under its condition on the video; at most six appear, in rule order |
| `Insights.ContentTypeTipMeaning` | test_clean_models.py:295-301 | at most one content-type tip: tutorial before review before gaming |
| `Insights.ContentTypeFactor` | test_clean_models.py:295-301 | the if/elif chain appends exactly the content-type tip of the rules |
| `Insights.ImprovementTipsMeaning` | test_clean_models.py:274-301 | at most 7 recommendations, each present exactly under its condition, the content-type tip following the elif precedence |
| `Insights.ImprovementTipsOrdered` | test_clean_models.py:274-301 | the recommendations appear in rule order, so none repeats |
| `Insights.ImprovementCanBeEmpty` | test_clean_models.py:274-303 | for every video of 15 minutes uploaded on Saturday 2024-01-13 with 100 likes and no dislikes, a title of 30 or more characters without u, w, v or g, a description of 100 or more characters and at least 8 tags, the recommendations computed from its own fields are empty |
| `Insights.NoContentTypeKeyword` | test_clean_models.py:295-301 | a title without the letters u, w, v and g in either case gets no content-type tip |
| `Insights.BreadRecipeTitle` | test_clean_models.py:280 | the title "Simple bread recipe for a cold afternoon" has at least 30 characters and none of u, w, v, g in either case |
| `Insights.BreadRecipeTags` | test_clean_models.py:50 | eight comma-joined tags count as 8 |
| `Insights.BreadRecipeGetsNoAdvice` | test_clean_models.py:274-303 | that titled, eight-tagged upload with a long description gets an empty "Improvement Recommendations" list |
| `Insights.ImprovementFactors` | test_clean_models.py:274-301 | the appends, rule by rule, build exactly the recommendation list of the rules |
| `Insights.GenerateDetailedSuccessFactors` | test_clean_models.py:145-303 | fails exactly on a date that does not exist; otherwise exactly 3 content, 2 timing, 2 engagement and 2 performance messages with their verdicts, 1 to 4 SEO messages and the recommendations of the rules |
| `Insights.UploadHourIsOffPeak` | test_clean_models.py:197-204 | a date-only parse always lands on the off-peak hour message |
| `Reporting.ProcessVideoFeatures` | examples/prediction_example.py:67-96 | tags counted as commas plus one without the empty guard; hour 14, weekday 1, month 1, not weekend, 10 days |
| `Reporting.MockAgreesOnContent` | examples/prediction_example.py:72-83 | the mock agrees with the pipeline on every content feature, and on the tag count unless the tag text is empty (mock 1, pipeline 0) |
| `Reporting.Values` | examples/prediction_example.py:110 | the row of a one-row frame: one value per column, in column order |
| `Reporting.Trunc` | examples/prediction_example.py:127-129 | `int(x)` truncates toward zero: within one below a non-negative x, within one above a negative x |
| `Reporting.TruncMonotone` | examples/prediction_example.py:127-129 | truncation keeps order |
| `Reporting.QualityLabel` | examples/prediction_example.py:131 | High exactly above 100000, Medium exactly in (10000, 100000], Low otherwise |
| `Reporting.QualityMonotone` | examples/prediction_example.py:131 | a larger prediction never gets a lower label |
| `Reporting.RangeTextReadsBack` | examples/prediction_example.py:130 | the range text is the lower bound, `" - "`, the upper bound, and each part reads back as its number |
| `Reporting.Predict` | examples/prediction_example.py:122-132 | truncations of the point and of 0.7× and 1.3× it, ordered and non-negative for a non-negative point; the grouped range text; the label of the point |
| `Reporting.TruncatedBand` | examples/prediction_example.py:122-129 | for a non-negative point the truncated band stays ordered around the truncated point |
| `Reporting.VideoPredictionExample.constructor` | examples/prediction_example.py:14-17 | after construction, both models are held when loading succeeded and neither otherwise |
| `Reporting.VideoPredictionExample.LoadModels` | examples/prediction_example.py:19-29 | sets both fields on success and clears both on failure |
| `Reporting.VideoPredictionExample.PredictVideoViews` | examples/prediction_example.py:98-132 | the band and label of the scaled, predicted and expm1-transformed mock row, or of the draw when no model is held, in which case the prediction is the draw |
| `Reporting.MockPrediction` | examples/prediction_example.py:118-131 | a demo draw is its own prediction; of the possible draws only 10000 is labelled Low |
| `Reporting.ShownDescription` | examples/prediction_example.py:139 | unchanged up to 100 characters; otherwise the first 100 then `...`, 103 in all |
| `Reporting.ShownDescriptionIdempotent` | examples/prediction_example.py:139 | cutting a cut description changes nothing |
| `Reporting.DurationRoundTrip` | examples/prediction_example.py:140 | reading the `m:ss` text back gives the duration, negative durations included |
| `Text.GroupedValue` | examples/prediction_example.py:145 | `f"{n:,}"` read back without its separators gives n |
| `Text.GroupedIntValue` | examples/prediction_example.py:130 | the same for any integer, the sign included |
| `Text.GroupedLayout` | examples/prediction_example.py:145 | a comma stands exactly every fourth place from the right, all else are digits, no leading zero |
| `Text.IntTextValue` | examples/prediction_example.py:140 | `str(i)` reads back as i |
| `Text.Pad2Value` | examples/prediction_example.py:140 | the two zero-padded seconds digits read back as the seconds |
| `Reporting.PerformanceAnalysis` | examples/prediction_example.py:156-165 | one of four verdicts, with strict cut-offs at 1000000, 100000 and 10000 |
| `Reporting.PerformanceMonotone` | examples/prediction_example.py:156-165 | more predicted views never give a weaker verdict |
| `Reporting.KeyFactors` | examples/prediction_example.py:167-185 | the appends build the rule list, or the fallback when it is empty |
| `Reporting.KeyFactorRulesMembers` | examples/prediction_example.py:167-183 | a factor is among those the rules produce exactly when its rule fires |
| `Reporting.KeyFactorListMeaning` | examples/prediction_example.py:167-185 | never empty; each factor present exactly under its rule; never both duration factors; the fallback exactly when no rule fires |
| `Reporting.Recommendations` | examples/prediction_example.py:187-202 | the appends build the rule list, or the fallback when it is empty |
| `Reporting.RecommendationListMeaning` | examples/prediction_example.py:187-202 | never empty, at most 5; under 50000 views the first three are the fixed title, thumbnail and description messages, and each of the three is present exactly under 50000 views; the shorter-segments and engagement messages present exactly under their conditions; the fallback exactly when no rule fires |
| `Reporting.GenerateDetailedOutput` | examples/prediction_example.py:134-154 | the shown fields, with a duration and a view count that read back as the numbers, and the three analyses |

## Left out

- Loading models, the scaler and the feature names from files
  (`load_clean_models`, the `joblib.load` calls). The result of loading is
  an input.
- `scaler.transform` and `model.predict`. Their results are inputs, or
  function values the model never looks inside.
- `np.log1p`, `np.expm1`, `np.sin`, `np.cos`, `np.std`'s square root and
  `np.pi` are uninterpreted. The identity `sin² + cos² = 1` of the
  cyclical encodings is not stated.
- Floating point. Every quotient is an exact real, so a result that would
  round across a threshold in IEEE doubles is not represented.
- `datetime.strptime` on text. The date is given as year, month and day
  numbers; an impossible date is an error, as `strptime` raises. The text
  form of the date is not parsed.
- `datetime.now()`. "Today" is an input, as an ordinal day number.
- `np.random.randint`. The demo draw is an input.
- Printing, the warning text and the demo drivers: `test_clean_models`,
  including its views-per-day figure; `create_sample_video_input`;
  `run_example`; `main`. The warning is returned as the set of missing
  names.
- `real_video_input_helper.py`, which is interactive console input.
- Text.Lower: lower-cases ASCII letters only. Python's `str.lower()` also
  lower-cases other Unicode letters.
- Like and dislike counts are natural numbers. The code accepts any
  integer: with negative counts a like ratio outside [0, 1) or, when
  likes + dislikes is -1, a `ZeroDivisionError` (test_clean_models.py:57,
  test_clean_models.py:164, examples/prediction_example.py:78) is not
  modelled. `real_video_input_helper.py` passes such integers unchecked.
- Python dictionaries are sequences of named entries, in insertion order.
  Their key uniqueness is a precondition (`Ensemble.PredictViews`) or
  follows from the construction.
