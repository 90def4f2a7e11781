/**
 * The reporting layer of the example (`VideoPredictionExample`): the mock
 * feature dictionary, the confidence band and quality label of one
 * prediction, the formatting of the detailed output and its three
 * rule-based classifiers.
 */
module Reporting {
  import opened Common
  import opened Text
  import opened Features
  import Ensemble

  // ---------------------------------------------------------------------
  // process_video_features: the mock feature dictionary
  // ---------------------------------------------------------------------

  /**
   * The example's stand-in for the feature pipeline: the same 21 names in
   * the same order, the content features computed, but `tags.split(',')`
   * counted without the empty-text guard and every upload-time feature a
   * constant (14 o'clock, Tuesday, January, weekday, ten days old).
   */
  function ProcessVideoFeatures(v: VideoData, m: Transcendentals): (f: FeatureValues)
    ensures f.tagsCount == (multiset(v.tags)[','] + 1) as real
    ensures f.uploadHour == 14.0 && f.uploadDayOfWeek == 1.0 && f.uploadMonth == 1.0
    ensures f.isWeekend == 0.0 && f.daysSinceUpload == 10.0
  {
    SplitCount(v.tags, ',');
    FeatureValues(
      v.duration as real,  // duration
      DurationMinutes(v.duration),  // duration_minutes
      m.log1p(v.duration as real),  // log_duration
      v.likeCount as real,  // like_count
      v.dislikeCount as real,  // dislike_count
      LikeRatio(v.likeCount, v.dislikeCount),  // like_ratio
      EngagementRate(v.likeCount, v.dislikeCount),  // engagement_rate
      |v.title| as real,  // title_length
      |v.description| as real,  // description_length
      |Split(v.tags, ',')| as real,  // tags_count
      WordCount(v.title) as real,  // title_word_count
      14.0,  // upload_hour
      1.0,  // upload_day_of_week
      1.0,  // upload_month
      0.0,  // is_weekend
      m.sin(2.0 * m.pi * 14.0 / 24.0),  // upload_hour_sin
      m.cos(2.0 * m.pi * 14.0 / 24.0),  // upload_hour_cos
      m.sin(2.0 * m.pi * 1.0 / 7.0),  // upload_day_sin
      m.cos(2.0 * m.pi * 1.0 / 7.0),  // upload_day_cos
      10.0,  // days_since_upload
      m.log1p(10.0)  // log_days_since_upload
    )
  }

  /**
   * The mock and the real pipeline agree on every content feature and on
   * the tag count of a non-empty tag text; on an empty one the mock counts
   * one tag where the pipeline counts none.
   */
  lemma MockAgreesOnContent(v: VideoData, up: Upload, today: int, m: Transcendentals)
    ensures var mock, pipeline := ProcessVideoFeatures(v, m), ComputedFeatures(v, up, today, m);
      && (forall i :: 0 <= i < 11 ==> i != 9 ==> mock.At(i) == pipeline.At(i))
      && (v.tags != [] ==> mock.tagsCount == pipeline.tagsCount)
      && (v.tags == [] ==> mock.tagsCount == 1.0 && pipeline.tagsCount == 0.0)
  {
  }

  // ---------------------------------------------------------------------
  // predict_video_views: band, truncation and quality label
  // ---------------------------------------------------------------------

  /** A loaded regressor: one feature row to a prediction on the log scale. */
  type Regressor = seq<real> -> real

  /** A loaded, already fitted scaler: one feature row to a scaled row. */
  type Scaler = seq<real> -> seq<real>

  /** `feature_df.values` of a one-row frame. */
  function Values(cols: seq<Column>): (row: seq<real>)
    ensures |row| == |cols|
    ensures forall i :: 0 <= i < |cols| ==> row[i] == cols[i].value
  {
    seq(|cols|, i requires 0 <= i < |cols| => cols[i].value)
  }

  /**
   * The number lines 106-120 arrive at: the row is scaled when a scaler is
   * loaded; a loaded regressor predicts on the log scale and `expm1` brings
   * the result back; with no regressor the number is the draw of
   * `np.random.randint(10000, 1000000)`, passed in as `draw`.
   */
  function RawPrediction(features: seq<Column>, model: Option<Regressor>, scaler: Option<Scaler>,
                         draw: int, m: Transcendentals): real
  {
    var row := Values(features);
    var x := if scaler.Some? then scaler.value(row) else row;
    if model.Some? then m.expm1(model.value(x)) else draw as real
  }

  /** `int(x)`: truncation toward zero. */
  function Trunc(x: real): (n: int)
    ensures x >= 0.0 ==> n >= 0 && n as real <= x < n as real + 1.0
    ensures x < 0.0 ==> n <= 0 && n as real - 1.0 < x <= n as real
  {
    if x >= 0.0 then x.Floor else -((-x).Floor)
  }

  lemma TruncMonotone(x: real, y: real)
    requires x <= y
    ensures Trunc(x) <= Trunc(y)
  {
  }

  datatype Quality = High | Medium | Low {
    function Text(): string {
      match this
      case High => "High"
      case Medium => "Medium"
      case Low => "Low"
    }
  }

  /** `'High' if p > 100000 else 'Medium' if p > 10000 else 'Low'`. */
  function QualityLabel(p: real): (q: Quality)
    ensures q == High <==> p > 100000.0
    ensures q == Medium <==> 10000.0 < p <= 100000.0
    ensures q == Low <==> p <= 10000.0
  {
    if p > 100000.0 then High else if p > 10000.0 then Medium else Low
  }

  function QualityRank(q: Quality): nat {
    match q
    case Low => 0
    case Medium => 1
    case High => 2
  }

  /** A larger prediction never gets a lower quality label. */
  lemma QualityMonotone(p: real, q: real)
    requires p <= q
    ensures QualityRank(QualityLabel(p)) <= QualityRank(QualityLabel(q))
  {
  }

  /** The dictionary `predict_video_views` returns. */
  datatype ViewPrediction = ViewPrediction(
    predictedViews: int,
    confidenceLower: int,
    confidenceUpper: int,
    confidenceRange: string,
    quality: Quality)

  /** `f"{lower:,} - {upper:,}"`. */
  function RangeText(lower: int, upper: int): string {
    GroupedInt(lower) + " - " + GroupedInt(upper)
  }

  /** The range text splits back into its two numbers around the `" - "`. */
  lemma RangeTextReadsBack(lower: int, upper: int)
    ensures var s, k := RangeText(lower, upper), |GroupedInt(lower)|;
      && k + 3 <= |s|
      && s[k..k + 3] == " - "
      && IntValue(s[..k]) == lower
      && IntValue(s[k + 3..]) == upper
  {
    var s, k := RangeText(lower, upper), |GroupedInt(lower)|;
    assert s[..k] == GroupedInt(lower);
    assert s[k + 3..] == GroupedInt(upper);
    GroupedIntValue(lower);
    GroupedIntValue(upper);
  }

  /**
   * Lines 122-132 on a prediction `p`: the band of 0.7 and 1.3 times `p`,
   * every number truncated to an integer, the range rendered with
   * thousands separators, and the label taken from `p` itself.
   */
  function Predict(p: real): (r: ViewPrediction)
    ensures r.predictedViews == Trunc(p)
    ensures r.confidenceLower == Trunc(Ensemble.Band(p).0) && r.confidenceUpper == Trunc(Ensemble.Band(p).1)
    ensures p >= 0.0 ==> 0 <= r.confidenceLower <= r.predictedViews <= r.confidenceUpper
    ensures r.confidenceRange == RangeText(r.confidenceLower, r.confidenceUpper)
    ensures r.quality == QualityLabel(p)
  {
    var band := Ensemble.Band(p);
    var lower, upper := Trunc(band.0), Trunc(band.1);
    TruncatedBand(p);
    ViewPrediction(Trunc(p), lower, upper, RangeText(lower, upper), QualityLabel(p))
  }

  /** Truncation keeps the order of the band around a non-negative prediction. */
  lemma TruncatedBand(p: real)
    ensures p >= 0.0 ==>
      0 <= Trunc(Ensemble.Band(p).0) <= Trunc(p) <= Trunc(Ensemble.Band(p).1)
  {
    if p >= 0.0 {
      TruncMonotone(Ensemble.Band(p).0, p);
      TruncMonotone(p, Ensemble.Band(p).1);
    }
  }

  /**
   * `VideoPredictionExample`: the regressor and the scaler it holds, which
   * `load_models` sets together or not at all.
   */
  class VideoPredictionExample {
    var model: Option<Regressor>
    var scaler: Option<Scaler>

    /**
     * Either both models are loaded or neither is: the outcome `load_models`
     * leaves behind, which the constructor and `LoadModels` establish. No
     * other operation relies on it, since prediction checks each field.
     */
    predicate Valid()
      reads this
    {
      model.Some? <==> scaler.Some?
    }

    /** `__init__`: start with nothing loaded, then `load_models`. */
    constructor (loaded: Option<(Regressor, Scaler)>)
      ensures Valid()
      ensures model == (if loaded.Some? then Some(loaded.value.0) else None)
      ensures scaler == (if loaded.Some? then Some(loaded.value.1) else None)
    {
      model := None;
      scaler := None;
      new;
      LoadModels(loaded);
    }

    /**
     * `load_models`: `loaded` is what the two `joblib.load` calls return,
     * `None` when either of them raises; the `except` branch then leaves
     * both fields empty.
     */
    method LoadModels(loaded: Option<(Regressor, Scaler)>)
      modifies this
      ensures Valid()
      ensures model == (if loaded.Some? then Some(loaded.value.0) else None)
      ensures scaler == (if loaded.Some? then Some(loaded.value.1) else None)
    {
      match loaded
      case Some(pair) =>
        model := Some(pair.0);
        scaler := Some(pair.1);
      case None =>
        model := None;
        scaler := None;
    }

    /**
     * `predict_video_views`: the mock features, the held models (or the
     * draw), then the band and label of `Predict`. Without a model the
     * prediction is the draw itself.
     */
    method PredictVideoViews(v: VideoData, draw: int, m: Transcendentals) returns (r: ViewPrediction)
      ensures r == Predict(RawPrediction(FeatureRow(ProcessVideoFeatures(v, m)), model, scaler, draw, m))
      ensures model.None? ==> r.predictedViews == draw
    {
      var features := FeatureRow(ProcessVideoFeatures(v, m));
      var row := Values(features);
      if scaler.Some? {
        row := scaler.value(row);
      }
      var prediction: real;
      if model.Some? {
        prediction := m.expm1(model.value(row));
      } else {
        prediction := draw as real;
        assert (draw as real).Floor == draw;
      }
      r := Predict(prediction);
    }
  }

  /**
   * Without a model the draw is its own prediction. Of the draws
   * `randint(10000, 1000000)` can return, only the lowest, 10000 itself,
   * is labelled Low, because the Medium cut-off is a strict `>`.
   */
  lemma MockPrediction(features: seq<Column>, scaler: Option<Scaler>, draw: int, m: Transcendentals)
    requires 10000 <= draw < 1000000
    ensures var r := Predict(RawPrediction(features, None, scaler, draw, m));
      && r.predictedViews == draw
      && (r.quality == Low <==> draw == 10000)
      && (r.quality == High <==> draw > 100000)
  {
    assert (draw as real).Floor == draw;
  }

  // ---------------------------------------------------------------------
  // generate_detailed_output: the formatted fields
  // ---------------------------------------------------------------------

  /** The description shown: at most 100 characters, then `"..."` when cut. */
  function ShownDescription(d: string): (s: string)
    ensures |d| <= 100 ==> s == d
    ensures |d| > 100 ==> s == d[..100] + "..." && |s| == 103
  {
    if |d| > 100 then d[..100] + "..." else d
  }

  /** Showing a shown description again changes nothing. */
  lemma ShownDescriptionIdempotent(d: string)
    ensures ShownDescription(ShownDescription(d)) == ShownDescription(d)
  {
    if |d| > 100 {
      var s := ShownDescription(d);
      assert s[..100] == d[..100];
    }
  }

  /** `f"{d // 60}:{d % 60:02d}"`; for a positive divisor Python's `//` and `%` are Dafny's. */
  function FormatDuration(d: int): string {
    IntText(d / 60) + ":" + Pad2(d % 60)
  }

  /** Reads `m:ss` back: minutes (possibly signed) and two digits of seconds. */
  function ParseDuration(s: string): Option<int> {
    var parts := Split(s, ':');
    if |parts| == 2 then Some(IntValue(parts[0]) * 60 + DigitsValue(parts[1])) else None
  }

  /** Every duration, negative ones included, is read back from its `m:ss` text. */
  lemma DurationRoundTrip(d: int)
    ensures ParseDuration(FormatDuration(d)) == Some(d)
  {
    var minutes, seconds := IntText(d / 60), Pad2(d % 60);
    IntTextChars(d / 60);
    assert ':' !in minutes;
    assert ':' !in seconds;
    assert FormatDuration(d) == minutes + [':'] + seconds;
    SplitAround(minutes, ':', seconds);
    IntTextValue(d / 60);
    Pad2Value(d % 60);
  }

  datatype Performance = Viral | Strong | Moderate | Niche {
    function Text(): string {
      match this
      case Viral => "Viral potential - High chance of going viral"
      case Strong => "Strong performance - Expected to perform well"
      case Moderate => "Moderate performance - Decent viewership expected"
      case Niche => "Niche content - Targeted audience expected"
    }
  }

  /** `_get_performance_analysis`: strict cut-offs at one million, 100 000 and 10 000. */
  function PerformanceAnalysis(views: int): (r: Performance)
    ensures r == Viral <==> views > 1000000
    ensures r == Strong <==> 100000 < views <= 1000000
    ensures r == Moderate <==> 10000 < views <= 100000
    ensures r == Niche <==> views <= 10000
  {
    if views > 1000000 then Viral
    else if views > 100000 then Strong
    else if views > 10000 then Moderate
    else Niche
  }

  function PerformanceRank(r: Performance): nat {
    match r
    case Niche => 0
    case Moderate => 1
    case Strong => 2
    case Viral => 3
  }

  /** More predicted views never give a weaker verdict. */
  lemma PerformanceMonotone(a: int, b: int)
    requires a <= b
    ensures PerformanceRank(PerformanceAnalysis(a)) <= PerformanceRank(PerformanceAnalysis(b))
  {
  }

  // ---------------------------------------------------------------------
  // _get_key_factors
  // ---------------------------------------------------------------------

  datatype KeyFactor = LongForm | ShortForm | HighEngagement | Educational | Entertainment | StandardFactors {
    function Text(): string {
      match this
      case LongForm => "Long-form content (good for educational videos)"
      case ShortForm => "Short-form content (good for entertainment)"
      case HighEngagement => "High engagement potential"
      case Educational => "Educational content (good for long-term views)"
      case Entertainment => "Entertainment content (good for immediate views)"
      case StandardFactors => "Standard content factors"
    }
  }

  predicate IsEducational(title: string) {
    Contains(Lower(title), "tutorial") || Contains(Lower(title), "how to")
  }

  predicate IsEntertainment(title: string) {
    Contains(Lower(title), "funny") || Contains(Lower(title), "compilation")
  }

  /** The factors the four rules append, in order, before the fallback. */
  function KeyFactorRules(v: VideoData): seq<KeyFactor> {
    Opt(v.duration > 1800, LongForm)
    + Opt(!(v.duration > 1800) && v.duration < 300, ShortForm)
    + Opt(v.likeCount > 1000, HighEngagement)
    + Opt(IsEducational(v.title), Educational)
    + Opt(IsEntertainment(v.title), Entertainment)
  }

  /** `factors if factors else ["Standard content factors"]`. */
  function KeyFactorList(v: VideoData): seq<KeyFactor> {
    var factors := KeyFactorRules(v);
    if factors == [] then [StandardFactors] else factors
  }

  method KeyFactors(v: VideoData) returns (factors: seq<KeyFactor>)
    ensures factors == KeyFactorList(v)
  {
    factors := [];
    if v.duration > 1800 {
      factors := factors + [LongForm];
    } else if v.duration < 300 {
      factors := factors + [ShortForm];
    }
    ghost var expected := Opt(v.duration > 1800, LongForm) + Opt(!(v.duration > 1800) && v.duration < 300, ShortForm);
    AppendOpt(Opt(v.duration > 1800, LongForm), !(v.duration > 1800) && v.duration < 300, ShortForm);
    assert factors == expected;
    AppendOpt(expected, v.likeCount > 1000, HighEngagement);
    expected := expected + Opt(v.likeCount > 1000, HighEngagement);
    if v.likeCount > 1000 {
      factors := factors + [HighEngagement];
    }
    AppendOpt(expected, IsEducational(v.title), Educational);
    expected := expected + Opt(IsEducational(v.title), Educational);
    if Contains(Lower(v.title), "tutorial") || Contains(Lower(v.title), "how to") {
      factors := factors + [Educational];
    }
    AppendOpt(expected, IsEntertainment(v.title), Entertainment);
    expected := expected + Opt(IsEntertainment(v.title), Entertainment);
    if Contains(Lower(v.title), "funny") || Contains(Lower(v.title), "compilation") {
      factors := factors + [Entertainment];
    }
    assert factors == KeyFactorRules(v);
    if factors == [] {
      factors := [StandardFactors];
    }
  }

  /**
   * The key factors are never empty; each rule's factor is present exactly
   * when its condition holds; at most one duration factor appears; and the
   * fallback is the whole answer exactly when no rule fires.
   */
  lemma KeyFactorListMeaning(v: VideoData)
    ensures var f := KeyFactorList(v);
      && 1 <= |f| <= 4
      && (LongForm in f <==> v.duration > 1800)
      && (ShortForm in f <==> v.duration < 300)
      && !(LongForm in f && ShortForm in f)
      && (HighEngagement in f <==> v.likeCount > 1000)
      && (Educational in f <==> IsEducational(v.title))
      && (Entertainment in f <==> IsEntertainment(v.title))
      && (f == [StandardFactors] <==>
            300 <= v.duration <= 1800 && v.likeCount <= 1000 && !IsEducational(v.title) && !IsEntertainment(v.title))
  {
    var rules := KeyFactorRules(v);
    KeyFactorRulesMembers(v);
    assert StandardFactors !in rules;
    assert rules == [] <==> !(LongForm in rules || ShortForm in rules || HighEngagement in rules
                              || Educational in rules || Entertainment in rules);
  }

  /** A factor is among those the rules produce exactly when its own rule fires. */
  lemma KeyFactorRulesMembers(v: VideoData)
    ensures forall y: KeyFactor :: y in KeyFactorRules(v) <==>
      (v.duration > 1800 && y == LongForm) || (!(v.duration > 1800) && v.duration < 300 && y == ShortForm)
      || (v.likeCount > 1000 && y == HighEngagement) || (IsEducational(v.title) && y == Educational)
      || (IsEntertainment(v.title) && y == Entertainment)
  {
    var a, b, c := v.duration > 1800, !(v.duration > 1800) && v.duration < 300, v.likeCount > 1000;
    var d, e := IsEducational(v.title), IsEntertainment(v.title);
    var r1 := Opt(a, LongForm);
    var r2 := r1 + Opt(b, ShortForm);
    var r3 := r2 + Opt(c, HighEngagement);
    var r4 := r3 + Opt(d, Educational);
    var rules := r4 + Opt(e, Entertainment);
    forall y: KeyFactor
      ensures y in rules <==> (a && y == LongForm) || (b && y == ShortForm) || (c && y == HighEngagement)
                              || (d && y == Educational) || (e && y == Entertainment)
    {
      InAppendOpt(r1, b, ShortForm, y);
      InAppendOpt(r2, c, HighEngagement, y);
      InAppendOpt(r3, d, Educational, y);
      InAppendOpt(r4, e, Entertainment, y);
    }
    assert rules == KeyFactorRules(v);
  }

  // ---------------------------------------------------------------------
  // _get_recommendations
  // ---------------------------------------------------------------------

  datatype Recommendation =
    | OptimizeTitle | EngagingThumbnail | KeywordDescription | ShorterSegments | ImproveEngagement | LooksGood
  {
    function Text(): string {
      match this
      case OptimizeTitle => "Consider optimizing title for better discoverability"
      case EngagingThumbnail => "Add more engaging thumbnail"
      case KeywordDescription => "Improve video description with keywords"
      case ShorterSegments => "Consider breaking into shorter segments"
      case ImproveEngagement => "Focus on improving content engagement"
      case LooksGood => "Content looks good - no major changes needed"
    }
  }

  /** The three fixed messages for a prediction under 50 000 views. */
  const LowViewAdvice: seq<Recommendation> := [OptimizeTitle, EngagingThumbnail, KeywordDescription]

  /** The recommendations the three rules append, in order, before the fallback. */
  function RecommendationRules(v: VideoData, views: int): seq<Recommendation> {
    (if views < 50000 then LowViewAdvice else [])
    + Opt(v.duration > 2400, ShorterSegments)
    + Opt(v.likeCount < 100, ImproveEngagement)
  }

  /** `recommendations if recommendations else ["Content looks good - ..."]`. */
  function RecommendationList(v: VideoData, views: int): seq<Recommendation> {
    var recs := RecommendationRules(v, views);
    if recs == [] then [LooksGood] else recs
  }

  method Recommendations(v: VideoData, views: int) returns (recs: seq<Recommendation>)
    ensures recs == RecommendationList(v, views)
  {
    recs := [];
    if views < 50000 {
      recs := recs + [OptimizeTitle];
      recs := recs + [EngagingThumbnail];
      recs := recs + [KeywordDescription];
    }
    if v.duration > 2400 {
      recs := recs + [ShorterSegments];
    }
    if v.likeCount < 100 {
      recs := recs + [ImproveEngagement];
    }
    if recs == [] {
      recs := [LooksGood];
    }
  }

  /**
   * The recommendations are never empty; under 50 000 views they open with
   * the three fixed messages; the other two rules are present exactly when
   * their conditions hold; the fallback is the answer exactly when no rule
   * fires.
   */
  lemma RecommendationListMeaning(v: VideoData, views: int)
    ensures var r := RecommendationList(v, views);
      && 1 <= |r| <= 5
      && (views < 50000 ==> r[..3] == LowViewAdvice)
      && (OptimizeTitle in r <==> views < 50000)
      && (EngagingThumbnail in r <==> views < 50000)
      && (KeywordDescription in r <==> views < 50000)
      && (ShorterSegments in r <==> v.duration > 2400)
      && (ImproveEngagement in r <==> v.likeCount < 100)
      && (r == [LooksGood] <==> views >= 50000 && v.duration <= 2400 && v.likeCount >= 100)
  {
    var r := RecommendationList(v, views);
    if views < 50000 {
      assert r == LowViewAdvice + Opt(v.duration > 2400, ShorterSegments) + Opt(v.likeCount < 100, ImproveEngagement);
      assert r[..3] == LowViewAdvice;
      assert r[1] == EngagingThumbnail && r[2] == KeywordDescription;
    }
  }

  // ---------------------------------------------------------------------
  // generate_detailed_output
  // ---------------------------------------------------------------------

  datatype VideoInfo = VideoInfo(
    title: string,
    description: string,
    duration: string,
    uploadDate: Calendar.Date,
    tags: string)

  datatype PredictionInfo = PredictionInfo(predictedViews: string, confidenceRange: string, quality: Quality)

  datatype Analysis = Analysis(
    expectedPerformance: Performance,
    keyFactors: seq<KeyFactor>,
    recommendations: seq<Recommendation>)

  datatype DetailedOutput = DetailedOutput(videoInfo: VideoInfo, prediction: PredictionInfo, analysis: Analysis)

  /**
   * `generate_detailed_output(video_data, prediction)`: the video's fields
   * formatted for display, the prediction's views with thousands separators
   * (which read back as the number), and the three analyses.
   */
  method GenerateDetailedOutput(v: VideoData, p: ViewPrediction) returns (out: DetailedOutput)
    ensures out.videoInfo == VideoInfo(v.title, ShownDescription(v.description), FormatDuration(v.duration), v.uploadDate, v.tags)
    ensures ParseDuration(out.videoInfo.duration) == Some(v.duration)
    ensures out.prediction == PredictionInfo(GroupedInt(p.predictedViews), p.confidenceRange, p.quality)
    ensures IntValue(out.prediction.predictedViews) == p.predictedViews
    ensures out.analysis.expectedPerformance == PerformanceAnalysis(p.predictedViews)
    ensures out.analysis.keyFactors == KeyFactorList(v)
    ensures out.analysis.recommendations == RecommendationList(v, p.predictedViews)
  {
    var info := VideoInfo(v.title, ShownDescription(v.description), FormatDuration(v.duration), v.uploadDate, v.tags);
    DurationRoundTrip(v.duration);
    var shown := PredictionInfo(GroupedInt(p.predictedViews), p.confidenceRange, p.quality);
    GroupedIntValue(p.predictedViews);
    var factors := KeyFactors(v);
    var recs := Recommendations(v, p.predictedViews);
    out := DetailedOutput(info, shown, Analysis(PerformanceAnalysis(p.predictedViews), factors, recs));
  }
}
