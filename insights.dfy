/**
 * `generate_detailed_success_factors`: fixed if/elif rules that append
 * messages to six categories. Each message is a tag here; the emoji text
 * the code prints is not modelled.
 */
module Insights {
  import opened Common
  import opened Text
  import opened Calendar
  import opened Features

  datatype ContentMsg =
    | OptimalDuration | ShortDuration | LongDuration | GoodDuration
    | StrongTitle | ShortTitle | AdequateTitle
    | DetailedDescription | GoodDescription | ShortDescription

  datatype TimingMsg = PrimeTime | EveningTime | MorningTime | OffPeakTime | WeekendUpload | WeekdayUpload

  datatype EngagementMsg =
    | ExcellentLikeRatio | HighLikeRatio | GoodLikeRatio | ModerateLikeRatio | LowLikeRatio
    | HighEngagementRate | GoodEngagementRate | LowEngagementRate

  datatype SeoMsg =
    | ExcellentTags | GoodTags | ModerateTags | LowTags
    | EducationalKeywords | ReviewKeywords | TrendingKeywords

  datatype PerformanceMsg =
    | ViralPotential | StrongPerformance | GoodPerformance | ModeratePerformance | LowPerformance
    | HighAgreement | GoodAgreement | MixedAgreement

  datatype ImprovementMsg =
    | ExtendContent | SplitContent | DescriptiveTitle | ExpandDescription | MoreTags
    | WeekdayAfternoon | MoreEngaging | TutorialStructure | ReviewStructure | GamingStructure

  /** The six categories of the report, each an ordered list of messages. */
  datatype Report = Report(
    content: seq<ContentMsg>,
    timing: seq<TimingMsg>,
    engagement: seq<EngagementMsg>,
    seo: seq<SeoMsg>,
    performance: seq<PerformanceMsg>,
    improvement: seq<ImprovementMsg>)

  const EducationalWords: seq<string> := ["tutorial", "how to", "guide", "learn"]
  const ReviewWords: seq<string> := ["review", "test", "unboxing"]
  const TrendingWords: seq<string> := ["2024", "new", "latest"]
  const TutorialWords: seq<string> := ["tutorial", "how to"]
  const GamingWords: seq<string> := ["gaming", "game"]

  // ---------------------------------------------------------------------
  // Real thresholds restated on integers
  // ---------------------------------------------------------------------

  /** Multiplying both sides by a positive number keeps a strict comparison. */
  lemma ScaleCompare(r: real, t: real, c: real)
    requires t > 0.0
    ensures r > c <==> r * t > c * t
    ensures r < c <==> r * t < c * t
  {
    if r > c {
      assert (r - c) * t > 0.0;
    } else if r < c {
      assert (c - r) * t > 0.0;
    } else {
      assert r * t == c * t;
    }
  }

  /** `like_ratio` against a cut-off `c`, without division. */
  lemma RatioCompare(likes: nat, dislikes: nat, c: real)
    ensures LikeRatio(likes, dislikes) > c <==> likes as real > c * (likes + dislikes + 1) as real
    ensures LikeRatio(likes, dislikes) < c <==> likes as real < c * (likes + dislikes + 1) as real
  {
    ScaleCompare(LikeRatio(likes, dislikes), (likes + dislikes + 1) as real, c);
  }

  /** `like_ratio > c` for the cut-offs the rules use, read on the counts. */
  lemma LikeRatioAbove(likes: nat, dislikes: nat)
    ensures LikeRatio(likes, dislikes) > 0.9 <==> likes > 9 * (dislikes + 1)
    ensures LikeRatio(likes, dislikes) > 0.8 <==> likes > 4 * (dislikes + 1)
    ensures LikeRatio(likes, dislikes) > 0.7 <==> 3 * likes > 7 * (dislikes + 1)
    ensures LikeRatio(likes, dislikes) > 0.5 <==> likes > dislikes + 1
    ensures LikeRatio(likes, dislikes) < 0.8 <==> likes < 4 * (dislikes + 1)
  {
    RatioCompare(likes, dislikes, 0.9);
    RatioCompare(likes, dislikes, 0.8);
    RatioCompare(likes, dislikes, 0.7);
    RatioCompare(likes, dislikes, 0.5);
  }

  // ---------------------------------------------------------------------
  // The single-message rules
  // ---------------------------------------------------------------------

  /** `10 <= duration/60 <= 20`, `< 5`, `> 30`, otherwise. */
  function DurationVerdict(duration: int): (m: ContentMsg)
    ensures m == OptimalDuration <==> 600 <= duration <= 1200
    ensures m == ShortDuration <==> duration < 300
    ensures m == LongDuration <==> duration > 1800
    ensures m == GoodDuration <==> 300 <= duration < 600 || 1200 < duration <= 1800
  {
    var minutes := DurationMinutes(duration);
    if 10.0 <= minutes <= 20.0 then OptimalDuration
    else if minutes < 5.0 then ShortDuration
    else if minutes > 30.0 then LongDuration
    else GoodDuration
  }

  /** The title rule: strong above 40 characters, short below 20, adequate in between. */
  function TitleVerdict(titleLength: nat): (m: ContentMsg)
    ensures m == StrongTitle <==> titleLength > 40
    ensures m == ShortTitle <==> titleLength < 20
    ensures m == AdequateTitle <==> 20 <= titleLength <= 40
  {
    if titleLength > 40 then StrongTitle
    else if titleLength < 20 then ShortTitle
    else AdequateTitle
  }

  /** The description rule: detailed above 100 characters, good above 50, short otherwise. */
  function DescriptionVerdict(descriptionLength: nat): (m: ContentMsg)
    ensures m == DetailedDescription <==> descriptionLength > 100
    ensures m == GoodDescription <==> 50 < descriptionLength <= 100
    ensures m == ShortDescription <==> descriptionLength <= 50
  {
    if descriptionLength > 100 then DetailedDescription
    else if descriptionLength > 50 then GoodDescription
    else ShortDescription
  }

  /** The hour rule: prime time 14-18, evening 19-22, morning 9-13, off-peak at every other hour. */
  function HourVerdict(hour: int): (m: TimingMsg)
    ensures m == PrimeTime <==> 14 <= hour <= 18
    ensures m == EveningTime <==> 19 <= hour <= 22
    ensures m == MorningTime <==> 9 <= hour <= 13
    ensures m == OffPeakTime <==> hour < 9 || hour > 22
  {
    if 14 <= hour <= 18 then PrimeTime
    else if 19 <= hour <= 22 then EveningTime
    else if 9 <= hour <= 13 then MorningTime
    else OffPeakTime
  }

  /** The like-ratio rule, with its cut-offs 0.9, 0.8, 0.7 and 0.5 read on the counts. */
  function LikeRatioVerdict(likes: nat, dislikes: nat): (m: EngagementMsg)
    ensures m == ExcellentLikeRatio <==> likes > 9 * (dislikes + 1)
    ensures m == HighLikeRatio <==> 4 * (dislikes + 1) < likes <= 9 * (dislikes + 1)
    ensures m == GoodLikeRatio <==> 7 * (dislikes + 1) < 3 * likes && likes <= 4 * (dislikes + 1)
    ensures m == ModerateLikeRatio <==> dislikes + 1 < likes && 3 * likes <= 7 * (dislikes + 1)
    ensures m == LowLikeRatio <==> likes <= dislikes + 1
  {
    LikeRatioAbove(likes, dislikes);
    var ratio := LikeRatio(likes, dislikes);
    if ratio > 0.9 then ExcellentLikeRatio
    else if ratio > 0.8 then HighLikeRatio
    else if ratio > 0.7 then GoodLikeRatio
    else if ratio > 0.5 then ModerateLikeRatio
    else LowLikeRatio
  }

  /** The engagement rule: `engagement_rate > 10` is more than ten thousand likes and dislikes. */
  function EngagementRateVerdict(likes: nat, dislikes: nat): (m: EngagementMsg)
    ensures m == HighEngagementRate <==> likes + dislikes > 10000
    ensures m == GoodEngagementRate <==> 5000 < likes + dislikes <= 10000
    ensures m == LowEngagementRate <==> likes + dislikes <= 5000
  {
    var rate := EngagementRate(likes, dislikes);
    if rate > 10.0 then HighEngagementRate
    else if rate > 5.0 then GoodEngagementRate
    else LowEngagementRate
  }

  /** The tag rule: excellent above 10 tags, good above 5, moderate above 2, low otherwise. */
  function TagCoverage(tagsCount: nat): (m: SeoMsg)
    ensures m == ExcellentTags <==> tagsCount > 10
    ensures m == GoodTags <==> 5 < tagsCount <= 10
    ensures m == ModerateTags <==> 2 < tagsCount <= 5
    ensures m == LowTags <==> tagsCount <= 2
  {
    if tagsCount > 10 then ExcellentTags
    else if tagsCount > 5 then GoodTags
    else if tagsCount > 2 then ModerateTags
    else LowTags
  }

  /** The performance rule on the best estimate, with strict cut-offs at 50000, 20000, 10000 and 5000 views. */
  function PerformanceVerdict(best: real): (m: PerformanceMsg)
    ensures m == ViralPotential <==> best > 50000.0
    ensures m == StrongPerformance <==> 20000.0 < best <= 50000.0
    ensures m == GoodPerformance <==> 10000.0 < best <= 20000.0
    ensures m == ModeratePerformance <==> 5000.0 < best <= 10000.0
    ensures m == LowPerformance <==> best <= 5000.0
  {
    if best > 50000.0 then ViralPotential
    else if best > 20000.0 then StrongPerformance
    else if best > 10000.0 then GoodPerformance
    else if best > 5000.0 then ModeratePerformance
    else LowPerformance
  }

  // ---------------------------------------------------------------------
  // Model agreement
  // ---------------------------------------------------------------------

  function Sum(xs: seq<real>): real {
    if xs == [] then 0.0 else Sum(xs[..|xs| - 1]) + xs[|xs| - 1]
  }

  function Mean(xs: seq<real>): real
    requires |xs| > 0
  {
    Sum(xs) / |xs| as real
  }

  /** The sum of squared deviations from `center`. */
  function SquaredDeviations(xs: seq<real>, center: real): real {
    if xs == [] then 0.0
    else SquaredDeviations(xs[..|xs| - 1], center) + (xs[|xs| - 1] - center) * (xs[|xs| - 1] - center)
  }

  /** `np.std(xs) ** 2`: the population variance. */
  function Variance(xs: seq<real>): real
    requires |xs| > 0
  {
    SquaredDeviations(xs, Mean(xs)) / |xs| as real
  }

  /** The rule as the code writes it, on the coefficient of variation. */
  function CvVerdict(cv: real): (m: PerformanceMsg)
    ensures m == HighAgreement <==> cv < 0.1
    ensures m == GoodAgreement <==> 0.1 <= cv < 0.2
    ensures m == MixedAgreement <==> cv >= 0.2
  {
    if cv < 0.1 then HighAgreement else if cv < 0.2 then GoodAgreement else MixedAgreement
  }

  /**
   * The agreement rule: `cv = std/mean` (0 when the mean is not positive),
   * then the cut-offs 0.1 and 0.2. The square root of `np.std` is the
   * uninterpreted `sqrt`. An empty list gives a NaN mean in numpy, which
   * fails `mean > 0`, so cv is 0.
   */
  function AgreementVerdict(xs: seq<real>, sqrt: real -> real): (m: PerformanceMsg)
    ensures m == HighAgreement || m == GoodAgreement || m == MixedAgreement
    ensures (|xs| == 0 || Mean(xs) <= 0.0) ==> m == HighAgreement
    ensures |xs| > 0 && Mean(xs) > 0.0 ==> m == CvVerdict(sqrt(Variance(xs)) / Mean(xs))
  {
    var cv := if |xs| > 0 && Mean(xs) > 0.0 then sqrt(Variance(xs)) / Mean(xs) else 0.0;
    CvVerdict(cv)
  }

  /**
   * The same rule without the square root: the population variance against
   * `(0.1·mean)²` and `(0.2·mean)²`.
   */
  function VarianceVerdict(xs: seq<real>): (m: PerformanceMsg)
    ensures m == HighAgreement || m == GoodAgreement || m == MixedAgreement
  {
    if |xs| > 0 && Mean(xs) > 0.0 then
      var low, high := 0.1 * Mean(xs), 0.2 * Mean(xs);
      if Variance(xs) < low * low then HighAgreement
      else if Variance(xs) < high * high then GoodAgreement
      else MixedAgreement
    else HighAgreement
  }

  /** Between non-negative numbers, squaring keeps a strict comparison. */
  lemma SquareCompare(a: real, b: real)
    requires a >= 0.0 && b >= 0.0
    ensures a < b <==> a * a < b * b
  {
    if a < b {
      assert a * (b - a) >= 0.0;
      assert (b - a) * b > 0.0;
      assert b * b - a * a == a * (b - a) + (b - a) * b;
    } else {
      assert b * (a - b) >= 0.0;
      assert (a - b) * a >= 0.0;
      assert a * a - b * b == b * (a - b) + (a - b) * a;
    }
  }

  /** `std / mean < c` exactly when `variance < (c·mean)²`, for a positive mean and cut-off. */
  lemma CvCompare(sd: real, mean: real, c: real)
    requires sd >= 0.0 && mean > 0.0 && c > 0.0
    ensures sd / mean < c <==> sd * sd < (c * mean) * (c * mean)
  {
    ScaleCompare(sd / mean, mean, c);
    assert sd / mean * mean == sd;
    SquareCompare(sd, c * mean);
  }

  /**
   * Whenever `sqrt` is a true square root on the variance, the rule on the
   * coefficient of variation and the rule on the variance give the same message.
   */
  lemma AgreementWithoutRoot(xs: seq<real>, sqrt: real -> real)
    requires |xs| > 0 && Mean(xs) > 0.0 ==>
      sqrt(Variance(xs)) >= 0.0 && sqrt(Variance(xs)) * sqrt(Variance(xs)) == Variance(xs)
    ensures AgreementVerdict(xs, sqrt) == VarianceVerdict(xs)
  {
    if |xs| > 0 && Mean(xs) > 0.0 {
      var sd, mean := sqrt(Variance(xs)), Mean(xs);
      CvCompare(sd, mean, 0.1);
      CvCompare(sd, mean, 0.2);
    }
  }

  lemma {:induction false} SumConstant(xs: seq<real>, c: real)
    requires forall i :: 0 <= i < |xs| ==> xs[i] == c
    ensures Sum(xs) == |xs| as real * c
  {
    if xs != [] {
      SumConstant(xs[..|xs| - 1], c);
      assert Sum(xs) == (|xs| - 1) as real * c + c;
    }
  }

  lemma {:induction false} SquaredDeviationsAtConstant(xs: seq<real>, c: real)
    requires forall i :: 0 <= i < |xs| ==> xs[i] == c
    ensures SquaredDeviations(xs, c) == 0.0
  {
    if xs != [] {
      SquaredDeviationsAtConstant(xs[..|xs| - 1], c);
    }
  }

  /** When every model gives the same estimate, the models agree highly. */
  lemma UnanimousAgreement(xs: seq<real>, sqrt: real -> real)
    requires sqrt(0.0) == 0.0
    requires forall i :: 0 <= i < |xs| ==> xs[i] == xs[0]
    ensures AgreementVerdict(xs, sqrt) == HighAgreement
  {
    if |xs| > 0 {
      var c := xs[0];
      SumConstant(xs, c);
      var n := |xs| as real;
      assert Mean(xs) == c by {
        assert Sum(xs) == n * c;
        assert n * c / n == c;
      }
      SquaredDeviationsAtConstant(xs, c);
      assert Variance(xs) == 0.0;
    }
  }

  // ---------------------------------------------------------------------
  // The whole report
  // ---------------------------------------------------------------------

  function SeoRank(m: SeoMsg): nat {
    match m
    case ExcellentTags => 0
    case GoodTags => 0
    case ModerateTags => 0
    case LowTags => 0
    case EducationalKeywords => 1
    case ReviewKeywords => 2
    case TrendingKeywords => 3
  }

  function ImprovementRank(m: ImprovementMsg): nat {
    match m
    case ExtendContent => 0
    case SplitContent => 1
    case DescriptiveTitle => 2
    case ExpandDescription => 3
    case MoreTags => 4
    case WeekdayAfternoon => 5
    case MoreEngaging => 6
    case TutorialStructure => 7
    case ReviewStructure => 8
    case GamingStructure => 9
  }

  /** Messages appear in rule order, each at most once. */
  predicate SeoOrdered(ms: seq<SeoMsg>) {
    forall i, j :: 0 <= i < j < |ms| ==> SeoRank(ms[i]) < SeoRank(ms[j])
  }

  predicate ImprovementOrdered(ms: seq<ImprovementMsg>) {
    forall i, j :: 0 <= i < j < |ms| ==> ImprovementRank(ms[i]) < ImprovementRank(ms[j])
  }

  /** The list the tag rule and the three keyword rules of "SEO & Discoverability" build. */
  function SeoList(tagsCount: nat, title: string): seq<SeoMsg> {
    [TagCoverage(tagsCount)]
    + Opt(ContainsAny(title, EducationalWords), EducationalKeywords)
    + Opt(ContainsAny(title, ReviewWords), ReviewKeywords)
    + Opt(ContainsAny(title, TrendingWords), TrendingKeywords)
  }

  /** The appends of "SEO & Discoverability", on the tag count and the lower-cased title. */
  method SeoFactors(tagsCount: nat, title: string) returns (seo: seq<SeoMsg>)
    ensures seo == SeoList(tagsCount, title)
  {
    seo := [TagCoverage(tagsCount)];
    if ContainsAny(title, EducationalWords) {
      seo := seo + [EducationalKeywords];
    }
    if ContainsAny(title, ReviewWords) {
      seo := seo + [ReviewKeywords];
    }
    if ContainsAny(title, TrendingWords) {
      seo := seo + [TrendingKeywords];
    }
  }

  /**
   * One to four messages: the tag-coverage message first, then each keyword
   * message exactly when a word of its group occurs in the title, in rule order.
   */
  lemma SeoListMeaning(tagsCount: nat, title: string)
    ensures var seo := SeoList(tagsCount, title);
      && 1 <= |seo| <= 4
      && seo[0] == TagCoverage(tagsCount)
      && SeoOrdered(seo)
      && (EducationalKeywords in seo <==> ContainsAny(title, EducationalWords))
      && (ReviewKeywords in seo <==> ContainsAny(title, ReviewWords))
      && (TrendingKeywords in seo <==> ContainsAny(title, TrendingWords))
  {
    SeoRules(TagCoverage(tagsCount), ContainsAny(title, EducationalWords),
             ContainsAny(title, ReviewWords), ContainsAny(title, TrendingWords));
  }

  /** The SEO list for any outcome of the three keyword rules. */
  lemma SeoRules(first: SeoMsg, a: bool, b: bool, c: bool)
    requires SeoRank(first) == 0
    ensures var seo := [first] + Opt(a, EducationalKeywords) + Opt(b, ReviewKeywords) + Opt(c, TrendingKeywords);
      && 1 <= |seo| <= 4
      && seo[0] == first
      && SeoOrdered(seo)
      && (EducationalKeywords in seo <==> a)
      && (ReviewKeywords in seo <==> b)
      && (TrendingKeywords in seo <==> c)
  {
    var s1 := [first];
    SeoOptOrdered(s1, a, EducationalKeywords);
    var s2 := s1 + Opt(a, EducationalKeywords);
    SeoOptOrdered(s2, b, ReviewKeywords);
    var s3 := s2 + Opt(b, ReviewKeywords);
    SeoOptOrdered(s3, c, TrendingKeywords);
    var seo := s3 + Opt(c, TrendingKeywords);
    assert seo[0] == s3[0] == s2[0] == s1[0];
    forall y: SeoMsg
      ensures y in seo <==> y == first || (a && y == EducationalKeywords) || (b && y == ReviewKeywords)
                            || (c && y == TrendingKeywords)
    {
      InAppendOpt(s1, a, EducationalKeywords, y);
      InAppendOpt(s2, b, ReviewKeywords, y);
      InAppendOpt(s3, c, TrendingKeywords, y);
    }
  }

  /** Appending a keyword rule's optional message after lower-ranked messages keeps the SEO list in rule order. */
  lemma SeoOptOrdered(ms: seq<SeoMsg>, fires: bool, m: SeoMsg)
    requires SeoOrdered(ms) && forall k :: 0 <= k < |ms| ==> SeoRank(ms[k]) < SeoRank(m)
    ensures var all := ms + Opt(fires, m);
      SeoOrdered(all) && forall k :: 0 <= k < |all| ==> SeoRank(all[k]) <= SeoRank(m)
  {
    AppendOpt(ms, fires, m);
    if fires {
      var all := ms + [m];
      forall i, j | 0 <= i < j < |all|
        ensures SeoRank(all[i]) < SeoRank(all[j])
      {
        assert all[i] == ms[i];
        if j < |ms| {
          assert all[j] == ms[j];
        }
      }
    }
  }

  /** The message of the content-type rule, an if/elif chain on the lower-cased title. */
  function ContentTypeTip(title: string): (r: seq<ImprovementMsg>)
    ensures |r| <= 1
  {
    if Contains(title, "tutorial") || Contains(title, "how to") then [TutorialStructure]
    else if Contains(title, "review") then [ReviewStructure]
    else if Contains(title, "gaming") || Contains(title, "game") then [GamingStructure]
    else []
  }

  /** The seven single rules of "Improvement Recommendations", in the order the code applies them. */
  function GeneralTips(duration: int, titleLength: nat, descriptionLength: nat, tagsCount: nat,
                       weekday: nat, hour: nat, likes: nat, dislikes: nat): seq<ImprovementMsg>
  {
    var minutes := DurationMinutes(duration);
    Opt(minutes < 10.0, ExtendContent)
    + Opt(!(minutes < 10.0) && minutes > 25.0, SplitContent)
    + Opt(titleLength < 30, DescriptiveTitle)
    + Opt(descriptionLength < 100, ExpandDescription)
    + Opt(tagsCount < 8, MoreTags)
    + Opt(!(weekday >= 5) && hour < 14, WeekdayAfternoon)
    + Opt(LikeRatio(likes, dislikes) < 0.8, MoreEngaging)
  }

  /** The list the rules of "Improvement Recommendations" build, rule by rule. */
  function ImprovementTips(duration: int, titleLength: nat, descriptionLength: nat, tagsCount: nat,
                           weekday: nat, hour: nat, likes: nat, dislikes: nat, title: string): seq<ImprovementMsg>
  {
    GeneralTips(duration, titleLength, descriptionLength, tagsCount, weekday, hour, likes, dislikes)
    + ContentTypeTip(title)
  }

  /** `duration_minutes` against the cut-offs 10 and 25, in seconds. */
  lemma MinutesCompare(duration: int)
    ensures DurationMinutes(duration) < 10.0 <==> duration < 600
    ensures DurationMinutes(duration) > 25.0 <==> duration > 1500
  {
  }

  /** Which messages the seven single rules contribute, as conditions on the video. */
  lemma GeneralTipsMeaning(duration: int, titleLength: nat, descriptionLength: nat, tagsCount: nat,
                           weekday: nat, hour: nat, likes: nat, dislikes: nat)
    ensures var tips := GeneralTips(duration, titleLength, descriptionLength, tagsCount,
                                    weekday, hour, likes, dislikes);
      && |tips| <= 6
      && (ExtendContent in tips <==> duration < 600)
      && (SplitContent in tips <==> duration > 1500)
      && (DescriptiveTitle in tips <==> titleLength < 30)
      && (ExpandDescription in tips <==> descriptionLength < 100)
      && (MoreTags in tips <==> tagsCount < 8)
      && (WeekdayAfternoon in tips <==> weekday < 5 && hour < 14)
      && (MoreEngaging in tips <==> likes < 4 * (dislikes + 1))
      && Below(tips, 7)
  {
    var minutes := DurationMinutes(duration);
    var a, b, c, d := minutes < 10.0, !(minutes < 10.0) && minutes > 25.0, titleLength < 30, descriptionLength < 100;
    var e, f, g := tagsCount < 8, !(weekday >= 5) && hour < 14, LikeRatio(likes, dislikes) < 0.8;
    GeneralTipsMembers(duration, titleLength, descriptionLength, tagsCount, weekday, hour, likes, dislikes);
    assert !(a && b);
    RuleCount(a, b, c, d, e, f, g);
    RulesOrdered(a, b, c, d, e, f, g);
  }

  /** Each message of the seven single rules is in the list exactly when its rule fires. */
  lemma GeneralTipsMembers(duration: int, titleLength: nat, descriptionLength: nat, tagsCount: nat,
                           weekday: nat, hour: nat, likes: nat, dislikes: nat)
    ensures var tips := GeneralTips(duration, titleLength, descriptionLength, tagsCount,
                                    weekday, hour, likes, dislikes);
      && (ExtendContent in tips <==> duration < 600)
      && (SplitContent in tips <==> duration > 1500)
      && (DescriptiveTitle in tips <==> titleLength < 30)
      && (ExpandDescription in tips <==> descriptionLength < 100)
      && (MoreTags in tips <==> tagsCount < 8)
      && (WeekdayAfternoon in tips <==> weekday < 5 && hour < 14)
      && (MoreEngaging in tips <==> likes < 4 * (dislikes + 1))
  {
    var minutes := DurationMinutes(duration);
    var a, b, c, d := minutes < 10.0, !(minutes < 10.0) && minutes > 25.0, titleLength < 30, descriptionLength < 100;
    var e, f, g := tagsCount < 8, !(weekday >= 5) && hour < 14, LikeRatio(likes, dislikes) < 0.8;
    assert a <==> duration < 600 by { MinutesCompare(duration); }
    assert b <==> duration > 1500 by { MinutesCompare(duration); }
    assert g <==> likes < 4 * (dislikes + 1) by { LikeRatioAbove(likes, dislikes); }
    RuleMembers(a, b, c, d, e, f, g);
  }

  /** Which messages a list of the seven single rules holds, given which rules fire. */
  lemma RuleMembers(a: bool, b: bool, c: bool, d: bool, e: bool, f: bool, g: bool)
    requires !(a && b)
    ensures var tips := Opt(a, ExtendContent) + Opt(b, SplitContent) + Opt(c, DescriptiveTitle)
                        + Opt(d, ExpandDescription) + Opt(e, MoreTags) + Opt(f, WeekdayAfternoon)
                        + Opt(g, MoreEngaging);
      && (ExtendContent in tips <==> a) && (SplitContent in tips <==> b)
      && (DescriptiveTitle in tips <==> c) && (ExpandDescription in tips <==> d)
      && (MoreTags in tips <==> e) && (WeekdayAfternoon in tips <==> f)
      && (MoreEngaging in tips <==> g)
  {
    var t1 := Opt(a, ExtendContent);
    var t2 := t1 + Opt(b, SplitContent);
    var t3 := t2 + Opt(c, DescriptiveTitle);
    var t4 := t3 + Opt(d, ExpandDescription);
    var t5 := t4 + Opt(e, MoreTags);
    var t6 := t5 + Opt(f, WeekdayAfternoon);
    var t7 := t6 + Opt(g, MoreEngaging);
    forall y: ImprovementMsg
      ensures y in t7 <==> (a && y == ExtendContent) || (b && y == SplitContent) || (c && y == DescriptiveTitle)
                           || (d && y == ExpandDescription) || (e && y == MoreTags)
                           || (f && y == WeekdayAfternoon) || (g && y == MoreEngaging)
    {
      InAppendOpt(t1, b, SplitContent, y);
      InAppendOpt(t2, c, DescriptiveTitle, y);
      InAppendOpt(t3, d, ExpandDescription, y);
      InAppendOpt(t4, e, MoreTags, y);
      InAppendOpt(t5, f, WeekdayAfternoon, y);
      InAppendOpt(t6, g, MoreEngaging, y);
    }
  }

  /** The duration rule is an if/elif, so the seven single rules add at most six messages. */
  lemma RuleCount(a: bool, b: bool, c: bool, d: bool, e: bool, f: bool, g: bool)
    requires !(a && b)
    ensures |Opt(a, ExtendContent) + Opt(b, SplitContent) + Opt(c, DescriptiveTitle)
             + Opt(d, ExpandDescription) + Opt(e, MoreTags) + Opt(f, WeekdayAfternoon)
             + Opt(g, MoreEngaging)| <= 6
  {
  }

  /** The content-type rule yields at most one message: the first keyword group that matches. */
  lemma ContentTypeTipMeaning(title: string)
    ensures var tips := ContentTypeTip(title);
      && |tips| <= 1
      && (forall i :: 0 <= i < |tips| ==> ImprovementRank(tips[i]) >= 7)
      && (TutorialStructure in tips <==> ContainsAny(title, TutorialWords))
      && (ReviewStructure in tips <==> !ContainsAny(title, TutorialWords) && Contains(title, "review"))
      && (GamingStructure in tips <==>
            !ContainsAny(title, TutorialWords) && !Contains(title, "review") && ContainsAny(title, GamingWords))
  {
    ContainsEither(title, "tutorial", "how to");
    ContainsEither(title, "gaming", "game");
  }

  /** What the recommendations say, rule by rule, as conditions on the video. */
  lemma ImprovementTipsMeaning(duration: int, titleLength: nat, descriptionLength: nat, tagsCount: nat,
                               weekday: nat, hour: nat, likes: nat, dislikes: nat, title: string)
    ensures var tips := ImprovementTips(duration, titleLength, descriptionLength, tagsCount,
                                        weekday, hour, likes, dislikes, title);
      && |tips| <= 7
      && (ExtendContent in tips <==> duration < 600)
      && (SplitContent in tips <==> duration > 1500)
      && (DescriptiveTitle in tips <==> titleLength < 30)
      && (ExpandDescription in tips <==> descriptionLength < 100)
      && (MoreTags in tips <==> tagsCount < 8)
      && (WeekdayAfternoon in tips <==> weekday < 5 && hour < 14)
      && (MoreEngaging in tips <==> likes < 4 * (dislikes + 1))
      && (TutorialStructure in tips <==> ContainsAny(title, TutorialWords))
      && (ReviewStructure in tips <==> !ContainsAny(title, TutorialWords) && Contains(title, "review"))
      && (GamingStructure in tips <==>
            !ContainsAny(title, TutorialWords) && !Contains(title, "review") && ContainsAny(title, GamingWords))
  {
    var general := GeneralTips(duration, titleLength, descriptionLength, tagsCount, weekday, hour, likes, dislikes);
    var special := ContentTypeTip(title);
    GeneralTipsMeaning(duration, titleLength, descriptionLength, tagsCount, weekday, hour, likes, dislikes);
    ContentTypeTipMeaning(title);
    ConcatMembers(general, special);
  }

  /** The general advice ranks below 7 and the content-type advice at 7 or above, so they never share a message. */
  lemma ConcatMembers(general: seq<ImprovementMsg>, special: seq<ImprovementMsg>)
    requires Below(general, 7) && AtLeast(special, 7)
    ensures forall x :: ImprovementRank(x) < 7 ==> (x in general + special <==> x in general)
    ensures forall x :: ImprovementRank(x) >= 7 ==> (x in general + special <==> x in special)
  {
    forall x | x in general + special
      ensures x in general || x in special
    {
      var i :| 0 <= i < |general + special| && (general + special)[i] == x;
      if i < |general| { assert general[i] == x; } else { assert special[i - |general|] == x; }
    }
  }

  /**
   * The rules of "Improvement Recommendations", on the quantities the code
   * has computed: duration in seconds, lengths, tag count, weekday, hour,
   * like and dislike counts and the lower-cased title.
   */
  method ImprovementFactors(duration: int, titleLength: nat, descriptionLength: nat, tagsCount: nat,
                            weekday: nat, hour: nat, likes: nat, dislikes: nat, title: string)
    returns (tips: seq<ImprovementMsg>)
    ensures tips == ImprovementTips(duration, titleLength, descriptionLength, tagsCount,
                                    weekday, hour, likes, dislikes, title)
  {
    var minutes := DurationMinutes(duration);
    var isWeekend := weekday >= 5;
    var likeRatio := LikeRatio(likes, dislikes);
    // Which rules fire, and the list they are specified to build.
    ghost var ra, rb, rc, rd := minutes < 10.0, !(minutes < 10.0) && minutes > 25.0, titleLength < 30, descriptionLength < 100;
    ghost var re, rf, rg := tagsCount < 8, !isWeekend && hour < 14, likeRatio < 0.8;
    tips := [];
    if minutes < 10.0 {
      tips := tips + [ExtendContent];
    } else if minutes > 25.0 {
      tips := tips + [SplitContent];
    }
    AppendOpt(Opt(ra, ExtendContent), rb, SplitContent);
    ghost var expected := Opt(ra, ExtendContent) + Opt(rb, SplitContent);
    assert tips == expected;
    AppendOpt(expected, rc, DescriptiveTitle);
    expected := expected + Opt(rc, DescriptiveTitle);
    if titleLength < 30 {
      tips := tips + [DescriptiveTitle];
    }
    AppendOpt(expected, rd, ExpandDescription);
    expected := expected + Opt(rd, ExpandDescription);
    if descriptionLength < 100 {
      tips := tips + [ExpandDescription];
    }
    AppendOpt(expected, re, MoreTags);
    expected := expected + Opt(re, MoreTags);
    if tagsCount < 8 {
      tips := tips + [MoreTags];
    }
    AppendOpt(expected, rf, WeekdayAfternoon);
    expected := expected + Opt(rf, WeekdayAfternoon);
    if !isWeekend && hour < 14 {
      tips := tips + [WeekdayAfternoon];
    }
    AppendOpt(expected, rg, MoreEngaging);
    expected := expected + Opt(rg, MoreEngaging);
    if likeRatio < 0.8 {
      tips := tips + [MoreEngaging];
    }
    assert expected == GeneralTips(duration, titleLength, descriptionLength, tagsCount, weekday, hour, likes, dislikes);
    var tip := ContentTypeFactor(title);
    tips := tips + tip;
    assert tips == expected + ContentTypeTip(title);
  }

  /** The elif chain of the content-type recommendation, on the lower-cased title. */
  method ContentTypeFactor(title: string) returns (tip: seq<ImprovementMsg>)
    ensures tip == ContentTypeTip(title)
  {
    tip := [];
    if Contains(title, "tutorial") || Contains(title, "how to") {
      tip := tip + [TutorialStructure];
    } else if Contains(title, "review") {
      tip := tip + [ReviewStructure];
    } else if Contains(title, "gaming") || Contains(title, "game") {
      tip := tip + [GamingStructure];
    }
  }

  /** Every message so far ranks below `k`. */
  predicate Below(tips: seq<ImprovementMsg>, k: nat) {
    forall i :: 0 <= i < |tips| ==> ImprovementRank(tips[i]) < k
  }

  /** Every message ranks at least `k`. */
  predicate AtLeast(tips: seq<ImprovementMsg>, k: nat) {
    forall i :: 0 <= i < |tips| ==> ImprovementRank(tips[i]) >= k
  }

  /** Two ordered lists whose ranks do not overlap make an ordered list. */
  lemma AppendOrdered(tips: seq<ImprovementMsg>, more: seq<ImprovementMsg>, k: nat, k2: nat)
    requires ImprovementOrdered(tips) && ImprovementOrdered(more)
    requires Below(tips, k) && AtLeast(more, k) && Below(more, k2) && k <= k2
    ensures ImprovementOrdered(tips + more) && Below(tips + more, k2)
  {
    var all := tips + more;
    forall i, j | 0 <= i < j < |all|
      ensures ImprovementRank(all[i]) < ImprovementRank(all[j])
    {
      if j < |tips| {
        assert all[i] == tips[i] && all[j] == tips[j];
      } else if i >= |tips| {
        assert all[i] == more[i - |tips|] && all[j] == more[j - |tips|];
      } else {
        assert all[i] == tips[i] && all[j] == more[j - |tips|];
      }
    }
  }

  /** Appending a rule's optional message keeps the list in rule order. */
  lemma OptOrdered(tips: seq<ImprovementMsg>, fires: bool, tip: ImprovementMsg)
    requires ImprovementOrdered(tips) && Below(tips, ImprovementRank(tip))
    ensures ImprovementOrdered(tips + Opt(fires, tip)) && Below(tips + Opt(fires, tip), ImprovementRank(tip) + 1)
  {
    AppendOrdered(tips, Opt(fires, tip), ImprovementRank(tip), ImprovementRank(tip) + 1);
  }

  /** The seven single rules, whichever of them fire, leave their messages in rule order. */
  lemma RulesOrdered(a: bool, b: bool, c: bool, d: bool, e: bool, f: bool, g: bool)
    ensures var tips := Opt(a, ExtendContent) + Opt(b, SplitContent) + Opt(c, DescriptiveTitle)
                        + Opt(d, ExpandDescription) + Opt(e, MoreTags) + Opt(f, WeekdayAfternoon)
                        + Opt(g, MoreEngaging);
      ImprovementOrdered(tips) && Below(tips, 7)
  {
    var t := Opt(a, ExtendContent);
    OptOrdered(t, b, SplitContent);
    t := t + Opt(b, SplitContent);
    OptOrdered(t, c, DescriptiveTitle);
    t := t + Opt(c, DescriptiveTitle);
    OptOrdered(t, d, ExpandDescription);
    t := t + Opt(d, ExpandDescription);
    OptOrdered(t, e, MoreTags);
    t := t + Opt(e, MoreTags);
    OptOrdered(t, f, WeekdayAfternoon);
    t := t + Opt(f, WeekdayAfternoon);
    OptOrdered(t, g, MoreEngaging);
  }

  /**
   * Unlike the other five categories, "Improvement Recommendations" has no
   * fallback message: a 15-minute weekend upload with a well-liked record,
   * a title of 30 characters or more without the letters u, w, v and g in
   * either case (so no content-type keyword can occur in it), a description
   * of 100 characters or more and at least eight tags gets no advice at all.
   * The arguments are the ones `GenerateDetailedSuccessFactors` passes.
   */
  lemma ImprovementCanBeEmpty(v: VideoData)
    requires v.duration == 900 && v.likeCount == 100 && v.dislikeCount == 0 && v.uploadDate == Date(2024, 1, 13)
    requires |v.title| >= 30 && |v.description| >= 100 && TagsCount(v.tags) >= 8
    requires 'u' !in v.title && 'U' !in v.title && 'w' !in v.title && 'W' !in v.title
    requires 'v' !in v.title && 'V' !in v.title && 'g' !in v.title && 'G' !in v.title
    ensures IsValid(v.uploadDate)
    ensures ImprovementTips(v.duration, |v.title|, |v.description|, TagsCount(v.tags),
                            Weekday(v.uploadDate), 0, v.likeCount, v.dislikeCount, Lower(v.title)) == []
  {
    NoContentTypeKeyword(v.title);
    Saturday2024January13();
    MinutesCompare(900);
    LikeRatioAbove(100, 0);
    assert GeneralTips(900, |v.title|, |v.description|, TagsCount(v.tags), 5, 0, 100, 0) == [];
  }

  /** A title without the letters u, w, v and g, in either case, holds none of the content-type keywords. */
  lemma NoContentTypeKeyword(title: string)
    requires 'u' !in title && 'U' !in title && 'w' !in title && 'W' !in title
    requires 'v' !in title && 'V' !in title && 'g' !in title && 'G' !in title
    ensures ContentTypeTip(Lower(title)) == []
  {
    var lower := Lower(title);
    LowerAvoids(title, 'u');
    LowerAvoids(title, 'w');
    LowerAvoids(title, 'v');
    LowerAvoids(title, 'g');
    ContainsNeeds(lower, "tutorial", 'u');
    ContainsNeeds(lower, "how to", 'w');
    ContainsNeeds(lower, "review", 'v');
    ContainsNeeds(lower, "gaming", 'g');
    ContainsNeeds(lower, "game", 'g');
  }

  /** The letters, and the space, the bread-recipe title is written with. */
  const BreadRecipeLetters: set<char> := {'S', 'i', 'm', 'p', 'l', 'e', ' ', 'b', 'r', 'a', 'd', 'c', 'f', 'o', 't', 'n'}

  /** The title of the bread-recipe upload is long enough and has none of the letters u, w, v and g, in either case. */
  lemma BreadRecipeTitle(title: string)
    requires title == "Simple bread recipe for a cold afternoon"
    ensures |title| >= 30
    ensures 'u' !in title && 'U' !in title && 'w' !in title && 'W' !in title
    ensures 'v' !in title && 'V' !in title && 'g' !in title && 'G' !in title
  {
    assert forall i :: 0 <= i < |title| ==> title[i] in BreadRecipeLetters;
    FewLetters(title);
  }

  /** Text written only with the letters of "Simple bread recipe for a cold afternoon" lacks u, w, v and g. */
  lemma FewLetters(title: string)
    requires forall i :: 0 <= i < |title| ==> title[i] in BreadRecipeLetters
    ensures 'u' !in title && 'U' !in title && 'w' !in title && 'W' !in title
    ensures 'v' !in title && 'V' !in title && 'g' !in title && 'G' !in title
  {
    var letters := BreadRecipeLetters;
    OutsideAlphabet(title, letters, 'u');
    OutsideAlphabet(title, letters, 'U');
    OutsideAlphabet(title, letters, 'w');
    OutsideAlphabet(title, letters, 'W');
    OutsideAlphabet(title, letters, 'v');
    OutsideAlphabet(title, letters, 'V');
    OutsideAlphabet(title, letters, 'g');
    OutsideAlphabet(title, letters, 'G');
  }

  /** The eight comma-separated tags of the bread-recipe upload count as eight. */
  lemma BreadRecipeTags(tags: string)
    requires tags == Join(["bread", "baking", "recipe", "dough", "oven", "yeast", "flour", "homemade"], ',')
    ensures TagsCount(tags) == 8
  {
    SplitJoin(["bread", "baking", "recipe", "dough", "oven", "yeast", "flour", "homemade"], ',');
  }

  /**
   * A concrete upload with an empty improvement list: "Simple bread recipe
   * for a cold afternoon", eight tags, a long description, 15 minutes, 100
   * likes and no dislikes, uploaded on Saturday 13 January 2024.
   */
  lemma BreadRecipeGetsNoAdvice(v: VideoData)
    requires v.title == "Simple bread recipe for a cold afternoon"
    requires v.tags == Join(["bread", "baking", "recipe", "dough", "oven", "yeast", "flour", "homemade"], ',')
    requires |v.description| >= 100
    requires v.duration == 900 && v.likeCount == 100 && v.dislikeCount == 0 && v.uploadDate == Date(2024, 1, 13)
    ensures ImprovementTips(v.duration, |v.title|, |v.description|, TagsCount(v.tags),
                            Weekday(v.uploadDate), 0, v.likeCount, v.dislikeCount, Lower(v.title)) == []
  {
    BreadRecipeTitle(v.title);
    BreadRecipeTags(v.tags);
    ImprovementCanBeEmpty(v);
  }

  /** The recommendations come in rule order, so none is repeated. */
  lemma ImprovementTipsOrdered(duration: int, titleLength: nat, descriptionLength: nat, tagsCount: nat,
                               weekday: nat, hour: nat, likes: nat, dislikes: nat, title: string)
    ensures ImprovementOrdered(ImprovementTips(duration, titleLength, descriptionLength, tagsCount,
                                               weekday, hour, likes, dislikes, title))
  {
    var minutes := DurationMinutes(duration);
    RulesOrdered(minutes < 10.0, !(minutes < 10.0) && minutes > 25.0, titleLength < 30, descriptionLength < 100,
                 tagsCount < 8, !(weekday >= 5) && hour < 14, LikeRatio(likes, dislikes) < 0.8);
    var general := GeneralTips(duration, titleLength, descriptionLength, tagsCount, weekday, hour, likes, dislikes);
    AppendOrdered(general, ContentTypeTip(title), 7, 10);
  }

  /**
   * `generate_detailed_success_factors(video_data, predictions, best_prediction)`,
   * with the prediction values in the dictionary's order. The upload date is
   * parsed first; a date that does not exist raises, here `Err`.
   */
  method GenerateDetailedSuccessFactors(v: VideoData, predictions: seq<real>, best: real, m: Transcendentals)
    returns (r: Result<Report, FeatureError>)
    ensures r.Err? <==> !IsValid(v.uploadDate)
    ensures r.Ok? ==>
      var rep := r.value;
      && rep.content == [DurationVerdict(v.duration), TitleVerdict(|v.title|), DescriptionVerdict(|v.description|)]
      && rep.timing == [OffPeakTime, if Weekday(v.uploadDate) >= 5 then WeekendUpload else WeekdayUpload]
      && rep.engagement == [LikeRatioVerdict(v.likeCount, v.dislikeCount), EngagementRateVerdict(v.likeCount, v.dislikeCount)]
      && rep.performance == [PerformanceVerdict(best), AgreementVerdict(predictions, m.sqrt)]
    ensures r.Ok? ==> r.value.seo == SeoList(TagsCount(v.tags), Lower(v.title)) && 1 <= |r.value.seo| <= 4
    ensures r.Ok? ==>
      r.value.improvement == ImprovementTips(v.duration, |v.title|, |v.description|, TagsCount(v.tags),
                                             Weekday(v.uploadDate), 0, v.likeCount, v.dislikeCount, Lower(v.title))
  {
    var parsed := ParseUpload(v.uploadDate);
    if parsed.Err? {
      return Err(parsed.error);
    }
    var up := parsed.value;
    var titleLength, descriptionLength := |v.title|, |v.description|;
    var tagsCount := TagsCount(v.tags);
    var isWeekend := up.weekday >= 5;
    var title := Lower(v.title);

    var content := [DurationVerdict(v.duration), TitleVerdict(titleLength), DescriptionVerdict(descriptionLength)];
    var timing := [HourVerdict(up.hour), if isWeekend then WeekendUpload else WeekdayUpload];
    var engagement := [LikeRatioVerdict(v.likeCount, v.dislikeCount), EngagementRateVerdict(v.likeCount, v.dislikeCount)];
    var seo := SeoFactors(tagsCount, title);
    SeoListMeaning(tagsCount, title);
    var performance := [PerformanceVerdict(best), AgreementVerdict(predictions, m.sqrt)];
    var tips := ImprovementFactors(v.duration, titleLength, descriptionLength, tagsCount,
                                   up.weekday, up.hour, v.likeCount, v.dislikeCount, title);
    return Ok(Report(content, timing, engagement, seo, performance, tips));
  }

  lemma ContainsEither(text: string, a: string, b: string)
    ensures ContainsAny(text, [a, b]) <==> Contains(text, a) || Contains(text, b)
  {
    assert [a, b][1..] == [b];
    assert [b][1..] == [];
    assert !ContainsAny(text, []);
  }

  /** `upload_hour` comes from a date-only parse, so the hour rule always says off-peak. */
  lemma UploadHourIsOffPeak(d: Date)
    requires IsValid(d)
    ensures HourVerdict(ParseUpload(d).value.hour) == OffPeakTime
  {
  }
}
