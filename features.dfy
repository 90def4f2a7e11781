/**
 * Feature engineering (`prepare_video_features`): a video's metadata
 * becomes a vector of numbers in the order the fitted scaler and
 * regressors expect.
 */
module Features {
  import opened Common
  import opened Text
  import opened Calendar

  /** One video's metadata, as the caller supplies it. */
  datatype VideoData = VideoData(
    title: string,
    description: string,
    duration: int,        // seconds
    likeCount: nat,
    dislikeCount: nat,
    uploadDate: Date,
    tags: string)         // comma-separated

  /** The numpy functions the pipeline calls and that the model leaves uninterpreted. */
  datatype Transcendentals = Transcendentals(
    log1p: real -> real,
    expm1: real -> real,
    sin: real -> real,
    cos: real -> real,
    sqrt: real -> real,
    pi: real)

  /** The fields read off the parsed upload date. */
  datatype Upload = Upload(ordinal: int, hour: nat, weekday: nat, month: nat)

  datatype FeatureError = InvalidUploadDate

  /** What a successful reconciliation hands to the scaler. */
  datatype Prepared = Prepared(row: seq<real>, missing: set<string>)

  /** The 21 features the pipeline computes, in the order it computes them. */
  const FeatureNames: seq<string> := [
    "duration", "duration_minutes", "log_duration", "like_count", "dislike_count",
    "like_ratio", "engagement_rate", "title_length", "description_length",
    "tags_count", "title_word_count", "upload_hour", "upload_day_of_week",
    "upload_month", "is_weekend", "upload_hour_sin", "upload_hour_cos",
    "upload_day_sin", "upload_day_cos", "days_since_upload", "log_days_since_upload"]

  /**
   * `datetime.strptime(date, '%Y-%m-%d')`: a date that does not exist is an
   * error, and the hour is always 0 because the format carries no time.
   */
  function ParseUpload(d: Date): (r: Result<Upload, FeatureError>)
    ensures r.Ok? <==> IsValid(d)
    ensures r.Ok? ==> r.value.hour == 0 && r.value.weekday < 7 && 1 <= r.value.month <= 12
  {
    if IsValid(d) then Ok(Upload(Ordinal(d), 0, Weekday(d), d.month)) else Err(InvalidUploadDate)
  }

  /** `len(tags.split(',')) if tags else 0`. */
  function TagsCount(tags: string): (n: nat)
    ensures tags == [] ==> n == 0
    ensures tags != [] ==> n == multiset(tags)[','] + 1
  {
    if tags == [] then 0 else SplitCount(tags, ','); |Split(tags, ',')|
  }

  /** `len(title.split())`. */
  function WordCount(title: string): (n: nat)
    ensures n == RunStarts(title, true)
    ensures n == 0 <==> forall i :: 0 <= i < |title| ==> IsSpace(title[i])
  {
    WordsCountRuns(title);
    WordsEmpty(title);
    |Words(title)|
  }

  /** `likes / (likes + dislikes + 1)`; the +1 keeps the denominator positive. */
  function LikeRatio(likes: nat, dislikes: nat): (r: real)
    ensures 0.0 <= r < 1.0
    ensures r == 0.0 <==> likes == 0
    ensures r * (likes + dislikes + 1) as real == likes as real
  {
    var den := (likes + dislikes + 1) as real;
    var r := likes as real / den;
    assert r * den == likes as real;
    r
  }

  /** `(likes + dislikes) / 1000`, a fixed normalisation, not a rate per view. */
  function EngagementRate(likes: nat, dislikes: nat): (e: real)
    ensures e >= 0.0
    ensures e * 1000.0 == (likes + dislikes) as real
  {
    (likes + dislikes) as real / 1000.0
  }

  function DurationMinutes(duration: int): (m: real)
    ensures m * 60.0 == duration as real
  {
    duration as real / 60.0
  }

  /** `1 if weekday >= 5 else 0`. */
  function IsWeekend(weekday: nat): (w: nat)
    ensures w <= 1
    ensures w == 1 <==> weekday >= 5
  {
    if weekday >= 5 then 1 else 0
  }

  /**
   * `(now - upload_date).days`, with 0 replaced by 1. `today` is the ordinal
   * of the current day: since the upload date is a midnight, the whole days
   * between them are exactly the difference of the ordinals. A future date
   * gives a negative count, which the code passes through.
   */
  function DaysSinceUpload(today: int, uploadOrdinal: int): (days: int)
    ensures days != 0
    ensures today != uploadOrdinal ==> days == today - uploadOrdinal
    ensures today == uploadOrdinal ==> days == 1
  {
    var diff := today - uploadOrdinal;
    if diff == 0 then 1 else diff
  }

  /** One column of the one-row DataFrame the pipeline builds. */
  datatype Column = Column(name: string, value: real)

  function Names(cols: seq<Column>): (names: seq<string>)
    ensures |names| == |cols|
    ensures forall i :: 0 <= i < |cols| ==> names[i] == cols[i].name
  {
    seq(|cols|, i requires 0 <= i < |cols| => cols[i].name)
  }

  /** The 21 feature values, one field per name of `FeatureNames`. */
  datatype FeatureValues = FeatureValues(
    duration: real,
    durationMinutes: real,
    logDuration: real,
    likeCount: real,
    dislikeCount: real,
    likeRatio: real,
    engagementRate: real,
    titleLength: real,
    descriptionLength: real,
    tagsCount: real,
    titleWordCount: real,
    uploadHour: real,
    uploadDayOfWeek: real,
    uploadMonth: real,
    isWeekend: real,
    uploadHourSin: real,
    uploadHourCos: real,
    uploadDaySin: real,
    uploadDayCos: real,
    daysSinceUpload: real,
    logDaysSinceUpload: real)
  {
    /** The value of feature number `i`, in the order of `FeatureNames`. */
    function At(i: nat): real
      requires i < 21
    {
      if i == 0 then duration
      else if i == 1 then durationMinutes
      else if i == 2 then logDuration
      else if i == 3 then likeCount
      else if i == 4 then dislikeCount
      else if i == 5 then likeRatio
      else if i == 6 then engagementRate
      else if i == 7 then titleLength
      else if i == 8 then descriptionLength
      else if i == 9 then tagsCount
      else if i == 10 then titleWordCount
      else if i == 11 then uploadHour
      else if i == 12 then uploadDayOfWeek
      else if i == 13 then uploadMonth
      else if i == 14 then isWeekend
      else if i == 15 then uploadHourSin
      else if i == 16 then uploadHourCos
      else if i == 17 then uploadDaySin
      else if i == 18 then uploadDayCos
      else if i == 19 then daysSinceUpload
      else logDaysSinceUpload
    }
  }

  /** The row of a dictionary of the 21 features: each value under its name, in the order of `FeatureNames`. */
  function FeatureRow(f: FeatureValues): (cols: seq<Column>)
    ensures |cols| == 21 && Names(cols) == FeatureNames
    ensures forall i :: 0 <= i < 21 ==> cols[i].value == f.At(i)
  {
    seq(21, i requires 0 <= i < 21 => Column(FeatureNames[i], f.At(i)))
  }

  /** `frame[name]`: the value of the first column called `name`. */
  function Lookup(cols: seq<Column>, name: string): (r: Option<real>)
    ensures r.Some? <==> name in Names(cols)
  {
    if cols == [] then None
    else if cols[0].name == name then Some(cols[0].value)
    else
      assert Names(cols) == [cols[0].name] + Names(cols[1..]);
      Lookup(cols[1..], name)
  }

  /** Columns added after the first match of a name do not change its value. */
  lemma {:induction false} LookupAppend(a: seq<Column>, b: seq<Column>, name: string)
    ensures Lookup(a + b, name) == if name in Names(a) then Lookup(a, name) else Lookup(b, name)
  {
    if a != [] {
      assert (a + b)[1..] == a[1..] + b;
      assert Names(a) == [a[0].name] + Names(a[1..]);
      LookupAppend(a[1..], b, name);
    } else {
      assert a + b == b;
    }
  }

  /** A name that has columns reads back as the value of the first column carrying it. */
  lemma {:induction false} LookupValue(cols: seq<Column>, name: string)
    requires name in Names(cols)
    ensures exists i :: 0 <= i < |cols| && cols[i] == Column(name, Lookup(cols, name).value)
                        && name !in Names(cols[..i])
  {
    if cols[0].name == name {
      assert Names(cols[..0]) == [];
    } else {
      assert Names(cols) == [cols[0].name] + Names(cols[1..]);
      LookupValue(cols[1..], name);
      var j :| 0 <= j < |cols| - 1 && cols[1..][j] == Column(name, Lookup(cols[1..], name).value)
                && name !in Names(cols[1..][..j]);
      assert Names(cols[..j + 1]) == [cols[0].name] + Names(cols[1..][..j]);
    }
  }

  /** In the row of a feature dictionary, each of the 21 names reads back, and is reconciled, as its own feature. */
  lemma RowReadsBack(f: FeatureValues, k: nat)
    requires k < 21
    ensures Lookup(FeatureRow(f), FeatureNames[k]) == Some(f.At(k))
    ensures Reconciled(FeatureRow(f), FeatureNames[k]) == f.At(k)
  {
    var cols := FeatureRow(f);
    LookupValue(cols, FeatureNames[k]);
    var i :| 0 <= i < |cols| && cols[i] == Column(FeatureNames[k], Lookup(cols, FeatureNames[k]).value)
             && FeatureNames[k] !in Names(cols[..i]);
    FeatureNamesDistinct(i, k);
  }

  /** No two feature names are equal. */
  lemma FeatureNamesDistinct(i: nat, k: nat)
    requires i < 21 && k < 21 && FeatureNames[i] == FeatureNames[k]
    ensures i == k
  {
  }

  /** The dictionary `features` of `prepare_video_features`, every value as a real. */
  function ComputedFeatures(v: VideoData, up: Upload, today: int, m: Transcendentals): (f: FeatureValues)
    ensures f.tagsCount == TagsCount(v.tags) as real
    ensures f.titleWordCount == WordCount(v.title) as real
    ensures 0.0 <= f.likeRatio < 1.0
    ensures f.uploadHour == up.hour as real
    ensures f.isWeekend == (if up.weekday >= 5 then 1.0 else 0.0)
    ensures f.daysSinceUpload != 0.0
  {
    var days := DaysSinceUpload(today, up.ordinal);
    var hour := up.hour as real;
    var weekday := up.weekday as real;
    FeatureValues(
      v.duration as real,  // duration
      DurationMinutes(v.duration),  // duration_minutes
      m.log1p(v.duration as real),  // log_duration
      v.likeCount as real,  // like_count
      v.dislikeCount as real,  // dislike_count
      LikeRatio(v.likeCount, v.dislikeCount),  // like_ratio
      EngagementRate(v.likeCount, v.dislikeCount),  // engagement_rate
      |v.title| as real,  // title_length
      |v.description| as real,  // description_length
      TagsCount(v.tags) as real,  // tags_count
      WordCount(v.title) as real,  // title_word_count
      hour,  // upload_hour
      weekday,  // upload_day_of_week
      up.month as real,  // upload_month
      IsWeekend(up.weekday) as real,  // is_weekend
      m.sin(2.0 * m.pi * hour / 24.0),  // upload_hour_sin
      m.cos(2.0 * m.pi * hour / 24.0),  // upload_hour_cos
      m.sin(2.0 * m.pi * weekday / 7.0),  // upload_day_sin
      m.cos(2.0 * m.pi * weekday / 7.0),  // upload_day_cos
      days as real,  // days_since_upload
      m.log1p(days as real)  // log_days_since_upload
    )
  }

  /** Entry `name` of the reconciled row: the computed value, or the default 0. */
  function Reconciled(computed: seq<Column>, name: string): real {
    match Lookup(computed, name)
    case Some(x) => x
    case None => 0.0
  }

  /** The columns `feature_df[f] = 0` adds, one per missing name. */
  function ZeroColumns(names: seq<string>): (cols: seq<Column>)
    ensures Names(cols) == names
    ensures forall name :: name in names ==> Lookup(cols, name) == Some(0.0)
  {
    if names == [] then []
    else
      var rest := ZeroColumns(names[1..]);
      assert Names([Column(names[0], 0.0)] + rest) == [names[0]] + names[1..];
      [Column(names[0], 0.0)] + rest
  }

  /** After the zero columns for `added` are appended, a name that was computed or added reads back as its reconciled value. */
  lemma LookupReconciled(computed: seq<Column>, added: seq<string>, name: string)
    requires name in Names(computed) || name in added
    ensures Lookup(computed + ZeroColumns(added), name) == Some(Reconciled(computed, name))
  {
    LookupAppend(computed, ZeroColumns(added), name);
    if name !in Names(computed) {
      assert Lookup(ZeroColumns(added), name) == Some(0.0);
    }
  }

  /** The loop `for feature in missing_features: feature_df[feature] = 0`, over the set in whatever order it yields. */
  method AddZeroColumns(computed: seq<Column>, missing: set<string>) returns (frame: seq<Column>, ghost added: seq<string>)
    ensures frame == computed + ZeroColumns(added)
    ensures forall name :: name in added <==> name in missing
    ensures |added| == |missing|
  {
    frame := computed;
    added := [];
    var todo := missing;
    while todo != {}
      invariant todo <= missing
      invariant frame == computed + ZeroColumns(added)
      invariant forall name :: name in added <==> name in missing - todo
      invariant |added| + |todo| == |missing|
      decreases todo
    {
      var name :| name in todo;
      ZeroColumnsAppend(added, name);
      frame := frame + [Column(name, 0.0)];
      added := added + [name];
      todo := todo - {name};
    }
  }

  /**
   * Lines 110-119 of `prepare_video_features`: every target name that was not
   * computed is added as a column with value 0, then the columns are selected
   * in the order of `featureNames`. Computed columns that are not targets are
   * dropped silently; the names that had to be added are returned in
   * `missing` (the code prints them as a warning).
   */
  method Reconcile(computed: seq<Column>, featureNames: seq<string>) returns (p: Prepared)
    ensures |p.row| == |featureNames|
    ensures forall i :: 0 <= i < |featureNames| ==> p.row[i] == Reconciled(computed, featureNames[i])
    ensures p.missing == set name | name in featureNames && name !in Names(computed)
  {
    var missing := set name | name in featureNames && name !in Names(computed);
    var frame, added := AddZeroColumns(computed, missing);
    var row: seq<real> := [];
    for i := 0 to |featureNames|
      invariant |row| == i
      invariant forall k :: 0 <= k < i ==> row[k] == Reconciled(computed, featureNames[k])
    {
      var name := featureNames[i];
      assert name !in Names(computed) ==> name in missing;
      LookupReconciled(computed, added, name);
      var found := Lookup(frame, name);
      row := row + [found.value];
    }
    return Prepared(row, missing);
  }

  /** `prepare_video_features`: parse the upload date, compute the features, reconcile them. */
  method PrepareVideoFeatures(v: VideoData, featureNames: seq<string>, today: int, m: Transcendentals)
    returns (r: Result<Prepared, FeatureError>)
    ensures r.Err? <==> !IsValid(v.uploadDate)
    ensures r.Ok? ==>
      var computed := FeatureRow(ComputedFeatures(v, ParseUpload(v.uploadDate).value, today, m));
      && |r.value.row| == |featureNames|
      && (forall i :: 0 <= i < |featureNames| ==> r.value.row[i] == Reconciled(computed, featureNames[i]))
      && r.value.missing == set name | name in featureNames && name !in FeatureNames
  {
    var parsed := ParseUpload(v.uploadDate);
    if parsed.Err? {
      return Err(parsed.error);
    }
    var computed := FeatureRow(ComputedFeatures(v, parsed.value, today, m));
    var p := Reconcile(computed, featureNames);
    return Ok(p);
  }

  lemma {:induction false} ZeroColumnsAppend(names: seq<string>, name: string)
    ensures ZeroColumns(names + [name]) == ZeroColumns(names) + [Column(name, 0.0)]
  {
    if names != [] {
      assert (names + [name])[1..] == names[1..] + [name];
      ZeroColumnsAppend(names[1..], name);
    }
  }

  /** The first test video of the Python test script: a 15-minute tutorial uploaded on Monday 2024-01-15. */
  lemma TutorialScenario()
    ensures var up := ParseUpload(Date(2024, 1, 15));
      && up.Ok? && up.value.weekday == 0 && IsWeekend(up.value.weekday) == 0
    ensures DurationMinutes(900) == 15.0
    ensures LikeRatio(1250, 45) == 1250.0 / 1296.0
    ensures 0.9645 < LikeRatio(1250, 45) < 0.9646
  {
    Monday2024January15();
  }
}
