/**
 * The post-processing of `predict_views` and the choice of the best
 * estimate: the scaler and the regressors are not modelled; what they
 * return for one feature row is given as one raw number per model.
 */
module Ensemble {
  import opened Common

  /** One model's estimate, in the order the bundle lists its models. */
  datatype Estimate = Estimate(model: string, views: real)

  /** The model the pipeline prefers when it is present. */
  const PreferredModel: string := "gradient_boosting"

  function ModelNames(es: seq<Estimate>): (names: seq<string>)
    ensures |names| == |es|
    ensures forall i :: 0 <= i < |es| ==> names[i] == es[i].model
  {
    seq(|es|, i requires 0 <= i < |es| => es[i].model)
  }

  /** A dictionary's keys are distinct. */
  predicate DistinctModels(es: seq<Estimate>) {
    forall i, j :: 0 <= i < j < |es| ==> es[i].model != es[j].model
  }

  /**
   * One raw model output made into a view count: inverse of the log1p target
   * transform when the bundle says the target was transformed, then
   * `max(0, ·)`.
   */
  function PostProcess(raw: real, targetTransformed: bool, expm1: real -> real): (views: real)
    ensures views >= 0.0
    ensures views >= (if targetTransformed then expm1(raw) else raw)
    ensures views == 0.0 || views == (if targetTransformed then expm1(raw) else raw)
  {
    var pred := if targetTransformed then expm1(raw) else raw;
    if pred > 0.0 then pred else 0.0
  }

  /** Without the transform a non-negative output passes through unchanged. */
  lemma PostProcessIdentity(raw: real, expm1: real -> real)
    requires raw >= 0.0
    ensures PostProcess(raw, false, expm1) == raw
  {
  }

  /** The clamp is monotone: a larger output never yields fewer views. */
  lemma PostProcessMonotone(a: real, b: real, targetTransformed: bool, expm1: real -> real)
    requires (if targetTransformed then expm1(a) else a) <= (if targetTransformed then expm1(b) else b)
    ensures PostProcess(a, targetTransformed, expm1) <= PostProcess(b, targetTransformed, expm1)
  {
  }

  /**
   * The loop of `predict_views` that fills the `predictions` dictionary: one
   * entry per model, in the bundle's order, each post-processed.
   */
  method PredictViews(raw: seq<Estimate>, targetTransformed: bool, expm1: real -> real)
    returns (predictions: seq<Estimate>)
    requires DistinctModels(raw)
    ensures ModelNames(predictions) == ModelNames(raw)
    ensures DistinctModels(predictions)
    ensures forall i :: 0 <= i < |raw| ==>
      predictions[i].views == PostProcess(raw[i].views, targetTransformed, expm1)
    ensures forall i :: 0 <= i < |predictions| ==> predictions[i].views >= 0.0
  {
    predictions := [];
    for i := 0 to |raw|
      invariant |predictions| == i
      invariant forall k :: 0 <= k < i ==> predictions[k].model == raw[k].model
      invariant forall k :: 0 <= k < i ==>
        predictions[k].views == PostProcess(raw[k].views, targetTransformed, expm1)
    {
      var pred := raw[i].views;
      if targetTransformed {
        pred := expm1(pred);
      }
      var views := if pred > 0.0 then pred else 0.0;
      predictions := predictions + [Estimate(raw[i].model, views)];
    }
  }

  /** `predictions.get(name)`. */
  function Get(es: seq<Estimate>, name: string): (r: Option<real>)
    ensures r.Some? <==> name in ModelNames(es)
    ensures r.Some? ==> exists i :: 0 <= i < |es| && es[i] == Estimate(name, r.value)
  {
    if es == [] then None
    else if es[0].model == name then Some(es[0].views)
    else
      assert ModelNames(es) == [es[0].model] + ModelNames(es[1..]);
      var r := Get(es[1..], name);
      assert r.Some? ==> exists i :: 0 <= i < |es| && es[i] == Estimate(name, r.value) by {
        if r.Some? {
          var i :| 0 <= i < |es[1..]| && es[1..][i] == Estimate(name, r.value);
          assert es[i + 1] == Estimate(name, r.value);
        }
      }
      r
  }

  /**
   * `predictions.get('gradient_boosting', list(predictions.values())[0])`.
   * The default is evaluated first, so an empty dictionary raises even though
   * the preferred key is then absent as well: it is `None` here.
   */
  function BestPrediction(predictions: seq<Estimate>): (best: Option<real>)
    ensures best.Some? <==> |predictions| > 0
    ensures best.Some? && PreferredModel in ModelNames(predictions) ==>
      exists i :: 0 <= i < |predictions| && predictions[i] == Estimate(PreferredModel, best.value)
    ensures best.Some? && PreferredModel !in ModelNames(predictions) ==> best.value == predictions[0].views
  {
    if predictions == [] then None
    else
      var fallback := predictions[0].views;
      match Get(predictions, PreferredModel)
      case Some(v) => Some(v)
      case None => Some(fallback)
  }

  /** The best estimate is always one of the models' estimates, so it is non-negative after `PredictViews`. */
  lemma BestIsAnEstimate(predictions: seq<Estimate>)
    requires |predictions| > 0
    requires forall i :: 0 <= i < |predictions| ==> predictions[i].views >= 0.0
    ensures exists i :: 0 <= i < |predictions| && BestPrediction(predictions).value == predictions[i].views
    ensures BestPrediction(predictions).value >= 0.0
  {
    var best := BestPrediction(predictions).value;
    if PreferredModel in ModelNames(predictions) {
      var i :| 0 <= i < |predictions| && predictions[i] == Estimate(PreferredModel, best);
    } else {
      assert best == predictions[0].views;
    }
  }

  /** With distinct names the preferred model's entry is unique, so the choice is its estimate. */
  lemma BestIsPreferred(predictions: seq<Estimate>, i: nat)
    requires DistinctModels(predictions)
    requires i < |predictions| && predictions[i].model == PreferredModel
    ensures BestPrediction(predictions) == Some(predictions[i].views)
  {
    assert ModelNames(predictions)[i] == PreferredModel;
    var best := BestPrediction(predictions).value;
    var j :| 0 <= j < |predictions| && predictions[j] == Estimate(PreferredModel, best);
    assert i == j;
  }

  /** The fixed band of 0.7 and 1.3 times the point estimate. */
  function Band(point: real): (band: (real, real))
    ensures band.0 + band.1 == 2.0 * point
    ensures band.1 - band.0 == 0.6 * point
    ensures point >= 0.0 ==> band.0 <= point <= band.1
    ensures point >= 0.0 ==> band.0 >= 0.0
  {
    (point * 0.7, point * 1.3)
  }
}
