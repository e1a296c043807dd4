/**
 * `run_training_job` of the training service: for every requested model, in request
 * order, it fits one model per walk-forward fold, evaluates it on the fold's test rows,
 * reports each step as a progress event, and summarises the folds into per-model results.
 * The fitted libraries are an opaque `predict` function; a fitted model is represented by
 * the adapter and the rows it was fitted on.
 */
module TrainingJob {
  import opened Wrappers
  import opened Text
  import opened Stats
  import opened PriceData
  import opened TrainingFolds
  import opened TrainingMetrics
  import opened TrainingFeatures
  import opened OrderedDict

  /** The model families the job dispatches on; Prophet carries its sampling frequency. */
  datatype Adapter = RandomForest | XGBoost | Prophet(freq: string)

  /** A fitted model: the adapter and the rows it was fitted on. */
  datatype FittedModel = FittedModel(adapter: Adapter, trainRows: seq<FeatureRow>)

  /** One fold's record (`fold_data`); timestamps are the first and last rows of each slice. */
  datatype FoldRecord = FoldRecord(
    fold: nat, totalFolds: nat,
    trainStart: string, trainEnd: string, testStart: string, testEnd: string,
    rmse: real, mae: real, mape: Float)

  /** `_serialize_fold` output: a NaN mape becomes None. */
  datatype SerializedFold = SerializedFold(
    fold: nat, totalFolds: nat,
    trainStart: string, trainEnd: string, testStart: string, testEnd: string,
    rmse: real, mae: real, mape: Option<real>)

  /** `metrics_overall` of one model. */
  datatype Overall = Overall(rmse: real, mae: real, mape: Float)

  /** The value stored under a model name in `results`. */
  datatype ModelResult = ModelResult(metricsOverall: Overall, walkForward: seq<SerializedFold>, artifact: FittedModel)

  /** One entry of `_serialize_results`' `models` list. */
  datatype ModelEntry = ModelEntry(modelName: string, metricsOverall: Overall, walkForward: seq<SerializedFold>)

  /** `_serialize_results` output. */
  datatype SerializedResults = SerializedResults(
    instrumentToken: int, interval: string, forecastHorizon: int, models: seq<ModelEntry>)

  /** The progress events, by their `type` field. */
  datatype Event =
    | Start(models: seq<string>, totalFolds: nat)
    | ModelStart(model: string, totalFolds: nat)
    | FoldDone(model: string, data: SerializedFold)
    | ModelSkipped(model: string, reason: string)
    | ModelComplete(model: string, metrics: Overall)
    | Complete(results: SerializedResults)

  /** A finished job: the emitted events and the `results` dict in insertion order. */
  datatype JobResult = JobResult(events: seq<Event>, results: seq<(string, ModelResult)>)

  const NotEnoughHistory: string := "Not enough history for requested walk-forward configuration"
  const NoFolds: string := "Unable to build walk-forward folds; adjust train/test sizes"
  const UnknownModel: string := "unknown model"
  const XGBoostMissing: string := "xgboost not installed"

  /** The adapters return one prediction per test row. */
  ghost predicate PredictsPerRow(predict: (FittedModel, seq<FeatureRow>) -> seq<real>) {
    forall m, rows :: |predict(m, rows)| == |rows|
  }

  /** The dispatch on the model name inside the fold loop. */
  function ResolveAdapter(name: string, interval: string, xgboostInstalled: bool): (r: Result<Adapter, string>)
    ensures r.Failure? <==> (name !in {"random_forest", "prophet"} && (name != "xgboost" || !xgboostInstalled))
    ensures r.Failure? ==> r.error == (if name == "xgboost" then XGBoostMissing else UnknownModel)
    ensures r.Success? && r.value.Prophet? ==> r.value.freq == (if EndsWith(interval, "minute") then "T" else "D")
  {
    if name == "random_forest" then Success(RandomForest)
    else if name == "xgboost" then (if xgboostInstalled then Success(XGBoost) else Failure(XGBoostMissing))
    else if name == "prophet" then Success(Prophet(if EndsWith(interval, "minute") then "T" else "D"))
    else Failure(UnknownModel)
  }

  /** Every planned window is non-empty on both sides and lies inside `n` rows. */
  predicate PlanFits(plan: seq<Window>, n: nat) {
    forall k :: 0 <= k < |plan| ==> 0 <= plan[k].trainStart < plan[k].trainEnd < plan[k].testEnd <= n
  }

  lemma FoldPlanFits(n: nat, trainBars: int, testBars: int, step: int)
    requires trainBars > 0 && testBars > 0 && step > 0
    ensures PlanFits(FoldPlan(n, trainBars, testBars, step), n)
  {
    FoldPlanShape(n, trainBars, testBars, step);
    var plan := FoldPlan(n, trainBars, testBars, step);
    forall k | 0 <= k < |plan| ensures 0 <= plan[k].trainStart {
      MulMonotone(0, k, step);
    }
  }

  function Targets(rows: seq<FeatureRow>): (ys: seq<real>)
    ensures |ys| == |rows| && forall i :: 0 <= i < |rows| ==> ys[i] == rows[i].target
  {
    seq(|rows|, i requires 0 <= i < |rows| => rows[i].target)
  }

  /** The model fitted on fold k's training rows. */
  function FitAt(rows: seq<FeatureRow>, plan: seq<Window>, adapter: Adapter, k: nat): FittedModel
    requires PlanFits(plan, |rows|) && k < |plan|
  {
    FittedModel(adapter, rows[plan[k].trainStart..plan[k].trainEnd])
  }

  /** The record of fold k (0-based; its `fold` field is k + 1). */
  function FoldAt(rows: seq<FeatureRow>, plan: seq<Window>, adapter: Adapter, k: nat,
                  predict: (FittedModel, seq<FeatureRow>) -> seq<real>, sqrt: real -> real): FoldRecord
    requires PlanFits(plan, |rows|) && k < |plan|
    requires PredictsPerRow(predict) && IsSqrt(sqrt)
  {
    var w := plan[k];
    var test := rows[w.trainEnd..w.testEnd];
    FoldRecordOf(rows, w, k + 1, |plan|, Evaluate(Targets(test), predict(FitAt(rows, plan, adapter, k), test), sqrt))
  }

  /** `fold_data`: the fold's number, the first and last timestamps of both slices, and its metrics. */
  function FoldRecordOf(rows: seq<FeatureRow>, w: Window, fold: nat, totalFolds: nat, m: Metrics): (f: FoldRecord)
    requires 0 <= w.trainStart < w.trainEnd < w.testEnd <= |rows|
  {
    FoldRecord(fold, totalFolds,
      rows[w.trainStart].bar.timestamp, rows[w.trainEnd - 1].bar.timestamp,
      rows[w.trainEnd].bar.timestamp, rows[w.testEnd - 1].bar.timestamp,
      m.rmse, m.mae, m.mape)
  }

  /** The records of the first k folds. */
  function FoldsUpTo(rows: seq<FeatureRow>, plan: seq<Window>, adapter: Adapter, k: nat,
                     predict: (FittedModel, seq<FeatureRow>) -> seq<real>, sqrt: real -> real): (fs: seq<FoldRecord>)
    requires PlanFits(plan, |rows|) && k <= |plan|
    requires PredictsPerRow(predict) && IsSqrt(sqrt)
    ensures |fs| == k
  {
    seq(k, j requires 0 <= j < k => FoldAt(rows, plan, adapter, j, predict, sqrt))
  }

  /** `_serialize_fold`. */
  function SerializeFold(f: FoldRecord): (s: SerializedFold)
    ensures s.mape == (if f.mape.NaN? then None else Some(f.mape.value))
    ensures s.fold == f.fold && s.totalFolds == f.totalFolds
    ensures s.trainStart == f.trainStart && s.trainEnd == f.trainEnd
    ensures s.testStart == f.testStart && s.testEnd == f.testEnd
    ensures s.rmse == f.rmse && s.mae == f.mae
  {
    SerializedFold(f.fold, f.totalFolds, f.trainStart, f.trainEnd, f.testStart, f.testEnd, f.rmse, f.mae,
      match f.mape
      case NaN => None
      case Finite(v) => Some(v))
  }

  function SerializeFolds(fs: seq<FoldRecord>): (ss: seq<SerializedFold>)
    ensures |ss| == |fs| && forall i :: 0 <= i < |fs| ==> ss[i] == SerializeFold(fs[i])
  {
    seq(|fs|, i requires 0 <= i < |fs| => SerializeFold(fs[i]))
  }

  /** The fold events of the given records. */
  function FoldEvents(name: string, fs: seq<FoldRecord>): (ev: seq<Event>)
    ensures |ev| == |fs| && forall i :: 0 <= i < |fs| ==> ev[i] == FoldDone(name, SerializeFold(fs[i]))
  {
    seq(|fs|, i requires 0 <= i < |fs| => FoldDone(name, SerializeFold(fs[i])))
  }

  /** The defined (non-NaN) fold mapes, in fold order. */
  function DefinedMapes(fs: seq<FoldRecord>): (ms: seq<real>)
    ensures |ms| <= |fs|
  {
    if |fs| == 0 then []
    else DefinedMapes(fs[..|fs| - 1]) + (if fs[|fs| - 1].mape.Finite? then [fs[|fs| - 1].mape.value] else [])
  }

  function Rmses(fs: seq<FoldRecord>): (xs: seq<real>)
    ensures |xs| == |fs| && forall i :: 0 <= i < |fs| ==> xs[i] == fs[i].rmse
  {
    seq(|fs|, i requires 0 <= i < |fs| => fs[i].rmse)
  }

  function Maes(fs: seq<FoldRecord>): (xs: seq<real>)
    ensures |xs| == |fs| && forall i :: 0 <= i < |fs| ==> xs[i] == fs[i].mae
  {
    seq(|fs|, i requires 0 <= i < |fs| => fs[i].mae)
  }

  /** Fold j's contribution to the sum of defined mapes: its mape, or 0 when it is NaN. */
  function MapeTerms(fs: seq<FoldRecord>): (xs: seq<real>)
    ensures |xs| == |fs|
  {
    seq(|fs|, j requires 0 <= j < |fs| => if fs[j].mape.Finite? then fs[j].mape.value else 0.0)
  }

  /** Fold j's contribution to the count of defined mapes: 1, or 0 when its mape is NaN. */
  function MapeFlags(fs: seq<FoldRecord>): (xs: seq<real>)
    ensures |xs| == |fs|
  {
    seq(|fs|, j requires 0 <= j < |fs| => if fs[j].mape.Finite? then 1.0 else 0.0)
  }

  /** The defined mapes add up to the folds' defined mapes, and there is one per fold that has one. */
  lemma {:induction false} DefinedMapesTotals(fs: seq<FoldRecord>)
    ensures Sum(DefinedMapes(fs)) == Sum(MapeTerms(fs))
    ensures |DefinedMapes(fs)| as real == Sum(MapeFlags(fs))
  {
    if |fs| > 0 {
      var init, last := fs[..|fs| - 1], fs[|fs| - 1];
      DefinedMapesTotals(init);
      var terms, flags := MapeTerms(fs), MapeFlags(fs);
      assert terms[..|fs| - 1] == MapeTerms(init);
      assert flags[..|fs| - 1] == MapeFlags(init);
      assert Sum(terms) == Sum(MapeTerms(init)) + terms[|fs| - 1];
      assert Sum(flags) == Sum(MapeFlags(init)) + flags[|fs| - 1];
      var tail := if last.mape.Finite? then [last.mape.value] else [];
      assert DefinedMapes(fs) == DefinedMapes(init) + tail;
      SumAppend(DefinedMapes(init), tail);
      if last.mape.Finite? {
        assert Sum(tail) == last.mape.value by {
          assert tail[..0] == [];
        }
      }
    }
  }

  /** Exactly the defined fold mapes occur among the defined mapes. */
  lemma {:induction false} DefinedMapesMembers(fs: seq<FoldRecord>)
    ensures forall j :: 0 <= j < |fs| && fs[j].mape.Finite? ==> fs[j].mape.value in DefinedMapes(fs)
    ensures forall x :: x in DefinedMapes(fs) ==> exists j :: 0 <= j < |fs| && fs[j].mape == Finite(x)
  {
    if |fs| > 0 {
      var init, last := fs[..|fs| - 1], fs[|fs| - 1];
      DefinedMapesMembers(init);
      assert forall j :: 0 <= j < |init| ==> init[j] == fs[j];
    }
  }

  /** `metrics_overall`: unweighted means over folds; mape over the folds where it is defined. */
  function OverallOf(fs: seq<FoldRecord>): Overall
    requires |fs| > 0
  {
    var mapes := DefinedMapes(fs);
    Overall(Mean(Rmses(fs)), Mean(Maes(fs)), if |mapes| == 0 then NaN else Finite(Mean(mapes)))
  }

  /** The events of one model's block, `model_start` first. */
  function ModelEvents(rows: seq<FeatureRow>, plan: seq<Window>, interval: string, xgboostInstalled: bool, name: string,
                       predict: (FittedModel, seq<FeatureRow>) -> seq<real>, sqrt: real -> real): seq<Event>
    requires PlanFits(plan, |rows|) && |plan| > 0
    requires PredictsPerRow(predict) && IsSqrt(sqrt)
  {
    [ModelStart(name, |plan|)]
    + match ResolveAdapter(name, interval, xgboostInstalled)
      case Failure(reason) => [ModelSkipped(name, reason)]
      case Success(adapter) =>
        var fs := FoldsUpTo(rows, plan, adapter, |plan|, predict, sqrt);
        FoldEvents(name, fs) + [ModelComplete(name, OverallOf(fs))]
  }

  /** The result stored for a model, or None when it was skipped. */
  function ModelResultOf(rows: seq<FeatureRow>, plan: seq<Window>, interval: string, xgboostInstalled: bool, name: string,
                         predict: (FittedModel, seq<FeatureRow>) -> seq<real>, sqrt: real -> real): Option<ModelResult>
    requires PlanFits(plan, |rows|) && |plan| > 0
    requires PredictsPerRow(predict) && IsSqrt(sqrt)
  {
    match ResolveAdapter(name, interval, xgboostInstalled)
    case Failure(_) => None
    case Success(adapter) =>
      var fs := FoldsUpTo(rows, plan, adapter, |plan|, predict, sqrt);
      Some(ModelResult(OverallOf(fs), SerializeFolds(fs), FitAt(rows, plan, adapter, |plan| - 1)))
  }

  /** The events of the given models' blocks, concatenated in order. */
  function ModelsEvents(rows: seq<FeatureRow>, plan: seq<Window>, interval: string, xgboostInstalled: bool, names: seq<string>,
                        predict: (FittedModel, seq<FeatureRow>) -> seq<real>, sqrt: real -> real): seq<Event>
    requires PlanFits(plan, |rows|) && |plan| > 0
    requires PredictsPerRow(predict) && IsSqrt(sqrt)
  {
    if |names| == 0 then []
    else ModelsEvents(rows, plan, interval, xgboostInstalled, names[..|names| - 1], predict, sqrt)
         + ModelEvents(rows, plan, interval, xgboostInstalled, names[|names| - 1], predict, sqrt)
  }

  /** The result of each model name, as a function of the name. */
  function ResultOfModel(rows: seq<FeatureRow>, plan: seq<Window>, interval: string, xgboostInstalled: bool,
                         predict: (FittedModel, seq<FeatureRow>) -> seq<real>, sqrt: real -> real): string -> Option<ModelResult>
    requires PlanFits(plan, |rows|) && |plan| > 0
    requires PredictsPerRow(predict) && IsSqrt(sqrt)
  {
    name => ModelResultOf(rows, plan, interval, xgboostInstalled, name, predict, sqrt)
  }

  /** The `results` dict after the given models, in request order. */
  function ResultsAfter(rows: seq<FeatureRow>, plan: seq<Window>, interval: string, xgboostInstalled: bool, names: seq<string>,
                        predict: (FittedModel, seq<FeatureRow>) -> seq<real>, sqrt: real -> real): seq<(string, ModelResult)>
    requires PlanFits(plan, |rows|) && |plan| > 0
    requires PredictsPerRow(predict) && IsSqrt(sqrt)
  {
    StoredAll(names, ResultOfModel(rows, plan, interval, xgboostInstalled, predict, sqrt))
  }

  /** `_serialize_results`: one entry per stored model, in dict order. */
  function SerializeResults(instrumentToken: int, interval: string, forecastHorizon: int,
                            results: seq<(string, ModelResult)>): (s: SerializedResults)
    ensures |s.models| == |results|
    ensures forall i :: 0 <= i < |results| ==>
      s.models[i] == ModelEntry(results[i].0, results[i].1.metricsOverall, results[i].1.walkForward)
  {
    SerializedResults(instrumentToken, interval, forecastHorizon,
      seq(|results|, i requires 0 <= i < |results| =>
        ModelEntry(results[i].0, results[i].1.metricsOverall, results[i].1.walkForward)))
  }

  /** The whole job: the two early errors, or the event stream and the results. */
  function TrainingJob(instrumentToken: int, interval: string, models: seq<string>, forecastHorizon: int,
                       lookbackWindow: int, trainBars: int, testBars: int, stepSize: Option<int>,
                       bars: seq<Bar>, xgboostInstalled: bool,
                       predict: (FittedModel, seq<FeatureRow>) -> seq<real>, sqrt: real -> real): Result<JobResult, string>
    requires trainBars > 0 && testBars > 0 && EffectiveStep(stepSize, testBars) > 0
    requires PredictsPerRow(predict) && IsSqrt(sqrt)
  {
    if |bars| < trainBars + testBars + 10 then Failure(NotEnoughHistory)
    else
      var rows := EngineerFeatures(bars, forecastHorizon, lookbackWindow);
      var plan := FoldPlan(|rows|, trainBars, testBars, EffectiveStep(stepSize, testBars));
      if |plan| == 0 then Failure(NoFolds)
      else
        FoldPlanFits(|rows|, trainBars, testBars, EffectiveStep(stepSize, testBars));
        var results := ResultsAfter(rows, plan, interval, xgboostInstalled, models, predict, sqrt);
        Success(JobResult(
          [Start(models, |plan|)]
          + ModelsEvents(rows, plan, interval, xgboostInstalled, models, predict, sqrt)
          + [Complete(SerializeResults(instrumentToken, interval, forecastHorizon, results))],
          results))
  }

  lemma FoldsUpToSnoc(rows: seq<FeatureRow>, plan: seq<Window>, adapter: Adapter, k: nat,
                      predict: (FittedModel, seq<FeatureRow>) -> seq<real>, sqrt: real -> real)
    requires PlanFits(plan, |rows|) && k < |plan|
    requires PredictsPerRow(predict) && IsSqrt(sqrt)
    ensures FoldsUpTo(rows, plan, adapter, k + 1, predict, sqrt)
         == FoldsUpTo(rows, plan, adapter, k, predict, sqrt) + [FoldAt(rows, plan, adapter, k, predict, sqrt)]
  {
    var next, prev := FoldsUpTo(rows, plan, adapter, k + 1, predict, sqrt), FoldsUpTo(rows, plan, adapter, k, predict, sqrt);
    var last := FoldAt(rows, plan, adapter, k, predict, sqrt);
    forall j | 0 <= j < k + 1
      ensures next[j] == (prev + [last])[j]
    {
      if j < k {
        assert next[j] == FoldAt(rows, plan, adapter, j, predict, sqrt) == prev[j];
      }
    }
  }

  lemma FoldEventsSnoc(name: string, fs: seq<FoldRecord>, f: FoldRecord)
    ensures FoldEvents(name, fs + [f]) == FoldEvents(name, fs) + [FoldDone(name, SerializeFold(f))]
  {
  }

  /** A model that resolves: its block and its stored result. */
  lemma ResolvedModel(rows: seq<FeatureRow>, plan: seq<Window>, interval: string, xgboostInstalled: bool, name: string,
                      adapter: Adapter, predict: (FittedModel, seq<FeatureRow>) -> seq<real>, sqrt: real -> real)
    requires PlanFits(plan, |rows|) && |plan| > 0
    requires PredictsPerRow(predict) && IsSqrt(sqrt)
    requires ResolveAdapter(name, interval, xgboostInstalled) == Success(adapter)
    ensures var fs := FoldsUpTo(rows, plan, adapter, |plan|, predict, sqrt);
      && ModelEvents(rows, plan, interval, xgboostInstalled, name, predict, sqrt)
         == [ModelStart(name, |plan|)] + FoldEvents(name, fs) + [ModelComplete(name, OverallOf(fs))]
      && ModelResultOf(rows, plan, interval, xgboostInstalled, name, predict, sqrt)
         == Some(ModelResult(OverallOf(fs), SerializeFolds(fs), FitAt(rows, plan, adapter, |plan| - 1)))
  {
  }

  /** One pass of the fold loop: fit on the fold's training rows, predict its test rows, evaluate. */
  method RunFold(rows: seq<FeatureRow>, plan: seq<Window>, adapter: Adapter, k: nat,
                 predict: (FittedModel, seq<FeatureRow>) -> seq<real>, sqrt: real -> real)
    returns (fitted: FittedModel, foldData: FoldRecord)
    requires PlanFits(plan, |rows|) && k < |plan|
    requires PredictsPerRow(predict) && IsSqrt(sqrt)
    ensures fitted == FitAt(rows, plan, adapter, k)
    ensures foldData == FoldAt(rows, plan, adapter, k, predict, sqrt)
  {
    var w := plan[k];
    fitted := FittedModel(adapter, rows[w.trainStart..w.trainEnd]);
    var test := rows[w.trainEnd..w.testEnd];
    var preds := predict(fitted, test);
    var metrics := Evaluate(Targets(test), preds, sqrt);
    foldData := FoldRecordOf(rows, w, k + 1, |plan|, metrics);
  }

  /**
   * One iteration of the job's model loop: `model_start`, the fold loop (the dispatch on
   * the model name happens inside it, and a skipped model breaks out of it), then either
   * nothing more or the stored result and `model_complete`. `model` is the job-wide variable
   * that survives from fold to fold and becomes the artifact.
   */
  method RunModel(rows: seq<FeatureRow>, plan: seq<Window>, interval: string, xgboostInstalled: bool, name: string,
                  predict: (FittedModel, seq<FeatureRow>) -> seq<real>, sqrt: real -> real, model: Option<FittedModel>)
    returns (blockEvents: seq<Event>, result: Option<ModelResult>, modelAfter: Option<FittedModel>)
    requires PlanFits(plan, |rows|) && |plan| > 0
    requires PredictsPerRow(predict) && IsSqrt(sqrt)
    ensures blockEvents == ModelEvents(rows, plan, interval, xgboostInstalled, name, predict, sqrt)
    ensures result == ModelResultOf(rows, plan, interval, xgboostInstalled, name, predict, sqrt)
  {
    modelAfter := model;
    var totalFolds := |plan|;
    var foldMetrics: seq<FoldRecord> := [];
    blockEvents := [ModelStart(name, totalFolds)];
    var resolved := ResolveAdapter(name, interval, xgboostInstalled);
    var k := 0;
    while k < |plan|
      invariant 0 <= k <= |plan|
      invariant resolved.Failure? ==> k == 0 && foldMetrics == [] && blockEvents == [ModelStart(name, totalFolds)]
      invariant resolved.Success? ==> foldMetrics == FoldsUpTo(rows, plan, resolved.value, k, predict, sqrt)
      invariant resolved.Success? ==> blockEvents == [ModelStart(name, totalFolds)] + FoldEvents(name, foldMetrics)
      invariant resolved.Success? && k > 0 ==> modelAfter == Some(FitAt(rows, plan, resolved.value, k - 1))
    {
      if resolved.Failure? {
        blockEvents := blockEvents + [ModelSkipped(name, resolved.error)];
        break;
      }
      var fitted, foldData := RunFold(rows, plan, resolved.value, k, predict, sqrt);
      FoldsUpToSnoc(rows, plan, resolved.value, k, predict, sqrt);
      FoldEventsSnoc(name, foldMetrics, foldData);
      foldMetrics := foldMetrics + [foldData];
      blockEvents := blockEvents + [FoldDone(name, SerializeFold(foldData))];
      modelAfter := Some(fitted);
      k := k + 1;
    }
    if |foldMetrics| == 0 {
      result := None;
      return;
    }
    ResolvedModel(rows, plan, interval, xgboostInstalled, name, resolved.value, predict, sqrt);
    var latestModel := modelAfter.value;
    var overall := OverallOf(foldMetrics);
    result := Some(ModelResult(overall, SerializeFolds(foldMetrics), latestModel));
    blockEvents := blockEvents + [ModelComplete(name, overall)];
  }

  lemma ModelsStep(rows: seq<FeatureRow>, plan: seq<Window>, interval: string, xgboostInstalled: bool,
                   models: seq<string>, i: nat,
                   predict: (FittedModel, seq<FeatureRow>) -> seq<real>, sqrt: real -> real)
    requires PlanFits(plan, |rows|) && |plan| > 0
    requires PredictsPerRow(predict) && IsSqrt(sqrt)
    requires i < |models|
    ensures ModelsEvents(rows, plan, interval, xgboostInstalled, models[..i + 1], predict, sqrt)
         == ModelsEvents(rows, plan, interval, xgboostInstalled, models[..i], predict, sqrt)
            + ModelEvents(rows, plan, interval, xgboostInstalled, models[i], predict, sqrt)
    ensures ResultsAfter(rows, plan, interval, xgboostInstalled, models[..i + 1], predict, sqrt)
         == Stored(ResultsAfter(rows, plan, interval, xgboostInstalled, models[..i], predict, sqrt), models[i],
                   ModelResultOf(rows, plan, interval, xgboostInstalled, models[i], predict, sqrt))
  {
    assert models[..i + 1][..i] == models[..i];
  }

  /** The model loop of `run_training_job`, in request order; `model` is shared across models. */
  method RunModels(rows: seq<FeatureRow>, plan: seq<Window>, interval: string, xgboostInstalled: bool,
                   models: seq<string>,
                   predict: (FittedModel, seq<FeatureRow>) -> seq<real>, sqrt: real -> real)
    returns (events: seq<Event>, results: seq<(string, ModelResult)>)
    requires PlanFits(plan, |rows|) && |plan| > 0
    requires PredictsPerRow(predict) && IsSqrt(sqrt)
    ensures events == ModelsEvents(rows, plan, interval, xgboostInstalled, models, predict, sqrt)
    ensures results == ResultsAfter(rows, plan, interval, xgboostInstalled, models, predict, sqrt)
  {
    events := [];
    results := [];
    var model: Option<FittedModel> := None;
    var i := 0;
    while i < |models|
      invariant 0 <= i <= |models|
      invariant events == ModelsEvents(rows, plan, interval, xgboostInstalled, models[..i], predict, sqrt)
      invariant results == ResultsAfter(rows, plan, interval, xgboostInstalled, models[..i], predict, sqrt)
    {
      var name := models[i];
      var blockEvents, result;
      blockEvents, result, model := RunModel(rows, plan, interval, xgboostInstalled, name, predict, sqrt, model);
      ModelsStep(rows, plan, interval, xgboostInstalled, models, i, predict, sqrt);
      events := events + blockEvents;
      if result.Some? {
        results := Put(results, name, result.value);
      }
      i := i + 1;
    }
    assert models[..|models|] == models;
  }

  /** `run_training_job`: the two early errors, then `start`, the model loop and `complete`. */
  method RunTrainingJob(instrumentToken: int, interval: string, models: seq<string>, forecastHorizon: int,
                        lookbackWindow: int, trainBars: int, testBars: int, stepSize: Option<int>,
                        bars: seq<Bar>, xgboostInstalled: bool,
                        predict: (FittedModel, seq<FeatureRow>) -> seq<real>, sqrt: real -> real)
    returns (outcome: Result<JobResult, string>)
    requires trainBars > 0 && testBars > 0 && EffectiveStep(stepSize, testBars) > 0
    requires PredictsPerRow(predict) && IsSqrt(sqrt)
    ensures outcome == TrainingJob(instrumentToken, interval, models, forecastHorizon, lookbackWindow,
                                   trainBars, testBars, stepSize, bars, xgboostInstalled, predict, sqrt)
  {
    if |bars| < trainBars + testBars + 10 {
      return Failure(NotEnoughHistory);
    }
    var rows := EngineerFeatures(bars, forecastHorizon, lookbackWindow);
    var plan := BuildFoldPlan(|rows|, trainBars, testBars, stepSize);
    if |plan| == 0 {
      return Failure(NoFolds);
    }
    FoldPlanFits(|rows|, trainBars, testBars, EffectiveStep(stepSize, testBars));
    var modelEvents, results := RunModels(rows, plan, interval, xgboostInstalled, models, predict, sqrt);
    var events := [Start(models, |plan|)] + modelEvents
      + [Complete(SerializeResults(instrumentToken, interval, forecastHorizon, results))];
    outcome := Success(JobResult(events, results));
  }

  /** No fold mape is defined exactly when the list of defined mapes is empty; the defined ones are those of the folds. */
  lemma {:induction false} DefinedMapesEmptyIff(fs: seq<FoldRecord>)
    ensures DefinedMapes(fs) == [] <==> forall i :: 0 <= i < |fs| ==> fs[i].mape.NaN?
  {
    if |fs| > 0 {
      var init := fs[..|fs| - 1];
      DefinedMapesEmptyIff(init);
      assert forall i :: 0 <= i < |init| ==> init[i] == fs[i];
    }
  }

  /**
   * The job fails, before any event, exactly in the two cases the source raises: too few
   * raw bars for one training window, one test window and ten spare bars, or too few
   * feature rows for a single fold.
   */
  lemma TrainingJobErrors(instrumentToken: int, interval: string, models: seq<string>, forecastHorizon: int,
                          lookbackWindow: int, trainBars: int, testBars: int, stepSize: Option<int>,
                          bars: seq<Bar>, xgboostInstalled: bool,
                          predict: (FittedModel, seq<FeatureRow>) -> seq<real>, sqrt: real -> real)
    requires trainBars > 0 && testBars > 0 && EffectiveStep(stepSize, testBars) > 0
    requires PredictsPerRow(predict) && IsSqrt(sqrt)
    ensures var out := TrainingJob(instrumentToken, interval, models, forecastHorizon, lookbackWindow,
                                   trainBars, testBars, stepSize, bars, xgboostInstalled, predict, sqrt);
            var nRows := |EngineerFeatures(bars, forecastHorizon, lookbackWindow)|;
      && (out.Failure? <==> (|bars| < trainBars + testBars + 10 || nRows < trainBars + testBars))
      && (|bars| < trainBars + testBars + 10 ==> out == Failure(NotEnoughHistory))
      && (|bars| >= trainBars + testBars + 10 && nRows < trainBars + testBars ==> out == Failure(NoFolds))
  {
    var rows := EngineerFeatures(bars, forecastHorizon, lookbackWindow);
    FoldPlanShape(|rows|, trainBars, testBars, EffectiveStep(stepSize, testBars));
  }

  /**
   * One model's block: `model_start`, then either `model_skipped` with the reason of the
   * failed dispatch, or one `fold` event per planned fold numbered 1, 2, … in order and a
   * closing `model_complete`.
   */
  lemma ModelBlockShape(rows: seq<FeatureRow>, plan: seq<Window>, interval: string, xgboostInstalled: bool, name: string,
                        predict: (FittedModel, seq<FeatureRow>) -> seq<real>, sqrt: real -> real)
    requires PlanFits(plan, |rows|) && |plan| > 0
    requires PredictsPerRow(predict) && IsSqrt(sqrt)
    ensures var block := ModelEvents(rows, plan, interval, xgboostInstalled, name, predict, sqrt);
            var resolved := ResolveAdapter(name, interval, xgboostInstalled);
      && block[0] == ModelStart(name, |plan|)
      && (resolved.Failure? ==> block == [ModelStart(name, |plan|), ModelSkipped(name, resolved.error)])
      && (resolved.Success? ==>
            && |block| == |plan| + 2
            && (forall j :: 1 <= j <= |plan| ==>
                  block[j].FoldDone? && block[j].model == name
                  && block[j].data.fold == j && block[j].data.totalFolds == |plan|)
            && block[|plan| + 1].ModelComplete? && block[|plan| + 1].model == name)
  {
    var resolved := ResolveAdapter(name, interval, xgboostInstalled);
    if resolved.Success? {
      ResolvedModel(rows, plan, interval, xgboostInstalled, name, resolved.value, predict, sqrt);
      var fs := FoldsUpTo(rows, plan, resolved.value, |plan|, predict, sqrt);
      FoldsFacts(rows, plan, resolved.value, predict, sqrt);
      var fe := FoldEvents(name, fs);
      Framing(ModelStart(name, |plan|), fe, ModelComplete(name, OverallOf(fs)));
    }
  }

  /** The positions of `[first] + inner + [last]`. */
  lemma Framing<T>(first: T, inner: seq<T>, last: T)
    ensures var s := [first] + inner + [last];
      && |s| == |inner| + 2 && s[0] == first && s[|inner| + 1] == last
      && forall j :: 1 <= j <= |inner| ==> s[j] == inner[j - 1]
  {
  }

  /** No event of `ev` is a `start` or a `complete`. */
  predicate NoBrackets(ev: seq<Event>) {
    forall k :: 0 <= k < |ev| ==> !ev[k].Start? && !ev[k].Complete?
  }

  lemma NoBracketsConcat(a: seq<Event>, b: seq<Event>)
    requires NoBrackets(a) && NoBrackets(b)
    ensures NoBrackets(a + b)
  {
    forall k | 0 <= k < |a + b| ensures !(a + b)[k].Start? && !(a + b)[k].Complete? {
      if k >= |a| {
        assert (a + b)[k] == b[k - |a|];
      }
    }
  }

  /** A model block holds no `start` and no `complete` event. */
  lemma ModelEventsInner(rows: seq<FeatureRow>, plan: seq<Window>, interval: string, xgboostInstalled: bool, name: string,
                         predict: (FittedModel, seq<FeatureRow>) -> seq<real>, sqrt: real -> real)
    requires PlanFits(plan, |rows|) && |plan| > 0
    requires PredictsPerRow(predict) && IsSqrt(sqrt)
    ensures NoBrackets(ModelEvents(rows, plan, interval, xgboostInstalled, name, predict, sqrt))
  {
    var resolved := ResolveAdapter(name, interval, xgboostInstalled);
    if resolved.Success? {
      ResolvedModel(rows, plan, interval, xgboostInstalled, name, resolved.value, predict, sqrt);
      var fs := FoldsUpTo(rows, plan, resolved.value, |plan|, predict, sqrt);
      var fe := FoldEvents(name, fs);
      assert NoBrackets(fe);
      NoBracketsConcat([ModelStart(name, |plan|)], fe);
      NoBracketsConcat([ModelStart(name, |plan|)] + fe, [ModelComplete(name, OverallOf(fs))]);
    }
  }

  /** No model block contains a `start` or a `complete` event. */
  lemma {:induction false} ModelsEventsInner(rows: seq<FeatureRow>, plan: seq<Window>, interval: string, xgboostInstalled: bool,
                                             names: seq<string>,
                                             predict: (FittedModel, seq<FeatureRow>) -> seq<real>, sqrt: real -> real)
    requires PlanFits(plan, |rows|) && |plan| > 0
    requires PredictsPerRow(predict) && IsSqrt(sqrt)
    ensures NoBrackets(ModelsEvents(rows, plan, interval, xgboostInstalled, names, predict, sqrt))
  {
    if |names| > 0 {
      var init := names[..|names| - 1];
      ModelsEventsInner(rows, plan, interval, xgboostInstalled, init, predict, sqrt);
      ModelEventsInner(rows, plan, interval, xgboostInstalled, names[|names| - 1], predict, sqrt);
      NoBracketsConcat(ModelsEvents(rows, plan, interval, xgboostInstalled, init, predict, sqrt),
                       ModelEvents(rows, plan, interval, xgboostInstalled, names[|names| - 1], predict, sqrt));
    }
  }

  /** A `start`, events without brackets, and a `complete`: each bracket occurs once, at its end. */
  lemma Bracketed(first: Event, inner: seq<Event>, last: Event)
    requires first.Start? && last.Complete? && NoBrackets(inner)
    ensures var ev := [first] + inner + [last];
      && (forall k :: 0 <= k < |ev| ==> (ev[k].Start? <==> k == 0))
      && (forall k :: 0 <= k < |ev| ==> (ev[k].Complete? <==> k == |ev| - 1))
  {
    var ev := [first] + inner + [last];
    forall k | 0 < k < |ev| - 1 ensures ev[k] == inner[k - 1] {
    }
  }

  /**
   * The event stream of a successful job: exactly one `start`, first, carrying the model
   * list and the fold count, and exactly one `complete`, last, carrying the serialised results.
   */
  lemma EventStreamBrackets(instrumentToken: int, interval: string, models: seq<string>, forecastHorizon: int,
                            lookbackWindow: int, trainBars: int, testBars: int, stepSize: Option<int>,
                            bars: seq<Bar>, xgboostInstalled: bool,
                            predict: (FittedModel, seq<FeatureRow>) -> seq<real>, sqrt: real -> real)
    requires trainBars > 0 && testBars > 0 && EffectiveStep(stepSize, testBars) > 0
    requires PredictsPerRow(predict) && IsSqrt(sqrt)
    ensures var out := TrainingJob(instrumentToken, interval, models, forecastHorizon, lookbackWindow,
                                   trainBars, testBars, stepSize, bars, xgboostInstalled, predict, sqrt);
            var rows := EngineerFeatures(bars, forecastHorizon, lookbackWindow);
            var plan := FoldPlan(|rows|, trainBars, testBars, EffectiveStep(stepSize, testBars));
      out.Success? ==>
        var ev := out.value.events;
        && ev[0] == Start(models, |plan|)
        && ev[|ev| - 1] == Complete(SerializeResults(instrumentToken, interval, forecastHorizon, out.value.results))
        && (forall k :: 0 <= k < |ev| ==> (ev[k].Start? <==> k == 0))
        && (forall k :: 0 <= k < |ev| ==> (ev[k].Complete? <==> k == |ev| - 1))
  {
    if |bars| >= trainBars + testBars + 10 {
      var rows := EngineerFeatures(bars, forecastHorizon, lookbackWindow);
      var plan := FoldPlan(|rows|, trainBars, testBars, EffectiveStep(stepSize, testBars));
      if |plan| > 0 {
        FoldPlanFits(|rows|, trainBars, testBars, EffectiveStep(stepSize, testBars));
        ModelsEventsInner(rows, plan, interval, xgboostInstalled, models, predict, sqrt);
        var results := ResultsAfter(rows, plan, interval, xgboostInstalled, models, predict, sqrt);
        Bracketed(Start(models, |plan|), ModelsEvents(rows, plan, interval, xgboostInstalled, models, predict, sqrt),
                  Complete(SerializeResults(instrumentToken, interval, forecastHorizon, results)));
      }
    }
  }

  /**
   * The `results` dict after the model loop: a name is a key exactly when it was requested
   * and its dispatch succeeded, each key appears once, and the stored value is that model's
   * result (a repeated name recomputes the same value in place).
   */
  lemma ResultsAfterLookup(rows: seq<FeatureRow>, plan: seq<Window>, interval: string, xgboostInstalled: bool,
                           names: seq<string>,
                           predict: (FittedModel, seq<FeatureRow>) -> seq<real>, sqrt: real -> real)
    requires PlanFits(plan, |rows|) && |plan| > 0
    requires PredictsPerRow(predict) && IsSqrt(sqrt)
    ensures var res := ResultsAfter(rows, plan, interval, xgboostInstalled, names, predict, sqrt);
      && (forall name :: Lookup(res, name)
            == (if name in names then ModelResultOf(rows, plan, interval, xgboostInstalled, name, predict, sqrt) else None))
      && DistinctKeys(res)
  {
    StoredAllLookup(names, ResultOfModel(rows, plan, interval, xgboostInstalled, predict, sqrt));
  }

  /** Per-fold facts: fold numbers count from 1, errors are non-negative. */
  lemma FoldsFacts(rows: seq<FeatureRow>, plan: seq<Window>, adapter: Adapter,
                   predict: (FittedModel, seq<FeatureRow>) -> seq<real>, sqrt: real -> real)
    requires PlanFits(plan, |rows|) && |plan| > 0
    requires PredictsPerRow(predict) && IsSqrt(sqrt)
    ensures var fs := FoldsUpTo(rows, plan, adapter, |plan|, predict, sqrt);
      forall j :: 0 <= j < |fs| ==>
        && fs[j].fold == j + 1 && fs[j].totalFolds == |plan|
        && fs[j].rmse >= 0.0 && fs[j].mae >= 0.0
        && (fs[j].mape.Finite? ==> fs[j].mape.value >= 0.0)
  {
    var fs := FoldsUpTo(rows, plan, adapter, |plan|, predict, sqrt);
    forall j | 0 <= j < |fs|
      ensures fs[j].fold == j + 1 && fs[j].totalFolds == |plan| && fs[j].rmse >= 0.0 && fs[j].mae >= 0.0
      ensures fs[j].mape.Finite? ==> fs[j].mape.value >= 0.0
    {
      assert fs[j] == FoldAt(rows, plan, adapter, j, predict, sqrt);
    }
  }

  lemma {:induction false} DefinedMapesNonNegative(fs: seq<FoldRecord>)
    requires forall j :: 0 <= j < |fs| ==> (fs[j].mape.Finite? ==> fs[j].mape.value >= 0.0)
    ensures AllNonNegative(DefinedMapes(fs))
  {
    if |fs| > 0 {
      DefinedMapesNonNegative(fs[..|fs| - 1]);
    }
  }

  /**
   * `metrics_overall` over folds with non-negative errors: non-negative means, and a mape
   * that is NaN exactly when no fold's mape is defined and otherwise the mean of the
   * defined fold mapes.
   */
  lemma OverallShape(fs: seq<FoldRecord>)
    requires |fs| > 0
    requires forall j :: 0 <= j < |fs| ==>
      fs[j].rmse >= 0.0 && fs[j].mae >= 0.0 && (fs[j].mape.Finite? ==> fs[j].mape.value >= 0.0)
    ensures var o := OverallOf(fs);
      && o.rmse >= 0.0 && o.mae >= 0.0
      && (o.mape.NaN? <==> forall j :: 0 <= j < |fs| ==> fs[j].mape.NaN?)
      && (o.mape.Finite? ==> o.mape.value >= 0.0)
      && (o.mape.Finite? ==> Sum(MapeFlags(fs)) > 0.0 && o.mape.value == Sum(MapeTerms(fs)) / Sum(MapeFlags(fs)))
  {
    MeanNonNegative(Rmses(fs));
    MeanNonNegative(Maes(fs));
    DefinedMapesEmptyIff(fs);
    DefinedMapesNonNegative(fs);
    DefinedMapesTotals(fs);
    var mapes := DefinedMapes(fs);
    if |mapes| > 0 {
      MeanNonNegative(mapes);
    }
  }

  /**
   * A stored model result: non-negative overall rmse and mae; an overall mape that is NaN
   * exactly when no serialised fold has a mape; one serialised fold per planned fold,
   * numbered 1, 2, … in order; and the artifact is the model fitted on the last fold's
   * training rows.
   */
  lemma ModelResultShape(rows: seq<FeatureRow>, plan: seq<Window>, interval: string, xgboostInstalled: bool, name: string,
                         predict: (FittedModel, seq<FeatureRow>) -> seq<real>, sqrt: real -> real)
    requires PlanFits(plan, |rows|) && |plan| > 0
    requires PredictsPerRow(predict) && IsSqrt(sqrt)
    ensures var r := ModelResultOf(rows, plan, interval, xgboostInstalled, name, predict, sqrt);
            var resolved := ResolveAdapter(name, interval, xgboostInstalled);
      && (r.None? <==> resolved.Failure?)
      && (r.Some? ==>
            && r.value.metricsOverall.rmse >= 0.0
            && r.value.metricsOverall.mae >= 0.0
            && (r.value.metricsOverall.mape.NaN? <==> forall j :: 0 <= j < |r.value.walkForward| ==> r.value.walkForward[j].mape.None?)
            && (r.value.metricsOverall.mape.Finite? ==> r.value.metricsOverall.mape.value >= 0.0)
            && |r.value.walkForward| == |plan|
            && (forall j :: 0 <= j < |plan| ==> r.value.walkForward[j].fold == j + 1)
            && r.value.artifact == FittedModel(resolved.value, rows[plan[|plan| - 1].trainStart..plan[|plan| - 1].trainEnd]))
  {
    var resolved := ResolveAdapter(name, interval, xgboostInstalled);
    if resolved.Success? {
      ResolvedModel(rows, plan, interval, xgboostInstalled, name, resolved.value, predict, sqrt);
      var fs := FoldsUpTo(rows, plan, resolved.value, |plan|, predict, sqrt);
      FoldsFacts(rows, plan, resolved.value, predict, sqrt);
      SummaryShape(fs);
    }
  }

  /** The summary and the serialised folds of fold records with non-negative errors. */
  lemma SummaryShape(fs: seq<FoldRecord>)
    requires |fs| > 0
    requires forall j :: 0 <= j < |fs| ==>
      fs[j].fold == j + 1 && fs[j].rmse >= 0.0 && fs[j].mae >= 0.0 && (fs[j].mape.Finite? ==> fs[j].mape.value >= 0.0)
    ensures var o, wf := OverallOf(fs), SerializeFolds(fs);
      && o.rmse >= 0.0 && o.mae >= 0.0
      && (o.mape.NaN? <==> forall j :: 0 <= j < |wf| ==> wf[j].mape.None?)
      && (o.mape.Finite? ==> o.mape.value >= 0.0)
      && |wf| == |fs| && (forall j :: 0 <= j < |fs| ==> wf[j].fold == j + 1)
  {
    OverallShape(fs);
    var wf := SerializeFolds(fs);
    assert forall j :: 0 <= j < |fs| ==> (wf[j].mape.None? <==> fs[j].mape.NaN?);
  }
}
