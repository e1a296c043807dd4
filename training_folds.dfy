/**
 * The walk-forward fold scheduler of the training service: `_build_fold_plan`, which
 * computes the index windows once per job, and `split_walk_forward`, the generator that
 * slices a table with the same arithmetic.
 */
module TrainingFolds {
  import opened Wrappers

  /** One planned fold: training rows [trainStart, trainEnd), test rows [trainEnd, testEnd). */
  datatype Window = Window(trainStart: int, trainEnd: int, testEnd: int)

  /** `step_size or test_bars`: a missing or zero step falls back to the test width. */
  function EffectiveStep(stepSize: Option<int>, testBars: int): int {
    if stepSize.Some? && stepSize.value != 0 then stepSize.value else testBars
  }

  /** The candidate window whose training part starts at `start`. */
  function Candidate(start: int, trainBars: int, testBars: int): Window {
    Window(start, start + trainBars, start + trainBars + testBars)
  }

  /**
   * The windows the scheduler's loop appends from `start` on: it stops, and drops the
   * candidate, at the first one whose test end passes `totalRows`.
   */
  function PlanFrom(totalRows: int, trainBars: int, testBars: int, step: int, start: int): seq<Window>
    requires step > 0
    decreases totalRows - (start + trainBars + testBars)
  {
    if start + trainBars + testBars > totalRows then []
    else [Candidate(start, trainBars, testBars)] + PlanFrom(totalRows, trainBars, testBars, step, start + step)
  }

  /** The fold plan: the windows emitted from index 0. */
  function FoldPlan(totalRows: int, trainBars: int, testBars: int, step: int): seq<Window>
    requires step > 0
  {
    PlanFrom(totalRows, trainBars, testBars, step, 0)
  }

  /**
   * Closed form of the windows emitted from `start`: the k-th one starts at start + k·step;
   * there are none when the first candidate does not fit, and otherwise the last one fits
   * while the candidate after it overflows.
   */
  lemma {:induction false} PlanFromClosedForm(totalRows: int, trainBars: int, testBars: int, step: int, start: int)
    requires step > 0
    ensures var p := PlanFrom(totalRows, trainBars, testBars, step, start);
      && (|p| == 0 <==> start + trainBars + testBars > totalRows)
      && (|p| > 0 ==> start + (|p| - 1) * step + trainBars + testBars <= totalRows)
      && start + |p| * step + trainBars + testBars > totalRows
      && forall k :: 0 <= k < |p| ==> p[k] == Candidate(start + k * step, trainBars, testBars)
    decreases totalRows - (start + trainBars + testBars)
  {
    var p := PlanFrom(totalRows, trainBars, testBars, step, start);
    if start + trainBars + testBars <= totalRows {
      var rest := PlanFrom(totalRows, trainBars, testBars, step, start + step);
      PlanFromClosedForm(totalRows, trainBars, testBars, step, start + step);
      assert p == [Candidate(start, trainBars, testBars)] + rest;
      assert start + |p| * step == start + step + |rest| * step;
      if |rest| > 0 {
        assert start + (|p| - 1) * step == start + step + (|rest| - 1) * step;
      }
      forall k | 0 <= k < |p| ensures p[k] == Candidate(start + k * step, trainBars, testBars) {
        if k > 0 {
          assert p[k] == rest[k - 1];
          assert start + step + (k - 1) * step == start + k * step;
        }
      }
    }
  }

  lemma {:induction false} MulMonotone(a: int, b: int, c: nat)
    requires a <= b
    ensures a * c <= b * c
    decreases b - a
  {
    if a < b {
      MulMonotone(a + 1, b, c);
      assert (a + 1) * c == a * c + c;
    }
  }

  /**
   * What the plan promises: the k-th fold is (k·step, k·step + train, k·step + train + test),
   * every test end stays within the table, the plan is empty exactly when one training
   * window plus one test window does not fit, and the candidate after the last fold overflows.
   */
  lemma FoldPlanShape(totalRows: int, trainBars: int, testBars: int, step: int)
    requires step > 0
    ensures var p := FoldPlan(totalRows, trainBars, testBars, step);
      && (|p| == 0 <==> trainBars + testBars > totalRows)
      && (forall k :: 0 <= k < |p| ==> p[k] == Candidate(k * step, trainBars, testBars))
      && (forall k :: 0 <= k < |p| ==> p[k].testEnd <= totalRows)
      && |p| * step + trainBars + testBars > totalRows
  {
    PlanFromClosedForm(totalRows, trainBars, testBars, step, 0);
    var p := FoldPlan(totalRows, trainBars, testBars, step);
    forall k | 0 <= k < |p| ensures p[k].testEnd <= totalRows {
      MulMonotone(k, |p| - 1, step);
    }
  }

  /** `_build_fold_plan`, as the source writes it: a loop that appends candidates until one overflows. */
  method BuildFoldPlan(totalRows: int, trainBars: int, testBars: int, stepSize: Option<int>)
    returns (plan: seq<Window>)
    requires EffectiveStep(stepSize, testBars) > 0
    ensures plan == FoldPlan(totalRows, trainBars, testBars, EffectiveStep(stepSize, testBars))
  {
    var step := EffectiveStep(stepSize, testBars);
    plan := [];
    var startIdx := 0;
    while true
      invariant plan + PlanFrom(totalRows, trainBars, testBars, step, startIdx)
             == FoldPlan(totalRows, trainBars, testBars, step)
      decreases totalRows - (startIdx + trainBars + testBars)
    {
      var trainStart := startIdx;
      var trainEnd := trainStart + trainBars;
      var testEnd := trainEnd + testBars;
      if testEnd > totalRows {
        break;
      }
      plan := plan + [Window(trainStart, trainEnd, testEnd)];
      startIdx := startIdx + step;
    }
  }

  /** Python's normalisation of a slice bound `i` for a sequence of length `n`. */
  function SliceBound(i: int, n: nat): (b: nat)
    ensures b <= n
  {
    if i < 0 then (if n + i < 0 then 0 else n + i) else if i > n then n else i
  }

  /** `s[a:b]` (and `DataFrame.iloc[a:b]`) with Python's negative-index rules. */
  function PySlice<T>(s: seq<T>, a: int, b: int): seq<T> {
    var lo, hi := SliceBound(a, |s|), SliceBound(b, |s|);
    if lo < hi then s[lo..hi] else []
  }

  /**
   * The (train, test) pairs `split_walk_forward` yields from `start` on: like the plan, but
   * it also stops as soon as either slice comes out empty.
   */
  function SplitFrom<T>(data: seq<T>, trainBars: int, testBars: int, step: int, start: int): seq<(seq<T>, seq<T>)>
    requires step > 0
    decreases |data| - (start + trainBars + testBars)
  {
    var trainEnd := start + trainBars;
    var testEnd := trainEnd + testBars;
    if testEnd > |data| then []
    else
      var trainPart, testPart := PySlice(data, start, trainEnd), PySlice(data, trainEnd, testEnd);
      if trainPart == [] || testPart == [] then []
      else [(trainPart, testPart)] + SplitFrom(data, trainBars, testBars, step, start + step)
  }

  /** `split_walk_forward(data, train_bars, test_bars, step_size)`: everything the generator yields. */
  function SplitWalkForward<T>(data: seq<T>, trainBars: int, testBars: int, stepSize: Option<int>): seq<(seq<T>, seq<T>)>
    requires EffectiveStep(stepSize, testBars) > 0
  {
    SplitFrom(data, trainBars, testBars, EffectiveStep(stepSize, testBars), 0)
  }

  lemma {:induction false} SplitFromMatchesPlan<T>(data: seq<T>, trainBars: int, testBars: int, step: int, start: int)
    requires step > 0 && trainBars > 0 && testBars > 0 && start >= 0
    ensures var s, p := SplitFrom(data, trainBars, testBars, step, start),
                        PlanFrom(|data|, trainBars, testBars, step, start);
      && |s| == |p|
      && forall k :: 0 <= k < |p| ==>
           0 <= p[k].trainStart <= p[k].trainEnd <= p[k].testEnd <= |data|
           && s[k] == (data[p[k].trainStart..p[k].trainEnd], data[p[k].trainEnd..p[k].testEnd])
    decreases |data| - (start + trainBars + testBars)
  {
    if start + trainBars + testBars <= |data| {
      SplitFromMatchesPlan(data, trainBars, testBars, step, start + step);
    }
  }

  /**
   * With positive window widths the generator yields exactly the slices of the fold plan,
   * in plan order, so the job and the generator see the same folds.
   */
  lemma SplitWalkForwardMatchesPlan<T>(data: seq<T>, trainBars: int, testBars: int, stepSize: Option<int>)
    requires EffectiveStep(stepSize, testBars) > 0 && trainBars > 0 && testBars > 0
    ensures var s, p := SplitWalkForward(data, trainBars, testBars, stepSize),
                        FoldPlan(|data|, trainBars, testBars, EffectiveStep(stepSize, testBars));
      && |s| == |p|
      && forall k :: 0 <= k < |p| ==>
           0 <= p[k].trainStart <= p[k].trainEnd <= p[k].testEnd <= |data|
           && s[k] == (data[p[k].trainStart..p[k].trainEnd], data[p[k].trainEnd..p[k].testEnd])
  {
    SplitFromMatchesPlan(data, trainBars, testBars, EffectiveStep(stepSize, testBars), 0);
  }
}
