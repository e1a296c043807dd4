/**
 * `evaluate_predictions` of the training service: root-mean-square error, mean absolute
 * error and mean absolute percentage error of one fold's predictions.
 */
module TrainingMetrics {
  import opened Stats

  /** A float result that may be NaN: only MAPE can come out NaN. */
  datatype Float = NaN | Finite(value: real)

  /** The three error measures of one fold. */
  datatype Metrics = Metrics(rmse: real, mae: real, mape: Float)

  /** `sqrt` is the non-negative square root on the non-negative reals (so the root of 0 is 0). */
  ghost predicate IsSqrt(sqrt: real -> real) {
    && sqrt(0.0) == 0.0
    && forall x :: x >= 0.0 ==> sqrt(x) >= 0.0 && sqrt(x) * sqrt(x) == x
  }

  /** Element-wise squared errors. */
  function SquaredErrors(yTrue: seq<real>, yPred: seq<real>): (r: seq<real>)
    requires |yTrue| == |yPred|
    ensures |r| == |yTrue|
    ensures forall i :: 0 <= i < |r| ==> r[i] == (yTrue[i] - yPred[i]) * (yTrue[i] - yPred[i])
  {
    seq(|yTrue|, i requires 0 <= i < |yTrue| => (yTrue[i] - yPred[i]) * (yTrue[i] - yPred[i]))
  }

  /** Element-wise absolute errors. */
  function AbsErrors(yTrue: seq<real>, yPred: seq<real>): (r: seq<real>)
    requires |yTrue| == |yPred|
    ensures |r| == |yTrue|
    ensures forall i :: 0 <= i < |r| ==> r[i] == Abs(yTrue[i] - yPred[i])
  {
    seq(|yTrue|, i requires 0 <= i < |yTrue| => Abs(yTrue[i] - yPred[i]))
  }

  /**
   * The finite absolute percentage errors, in order: an entry whose true value is zero
   * divides by zero (an infinity, or NaN when the prediction is zero too) and is dropped.
   */
  function PercentErrors(yTrue: seq<real>, yPred: seq<real>): (r: seq<real>)
    requires |yTrue| == |yPred|
    ensures |r| <= |yTrue|
    ensures AllNonNegative(r)
    ensures r == [] <==> forall i :: 0 <= i < |yTrue| ==> yTrue[i] == 0.0
    decreases |yTrue|
  {
    if |yTrue| == 0 then []
    else
      var rest := PercentErrors(yTrue[1..], yPred[1..]);
      assert forall i :: 1 <= i < |yTrue| ==> yTrue[1..][i - 1] == yTrue[i];
      if yTrue[0] == 0.0 then rest
      else [Abs((yTrue[0] - yPred[0]) / yTrue[0])] + rest
  }

  /**
   * Appending one pair appends its percentage error when the true value is non-zero and
   * nothing when it is zero: the entries are kept in order and only zero targets are skipped.
   */
  lemma {:induction false} PercentErrorsSnoc(yTrue: seq<real>, yPred: seq<real>, t: real, p: real)
    requires |yTrue| == |yPred|
    ensures PercentErrors(yTrue + [t], yPred + [p])
         == PercentErrors(yTrue, yPred) + (if t == 0.0 then [] else [Abs((t - p) / t)])
    decreases |yTrue|
  {
    if |yTrue| == 0 {
      assert ([t] + [])[1..] == [];
      assert yTrue + [t] == [t] && yPred + [p] == [p];
    } else {
      assert (yTrue + [t])[1..] == yTrue[1..] + [t];
      assert (yPred + [p])[1..] == yPred[1..] + [p];
      PercentErrorsSnoc(yTrue[1..], yPred[1..], t, p);
    }
  }

  /** Entry i's contribution to the MAPE numerator: |(t−p)/t|, or 0 for a zero target. */
  function RatioTerms(yTrue: seq<real>, yPred: seq<real>): (r: seq<real>)
    requires |yTrue| == |yPred|
    ensures |r| == |yTrue|
  {
    seq(|yTrue|, i requires 0 <= i < |yTrue| => if yTrue[i] == 0.0 then 0.0 else Abs((yTrue[i] - yPred[i]) / yTrue[i]))
  }

  /** Entry i's contribution to the MAPE denominator: 1 for a non-zero target, 0 otherwise. */
  function KeptFlags(yTrue: seq<real>): (r: seq<real>)
    ensures |r| == |yTrue|
  {
    seq(|yTrue|, i requires 0 <= i < |yTrue| => if yTrue[i] == 0.0 then 0.0 else 1.0)
  }

  lemma SumCons(x: real, xs: seq<real>)
    ensures Sum([x] + xs) == x + Sum(xs)
  {
    SumAppend([x], xs);
    assert [x][..0] == [];
  }

  lemma RatioTermsCons(yTrue: seq<real>, yPred: seq<real>)
    requires |yTrue| == |yPred| > 0
    ensures RatioTerms(yTrue, yPred) == [RatioTerms(yTrue, yPred)[0]] + RatioTerms(yTrue[1..], yPred[1..])
  {
    assert forall i :: 1 <= i < |yTrue| ==> yTrue[1..][i - 1] == yTrue[i] && yPred[1..][i - 1] == yPred[i];
  }

  lemma KeptFlagsCons(yTrue: seq<real>)
    requires |yTrue| > 0
    ensures KeptFlags(yTrue) == [KeptFlags(yTrue)[0]] + KeptFlags(yTrue[1..])
  {
    assert forall i :: 1 <= i < |yTrue| ==> yTrue[1..][i - 1] == yTrue[i];
  }

  /**
   * The surviving percentage errors add up to the ratios of the non-zero targets, and
   * there are as many of them as non-zero targets.
   */
  lemma {:induction false} PercentErrorsTotals(yTrue: seq<real>, yPred: seq<real>)
    requires |yTrue| == |yPred|
    ensures Sum(PercentErrors(yTrue, yPred)) == Sum(RatioTerms(yTrue, yPred))
    ensures |PercentErrors(yTrue, yPred)| as real == Sum(KeptFlags(yTrue))
    decreases |yTrue|
  {
    if |yTrue| > 0 {
      var t, p := yTrue[1..], yPred[1..];
      PercentErrorsTotals(t, p);
      var rest := PercentErrors(t, p);
      RatioTermsCons(yTrue, yPred);
      KeptFlagsCons(yTrue);
      SumCons(RatioTerms(yTrue, yPred)[0], RatioTerms(t, p));
      SumCons(KeptFlags(yTrue)[0], KeptFlags(t));
      if yTrue[0] != 0.0 {
        var head := Abs((yTrue[0] - yPred[0]) / yTrue[0]);
        assert PercentErrors(yTrue, yPred) == [head] + rest;
        SumCons(head, rest);
      } else {
        assert PercentErrors(yTrue, yPred) == rest;
      }
    }
  }

  /** 100 × the mean of |(t−p)/t| over the non-zero targets, as index-wise sums. */
  function MeanRatioPercent(yTrue: seq<real>, yPred: seq<real>): real
    requires |yTrue| == |yPred| && Sum(KeptFlags(yTrue)) > 0.0
  {
    100.0 * Sum(RatioTerms(yTrue, yPred)) / Sum(KeptFlags(yTrue))
  }

  lemma PercentOfMean(s: real, k: real)
    requires k > 0.0
    ensures (s / k) * 100.0 == 100.0 * s / k
  {
  }

  /**
   * MAPE in percent: NaN when every true value is zero, otherwise 100 times the mean of
   * |(t−p)/t| over the entries whose true value is non-zero.
   */
  function Mape(yTrue: seq<real>, yPred: seq<real>): (m: Float)
    requires |yTrue| == |yPred|
    ensures m.NaN? <==> forall i :: 0 <= i < |yTrue| ==> yTrue[i] == 0.0
    ensures m.Finite? ==> Sum(KeptFlags(yTrue)) > 0.0 && m.value == MeanRatioPercent(yTrue, yPred)
    ensures m.Finite? ==> m.value >= 0.0
  {
    var ape := PercentErrors(yTrue, yPred);
    PercentErrorsTotals(yTrue, yPred);
    if |ape| == 0 then NaN
    else
      MeanNonNegative(ape);
      PercentOfMean(Sum(ape), |ape| as real);
      Finite(Mean(ape) * 100.0)
  }

  /**
   * `evaluate_predictions(y_true, y_pred)`: rmse is the square root of the mean squared
   * error, mae the mean absolute error, both non-negative; mape is NaN exactly when every
   * true value is zero, and otherwise 100 times the mean ratio over the non-zero ones.
   */
  function Evaluate(yTrue: seq<real>, yPred: seq<real>, sqrt: real -> real): (m: Metrics)
    requires |yTrue| == |yPred| > 0
    requires IsSqrt(sqrt)
    ensures m.rmse >= 0.0 && m.rmse * m.rmse == Mean(SquaredErrors(yTrue, yPred))
    ensures m.mae == Mean(AbsErrors(yTrue, yPred)) && m.mae >= 0.0
    ensures m.mape.NaN? <==> forall i :: 0 <= i < |yTrue| ==> yTrue[i] == 0.0
    ensures m.mape.Finite? ==>
      && m.mape.value >= 0.0 && Sum(KeptFlags(yTrue)) > 0.0 && m.mape.value == MeanRatioPercent(yTrue, yPred)
  {
    var ae := AbsErrors(yTrue, yPred);
    MeanNonNegative(ae);
    var mape := Mape(yTrue, yPred);
    var rmse := Rmse(yTrue, yPred, sqrt);
    Metrics(rmse, Mean(ae), mape)
  }

  /** `sqrt(mean_squared_error)`: the non-negative root of the mean squared error. */
  function Rmse(yTrue: seq<real>, yPred: seq<real>, sqrt: real -> real): (r: real)
    requires |yTrue| == |yPred| > 0
    requires IsSqrt(sqrt)
    ensures r >= 0.0 && r * r == Mean(SquaredErrors(yTrue, yPred))
  {
    var se := SquaredErrors(yTrue, yPred);
    MeanNonNegative(se);
    sqrt(Mean(se))
  }

  lemma {:induction false} SumZeroIffAllZero(xs: seq<real>)
    requires AllNonNegative(xs)
    ensures Sum(xs) == 0.0 <==> forall i :: 0 <= i < |xs| ==> xs[i] == 0.0
  {
    if |xs| > 0 {
      var init := xs[..|xs| - 1];
      assert xs == init + [xs[|xs| - 1]];
      SumAppend(init, [xs[|xs| - 1]]);
      assert Sum([xs[|xs| - 1]]) == xs[|xs| - 1] by {
        assert [xs[|xs| - 1]][..0] == [];
      }
      SumZeroIffAllZero(init);
      SumNonNegative(init);
    }
  }

  /** The mean absolute error is zero exactly when the two series agree. */
  lemma MeanAbsErrorZeroIff(yTrue: seq<real>, yPred: seq<real>)
    requires |yTrue| == |yPred| > 0
    ensures Mean(AbsErrors(yTrue, yPred)) == 0.0 <==> yTrue == yPred
  {
    var ae := AbsErrors(yTrue, yPred);
    SumZeroIffAllZero(ae);
    assert Mean(ae) == 0.0 <==> Sum(ae) == 0.0;
    if Sum(ae) == 0.0 {
      assert forall i :: 0 <= i < |yTrue| ==> yTrue[i] == yPred[i] by {
        forall i | 0 <= i < |yTrue| ensures yTrue[i] == yPred[i] {
          assert ae[i] == 0.0;
        }
      }
    }
  }

  /** Absolute error vanishes exactly for a perfect forecast. */
  lemma MaeZeroIffPerfect(yTrue: seq<real>, yPred: seq<real>, sqrt: real -> real)
    requires |yTrue| == |yPred| > 0
    requires IsSqrt(sqrt)
    ensures Evaluate(yTrue, yPred, sqrt).mae == 0.0 <==> yTrue == yPred
  {
    MeanAbsErrorZeroIff(yTrue, yPred);
  }

  /** A perfect forecast has zero root-mean-square error. */
  lemma RmseZeroWhenPerfect(yTrue: seq<real>, sqrt: real -> real)
    requires |yTrue| > 0
    requires IsSqrt(sqrt)
    ensures Evaluate(yTrue, yTrue, sqrt).rmse == 0.0
  {
    var se := SquaredErrors(yTrue, yTrue);
    assert forall i :: 0 <= i < |se| ==> se[i] == 0.0;
    SumZeroIffAllZero(se);
  }

  /** A true value of zero is skipped by MAPE: [0, 10] against [1, 12] gives 20 percent. */
  lemma MapeSkipsZeroTargets()
    ensures Mape([0.0, 10.0], [1.0, 12.0]) == Finite(20.0)
  {
    assert PercentErrors([10.0], [12.0]) == [0.2] by {
      assert [10.0][1..] == [];
    }
    assert [0.0, 10.0][1..] == [10.0];
    assert [1.0, 12.0][1..] == [12.0];
    assert Sum([0.2]) == 0.2 by {
      assert [0.2][..0] == [];
    }
  }
}
