/**
 * Row eligibility of `engineer_features`: which input rows keep every feature column
 * defined, so that `dropna` lets them through, and the target each survivor carries.
 */
module TrainingFeatures {
  import opened Wrappers
  import opened PriceData

  /** The lags of the lagged close and volume columns. */
  const Lags: seq<nat> := [1, 2, 3, 5, 10, 20]

  /** The widths of the simple moving averages; the widest sets the warm-up. */
  const SmaWindows: seq<nat> := [20, 50, 200]

  /** Window of the RSI and ATR rolling means. */
  const IndicatorWindow: nat := 14

  /** One surviving row: its position in the input, the bar itself and the forecast target. */
  datatype FeatureRow = FeatureRow(source: nat, bar: Bar, target: real)

  /** The raw columns of the row are all present. */
  predicate RawDefined(b: Bar) {
    b.open.Some? && b.high.Some? && b.low.Some? && b.close.Some? && b.volume.Some?
  }

  /** Every close in rows lo..hi (inclusive) is present. */
  predicate ClosesDefined(bars: seq<Bar>, lo: int, hi: int)
    requires 0 <= lo && hi < |bars|
  {
    forall j :: lo <= j <= hi ==> bars[j].close.Some?
  }

  /**
   * `pct_change` is defined at i when both closes are present and they are not both zero
   * (0/0 is NaN; x/0 is an infinity, which dropna keeps).
   */
  predicate ReturnDefined(bars: seq<Bar>, i: nat)
    requires i < |bars|
  {
    i >= 1 && bars[i - 1].close.Some? && bars[i].close.Some?
    && !(bars[i - 1].close.value == 0.0 && bars[i].close.value == 0.0)
  }

  /** A rolling mean of width w over the closes is defined at i. */
  predicate SmaDefined(bars: seq<Bar>, i: nat, w: nat)
    requires i < |bars| && w >= 1
  {
    i + 1 >= w && ClosesDefined(bars, i + 1 - w, i)
  }

  /** The close changes from row j − 1 to row j. */
  predicate CloseChangesAt(bars: seq<Bar>, j: nat)
    requires 1 <= j < |bars|
  {
    bars[j].close != bars[j - 1].close
  }

  /**
   * The RSI is defined at i when the last 14 close differences are, and they are not all
   * zero (then both averages are zero and their ratio is NaN; a zero loss alone gives 100).
   */
  predicate RsiDefined(bars: seq<Bar>, i: nat)
    requires i < |bars|
  {
    i >= IndicatorWindow && ClosesDefined(bars, i - IndicatorWindow, i)
    && exists j :: i - IndicatorWindow < j <= i && CloseChangesAt(bars, j)
  }

  /**
   * The true range at j is the NaN-skipping maximum of high − low, |high − previous close|
   * and |low − previous close|: defined when at least one of the three is.
   */
  predicate TrueRangeDefined(bars: seq<Bar>, j: nat)
    requires j < |bars|
  {
    var b := bars[j];
    (b.high.Some? && b.low.Some?)
    || (j >= 1 && bars[j - 1].close.Some? && (b.high.Some? || b.low.Some?))
  }

  /** The ATR (14-row rolling mean of the true range) is defined at i. */
  predicate AtrDefined(bars: seq<Bar>, i: nat)
    requires i < |bars|
  {
    i + 1 >= IndicatorWindow
    && forall j :: i + 1 - IndicatorWindow <= j <= i ==> TrueRangeDefined(bars, j)
  }

  /** Each lagged close and lagged volume is defined at i. */
  predicate LagsDefined(bars: seq<Bar>, i: nat)
    requires i < |bars|
  {
    forall k :: 0 <= k < |Lags| ==>
      i >= Lags[k] && bars[i - Lags[k]].close.Some? && bars[i - Lags[k]].volume.Some?
  }

  /** The target `close.shift(-h)` at i is defined: row i + h exists and has a close. */
  predicate TargetDefined(bars: seq<Bar>, h: int, i: nat)
    requires i < |bars|
  {
    0 <= i + h < |bars| && bars[i + h].close.Some?
  }

  /** Row i survives `dropna`: every column of the engineered frame is defined there. */
  predicate Survives(bars: seq<Bar>, h: int, i: nat)
    requires i < |bars|
  {
    && RawDefined(bars[i])
    && ReturnDefined(bars, i)
    && (forall k :: 0 <= k < |SmaWindows| ==> SmaDefined(bars, i, SmaWindows[k]))
    && RsiDefined(bars, i)
    && AtrDefined(bars, i)
    && LagsDefined(bars, i)
    && TargetDefined(bars, h, i)
  }

  /** The feature row emitted for a surviving row i. */
  function RowAt(bars: seq<Bar>, h: int, i: nat): FeatureRow
    requires i < |bars| && Survives(bars, h, i)
  {
    FeatureRow(i, bars[i], bars[i + h].close.value)
  }

  /** The survivors among the first `k` rows, in input order. */
  function Collect(bars: seq<Bar>, h: int, k: nat): seq<FeatureRow>
    requires k <= |bars|
  {
    if k == 0 then []
    else Collect(bars, h, k - 1) + (if Survives(bars, h, k - 1) then [RowAt(bars, h, k - 1)] else [])
  }

  /**
   * `engineer_features(df, forecast_horizon, lookback_window)` restricted to row
   * eligibility: the surviving rows, in order, with their targets. The lookback window
   * takes no part.
   */
  function EngineerFeatures(bars: seq<Bar>, forecastHorizon: int, lookbackWindow: int): seq<FeatureRow> {
    Collect(bars, forecastHorizon, |bars|)
  }

  /** A surviving row lies past the 200-row warm-up and has its target row inside the data. */
  lemma SurvivorBounds(bars: seq<Bar>, h: int, i: nat)
    requires i < |bars|
    ensures Survives(bars, h, i) ==> 199 <= i && 0 <= i + h < |bars|
  {
    if Survives(bars, h, i) {
      assert SmaDefined(bars, i, SmaWindows[2]);
    }
  }

  /** `out` lists survivors below k, each emitted as RowAt, in strictly increasing order. */
  predicate SoundBelow(bars: seq<Bar>, h: int, k: nat, out: seq<FeatureRow>)
    requires k <= |bars|
  {
    && (forall r :: 0 <= r < |out| ==>
          out[r].source < k && Survives(bars, h, out[r].source) && out[r] == RowAt(bars, h, out[r].source))
    && (forall r, s :: 0 <= r < s < |out| ==> out[r].source < out[s].source)
  }

  /** Every emitted row is a survivor below k, emitted as RowAt, in strictly increasing order. */
  lemma {:induction false} CollectSound(bars: seq<Bar>, h: int, k: nat)
    requires k <= |bars|
    ensures SoundBelow(bars, h, k, Collect(bars, h, k))
  {
    if k > 0 {
      CollectSound(bars, h, k - 1);
      var prev, out := Collect(bars, h, k - 1), Collect(bars, h, k);
      if Survives(bars, h, k - 1) {
        var x := RowAt(bars, h, k - 1);
        assert out == prev + [x];
        forall r | 0 <= r < |out|
          ensures out[r].source < k && Survives(bars, h, out[r].source) && out[r] == RowAt(bars, h, out[r].source)
        {
          if r < |prev| {
            assert out[r] == prev[r];
          } else {
            assert out[r] == x;
          }
        }
        forall r, s | 0 <= r < s < |out| ensures out[r].source < out[s].source {
          assert out[r] == prev[r];
          if s < |prev| {
            assert out[s] == prev[s];
          } else {
            assert out[s] == x;
          }
        }
      } else {
        assert out == prev;
      }
    }
  }

  /** Every survivor below k is emitted. */
  lemma {:induction false} CollectComplete(bars: seq<Bar>, h: int, k: nat, i: nat)
    requires i < k <= |bars| && Survives(bars, h, i)
    ensures exists r :: 0 <= r < |Collect(bars, h, k)| && Collect(bars, h, k)[r].source == i
  {
    var out := Collect(bars, h, k);
    if i < k - 1 {
      CollectComplete(bars, h, k - 1, i);
      var prev := Collect(bars, h, k - 1);
      var r :| 0 <= r < |prev| && prev[r].source == i;
      assert out[r] == prev[r];
    } else {
      assert out[|out| - 1] == RowAt(bars, h, i);
    }
  }

  /**
   * What a surviving row is: it lies past the 200-row warm-up of the widest moving
   * average, its target is the close h rows later, rows keep their input order, and a row
   * is kept exactly when all of its feature columns are defined.
   */
  lemma EngineerFeaturesRows(bars: seq<Bar>, h: int, lookbackWindow: int)
    ensures var out := EngineerFeatures(bars, h, lookbackWindow);
      && (forall r :: 0 <= r < |out| ==>
            && 199 <= out[r].source < |bars|
            && 0 <= out[r].source + h < |bars|
            && out[r].bar == bars[out[r].source]
            && bars[out[r].source + h].close.Some?
            && out[r].target == bars[out[r].source + h].close.value)
      && (forall r, s :: 0 <= r < s < |out| ==> out[r].source < out[s].source)
      && (forall i :: 0 <= i < |bars| ==>
            (Survives(bars, h, i) <==> exists r :: 0 <= r < |out| && out[r].source == i))
  {
    CollectSound(bars, h, |bars|);
    var out := EngineerFeatures(bars, h, lookbackWindow);
    assert out == Collect(bars, h, |bars|);
    forall r | 0 <= r < |out|
      ensures 199 <= out[r].source && 0 <= out[r].source + h < |bars|
    {
      SurvivorBounds(bars, h, out[r].source);
    }
    forall i | 0 <= i < |bars| && Survives(bars, h, i)
      ensures exists r :: 0 <= r < |out| && out[r].source == i
    {
      CollectComplete(bars, h, |bars|, i);
    }
  }

  /** The lookback window has no effect on the output. */
  lemma LookbackUnused(bars: seq<Bar>, h: int, w1: int, w2: int)
    ensures EngineerFeatures(bars, h, w1) == EngineerFeatures(bars, h, w2)
  {
  }

  lemma {:induction false} CollectLengthBound(bars: seq<Bar>, h: int, k: nat)
    requires k <= |bars| && h >= 0
    ensures |Collect(bars, h, k)| <= (if k <= 199 then 0 else k - 199)
    ensures k + h >= |bars| ==> |Collect(bars, h, k)| <= (if |bars| - h <= 199 then 0 else |bars| - h - 199)
  {
    if k > 0 {
      CollectLengthBound(bars, h, k - 1);
      SurvivorBounds(bars, h, k - 1);
    }
  }

  /** With a non-negative horizon at most |bars| − 199 − h rows survive. */
  lemma EngineerFeaturesLengthBound(bars: seq<Bar>, h: int, lookbackWindow: int)
    requires h >= 0
    ensures |EngineerFeatures(bars, h, lookbackWindow)| <= (if |bars| - h <= 199 then 0 else |bars| - h - 199)
  {
    CollectLengthBound(bars, h, |bars|);
  }

  /** Complete data whose closes change from every bar to the next. */
  predicate CompleteAndMoving(bars: seq<Bar>) {
    && (forall j :: 0 <= j < |bars| ==> RawDefined(bars[j]))
    && (forall j :: 1 <= j < |bars| ==> CloseChangesAt(bars, j))
  }

  lemma SurvivesOnCompleteData(bars: seq<Bar>, h: int, i: nat)
    requires CompleteAndMoving(bars) && h >= 0 && 199 <= i && i + h < |bars|
    ensures Survives(bars, h, i)
  {
    assert CloseChangesAt(bars, i);
    assert RsiDefined(bars, i);
  }

  lemma {:induction false} CollectCountOnCompleteData(bars: seq<Bar>, h: int, k: nat)
    requires CompleteAndMoving(bars) && h >= 0 && k <= |bars| && k + h <= |bars|
    ensures |Collect(bars, h, k)| == (if k <= 199 then 0 else k - 199)
  {
    if k > 0 {
      CollectCountOnCompleteData(bars, h, k - 1);
      if k - 1 < 199 {
        SurvivorBounds(bars, h, k - 1);
      } else {
        SurvivesOnCompleteData(bars, h, k - 1);
      }
    }
  }

  /**
   * The bound is reached on complete data with moving closes: exactly |bars| − 199 − h rows
   * survive (250 bars with horizon 1 give 50 rows).
   */
  lemma EngineerFeaturesCountOnCompleteData(bars: seq<Bar>, h: int, lookbackWindow: int)
    requires CompleteAndMoving(bars) && h >= 0
    ensures |EngineerFeatures(bars, h, lookbackWindow)| == (if |bars| - h <= 199 then 0 else |bars| - h - 199)
  {
    assert EngineerFeatures(bars, h, lookbackWindow) == Collect(bars, h, |bars|);
    CollectLengthBound(bars, h, |bars|);
    if h <= |bars| {
      CollectCountOnCompleteData(bars, h, |bars| - h);
      CollectMonotone(bars, h, |bars| - h, |bars|);
    }
  }

  lemma {:induction false} CollectMonotone(bars: seq<Bar>, h: int, k: nat, m: nat)
    requires k <= m <= |bars|
    ensures |Collect(bars, h, k)| <= |Collect(bars, h, m)|
    decreases m - k
  {
    if k < m {
      CollectMonotone(bars, h, k, m - 1);
    }
  }
}
