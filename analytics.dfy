/**
 * The instrument analytics service: summary figures and technical indicators over a
 * chronological list of bars whose fields may be missing.
 */
module Analytics {
  import opened Wrappers
  import opened Stats
  import opened PriceData

  // ---------------------------------------------------------------- moving average

  /**
   * `compute_moving_average(bars, window)`: None when fewer than `window` closes are
   * present, otherwise the mean of the last `window` present closes.
   */
  function MovingAverage(bars: seq<Bar>, window: int): (r: Option<real>)
    requires window >= 1
  {
    var closes := Closes(bars);
    if |closes| < window then None else Some(Mean(closes[|closes| - window..]))
  }

  /**
   * The moving average is absent exactly when fewer than `window` closes are present;
   * otherwise `window` times it is the sum of the last `window` present closes, and it
   * lies between any bounds of the closes.
   */
  lemma MovingAverageSpec(bars: seq<Bar>, window: int, lo: real, hi: real)
    requires window >= 1
    requires forall c :: c in Closes(bars) ==> lo <= c <= hi
    ensures MovingAverage(bars, window).None? <==> |Closes(bars)| < window
    ensures MovingAverage(bars, window).Some? ==>
      MovingAverage(bars, window).value * (window as real) == Sum(Closes(bars)[|Closes(bars)| - window..])
    ensures MovingAverage(bars, window).Some? ==> lo <= MovingAverage(bars, window).value <= hi
  {
    var closes := Closes(bars);
    if |closes| >= window {
      var tail := closes[|closes| - window..];
      var m := MovingAverage(bars, window).value;
      assert m == Mean(tail);
      assert m * (window as real) == Sum(tail) by {
        MeanTimesCount(tail);
      }
      assert lo <= m <= hi by {
        assert forall i :: 0 <= i < |tail| ==> tail[i] in closes;
        MeanBounds(tail, lo, hi);
      }
    }
  }

  /** The closes of two runs of bars are the closes of each, in order. */
  lemma {:induction false} ClosesConcat(older: seq<Bar>, bars: seq<Bar>)
    ensures Closes(older + bars) == Closes(older) + Closes(bars)
    decreases |bars|
  {
    if |bars| == 0 {
      assert older + bars == older;
    } else {
      var all := older + bars;
      assert all[..|all| - 1] == older + bars[..|bars| - 1];
      assert all[|all| - 1] == bars[|bars| - 1];
      ClosesConcat(older, bars[..|bars| - 1]);
    }
  }

  /**
   * Only the last `window` closes matter: once the bars hold that many, prepending older
   * bars leaves the moving average unchanged.
   */
  lemma MovingAverageIgnoresOlder(older: seq<Bar>, bars: seq<Bar>, window: int)
    requires window >= 1 && |Closes(bars)| >= window
    ensures MovingAverage(older + bars, window) == MovingAverage(bars, window)
  {
    var co, cs := Closes(older), Closes(bars);
    var all := Closes(older + bars);
    assert all == co + cs by {
      ClosesConcat(older, bars);
    }
    var tail := cs[|cs| - window..];
    assert all[|all| - window..] == tail by {
      assert all[|co|..] == cs;
      assert all[|all| - window..] == all[|co|..][|cs| - window..];
    }
  }

  // ---------------------------------------------------------------- RSI

  /** The i-th change examined by the RSI loop: closes[-i] − closes[-i-1]. */
  function ChangeAt(closes: seq<real>, i: int): real
    requires 1 <= i < |closes|
  {
    closes[|closes| - i] - closes[|closes| - i - 1]
  }

  /** The gains of changes 1..k (a zero change counts as a gain), in loop order. */
  function GainsUpTo(closes: seq<real>, k: nat): (gs: seq<real>)
    requires k == 0 || k < |closes|
    ensures AllNonNegative(gs)
  {
    if k == 0 then []
    else GainsUpTo(closes, k - 1) + (if ChangeAt(closes, k) >= 0.0 then [ChangeAt(closes, k)] else [])
  }

  /** The losses (absolute values of negative changes) of changes 1..k, in loop order. */
  function LossesUpTo(closes: seq<real>, k: nat): (ls: seq<real>)
    requires k == 0 || k < |closes|
    ensures forall i :: 0 <= i < |ls| ==> ls[i] > 0.0
  {
    if k == 0 then []
    else LossesUpTo(closes, k - 1) + (if ChangeAt(closes, k) < 0.0 then [Abs(ChangeAt(closes, k))] else [])
  }

  /** `mean(xs) if xs else 0.0` over non-negative terms. */
  function AverageOrZero(xs: seq<real>): (m: real)
    requires AllNonNegative(xs)
    ensures m >= 0.0
    ensures (forall i :: 0 <= i < |xs| ==> xs[i] > 0.0) ==> (m == 0.0 <==> xs == [])
  {
    if |xs| > 0 then
      MeanNonNegative(xs);
      if forall i :: 0 <= i < |xs| ==> xs[i] > 0.0 then SumPositive(xs); Mean(xs) else Mean(xs)
    else 0.0
  }

  /** The RSI formula over the average gain and loss: 100 when there is no loss. */
  function RsiFrom(avgGain: real, avgLoss: real): (r: real)
    requires avgGain >= 0.0 && avgLoss >= 0.0
    ensures avgLoss == 0.0 ==> r == 100.0
    ensures avgLoss > 0.0 ==> 0.0 <= r < 100.0
  {
    if avgLoss == 0.0 then 100.0
    else
      RsiBelowHundred(avgGain, avgLoss);
      100.0 - 100.0 / (1.0 + avgGain / avgLoss)
  }

  lemma RsiBelowHundred(g: real, l: real)
    requires g >= 0.0 && l > 0.0
    ensures 1.0 + g / l >= 1.0
    ensures 0.0 <= 100.0 - 100.0 / (1.0 + g / l) < 100.0
  {
    var rs := g / l;
    assert rs * l == g;
    assert rs >= 0.0;
    var q := 100.0 / (1.0 + rs);
    assert q * (1.0 + rs) == 100.0;
    assert q > 0.0;
    assert q <= 100.0;
  }

  /** `compute_rsi(bars, period)` as a value. */
  function Rsi(bars: seq<Bar>, period: int): Option<real> {
    var closes := Closes(bars);
    if |closes| < period + 1 then None
    else if period <= 0 then Some(RsiFrom(0.0, 0.0))
    else
      var gains, losses := GainsUpTo(closes, period), LossesUpTo(closes, period);
      Some(RsiFrom(AverageOrZero(gains), AverageOrZero(losses)))
  }

  /** The loop of `compute_rsi`: it splits the last `period` changes into gains and losses. */
  method CollectChanges(closes: seq<real>, period: int) returns (gains: seq<real>, losses: seq<real>)
    requires |closes| >= period + 1 && period >= 1
    ensures gains == GainsUpTo(closes, period) && losses == LossesUpTo(closes, period)
  {
    gains, losses := [], [];
    var i := 1;
    while i < period + 1
      invariant 1 <= i <= period + 1
      invariant gains == GainsUpTo(closes, i - 1) && losses == LossesUpTo(closes, i - 1)
    {
      var change := ChangeAt(closes, i);
      if change >= 0.0 {
        gains := gains + [change];
      } else {
        losses := losses + [Abs(change)];
      }
      i := i + 1;
    }
  }

  /** `compute_rsi`. */
  method ComputeRsi(bars: seq<Bar>, period: int) returns (rsi: Option<real>)
    ensures rsi == Rsi(bars, period)
  {
    var closes := Closes(bars);
    if |closes| < period + 1 {
      return None;
    }
    var gains: seq<real> := [];
    var losses: seq<real> := [];
    if period >= 1 {
      gains, losses := CollectChanges(closes, period);
    }
    var avgGain := AverageOrZero(gains);
    var avgLoss := AverageOrZero(losses);
    if avgLoss == 0.0 {
      return Some(100.0);
    }
    var rs := avgGain / avgLoss;
    RsiBelowHundred(avgGain, avgLoss);
    rsi := Some(100.0 - 100.0 / (1.0 + rs));
  }

  lemma {:induction false} LossesEmptyIff(closes: seq<real>, k: nat)
    requires k == 0 || k < |closes|
    ensures LossesUpTo(closes, k) == [] <==> NoLossUpTo(closes, k)
  {
    if k > 0 {
      LossesEmptyIff(closes, k - 1);
      var prev := LossesUpTo(closes, k - 1);
      var ls := LossesUpTo(closes, k);
      if ChangeAt(closes, k) < 0.0 {
        assert |ls| == |prev| + 1;
      } else {
        assert ls == prev;
        assert NoLossUpTo(closes, k) <==> NoLossUpTo(closes, k - 1);
      }
    }
  }

  /** None of changes 1..k is negative. */
  predicate NoLossUpTo(closes: seq<real>, k: nat)
    requires k == 0 || k < |closes|
  {
    forall i :: 1 <= i <= k ==> ChangeAt(closes, i) >= 0.0
  }

  /** None of changes 1..k is positive. */
  predicate NoRiseUpTo(closes: seq<real>, k: nat)
    requires k == 0 || k < |closes|
  {
    forall i :: 1 <= i <= k ==> ChangeAt(closes, i) <= 0.0
  }

  /** The gains of changes 1..k sum to zero exactly when none of them is positive. */
  lemma {:induction false} GainsZeroIff(closes: seq<real>, k: nat)
    requires k == 0 || k < |closes|
    ensures Sum(GainsUpTo(closes, k)) == 0.0 <==> NoRiseUpTo(closes, k)
  {
    if k > 0 {
      GainsZeroIff(closes, k - 1);
      var prev := GainsUpTo(closes, k - 1);
      var c := ChangeAt(closes, k);
      SumNonNegative(prev);
      if c >= 0.0 {
        SumAppend(prev, [c]);
        assert Sum([c]) == c by {
          assert [c][..0] == [];
        }
      } else {
        assert GainsUpTo(closes, k) == prev;
      }
      assert NoRiseUpTo(closes, k) <==> NoRiseUpTo(closes, k - 1) && c <= 0.0;
    }
  }

  /** With a positive average loss, the RSI formula gives 0 exactly when the average gain is 0. */
  lemma RsiFromZeroIff(g: real, l: real)
    requires g >= 0.0 && l > 0.0
    ensures RsiFrom(g, l) == 0.0 <==> g == 0.0
  {
    var rs := g / l;
    assert rs * l == g;
    var q := 100.0 / (1.0 + rs);
    assert q * (1.0 + rs) == 100.0;
  }

  /**
   * The RSI is absent exactly when fewer than period + 1 closes are present. A present RSI
   * is 100 exactly when none of the last `period` changes is negative, 0 exactly when some
   * of them is negative and none is positive, and always lies in [0, 100].
   */
  lemma RsiRange(bars: seq<Bar>, period: int)
    ensures Rsi(bars, period).None? <==> |Closes(bars)| < period + 1
    ensures Rsi(bars, period).Some? ==>
      (Rsi(bars, period).value == 100.0 <==>
         (period <= 0 || NoLossUpTo(Closes(bars), period)))
    ensures Rsi(bars, period).Some? ==>
      (Rsi(bars, period).value == 0.0 <==>
         (period > 0 && !NoLossUpTo(Closes(bars), period) && NoRiseUpTo(Closes(bars), period)))
    ensures Rsi(bars, period).Some? ==> 0.0 <= Rsi(bars, period).value <= 100.0
  {
    var closes := Closes(bars);
    if |closes| >= period + 1 && period > 0 {
      LossesEmptyIff(closes, period);
      var gains, losses := GainsUpTo(closes, period), LossesUpTo(closes, period);
      if losses != [] {
        AverageZeroIff(gains);
        GainsZeroIff(closes, period);
        RsiFromZeroIff(AverageOrZero(gains), AverageOrZero(losses));
      }
    }
  }

  /** `mean(xs) if xs else 0.0` is zero exactly when the terms sum to zero. */
  lemma AverageZeroIff(xs: seq<real>)
    requires AllNonNegative(xs)
    ensures AverageOrZero(xs) == 0.0 <==> Sum(xs) == 0.0
  {
    if |xs| > 0 {
      MeanTimesCount(xs);
    }
  }

  // ---------------------------------------------------------------- ATR

  /** The pair (bars[j − 1], bars[j]) has a high, a low and a previous close. */
  predicate PairUsable(bars: seq<Bar>, j: nat)
    requires 1 <= j < |bars|
  {
    bars[j].high.Some? && bars[j].low.Some? && bars[j - 1].close.Some?
  }

  /** The true range of a usable pair. */
  function TrueRange(bars: seq<Bar>, j: nat): (tr: real)
    requires 1 <= j < |bars| && PairUsable(bars, j)
    ensures tr >= 0.0
  {
    var h, l, pc := bars[j].high.value, bars[j].low.value, bars[j - 1].close.value;
    Max3(h - l, Abs(h - pc), Abs(l - pc))
  }

  /** The true ranges of the usable pairs among the last `period` ones, of which the first k were visited. */
  function TrueRangesUpTo(bars: seq<Bar>, period: nat, k: nat): (trs: seq<real>)
    requires period + 1 <= |bars| && k <= period
    ensures AllNonNegative(trs)
  {
    if k == 0 then []
    else
      var j := |bars| - period + k - 1;
      TrueRangesUpTo(bars, period, k - 1) + (if PairUsable(bars, j) then [TrueRange(bars, j)] else [])
  }

  /** `compute_atr(bars, period)` as a value. */
  function Atr(bars: seq<Bar>, period: int): Option<real> {
    if |bars| < period + 1 || period <= 0 then None
    else
      var trs := TrueRangesUpTo(bars, period, period);
      if |trs| == 0 then None else Some(Mean(trs))
  }

  /** `compute_atr`, with the source's loop over the indices −period … −1. */
  method ComputeAtr(bars: seq<Bar>, period: int) returns (atr: Option<real>)
    ensures atr == Atr(bars, period)
  {
    if |bars| < period + 1 {
      return None;
    }
    var trs: seq<real> := [];
    var idx := -period;
    while idx < 0
      invariant period <= 0 ==> trs == []
      invariant period > 0 ==> -period <= idx <= 0 && trs == TrueRangesUpTo(bars, period, idx + period)
    {
      var j := |bars| + idx;
      if bars[j].high.None? || bars[j].low.None? || bars[j - 1].close.None? {
        idx := idx + 1;
        continue;
      }
      var high, low, prevClose := bars[j].high.value, bars[j].low.value, bars[j - 1].close.value;
      var tr := Max3(high - low, Abs(high - prevClose), Abs(low - prevClose));
      trs := trs + [tr];
      idx := idx + 1;
    }
    if |trs| == 0 {
      return None;
    }
    atr := Some(Mean(trs));
  }

  lemma {:induction false} TrueRangesEmptyIff(bars: seq<Bar>, period: nat, k: nat)
    requires period + 1 <= |bars| && k <= period
    ensures TrueRangesUpTo(bars, period, k) == [] <==>
      forall j :: |bars| - period <= j < |bars| - period + k ==> !PairUsable(bars, j)
  {
    if k > 0 {
      TrueRangesEmptyIff(bars, period, k - 1);
    }
  }

  /** Every collected true range is that of a usable pair among the first k visited. */
  lemma {:induction false} TrueRangesFrom(bars: seq<Bar>, period: nat, k: nat, i: int)
    requires period + 1 <= |bars| && k <= period && 0 <= i < |TrueRangesUpTo(bars, period, k)|
    ensures exists j :: (|bars| - period <= j < |bars| - period + k && PairUsable(bars, j)
                         && TrueRangesUpTo(bars, period, k)[i] == TrueRange(bars, j))
  {
    var prev := TrueRangesUpTo(bars, period, k - 1);
    if i < |prev| {
      TrueRangesFrom(bars, period, k - 1, i);
    } else {
      var j := |bars| - period + k - 1;
      assert PairUsable(bars, j) && TrueRangesUpTo(bars, period, k)[i] == TrueRange(bars, j);
    }
  }

  /**
   * The ATR is absent exactly when there are fewer than period + 1 bars or every one of
   * the last `period` pairs lacks a high, a low or a previous close; otherwise it is the
   * mean of the collected true ranges (times their number it is their sum) and
   * non-negative.
   */
  lemma AtrSpec(bars: seq<Bar>, period: int)
    ensures Atr(bars, period).None? <==>
      (|bars| < period + 1 || period <= 0
       || forall j :: |bars| - period <= j < |bars| ==> !PairUsable(bars, j))
    ensures Atr(bars, period).Some? ==>
      && 0 < period < |bars|
      && var trs := TrueRangesUpTo(bars, period, period);
         Atr(bars, period).value * (|trs| as real) == Sum(trs)
    ensures Atr(bars, period).Some? ==> Atr(bars, period).value >= 0.0
  {
    if |bars| >= period + 1 && period > 0 {
      TrueRangesEmptyIff(bars, period, period);
      var trs := TrueRangesUpTo(bars, period, period);
      if |trs| > 0 {
        MeanNonNegative(trs);
        MeanTimesCount(trs);
      }
    }
  }

  /** The ATR lies between any bounds of the true ranges of the usable last `period` pairs. */
  lemma AtrBetween(bars: seq<Bar>, period: int, lo: real, hi: real)
    requires 0 < period < |bars| && Atr(bars, period).Some?
    requires forall j :: |bars| - period <= j < |bars| && PairUsable(bars, j) ==> lo <= TrueRange(bars, j) <= hi
    ensures lo <= Atr(bars, period).value <= hi
  {
    var trs := TrueRangesUpTo(bars, period, period);
    forall i | 0 <= i < |trs| ensures lo <= trs[i] <= hi {
      TrueRangesFrom(bars, period, period, i);
    }
    MeanBounds(trs, lo, hi);
  }

  // ---------------------------------------------------------------- summary

  /** The summary dict of `compute_summary`. */
  datatype Summary = Summary(
    instrumentToken: int, interval: string, asOf: string,
    lastClose: Option<real>, previousClose: Option<real>,
    change: Option<real>, changePct: Option<real>, averageVolume: Option<real>)

  /** The present volumes, in order. */
  function Volumes(bars: seq<Bar>): (vs: seq<real>)
    ensures |vs| <= |bars|
  {
    if |bars| == 0 then []
    else Volumes(bars[..|bars| - 1]) + (if bars[|bars| - 1].volume.Some? then [bars[|bars| - 1].volume.value] else [])
  }

  /** `bars[-20:]`. */
  function LastTwenty(bars: seq<Bar>): seq<Bar> {
    if |bars| <= 20 then bars else bars[|bars| - 20..]
  }

  /** `compute_summary` over the fetched bars (oldest first). */
  function ComputeSummary(instrumentToken: int, interval: string, bars: seq<Bar>): Result<Summary, string> {
    if |bars| < 2 then Failure("Not enough price bars to compute summary")
    else
      var latest, previous := bars[|bars| - 1], bars[|bars| - 2];
      var change :=
        if latest.close.None? || previous.close.None? then None
        else Some(latest.close.value - previous.close.value);
      var changePct :=
        if change.Some? && previous.close.value != 0.0 then Some(change.value / previous.close.value * 100.0)
        else None;
      var volumes := Volumes(LastTwenty(bars));
      Success(Summary(instrumentToken, interval, latest.timestamp, latest.close, previous.close,
        change, changePct, if |volumes| > 0 then Some(Mean(volumes)) else None))
  }

  lemma {:induction false} VolumesSpec(bars: seq<Bar>, lo: real, hi: real)
    requires forall i :: 0 <= i < |bars| && bars[i].volume.Some? ==> lo <= bars[i].volume.value <= hi
    ensures Volumes(bars) == [] <==> forall i :: 0 <= i < |bars| ==> bars[i].volume.None?
    ensures forall k :: 0 <= k < |Volumes(bars)| ==> lo <= Volumes(bars)[k] <= hi
  {
    if |bars| > 0 {
      var init := bars[..|bars| - 1];
      assert forall i :: 0 <= i < |init| ==> init[i] == bars[i];
      VolumesSpec(init, lo, hi);
    }
  }

  /** Bar i's contribution to the volume sum: its volume, or 0 when it has none. */
  function VolumeTerms(bars: seq<Bar>): (xs: seq<real>)
    ensures |xs| == |bars|
  {
    seq(|bars|, i requires 0 <= i < |bars| => if bars[i].volume.Some? then bars[i].volume.value else 0.0)
  }

  /** Bar i's contribution to the volume count: 1 when it has a volume, 0 otherwise. */
  function VolumeFlags(bars: seq<Bar>): (xs: seq<real>)
    ensures |xs| == |bars|
  {
    seq(|bars|, i requires 0 <= i < |bars| => if bars[i].volume.Some? then 1.0 else 0.0)
  }

  /** The present volumes add up to the bars' volumes, one per bar that has a volume. */
  lemma {:induction false} VolumesTotals(bars: seq<Bar>)
    ensures Sum(Volumes(bars)) == Sum(VolumeTerms(bars))
    ensures |Volumes(bars)| as real == Sum(VolumeFlags(bars))
  {
    if |bars| > 0 {
      var init, last := bars[..|bars| - 1], bars[|bars| - 1];
      VolumesTotals(init);
      var terms, flags := VolumeTerms(bars), VolumeFlags(bars);
      assert terms[..|bars| - 1] == VolumeTerms(init);
      assert flags[..|bars| - 1] == VolumeFlags(init);
      assert Sum(terms) == Sum(VolumeTerms(init)) + terms[|bars| - 1];
      assert Sum(flags) == Sum(VolumeFlags(init)) + flags[|bars| - 1];
      var tail := if last.volume.Some? then [last.volume.value] else [];
      assert Volumes(bars) == Volumes(init) + tail;
      SumAppend(Volumes(init), tail);
      if last.volume.Some? {
        assert Sum(tail) == last.volume.value by {
          assert tail[..0] == [];
        }
      }
    }
  }

  /**
   * The summary fails with fewer than two bars. Otherwise it reports the last two closes;
   * the change is present exactly when both closes are, and is their difference; the
   * percentage change is present exactly when the change is and the previous close is
   * non-zero, and is the change relative to the previous close, in percent.
   */
  lemma SummaryChangeSpec(instrumentToken: int, interval: string, bars: seq<Bar>)
    ensures ComputeSummary(instrumentToken, interval, bars).Failure? <==> |bars| < 2
    ensures |bars| >= 2 ==>
      var s := ComputeSummary(instrumentToken, interval, bars).value;
      var last, prev := bars[|bars| - 1].close, bars[|bars| - 2].close;
      && s.asOf == bars[|bars| - 1].timestamp
      && s.lastClose == last && s.previousClose == prev
      && (s.change.Some? <==> last.Some? && prev.Some?)
      && (s.change.Some? ==> s.change.value == last.value - prev.value)
      && (s.changePct.Some? <==> s.change.Some? && prev.value != 0.0)
      && (s.changePct.Some? ==> s.changePct.value * prev.value == s.change.value * 100.0)
  {
    if |bars| >= 2 {
      var s := ComputeSummary(instrumentToken, interval, bars).value;
      if s.changePct.Some? {
        DivMul(s.change.value, bars[|bars| - 2].close.value);
      }
    }
  }

  /**
   * The average volume of a summary is present exactly when one of the last 20 bars has a
   * volume; it is then the sum of those bars' volumes divided by how many have one, and
   * lies between any bounds of the volumes.
   */
  lemma SummaryVolumeSpec(instrumentToken: int, interval: string, bars: seq<Bar>, lo: real, hi: real)
    requires |bars| >= 2
    requires forall b :: b in bars && b.volume.Some? ==> lo <= b.volume.value <= hi
    ensures
      var s := ComputeSummary(instrumentToken, interval, bars).value;
      var tail := LastTwenty(bars);
      && |tail| == (if |bars| < 20 then |bars| else 20)
      && tail == bars[|bars| - |tail|..]
      && (s.averageVolume.Some? <==> exists b :: b in tail && b.volume.Some?)
      && (s.averageVolume.Some? ==>
            Sum(VolumeFlags(tail)) > 0.0 && s.averageVolume.value == Sum(VolumeTerms(tail)) / Sum(VolumeFlags(tail)))
      && (s.averageVolume.Some? ==> lo <= s.averageVolume.value <= hi)
  {
    var tail := LastTwenty(bars);
    assert forall i :: 0 <= i < |tail| ==> tail[i] in bars;
    VolumesSpec(tail, lo, hi);
    VolumesTotals(tail);
    var vs := Volumes(tail);
    if |vs| > 0 {
      MeanBounds(vs, lo, hi);
    }
    assert (exists b :: b in tail && b.volume.Some?) <==> exists i :: 0 <= i < |tail| && tail[i].volume.Some?;
  }

  lemma DivMul(c: real, p: real)
    requires p != 0.0
    ensures c / p * 100.0 * p == c * 100.0
  {
    var q := c / p;
    assert q * p == c;
  }
}
