/**
 * The dashboard's calculations (src/utils/dashboardUtils.js): the moving
 * average, the standard deviation and the RSI of a day series, and the
 * composer that turns a date range and the daily map into chart series
 * and summary statistics.
 */
module DashboardUtils {
  import opened Wrappers
  import opened Series
  import opened Candles
  import opened DataTransformer

  // ---------------------------------------------------------------------
  // Moving average (calculateMA)
  // ---------------------------------------------------------------------

  /** The closes of the last `period` days, as `data.slice(-period).map(d => d.close)`. */
  function LastCloses(data: seq<DayRecord>, period: nat): seq<real>
    requires period <= |data|
  {
    Closes(data[|data| - period..])
  }

  /** calculateMA: the mean close of the last `period` days, or `None` (`null`) when there are fewer days than that. */
  function CalculateMA(data: seq<DayRecord>, period: nat): (r: Option<real>)
    requires period > 0
    ensures r.None? <==> |data| < period
  {
    if |data| < period then None else Some(Sum(LastCloses(data, period)) / period as real)
  }

  /** A moving average lies between the lowest and the highest of the closes it averages. */
  lemma MABounds(data: seq<DayRecord>, period: nat)
    requires 0 < period <= |data|
    ensures MinOf(LastCloses(data, period)) <= CalculateMA(data, period).value <= MaxOf(LastCloses(data, period))
  {
    var w := LastCloses(data, period);
    assert |w| == period;
    MeanBetweenExtremes(w);
  }

  /** The moving average of a window whose closes are all `c` is `c`. */
  lemma MAConstant(data: seq<DayRecord>, period: nat, c: real)
    requires 0 < period <= |data|
    requires forall i :: |data| - period <= i < |data| ==> data[i].close == c
    ensures CalculateMA(data, period) == Some(c)
  {
    var w := LastCloses(data, period);
    forall i | 0 <= i < |w| ensures w[i] == c {
      assert w[i] == data[|data| - period + i].close;
    }
    SumConstant(w, c);
    assert |w| == period;
    QuotientBounds(Sum(w), |w| as real, c, c);
  }

  // ---------------------------------------------------------------------
  // Standard deviation (calculateStdDev), kept squared
  // ---------------------------------------------------------------------

  /** The arithmetic mean of a non-empty series. */
  function Mean(xs: seq<real>): real
    requires |xs| > 0
  {
    Sum(xs) / |xs| as real
  }

  /** `Math.pow(x - mean, 2)` for every element. */
  function SquaredDeviations(xs: seq<real>, mean: real): (r: seq<real>)
    ensures |r| == |xs| && forall i :: 0 <= i < |xs| ==> r[i] == (xs[i] - mean) * (xs[i] - mean)
  {
    if |xs| == 0 then []
    else SquaredDeviations(xs[..|xs| - 1], mean) + [(xs[|xs| - 1] - mean) * (xs[|xs| - 1] - mean)]
  }

  /**
   * calculateStdDev before its final square root: the population variance
   * of the last `period` closes, or `None` when there are fewer days.
   */
  function CalculateVariance(data: seq<DayRecord>, period: nat): (r: Option<real>)
    requires period > 0
    ensures r.None? <==> |data| < period
    ensures r.Some? ==> r.value >= 0.0
  {
    if |data| < period then None
    else
      var xs := LastCloses(data, period);
      var squares := SquaredDeviations(xs, Mean(xs));
      DeviationsNonNegative(xs, Mean(xs));
      QuotientZero(Sum(squares), period as real);
      Some(Sum(squares) / period as real)
  }

  /** Squared deviations add up to a non-negative total. */
  lemma DeviationsNonNegative(xs: seq<real>, mean: real)
    ensures Sum(SquaredDeviations(xs, mean)) >= 0.0
  {
    var squares := SquaredDeviations(xs, mean);
    forall i | 0 <= i < |xs| ensures squares[i] >= 0.0 {
      Square(xs[i] - mean);
    }
    SumNonNegative(squares);
  }

  /** The variance is zero exactly when every close of the window equals the last close. */
  lemma VarianceZeroIff(data: seq<DayRecord>, period: nat)
    requires 0 < period <= |data|
    ensures CalculateVariance(data, period) == Some(0.0)
            <==> forall i :: |data| - period <= i < |data| ==> data[i].close == data[|data| - 1].close
  {
    if CalculateVariance(data, period) == Some(0.0) {
      VarianceZeroFlat(data, period);
    }
    if forall i :: |data| - period <= i < |data| ==> data[i].close == data[|data| - 1].close {
      FlatVarianceZero(data, period, data[|data| - 1].close);
    }
  }

  /** A flat window has variance zero. */
  lemma FlatVarianceZero(data: seq<DayRecord>, period: nat, c: real)
    requires 0 < period <= |data|
    requires forall i :: |data| - period <= i < |data| ==> data[i].close == c
    ensures CalculateVariance(data, period) == Some(0.0)
  {
    var xs := LastCloses(data, period);
    forall j | 0 <= j < |xs| ensures xs[j] == c {
      assert xs[j] == data[|data| - period + j].close;
    }
    FlatDeviationsZero(xs, c);
    QuotientZero(Sum(SquaredDeviations(xs, Mean(xs))), period as real);
  }

  /** The squared deviations of a constant series from its mean add up to zero. */
  lemma FlatDeviationsZero(xs: seq<real>, c: real)
    requires |xs| > 0
    requires forall j :: 0 <= j < |xs| ==> xs[j] == c
    ensures Sum(SquaredDeviations(xs, Mean(xs))) == 0.0
  {
    MeanConstant(xs, c);
    DeviationsFromValue(xs, c);
  }

  /** Every element equal to `c` deviates from `c` by nothing. */
  lemma DeviationsFromValue(xs: seq<real>, c: real)
    requires forall j :: 0 <= j < |xs| ==> xs[j] == c
    ensures Sum(SquaredDeviations(xs, c)) == 0.0
  {
    ZeroSquares(xs, c);
    SumBounds(SquaredDeviations(xs, c), 0.0, 0.0);
  }

  lemma ZeroSquares(xs: seq<real>, c: real)
    requires forall j :: 0 <= j < |xs| ==> xs[j] == c
    ensures forall i :: 0 <= i < |xs| ==> SquaredDeviations(xs, c)[i] == 0.0
  {
    forall i | 0 <= i < |xs| ensures SquaredDeviations(xs, c)[i] == 0.0 {
      Square(xs[i] - c);
    }
  }


  /** A window with variance zero is flat. */
  lemma VarianceZeroFlat(data: seq<DayRecord>, period: nat)
    requires 0 < period <= |data|
    requires CalculateVariance(data, period) == Some(0.0)
    ensures forall i :: |data| - period <= i < |data| ==> data[i].close == data[|data| - 1].close
  {
    var xs := LastCloses(data, period);
    var mean := Mean(xs);
    var squares := SquaredDeviations(xs, mean);
    QuotientZero(Sum(squares), period as real);
    SumNonNegative(squares);
    forall j | 0 <= j < period ensures xs[j] == mean {
      Square(xs[j] - mean);
    }
    forall i | |data| - period <= i < |data| ensures data[i].close == data[|data| - 1].close {
      assert xs[i - (|data| - period)] == data[i].close;
      assert xs[period - 1] == data[|data| - 1].close;
    }
  }

  // ---------------------------------------------------------------------
  // Relative strength index (calculateRSI)
  // ---------------------------------------------------------------------

  /** The close-to-close change into day `i`. */
  function Change(data: seq<DayRecord>, i: int): real
    requires 1 <= i < |data|
  {
    data[i].close - data[i - 1].close
  }

  /** The upward part of a change; a change of zero counts as a gain of zero. */
  function Gain(data: seq<DayRecord>, i: int): real
    requires 1 <= i < |data|
  {
    if Change(data, i) >= 0.0 then Change(data, i) else 0.0
  }

  /** The downward part of a change, as a non-negative number. */
  function Loss(data: seq<DayRecord>, i: int): real
    requires 1 <= i < |data|
  {
    if Change(data, i) >= 0.0 then 0.0 else -Change(data, i)
  }

  /** The gains of the changes into days `1..n`. */
  function GainSum(data: seq<DayRecord>, n: nat): real
    requires n < |data|
  {
    if n == 0 then 0.0 else GainSum(data, n - 1) + Gain(data, n)
  }

  /** The losses of the changes into days `1..n`. */
  function LossSum(data: seq<DayRecord>, n: nat): real
    requires n < |data|
  {
    if n == 0 then 0.0 else LossSum(data, n - 1) + Loss(data, n)
  }

  /** Average gain and average loss. */
  datatype Averages = Averages(gain: real, loss: real)

  /** The averages the first loop leaves: the plain means of the gains and of the losses of the changes into days `1..period`. */
  function Seed(data: seq<DayRecord>, period: nat): Averages
    requires 1 <= period < |data|
  {
    Averages(GainSum(data, period) / period as real, LossSum(data, period) / period as real)
  }

  /**
   * One step of Wilder's smoothing: both averages keep `(period - 1) / period`
   * of their weight, and the change `diff` enters the gain side when it is
   * not negative and the loss side otherwise.
   */
  function Smooth(a: Averages, diff: real, period: nat): Averages
    requires period >= 1
  {
    var p := period as real;
    if diff >= 0.0 then Averages((a.gain * (p - 1.0) + diff) / p, (a.loss * (p - 1.0)) / p)
    else Averages((a.gain * (p - 1.0)) / p, (a.loss * (p - 1.0) - diff) / p)
  }

  /** The averages after day `n`: seeded on day `period`, then smoothed with each later change. */
  function Smoothed(data: seq<DayRecord>, period: nat, n: nat): Averages
    requires 1 <= period <= n < |data|
    decreases n
  {
    if n == period then Seed(data, period) else Smooth(Smoothed(data, period, n - 1), Change(data, n), period)
  }

  /** `100` when there is no average loss, otherwise `100 - 100 / (1 + RS)` with `RS` the ratio of the averages. */
  function RsiOf(a: Averages): real
    requires a.gain >= 0.0 && a.loss >= 0.0
  {
    if a.loss == 0.0 then 100.0
    else
      QuotientZero(a.gain, a.loss);
      100.0 - 100.0 / (1.0 + a.gain / a.loss)
  }

  /** The RSI of a series, or `None` when it has no more than `period` days. */
  function RsiSpec(data: seq<DayRecord>, period: nat): Option<real>
    requires period >= 1
  {
    if |data| <= period then None
    else
      SmoothedNonNegative(data, period, |data| - 1);
      Some(RsiOf(Smoothed(data, period, |data| - 1)))
  }

  /** calculateRSI: seed the averages from the first `period` changes, smooth them over the rest, and convert. */
  method CalculateRSI(data: seq<DayRecord>, period: nat) returns (r: Option<real>)
    requires period >= 1
    ensures r.None? <==> |data| <= period
    ensures r == RsiSpec(data, period)
  {
    if |data| <= period {
      return None;
    }
    var avgGain, avgLoss := SeedAverages(data, period);
    avgGain, avgLoss := SmoothAverages(data, period, avgGain, avgLoss);
    SmoothedNonNegative(data, period, |data| - 1);
    if avgLoss == 0.0 {
      return Some(100.0);
    }
    QuotientZero(avgGain, avgLoss);
    var rs := avgGain / avgLoss;
    return Some(100.0 - (100.0 / (1.0 + rs)));
  }

  /** The first loop of calculateRSI: total the gains and losses of the changes into days `1..period` and average them. */
  method SeedAverages(data: seq<DayRecord>, period: nat) returns (avgGain: real, avgLoss: real)
    requires 1 <= period < |data|
    ensures Averages(avgGain, avgLoss) == Smoothed(data, period, period)
  {
    var gains, losses := 0.0, 0.0;
    var i := 1;
    while i <= period
      invariant 1 <= i <= period + 1
      invariant gains == GainSum(data, i - 1) && losses == LossSum(data, i - 1)
    {
      var diff := data[i].close - data[i - 1].close;
      if diff >= 0.0 {
        gains := gains + diff;
      } else {
        losses := losses - diff;
      }
      i := i + 1;
    }
    avgGain, avgLoss := gains / period as real, losses / period as real;
  }

  /** The second loop of calculateRSI: smooth the seeded averages with the changes into days `period + 1..`. */
  method SmoothAverages(data: seq<DayRecord>, period: nat, seedGain: real, seedLoss: real) returns (avgGain: real, avgLoss: real)
    requires 1 <= period < |data|
    requires Averages(seedGain, seedLoss) == Smoothed(data, period, period)
    ensures Averages(avgGain, avgLoss) == Smoothed(data, period, |data| - 1)
  {
    avgGain, avgLoss := seedGain, seedLoss;
    var i := period + 1;
    while i < |data|
      invariant period + 1 <= i <= |data|
      invariant Averages(avgGain, avgLoss) == Smoothed(data, period, i - 1)
    {
      var diff := data[i].close - data[i - 1].close;
      avgGain, avgLoss := SmoothingStep(avgGain, avgLoss, diff, period);
      i := i + 1;
    }
  }

  /** The body of the second loop: one smoothing step of both averages. */
  method SmoothingStep(avgGain: real, avgLoss: real, diff: real, period: nat) returns (newGain: real, newLoss: real)
    requires period >= 1
    ensures Averages(newGain, newLoss) == Smooth(Averages(avgGain, avgLoss), diff, period)
  {
    var p := period as real;
    if diff >= 0.0 {
      newGain := (avgGain * (p - 1.0) + diff) / p;
      newLoss := (avgLoss * (p - 1.0)) / p;
    } else {
      newGain := (avgGain * (p - 1.0)) / p;
      newLoss := (avgLoss * (p - 1.0) - diff) / p;
    }
  }

  /** Gains and losses are never negative, so neither are their sums. */
  lemma {:induction false} SumsNonNegative(data: seq<DayRecord>, n: nat)
    requires n < |data|
    ensures GainSum(data, n) >= 0.0 && LossSum(data, n) >= 0.0
  {
    if n > 0 {
      SumsNonNegative(data, n - 1);
    }
  }

  /** A smoothing step keeps both averages non-negative. */
  lemma SmoothNonNegative(a: Averages, diff: real, period: nat)
    requires period >= 1 && a.gain >= 0.0 && a.loss >= 0.0
    ensures Smooth(a, diff, period).gain >= 0.0 && Smooth(a, diff, period).loss >= 0.0
  {
    var p := period as real;
    Kept(a.gain, p);
    Kept(a.loss, p);
    if diff >= 0.0 {
      QuotientZero(a.gain * (p - 1.0) + diff, p);
      QuotientZero(a.loss * (p - 1.0), p);
    } else {
      QuotientZero(a.gain * (p - 1.0), p);
      QuotientZero(a.loss * (p - 1.0) - diff, p);
    }
  }

  /** Both smoothed averages stay non-negative. */
  lemma {:induction false} SmoothedNonNegative(data: seq<DayRecord>, period: nat, n: nat)
    requires 1 <= period <= n < |data|
    ensures Smoothed(data, period, n).gain >= 0.0 && Smoothed(data, period, n).loss >= 0.0
    decreases n
  {
    if n == period {
      SumsNonNegative(data, period);
      QuotientZero(GainSum(data, period), period as real);
      QuotientZero(LossSum(data, period), period as real);
    } else {
      SmoothedNonNegative(data, period, n - 1);
      SmoothNonNegative(Smoothed(data, period, n - 1), Change(data, n), period);
    }
  }

  /** The RSI lies in `[0, 100]`, and it is `100` exactly when the final average loss is zero. */
  lemma RsiRange(data: seq<DayRecord>, period: nat)
    requires 1 <= period < |data|
    ensures 0.0 <= RsiSpec(data, period).value <= 100.0
    ensures RsiSpec(data, period).value == 100.0 <==> Smoothed(data, period, |data| - 1).loss == 0.0
  {
    var a := Smoothed(data, period, |data| - 1);
    SmoothedNonNegative(data, period, |data| - 1);
    if a.loss != 0.0 {
      RsiBelowHundred(a.gain, a.loss);
    }
  }

  /** With a positive average loss, `100 - 100 / (1 + gain / loss)` lies in `[0, 100)`. */
  lemma RsiBelowHundred(gain: real, loss: real)
    requires gain >= 0.0 && loss > 0.0
    ensures 0.0 <= 100.0 - 100.0 / (1.0 + gain / loss) < 100.0
  {
    QuotientZero(gain, loss);
    var rs := gain / loss;
    QuotientBounds(100.0, 1.0 + rs, 0.0, 100.0);
    QuotientZero(100.0, 1.0 + rs);
  }

  /** No change into days `1..n` is a fall. */
  predicate NoFallUpTo(data: seq<DayRecord>, n: nat)
    requires n < |data|
  {
    forall i :: 1 <= i <= n ==> data[i - 1].close <= data[i].close
  }

  /** Without falls the loss sum is zero; with a fall it is positive. */
  lemma {:induction false} LossSumZeroIff(data: seq<DayRecord>, n: nat)
    requires n < |data|
    ensures LossSum(data, n) == 0.0 <==> NoFallUpTo(data, n)
  {
    if n > 0 {
      LossSumZeroIff(data, n - 1);
      SumsNonNegative(data, n - 1);
    }
  }

  /** With a period of at least 2, a smoothing step leaves no average loss exactly when there was none and the change is no fall. */
  lemma SmoothLossZero(a: Averages, diff: real, period: nat)
    requires period >= 2 && a.loss >= 0.0
    ensures Smooth(a, diff, period).loss == 0.0 <==> a.loss == 0.0 && diff >= 0.0
  {
    var p := period as real;
    Kept(a.loss, p);
    if diff >= 0.0 {
      QuotientZero(a.loss * (p - 1.0), p);
    } else {
      QuotientZero(a.loss * (p - 1.0) - diff, p);
    }
  }

  /** With a period of at least 2, the smoothed loss after day `n` is zero exactly when there was no fall up to day `n`. */
  lemma {:induction false} SmoothedLossZeroIff(data: seq<DayRecord>, period: nat, n: nat)
    requires 2 <= period <= n < |data|
    ensures Smoothed(data, period, n).loss == 0.0 <==> NoFallUpTo(data, n)
    decreases n
  {
    if n == period {
      LossSumZeroIff(data, period);
      QuotientZero(LossSum(data, period), period as real);
    } else {
      SmoothedLossZeroIff(data, period, n - 1);
      SmoothedNonNegative(data, period, n - 1);
      SmoothLossZero(Smoothed(data, period, n - 1), Change(data, n), period);
    }
  }

  /** A series that never falls has an RSI of 100 (a flat series included, since a zero change counts as a gain). */
  lemma RsiNoFall(data: seq<DayRecord>, period: nat)
    requires 1 <= period < |data|
    requires NoFallUpTo(data, |data| - 1)
    ensures RsiSpec(data, period) == Some(100.0)
  {
    NoFallLossZero(data, period, |data| - 1);
  }

  /** Without falls the smoothed loss stays zero, for any period. */
  lemma {:induction false} NoFallLossZero(data: seq<DayRecord>, period: nat, n: nat)
    requires 1 <= period <= n < |data|
    requires NoFallUpTo(data, n)
    ensures Smoothed(data, period, n).loss == 0.0
    decreases n
  {
    if n == period {
      LossSumZeroIff(data, period);
    } else {
      NoFallLossZero(data, period, n - 1);
      assert Change(data, n) >= 0.0;
    }
  }

  /** With a period of at least 2, the RSI is 100 exactly when the series never falls. */
  lemma RsiHundredIff(data: seq<DayRecord>, period: nat)
    requires 2 <= period < |data|
    ensures RsiSpec(data, period) == Some(100.0) <==> NoFallUpTo(data, |data| - 1)
  {
    RsiRange(data, period);
    SmoothedLossZeroIff(data, period, |data| - 1);
  }

  /** Every change into days `1..n` is a fall. */
  predicate FallsUpTo(data: seq<DayRecord>, n: nat)
    requires n < |data|
  {
    forall i :: 1 <= i <= n ==> data[i].close < data[i - 1].close
  }

  lemma {:induction false} FallingSums(data: seq<DayRecord>, n: nat)
    requires 1 <= n < |data|
    requires FallsUpTo(data, n)
    ensures GainSum(data, n) == 0.0 && LossSum(data, n) > 0.0
  {
    if n > 1 {
      FallingSums(data, n - 1);
    }
  }

  /** A fall smoothed into averages without gain leaves no gain and some loss. */
  lemma SmoothFall(a: Averages, diff: real, period: nat)
    requires period >= 1 && a.gain == 0.0 && a.loss >= 0.0 && diff < 0.0
    ensures Smooth(a, diff, period).gain == 0.0 && Smooth(a, diff, period).loss > 0.0
  {
    var p := period as real;
    Kept(a.loss, p);
    QuotientZero(a.loss * (p - 1.0) - diff, p);
  }

  /** When every change is a fall there is no gain and some loss. */
  lemma {:induction false} FallingSmoothed(data: seq<DayRecord>, period: nat, n: nat)
    requires 1 <= period <= n < |data|
    requires FallsUpTo(data, n)
    ensures Smoothed(data, period, n).gain == 0.0 && Smoothed(data, period, n).loss > 0.0
    decreases n
  {
    if n == period {
      FallingSums(data, period);
      QuotientZero(LossSum(data, period), period as real);
    } else {
      FallingSmoothed(data, period, n - 1);
      SmoothFall(Smoothed(data, period, n - 1), Change(data, n), period);
    }
  }

  /** A strictly falling series has an RSI of 0. */
  lemma RsiAllFalls(data: seq<DayRecord>, period: nat)
    requires 1 <= period < |data|
    requires FallsUpTo(data, |data| - 1)
    ensures RsiSpec(data, period) == Some(0.0)
  {
    FallingSmoothed(data, period, |data| - 1);
  }

  // ---------------------------------------------------------------------
  // The days of a date range (eachDayOfInterval + map lookups + filter)
  // ---------------------------------------------------------------------

  /** The map's entries for days `lo..hi`, in day order, skipping the days without data. */
  function Present(lo: int, hi: int, m: map<int, DayRecord>): seq<DayRecord>
    decreases hi - lo
  {
    if hi < lo then [] else Present(lo, hi - 1, m) + (if hi in m then [m[hi]] else [])
  }

  /** No day of `lo..hi` has an entry in the map. */
  predicate NoDayIn(lo: int, hi: int, m: map<int, DayRecord>)
  {
    forall k :: lo <= k <= hi ==> k !in m
  }

  /** Each day's key is smaller than the next day's key. */
  predicate AscendingDays(s: seq<DayRecord>)
  {
    forall i, j :: 0 <= i < j < |s| ==> DayKey(s[i].openTime) < DayKey(s[j].openTime)
  }

  /** Each day starts strictly before the next: the order `sort((a, b) => a.openTime - b.openTime)` produces on distinct start times. */
  predicate AscendingOpenTimes(s: seq<DayRecord>)
  {
    forall i, j :: 0 <= i < j < |s| ==> s[i].openTime < s[j].openTime
  }

  /** The range selects nothing exactly when none of its days has an entry. */
  lemma {:induction false} PresentEmpty(lo: int, hi: int, m: map<int, DayRecord>)
    ensures |Present(lo, hi, m)| == 0 <==> NoDayIn(lo, hi, m)
    decreases hi - lo
  {
    if hi >= lo {
      PresentEmpty(lo, hi - 1, m);
    }
  }

  /** Every selected entry is the map's entry for its own day, that day lies in the range, and the days ascend. */
  lemma {:induction false} PresentSound(lo: int, hi: int, m: map<int, DayRecord>)
    requires WellKeyed(m)
    ensures forall i :: 0 <= i < |Present(lo, hi, m)| ==>
              var k := DayKey(Present(lo, hi, m)[i].openTime);
              lo <= k <= hi && k in m && m[k] == Present(lo, hi, m)[i]
    ensures AscendingDays(Present(lo, hi, m))
    decreases hi - lo
  {
    if hi >= lo {
      PresentSound(lo, hi - 1, m);
    }
  }

  /** Every entry of a day in the range is selected. */
  lemma {:induction false} PresentComplete(lo: int, hi: int, m: map<int, DayRecord>)
    ensures forall k :: lo <= k <= hi && k in m ==> m[k] in Present(lo, hi, m)
    decreases hi - lo
  {
    if hi >= lo {
      PresentComplete(lo, hi - 1, m);
    }
  }

  /** Selecting `lo..hi` is selecting `lo..mid` and then `mid + 1..hi`. */
  lemma {:induction false} PresentSplit(lo: int, mid: int, hi: int, m: map<int, DayRecord>)
    requires lo - 1 <= mid <= hi
    ensures Present(lo, hi, m) == Present(lo, mid, m) + Present(mid + 1, hi, m)
    decreases hi - mid
  {
    if hi > mid {
      PresentSplit(lo, mid, hi - 1, m);
    }
  }

  /** The selection up to and including its `i`-th entry is the selection that ends on that entry's day. */
  lemma {:induction false} PresentPrefix(lo: int, hi: int, m: map<int, DayRecord>, i: int)
    requires WellKeyed(m)
    requires 0 <= i < |Present(lo, hi, m)|
    ensures Present(lo, hi, m)[..i + 1] == Present(lo, DayKey(Present(lo, hi, m)[i].openTime), m)
    decreases hi - lo
  {
    var init := Present(lo, hi - 1, m);
    if i < |init| {
      PresentPrefix(lo, hi - 1, m, i);
      assert Present(lo, hi, m)[..i + 1] == init[..i + 1];
    } else {
      PresentSound(lo, hi, m);
    }
  }

  /** Days that ascend start at ascending times. */
  lemma AscendingTimes(s: seq<DayRecord>)
    requires AscendingDays(s)
    ensures AscendingOpenTimes(s)
  {
    forall i, j | 0 <= i < j < |s| ensures s[i].openTime < s[j].openTime {
      DayKeyOrder(s[i].openTime, s[j].openTime);
    }
  }

  // ---------------------------------------------------------------------
  // The sorted history (Array.from(map.values()).sort by openTime)
  // ---------------------------------------------------------------------

  /** A non-empty set of days has a first day. */
  lemma {:induction false} FirstDayExists(s: set<int>)
    requires s != {}
    ensures exists k :: k in s && forall j :: j in s ==> k <= j
    decreases |s|
  {
    if forall x :: x !in s {
      assert false;
    }
    var x :| x in s;
    var w := x;
    if s - {x} != {} {
      FirstDayExists(s - {x});
      var k :| k in s - {x} && forall j :: j in s - {x} ==> k <= j;
      w := if x < k then x else k;
    }
    forall j | j in s ensures w <= j {
      if j != x {
        assert j in s - {x};
      }
    }
    assert w in s;
  }


  /** A non-empty set of days has a last day. */
  lemma {:induction false} LastDayExists(s: set<int>)
    requires s != {}
    ensures exists k :: k in s && forall j :: j in s ==> j <= k
    decreases |s|
  {
    if forall x :: x !in s {
      assert false;
    }
    var x :| x in s;
    var w := x;
    if s - {x} != {} {
      LastDayExists(s - {x});
      var k :| k in s - {x} && forall j :: j in s - {x} ==> j <= k;
      w := if k < x then x else k;
    }
    forall j | j in s ensures j <= w {
      if j != x {
        assert j in s - {x};
      }
    }
    assert w in s;
  }


  /** The first day that has data. */
  function FirstKey(m: map<int, DayRecord>): (k: int)
    requires |m| > 0
    ensures k in m && forall j :: j in m ==> k <= j
  {
    assert |m.Keys| > 0;
    FirstDayExists(m.Keys);
    var k :| k in m && forall j :: j in m ==> k <= j; k
  }

  /** The last day that has data. */
  function LastKey(m: map<int, DayRecord>): (k: int)
    requires |m| > 0
    ensures k in m && forall j :: j in m ==> j <= k
  {
    assert |m.Keys| > 0;
    LastDayExists(m.Keys);
    var k :| k in m && forall j :: j in m ==> j <= k; k
  }

  /** `allHistoricalData`: every entry of the map, in day order. */
  function History(m: map<int, DayRecord>): seq<DayRecord>
  {
    if |m| == 0 then [] else Present(FirstKey(m), LastKey(m), m)
  }

  /** The history up to and including day `k`. */
  function HistoryThrough(m: map<int, DayRecord>, k: int): seq<DayRecord>
  {
    if |m| == 0 then [] else Present(FirstKey(m), k, m)
  }

  /** The history is sorted by start time and holds every entry of the map and nothing else. */
  lemma HistoryExactly(m: map<int, DayRecord>)
    requires WellKeyed(m) && |m| > 0
    ensures AscendingOpenTimes(History(m))
    ensures forall i :: 0 <= i < |History(m)| ==> History(m)[i] in m.Values
    ensures forall k :: k in m ==> m[k] in History(m)
  {
    PresentSound(FirstKey(m), LastKey(m), m);
    PresentComplete(FirstKey(m), LastKey(m), m);
    AscendingTimes(History(m));
  }

  /** The history through day `k` is sorted by start time and holds exactly the entries of days up to `k`. */
  lemma HistoryThroughExactly(m: map<int, DayRecord>, k: int)
    requires WellKeyed(m) && |m| > 0
    ensures AscendingOpenTimes(HistoryThrough(m, k))
    ensures forall i :: 0 <= i < |HistoryThrough(m, k)| ==>
              var d := HistoryThrough(m, k)[i];
              DayKey(d.openTime) <= k && DayKey(d.openTime) in m && m[DayKey(d.openTime)] == d
    ensures forall j :: j in m && j <= k ==> m[j] in HistoryThrough(m, k)
  {
    PresentSound(FirstKey(m), k, m);
    PresentComplete(FirstKey(m), k, m);
    AscendingTimes(HistoryThrough(m, k));
  }

  /** Starting the selection at or before the first day with data changes nothing. */
  lemma ThroughWide(m: map<int, DayRecord>, lo: int, k: int)
    requires |m| > 0 && lo <= FirstKey(m)
    ensures Present(lo, k, m) == HistoryThrough(m, k)
  {
    var first := FirstKey(m);
    if k < first {
      PresentEmpty(lo, k, m);
      PresentEmpty(first, k, m);
    } else {
      PresentSplit(lo, first - 1, k, m);
      PresentEmpty(lo, first - 1, m);
    }
  }

  /** Selecting any range that covers all days with data gives the history. */
  lemma HistoryWide(m: map<int, DayRecord>, lo: int, hi: int)
    requires |m| > 0 && lo <= FirstKey(m) && LastKey(m) <= hi
    ensures Present(lo, hi, m) == History(m)
  {
    var last := LastKey(m);
    ThroughWide(m, lo, last);
    PresentSplit(lo, last, hi, m);
    PresentEmpty(last + 1, hi, m);
  }

  /** findIndex: the first position whose day starts at `t`, or `-1` when there is none. */
  function FindIndex(s: seq<DayRecord>, t: int): (r: int)
    ensures -1 <= r < |s|
    ensures r >= 0 ==> s[r].openTime == t
  {
    if |s| == 0 then -1
    else if s[0].openTime == t then 0
    else
      var r := FindIndex(s[1..], t);
      if r == -1 then -1 else r + 1
  }

  /** `findIndex` finds the first position that starts at `t`, and answers `-1` only when no position does. */
  lemma {:induction false} FindIndexFirst(s: seq<DayRecord>, t: int)
    ensures var r := FindIndex(s, t);
            (r >= 0 ==> forall j :: 0 <= j < r ==> s[j].openTime != t)
            && (r == -1 <==> forall j :: 0 <= j < |s| ==> s[j].openTime != t)
  {
    if |s| > 0 && s[0].openTime != t {
      FindIndexFirst(s[1..], t);
      assert forall j :: 1 <= j < |s| ==> s[j] == s[1..][j - 1];
    }
  }

  /** In a series of distinct start times, looking up an element's start time finds that element. */
  lemma FindIndexOf(s: seq<DayRecord>, i: int)
    requires AscendingOpenTimes(s) && 0 <= i < |s|
    ensures FindIndex(s, s[i].openTime) == i
  {
    FindIndexFirst(s, s[i].openTime);
  }

  /**
   * The history is the days before the range, the selected days, and the
   * days after it; the last selected day is found at the end of the middle part.
   */
  lemma PeriodPosition(s: int, e: int, m: map<int, DayRecord>, lo: int, hi: int)
    requires WellKeyed(m) && |m| > 0 && s <= e && |Present(s, e, m)| > 0
    requires lo <= s && lo <= FirstKey(m) && e <= hi && LastKey(m) <= hi
    ensures History(m) == Present(lo, s - 1, m) + Present(s, e, m) + Present(e + 1, hi, m)
    ensures FindIndex(History(m), Present(s, e, m)[|Present(s, e, m)| - 1].openTime)
            == |Present(lo, s - 1, m)| + |Present(s, e, m)| - 1
  {
    HistorySplit(s, e, m, lo, hi);
    HistoryExactly(m);
    var h := History(m);
    var j := |Present(lo, s - 1, m)| + |Present(s, e, m)| - 1;
    assert h[j] == Present(s, e, m)[|Present(s, e, m)| - 1];
    FindIndexOf(h, j);
  }

  /** The history cut at the range's two ends. */
  lemma HistorySplit(s: int, e: int, m: map<int, DayRecord>, lo: int, hi: int)
    requires |m| > 0 && s <= e
    requires lo <= s && lo <= FirstKey(m) && e <= hi && LastKey(m) <= hi
    ensures History(m) == Present(lo, s - 1, m) + Present(s, e, m) + Present(e + 1, hi, m)
  {
    HistoryWide(m, lo, hi);
    PresentSplit(lo, s - 1, hi, m);
    PresentSplit(s, e, hi, m);
  }

  /** A lower and an upper bound covering both the range and the days with data. */
  function Cover(s: int, e: int, m: map<int, DayRecord>): (r: (int, int))
    requires |m| > 0
    ensures r.0 <= s && r.0 <= FirstKey(m) && e <= r.1 && LastKey(m) <= r.1
  {
    (if s < FirstKey(m) then s else FirstKey(m), if e > LastKey(m) then e else LastKey(m))
  }

  /** The last selected day sits in the history with all the other selected days before it. */
  lemma PeriodInHistory(s: int, e: int, m: map<int, DayRecord>)
    requires WellKeyed(m) && s <= e && |Present(s, e, m)| > 0
    ensures |Present(s, e, m)| - 1
            <= FindIndex(History(m), Present(s, e, m)[|Present(s, e, m)| - 1].openTime)
            < |History(m)|
  {
    PresentEntry(s, e, m, 0);
    var c := Cover(s, e, m);
    PeriodPosition(s, e, m, c.0, c.1);
  }

  /** A history prefix that ends with an entry is the history through that entry's day, here from a wider lower bound. */
  lemma HistoryPrefix(m: map<int, DayRecord>, lo: int, hi: int, j: int)
    requires WellKeyed(m) && |m| > 0 && lo <= FirstKey(m) && LastKey(m) <= hi
    requires 0 <= j < |History(m)|
    ensures History(m)[..j + 1] == Present(lo, DayKey(History(m)[j].openTime), m)
  {
    HistoryWide(m, lo, hi);
    PresentPrefix(lo, hi, m, j);
  }

  /**
   * In the history, the prefix that ends with the `i`-th selected day is
   * the history through that day.
   */
  lemma PeriodWindow(s: int, e: int, m: map<int, DayRecord>, i: int)
    requires WellKeyed(m) && |m| > 0 && s <= e && 0 <= i < |Present(s, e, m)|
    ensures var c := Cover(s, e, m);
            var j := |Present(c.0, s - 1, m)| + i;
            j < |History(m)| && History(m)[j] == Present(s, e, m)[i]
            && History(m)[..j + 1] == HistoryThrough(m, DayKey(Present(s, e, m)[i].openTime))
  {
    var c := Cover(s, e, m);
    HistorySplit(s, e, m, c.0, c.1);
    var j := |Present(c.0, s - 1, m)| + i;
    assert History(m)[j] == Present(s, e, m)[i];
    HistoryPrefix(m, c.0, c.1, j);
    ThroughWide(m, c.0, DayKey(Present(s, e, m)[i].openTime));
  }

  // ---------------------------------------------------------------------
  // The dashboard (calculateDashboardMetrics)
  // ---------------------------------------------------------------------

  /** `ma20Data` / `ma50Data`: for each of `n` period days, the moving average of the history prefix of length `first + i`. */
  function MovingAverages(h: seq<DayRecord>, first: int, n: nat, period: nat): (r: seq<Option<real>>)
    requires period > 0 && 0 <= first && first + n <= |h| + 1
    ensures |r| == n && forall i :: 0 <= i < n ==> r[i] == CalculateMA(h[..first + i], period)
  {
    if n == 0 then [] else MovingAverages(h, first, n - 1, period) + [CalculateMA(h[..first + n - 1], period)]
  }

  /** A day's range as a percentage of its open, `((d.high - d.low) / d.open) * 100`. */
  function Volatility(d: DayRecord): real
    requires d.open != 0.0
  {
    ((d.high - d.low) / d.open) * 100.0
  }

  /** The volatility of every day. */
  function Volatilities(ds: seq<DayRecord>): (r: seq<real>)
    requires NonZeroOpens(ds)
    ensures |r| == |ds| && forall i {:trigger r[i]} :: 0 <= i < |ds| ==> r[i] == Volatility(ds[i])
  {
    if |ds| == 0 then [] else Volatilities(ds[..|ds| - 1]) + [Volatility(ds[|ds| - 1])]
  }

  /** The chart series; a label is the day's start time (the source formats it as a date). */
  datatype Charts = Charts(
    labels: seq<int>,
    closePrices: seq<real>,
    volumeData: seq<real>,
    ma20Data: seq<Option<real>>,
    ma50Data: seq<Option<real>>)

  /** The figures of the selected days themselves. */
  datatype PeriodFigures = PeriodFigures(
    periodHigh: real,
    periodLow: real,
    totalVolume: real,
    priceChangeDollar: real,
    priceChangePercent: real,
    avgVolatility: real)

  /** The indicators; `variance` is the square of the source's `stdDev`. */
  datatype Indicators = Indicators(
    variance: Option<real>,
    ma20: Option<real>,
    ma50: Option<real>,
    rsi: Option<real>)

  /** The summary statistics: the source's flat `stats` object, its fields grouped by what they are computed from. */
  datatype Stats = Stats(figures: PeriodFigures, indicators: Indicators)

  datatype Dashboard = Dashboard(charts: Charts, stats: Stats)

  /** Every day of the range that has data opened at a non-zero price. */
  predicate RangeOpens(s: int, e: int, m: map<int, DayRecord>)
  {
    forall k :: s <= k <= e && k in m ==> m[k].open != 0.0
  }

  /** The `i`-th selected entry is the map's entry for its own day, which lies in the range. */
  lemma PresentEntry(lo: int, hi: int, m: map<int, DayRecord>, i: int)
    requires WellKeyed(m) && 0 <= i < |Present(lo, hi, m)|
    ensures var k := DayKey(Present(lo, hi, m)[i].openTime);
            lo <= k <= hi && k in m && m[k] == Present(lo, hi, m)[i] && |m| > 0
  {
    PresentSound(lo, hi, m);
    var k := DayKey(Present(lo, hi, m)[i].openTime);
    assert k in m.Keys;
  }

  lemma PeriodOpens(s: int, e: int, m: map<int, DayRecord>)
    requires WellKeyed(m) && RangeOpens(s, e, m)
    ensures NonZeroOpens(Present(s, e, m))
  {
    forall i | 0 <= i < |Present(s, e, m)| ensures Present(s, e, m)[i].open != 0.0 {
      PresentEntry(s, e, m, i);
    }
  }

  /** The history through a day with data is the history through the day before, then that day's entry. */
  lemma ThroughStep(m: map<int, DayRecord>, k: int)
    requires k in m
    ensures HistoryThrough(m, k) == HistoryThrough(m, k - 1) + [m[k]]
    ensures HistoryThrough(m, k - 1) == HistoryThrough(m, k)[..|HistoryThrough(m, k)| - 1]
  {
    assert k in m.Keys;
    var before := HistoryThrough(m, k - 1);
    assert (before + [m[k]])[..|before|] == before;
  }

  /**
   * Where the windows of the moving-average charts end: the history prefix
   * of length `endIndex - n + 2 + i` is the history through period day `i`,
   * and the one of length `endIndex - n + 1 + i` the history before it.
   */
  lemma WindowAt(s: int, e: int, m: map<int, DayRecord>, i: int)
    requires WellKeyed(m) && s <= e && 0 <= i < |Present(s, e, m)|
    ensures var p := Present(s, e, m);
            var h := History(m);
            var endIndex := EndIndex(s, e, m);
            var k := DayKey(p[i].openTime);
            0 <= endIndex - |p| + 1 + i && endIndex - |p| + 2 + i <= |h|
            && h[..endIndex - |p| + 2 + i] == HistoryThrough(m, k)
            && h[..endIndex - |p| + 1 + i] == HistoryThrough(m, k - 1)
  {
    var p := Present(s, e, m);
    PresentEntry(s, e, m, i);
    var c := Cover(s, e, m);
    var j := |Present(c.0, s - 1, m)| + i;
    EndIndexAt(s, e, m);
    PeriodWindow(s, e, m, i);
    var k := DayKey(p[i].openTime);
    var h := History(m);
    ThroughStep(m, k);
    assert EndIndex(s, e, m) - |p| + 2 + i == j + 1;
    assert h[..j] == h[..j + 1][..j];
  }

  /** The range's last day with data follows the days with data before the range and the other selected days. */
  lemma EndIndexAt(s: int, e: int, m: map<int, DayRecord>)
    requires WellKeyed(m) && s <= e && |Present(s, e, m)| > 0
    ensures |m| > 0 && EndIndex(s, e, m) == |Present(Cover(s, e, m).0, s - 1, m)| + |Present(s, e, m)| - 1
  {
    PresentEntry(s, e, m, 0);
    var c := Cover(s, e, m);
    PeriodPosition(s, e, m, c.0, c.1);
  }

  /** The chart series of the selected days; the moving-average windows are history prefixes that end at `endIndex - n + 2 + i`. */
  function PeriodCharts(periodData: seq<DayRecord>, history: seq<DayRecord>, endIndex: int): Charts
    requires |periodData| - 1 <= endIndex < |history|
  {
    var n := |periodData|;
    Charts(
      OpenTimes(periodData),
      Closes(periodData),
      Volumes(periodData),
      MovingAverages(history, endIndex - n + 2, n, 20),
      MovingAverages(history, endIndex - n + 2, n, 50))
  }

  /** The figures of the selected days: extremes, volume, price change and mean daily volatility. */
  function PeriodFiguresOf(periodData: seq<DayRecord>): PeriodFigures
    requires |periodData| > 0 && NonZeroOpens(periodData)
  {
    var periodOpen := periodData[0].open;
    var periodClose := periodData[|periodData| - 1].close;
    PeriodFigures(
      MaxOf(Highs(periodData)),
      MinOf(Lows(periodData)),
      Sum(Volumes(periodData)),
      periodClose - periodOpen,
      PercentChange(periodOpen, periodClose),
      Sum(Volatilities(periodData)) / |periodData| as real)
  }

  /** The indicators over `dataForIndicators`: 20-day variance, 20- and 50-day averages, 14-day RSI. */
  function IndicatorsOf(dataForIndicators: seq<DayRecord>): Indicators
  {
    Indicators(
      CalculateVariance(dataForIndicators, 20),
      CalculateMA(dataForIndicators, 20),
      CalculateMA(dataForIndicators, 50),
      RsiSpec(dataForIndicators, 14))
  }

  /** `endIndex`: where the range's last day with data sits in the history; at least the other selected days come before it. */
  function EndIndex(s: int, e: int, m: map<int, DayRecord>): (r: int)
    requires WellKeyed(m) && s <= e && |Present(s, e, m)| > 0
    ensures |Present(s, e, m)| - 1 <= r < |History(m)|
  {
    PeriodInHistory(s, e, m);
    FindIndex(History(m), Present(s, e, m)[|Present(s, e, m)| - 1].openTime)
  }

  /** The charts of a range with data. */
  function RangeCharts(s: int, e: int, m: map<int, DayRecord>): Charts
    requires WellKeyed(m) && s <= e && |Present(s, e, m)| > 0
  {
    PeriodCharts(Present(s, e, m), History(m), EndIndex(s, e, m))
  }

  /** `dataForIndicators`: the history up to and including the range's last day with data, `allHistoricalData.slice(0, endIndex + 1)`. */
  function IndicatorData(s: int, e: int, m: map<int, DayRecord>): seq<DayRecord>
    requires WellKeyed(m) && s <= e && |Present(s, e, m)| > 0
  {
    History(m)[..EndIndex(s, e, m) + 1]
  }

  /** The statistics of a range with data. */
  function RangeStats(s: int, e: int, m: map<int, DayRecord>): Stats
    requires WellKeyed(m) && s <= e && RangeOpens(s, e, m) && |Present(s, e, m)| > 0
  {
    PeriodOpens(s, e, m);
    Stats(PeriodFiguresOf(Present(s, e, m)), IndicatorsOf(IndicatorData(s, e, m)))
  }

  /**
   * calculateDashboardMetrics: nothing without both dates, without data or
   * without a day of data in `startDate..endDate`; otherwise the charts and
   * statistics of those days. The moving-average series use windows that
   * end with their own day (see `MaDataAsWritten`).
   */
  function CalculateDashboardMetrics(startDate: Option<int>, endDate: Option<int>, m: map<int, DayRecord>): (r: Option<Dashboard>)
    requires WellKeyed(m)
    requires startDate.Some? && endDate.Some? ==>
               startDate.value <= endDate.value && RangeOpens(startDate.value, endDate.value, m)
    ensures r.None? <==> startDate.None? || endDate.None? || |m| == 0 || NoDayIn(startDate.value, endDate.value, m)
    ensures r.Some? ==>
              (|Present(startDate.value, endDate.value, m)| > 0
               && r.value == Dashboard(RangeCharts(startDate.value, endDate.value, m),
                                       RangeStats(startDate.value, endDate.value, m)))
  {
    if startDate.None? || endDate.None? || |m| == 0 then None
    else
      var s, e := startDate.value, endDate.value;
      PresentEmpty(s, e, m);
      if |Present(s, e, m)| == 0 then None
      else Some(Dashboard(RangeCharts(s, e, m), RangeStats(s, e, m)))
  }

  /** The chart series at period day `i`: that day's own figures, and averages over the history prefix `window`. */
  lemma ChartsAt(p: seq<DayRecord>, history: seq<DayRecord>, endIndex: int, i: int, window: seq<DayRecord>)
    requires |p| - 1 <= endIndex < |history| && 0 <= i < |p|
    requires 0 <= endIndex - |p| + 2 + i <= |history| && window == history[..endIndex - |p| + 2 + i]
    ensures var c := PeriodCharts(p, history, endIndex);
            |c.labels| == |c.closePrices| == |c.volumeData| == |c.ma20Data| == |c.ma50Data| == |p|
            && c.labels[i] == p[i].openTime
            && c.closePrices[i] == p[i].close
            && c.volumeData[i] == p[i].volume
            && c.ma20Data[i] == CalculateMA(window, 20)
            && c.ma50Data[i] == CalculateMA(window, 50)
  {
  }

  /**
   * The chart series follow the range's days with data one for one, and
   * the moving averages at day `i` are taken over the history through day `i`.
   */
  lemma DashboardCharts(s: int, e: int, m: map<int, DayRecord>, i: int)
    requires WellKeyed(m) && s <= e && 0 <= i < |Present(s, e, m)|
    ensures var c := RangeCharts(s, e, m);
            var p := Present(s, e, m);
            var h := HistoryThrough(m, DayKey(p[i].openTime));
            |c.labels| == |c.closePrices| == |c.volumeData| == |c.ma20Data| == |c.ma50Data| == |p|
            && c.labels[i] == p[i].openTime
            && c.closePrices[i] == p[i].close
            && c.volumeData[i] == p[i].volume
            && c.ma20Data[i] == CalculateMA(h, 20)
            && c.ma50Data[i] == CalculateMA(h, 50)
  {
    var p := Present(s, e, m);
    WindowAt(s, e, m, i);
    ChartsAt(p, History(m), EndIndex(s, e, m), i, HistoryThrough(m, DayKey(p[i].openTime)));
  }

  /**
   * The figures of the selected days: `periodHigh` and `periodLow` are the
   * highest high and the lowest low, each reached on some day; the total
   * volume adds up the volumes; the price change runs from the first day's
   * open to the last day's close; the average volatility lies between the
   * least and the greatest daily volatility.
   */
  lemma PeriodFiguresBounds(p: seq<DayRecord>)
    requires |p| > 0 && NonZeroOpens(p)
    ensures var f := PeriodFiguresOf(p);
            (forall i :: 0 <= i < |p| ==> p[i].high <= f.periodHigh && f.periodLow <= p[i].low)
            && (exists i :: 0 <= i < |p| && p[i].high == f.periodHigh)
            && (exists i :: 0 <= i < |p| && p[i].low == f.periodLow)
            && f.totalVolume == Sum(Volumes(p))
            && f.priceChangeDollar == p[|p| - 1].close - p[0].open
            && f.priceChangePercent == PercentChange(p[0].open, p[|p| - 1].close)
            && MinOf(Volatilities(p)) <= f.avgVolatility <= MaxOf(Volatilities(p))
  {
    var hs, ls := Highs(p), Lows(p);
    MaxOfIsMaximum(hs);
    MinOfIsMinimum(ls);
    forall i | 0 <= i < |p| ensures p[i].high <= MaxOf(hs) && MinOf(ls) <= p[i].low {
      assert hs[i] == p[i].high && ls[i] == p[i].low;
    }
    MeanBetweenExtremes(Volatilities(p));
  }

  /**
   * The summary of a range is the figures of its days with data, with the
   * indicators evaluated on the history through the last of them.
   */
  lemma DashboardStats(s: int, e: int, m: map<int, DayRecord>)
    requires WellKeyed(m) && s <= e && RangeOpens(s, e, m) && |Present(s, e, m)| > 0
    ensures var p := Present(s, e, m);
            var h := HistoryThrough(m, DayKey(p[|p| - 1].openTime));
            NonZeroOpens(p) && RangeStats(s, e, m) == Stats(PeriodFiguresOf(p), IndicatorsOf(h))
  {
    PeriodOpens(s, e, m);
    IndicatorWindow(s, e, m);
  }

  /** The indicators' data is the history through the range's last day with data. */
  lemma IndicatorWindow(s: int, e: int, m: map<int, DayRecord>)
    requires WellKeyed(m) && s <= e && |Present(s, e, m)| > 0
    ensures var p := Present(s, e, m);
            IndicatorData(s, e, m) == HistoryThrough(m, DayKey(p[|p| - 1].openTime))
  {
    var p := Present(s, e, m);
    var n := |p|;
    var h := History(m);
    var endIndex := EndIndex(s, e, m);
    WindowAt(s, e, m, n - 1);
    assert h[..endIndex - n + 2 + (n - 1)] == HistoryThrough(m, DayKey(p[n - 1].openTime));
    assert endIndex - n + 2 + (n - 1) == endIndex + 1;
  }

  /** The moving-average charts end on the summary's moving averages, which are taken over the indicators' data. */
  lemma ChartsEndOnSummary(s: int, e: int, m: map<int, DayRecord>)
    requires WellKeyed(m) && s <= e && |Present(s, e, m)| > 0
    ensures var c := RangeCharts(s, e, m);
            var n := |Present(s, e, m)|;
            |c.ma20Data| == |c.ma50Data| == n
            && c.ma20Data[n - 1] == CalculateMA(IndicatorData(s, e, m), 20)
            && c.ma50Data[n - 1] == CalculateMA(IndicatorData(s, e, m), 50)
  {
    var p := Present(s, e, m);
    var endIndex := EndIndex(s, e, m);
    assert History(m)[..endIndex - |p| + 2 + (|p| - 1)] == IndicatorData(s, e, m);
    ChartsAt(p, History(m), endIndex, |p| - 1, IndicatorData(s, e, m));
  }

  // ---------------------------------------------------------------------
  // The moving-average charts as the source slices them
  // ---------------------------------------------------------------------

  /**
   * `ma20Data` (period 20) and `ma50Data` (period 50) as the source slices
   * them: period day `i` gets the window
   * `allHistoricalData.slice(0, endIndex - periodData.length + i + 1)`.
   */
  function MaDataAsWritten(s: int, e: int, m: map<int, DayRecord>, period: nat): (r: seq<Option<real>>)
    requires WellKeyed(m) && s <= e && |Present(s, e, m)| > 0 && period > 0
    ensures |r| == |Present(s, e, m)|
  {
    var n := |Present(s, e, m)|;
    MovingAverages(History(m), EndIndex(s, e, m) - n + 1, n, period)
  }

  /** As written, the chart average of period day `i` covers only the history before that day. */
  lemma MaAsWrittenLags(s: int, e: int, m: map<int, DayRecord>, i: int, period: nat)
    requires WellKeyed(m) && s <= e && 0 <= i < |Present(s, e, m)| && period > 0
    ensures MaDataAsWritten(s, e, m, period)[i]
            == CalculateMA(HistoryThrough(m, DayKey(Present(s, e, m)[i].openTime) - 1), period)
  {
    WindowAt(s, e, m, i);
  }

  /** Day `i` of the witness series: every close is 0 except day 20's, which is 1. */
  function LagDay(i: int): DayRecord
  {
    DayRecord(i * MsPerDay, 1.0, 1.0, 1.0, if i == 20 then 1.0 else 0.0, 0.0, 0.0, 0.0)
  }

  /**
   * Twenty-one days closing at 0 except the last, which closes at 1: the
   * 20-day average of all but the last day (the as-written chart point) is
   * not the 20-day average through the last day (the summary's `ma20`).
   */
  lemma LaggedAverageDiffers()
    ensures var h := seq(21, i => LagDay(i));
            CalculateMA(h[..20], 20) == Some(0.0) && CalculateMA(h, 20) != Some(0.0)
  {
    var h := seq(21, i => LagDay(i));
    MAConstant(h[..20], 20, 0.0);
    MAShift(h, 20);
  }

  /** The daily map of the witness series: days 0 to 20. */
  function LagMap(): map<int, DayRecord>
  {
    map i | 0 <= i <= 20 :: LagDay(i)
  }

  /** The witness map's days `0..k` are the first `k + 1` witness days. */
  lemma {:induction false} LagPresent(k: int)
    requires -1 <= k <= 20
    ensures Present(0, k, LagMap()) == seq(k + 1, i => LagDay(i))
  {
    if k >= 0 {
      LagPresent(k - 1);
      assert k in LagMap();
      assert seq(k + 1, i => LagDay(i)) == seq(k, i => LagDay(i)) + [LagDay(k)];
    }
  }

  /** The witness map is keyed by day, opens at 1, selects day 20 alone for the range `20..20`, and its histories through days 19 and 20 are the witness series without and with its last day. */
  lemma LagMapShape()
    ensures WellKeyed(LagMap()) && RangeOpens(20, 20, LagMap())
    ensures Present(20, 20, LagMap()) == [LagDay(20)] && DayKey(LagDay(20).openTime) == 20
    ensures HistoryThrough(LagMap(), 19) == seq(21, i => LagDay(i))[..20]
    ensures HistoryThrough(LagMap(), 20) == seq(21, i => LagDay(i))
  {
    var m := LagMap();
    forall k | k in m ensures DayKey(m[k].openTime) == k {
      assert m[k].openTime == k * MsPerDay;
    }
    assert 20 in m && 0 in m;
    assert FirstKey(m) == 0;
    LagPresent(19);
    LagPresent(20);
  }

  /** The summary's `ma20` is the 20-day average of the indicators' data. */
  lemma SummaryMa20(s: int, e: int, m: map<int, DayRecord>)
    requires WellKeyed(m) && s <= e && RangeOpens(s, e, m) && |Present(s, e, m)| > 0
    ensures RangeStats(s, e, m).indicators.ma20 == CalculateMA(IndicatorData(s, e, m), 20)
  {
  }

  /**
   * The witness at the level of the dashboard: for the range of day 20 alone,
   * the as-written `ma20Data` point is 0 while the summary's `ma20` is not, and
   * the corrected chart point is the summary's `ma20`.
   */
  lemma AsWrittenChartMissesSummary()
    ensures WellKeyed(LagMap()) && RangeOpens(20, 20, LagMap()) && |Present(20, 20, LagMap())| == 1
    ensures MaDataAsWritten(20, 20, LagMap(), 20)[0] == Some(0.0)
    ensures RangeStats(20, 20, LagMap()).indicators.ma20 != Some(0.0)
    ensures RangeCharts(20, 20, LagMap()).ma20Data[0] == RangeStats(20, 20, LagMap()).indicators.ma20
  {
    var m := LagMap();
    LagMapShape();
    LaggedAverageDiffers();
    MaAsWrittenLags(20, 20, m, 0, 20);
    IndicatorWindow(20, 20, m);
    SummaryMa20(20, 20, m);
    ChartsEndOnSummary(20, 20, m);
  }

  /** Moving the window one day on changes the average exactly when the day that enters and the day that leaves differ in close. */
  lemma MAShift(h: seq<DayRecord>, period: nat)
    requires 0 < period < |h|
    ensures CalculateMA(h[..|h| - 1], period) == CalculateMA(h, period)
            <==> h[|h| - 1].close == h[|h| - 1 - period].close
  {
    var n := |h|;
    var w1 := LastCloses(h[..n - 1], period);
    var w2 := LastCloses(h, period);
    var mid := Closes(h[n - period..n - 1]);
    assert w1 == [h[n - 1 - period].close] + mid;
    assert w2 == mid + [h[n - 1].close];
    SumCons(h[n - 1 - period].close, mid);
    assert w2[..|w2| - 1] == mid;
    QuotientInjective(Sum(w1), Sum(w2), period as real);
  }
}
