/**
 * The one-day view's calculations (src/utils/dailyViewUtils.js): the hourly
 * candles of one day become three chart series (hour labels, closes and
 * volumes) and the day's summary figures.
 */
module DailyViewUtils {
  import opened Wrappers
  import opened Series
  import opened Candles

  /** Milliseconds in one hour. */
  const MsPerHour: int := 3_600_000

  /** The chart series of the day, one entry per hourly candle. */
  datatype DayCharts = DayCharts(labels: seq<string>, closePrices: seq<real>, volumeData: seq<real>)

  /** The day's summary figures. */
  datatype DayStats = DayStats(
    dayHigh: real,
    dayLow: real,
    totalVolume: real,
    priceChange: real,
    priceChangePercent: real)

  /** The object `processIntradayData` returns. */
  datatype DailyView = DailyView(charts: DayCharts, stats: DayStats)

  // ---------------------------------------------------------------------
  // Hour labels (format(new Date(t), 'ha'))
  // ---------------------------------------------------------------------

  /** The hour of the day, 0 to 23, in which time stamp `t` falls. */
  function HourOfDay(t: int): (h: int)
    ensures 0 <= h < 24
  {
    (t / MsPerHour) % 24
  }

  /** The hour of the day places `t` within its day: `t` lies in hour `HourOfDay(t)` after the start of day `DayKey(t)`. */
  lemma HourOfDayPlacesTime(t: int)
    ensures DayKey(t) * MsPerDay + HourOfDay(t) * MsPerHour <= t
    ensures t < DayKey(t) * MsPerDay + (HourOfDay(t) + 1) * MsPerHour
  {
    var q := t / MsPerHour;
    var h := q % 24;
    var a := q / 24;
    assert q == 24 * a + h;
    assert q * MsPerHour <= t < q * MsPerHour + MsPerHour;
    assert a * MsPerDay + h * MsPerHour == q * MsPerHour;
    assert a * MsPerDay <= t < a * MsPerDay + MsPerDay;
    assert t / MsPerDay == a;
  }

  /** The hour on a twelve-hour clock, where midnight and noon are 12. */
  function Clock12(h: int): (r: int)
    requires 0 <= h < 24
    ensures 1 <= r <= 12
    ensures r % 12 == h % 12
  {
    if h % 12 == 0 then 12 else h % 12
  }

  /** The decimal digit `n`. */
  function DigitChar(n: int): char
    requires 0 <= n < 10
  {
    ('0' as int + n) as char
  }

  /** The decimal numeral of a twelve-hour clock value, without leading zeros. */
  function Numeral(n: int): (r: string)
    requires 1 <= n <= 12
    ensures |r| == if n < 10 then 1 else 2
  {
    if n < 10 then [DigitChar(n)] else ['1', DigitChar(n - 10)]
  }

  /** The `'ha'` label of hour `h`: the twelve-hour clock value followed by `AM` or `PM`. */
  function HourLabel(h: int): (r: string)
    requires 0 <= h < 24
    ensures 3 <= |r| <= 4
    ensures r[|r| - 2..] == (if h < 12 then "AM" else "PM")
  {
    var digits := Numeral(Clock12(h));
    assert (digits + (if h < 12 then "AM" else "PM"))[|digits|..] == (if h < 12 then "AM" else "PM");
    digits + (if h < 12 then "AM" else "PM")
  }

  /** Distinct numerals for distinct clock values. */
  lemma NumeralInjective(n1: int, n2: int)
    requires 1 <= n1 <= 12 && 1 <= n2 <= 12
    requires Numeral(n1) == Numeral(n2)
    ensures n1 == n2
  {
    if n1 < 10 {
      assert Numeral(n1)[0] == DigitChar(n1);
    } else {
      assert Numeral(n1)[1] == DigitChar(n1 - 10);
    }
  }

  /** Different hours of the day get different labels. */
  lemma HourLabelInjective(h1: int, h2: int)
    requires 0 <= h1 < 24 && 0 <= h2 < 24
    requires HourLabel(h1) == HourLabel(h2)
    ensures h1 == h2
  {
    var l := HourLabel(h1);
    assert (h1 < 12) == (h2 < 12) by {
      assert l[|l| - 2] == (if h1 < 12 then 'A' else 'P');
      assert l[|l| - 2] == (if h2 < 12 then 'A' else 'P');
    }
    var d1, d2 := Numeral(Clock12(h1)), Numeral(Clock12(h2));
    assert d1 == l[..|l| - 2];
    assert d2 == l[..|l| - 2];
    NumeralInjective(Clock12(h1), Clock12(h2));
  }

  // ---------------------------------------------------------------------
  // Column extraction (intradayData.map(...))
  // ---------------------------------------------------------------------

  /** The label of every candle. */
  function Labels(cs: seq<Candle>): (r: seq<string>)
    ensures |r| == |cs| && forall i {:trigger r[i]} :: 0 <= i < |cs| ==> r[i] == HourLabel(HourOfDay(cs[i].openTime))
  {
    if |cs| == 0 then [] else Labels(cs[..|cs| - 1]) + [HourLabel(HourOfDay(cs[|cs| - 1].openTime))]
  }

  function CandleHighs(cs: seq<Candle>): seq<real>
  {
    seq(|cs|, i requires 0 <= i < |cs| => cs[i].high)
  }

  function CandleLows(cs: seq<Candle>): seq<real>
  {
    seq(|cs|, i requires 0 <= i < |cs| => cs[i].low)
  }

  function CandleCloses(cs: seq<Candle>): seq<real>
  {
    seq(|cs|, i requires 0 <= i < |cs| => cs[i].close)
  }

  function CandleVolumes(cs: seq<Candle>): seq<real>
  {
    seq(|cs|, i requires 0 <= i < |cs| => cs[i].volume)
  }

  // ---------------------------------------------------------------------
  // processIntradayData
  // ---------------------------------------------------------------------

  /** The first candle's open, the base of the percentage change, is not zero. */
  predicate OpensAtNonZero(intradayData: Option<seq<Candle>>)
  {
    intradayData.Some? && |intradayData.value| > 0 ==> intradayData.value[0].open != 0.0
  }

  /** The summary figures of a non-empty day. */
  function DayStatsOf(cs: seq<Candle>): DayStats
    requires |cs| > 0 && cs[0].open != 0.0
  {
    var open := cs[0].open;
    var close := cs[|cs| - 1].close;
    DayStats(
      MaxOf(CandleHighs(cs)),
      MinOf(CandleLows(cs)),
      Sum(CandleVolumes(cs)),
      close - open,
      PercentChange(open, close))
  }

  /** Charts and figures of the day; nothing for missing or empty data. */
  function ProcessIntradayData(intradayData: Option<seq<Candle>>): (r: Option<DailyView>)
    requires OpensAtNonZero(intradayData)
    ensures r.None? <==> intradayData.None? || |intradayData.value| == 0
  {
    if intradayData.None? || |intradayData.value| == 0 then None
    else
      var cs := intradayData.value;
      Some(DailyView(DayCharts(Labels(cs), CandleCloses(cs), CandleVolumes(cs)), DayStatsOf(cs)))
  }

  /** The chart series run over the candles in order: the hour label, the close and the volume of candle `i`. */
  lemma IntradayCharts(cs: seq<Candle>, i: int)
    requires |cs| > 0 && cs[0].open != 0.0 && 0 <= i < |cs|
    ensures var c := ProcessIntradayData(Some(cs)).value.charts;
            |c.labels| == |c.closePrices| == |c.volumeData| == |cs|
            && c.labels[i] == HourLabel(HourOfDay(cs[i].openTime))
            && c.closePrices[i] == cs[i].close
            && c.volumeData[i] == cs[i].volume
  {
    var c := ProcessIntradayData(Some(cs)).value.charts;
    assert c.labels == Labels(cs) && c.closePrices == CandleCloses(cs) && c.volumeData == CandleVolumes(cs);
  }

  /**
   * The day's figures: the high is the highest candle high and the low the
   * lowest candle low, each reached by some candle.
   */
  lemma IntradayExtremes(cs: seq<Candle>)
    requires |cs| > 0 && cs[0].open != 0.0
    ensures var st := ProcessIntradayData(Some(cs)).value.stats;
            (forall i :: 0 <= i < |cs| ==> cs[i].high <= st.dayHigh && st.dayLow <= cs[i].low)
            && (exists i :: 0 <= i < |cs| && cs[i].high == st.dayHigh)
            && (exists i :: 0 <= i < |cs| && cs[i].low == st.dayLow)
  {
    var hs, ls := CandleHighs(cs), CandleLows(cs);
    MaxOfIsMaximum(hs);
    MinOfIsMinimum(ls);
    forall i | 0 <= i < |cs| ensures cs[i].high <= MaxOf(hs) && MinOf(ls) <= cs[i].low {
      assert hs[i] == cs[i].high && ls[i] == cs[i].low;
    }
    var j :| 0 <= j < |hs| && hs[j] == MaxOf(hs);
    assert cs[j].high == MaxOf(hs);
    var k :| 0 <= k < |ls| && ls[k] == MinOf(ls);
    assert cs[k].low == MinOf(ls);
  }

  /** With every candle's low at most its high, the day's low is at most the day's high. */
  lemma IntradayLowBelowHigh(cs: seq<Candle>)
    requires |cs| > 0 && cs[0].open != 0.0
    requires forall i :: 0 <= i < |cs| ==> cs[i].low <= cs[i].high
    ensures var st := ProcessIntradayData(Some(cs)).value.stats;
            st.dayLow <= st.dayHigh
  {
    IntradayExtremes(cs);
    assert DayStatsOf(cs).dayLow <= cs[0].low;
  }

  /** The total volume adds up the volume series; when no volume is negative it is not negative, and it is zero only when no volume traded. */
  lemma IntradayVolume(cs: seq<Candle>)
    requires |cs| > 0 && cs[0].open != 0.0
    ensures var v := ProcessIntradayData(Some(cs)).value;
            v.stats.totalVolume == Sum(v.charts.volumeData)
    ensures var v := ProcessIntradayData(Some(cs)).value;
            (forall i :: 0 <= i < |cs| ==> cs[i].volume >= 0.0) ==>
              v.stats.totalVolume >= 0.0
              && (v.stats.totalVolume == 0.0 ==> forall i :: 0 <= i < |cs| ==> cs[i].volume == 0.0)
  {
    var vs := CandleVolumes(cs);
    if forall i :: 0 <= i < |cs| ==> cs[i].volume >= 0.0 {
      forall i | 0 <= i < |vs| ensures vs[i] >= 0.0 {
        assert vs[i] == cs[i].volume;
      }
      SumNonNegative(vs);
      forall i | 0 <= i < |cs| && Sum(vs) == 0.0 ensures cs[i].volume == 0.0 {
        assert vs[i] == cs[i].volume;
      }
    }
  }

  /** The price change and its percentage: the percentage times the first open is a hundred times the change, zero exactly when the day closed at its open, and positive exactly when it closed above a positive open. */
  lemma IntradayChange(cs: seq<Candle>)
    requires |cs| > 0 && cs[0].open != 0.0
    ensures var st := ProcessIntradayData(Some(cs)).value.stats;
            st.priceChange == cs[|cs| - 1].close - cs[0].open
            && st.priceChangePercent * cs[0].open == st.priceChange * 100.0
            && (st.priceChangePercent == 0.0 <==> cs[|cs| - 1].close == cs[0].open)
            && (cs[0].open > 0.0 ==> (st.priceChangePercent > 0.0 <==> cs[|cs| - 1].close > cs[0].open))
  {
    PercentChangeMeaning(cs[0].open, cs[|cs| - 1].close);
  }
}
