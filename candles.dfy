/**
 * The market-data entities shared by the three utility files: the raw
 * exchange candle, the enriched per-day record, and the day-number keys
 * that stand in for the source's `yyyy-MM-dd` strings.
 */
module Candles {

  /** Milliseconds in one day. */
  const MsPerDay: int := 86_400_000

  /** Largest magnitude of a valid JavaScript `Date` time value, in milliseconds. */
  const MaxTime: int := 8_640_000_000_000_000

  /** One OHLCV candle as the exchange delivers it, already parsed to numbers. */
  datatype Candle = Candle(
    openTime: int,
    open: real,
    high: real,
    low: real,
    close: real,
    volume: real,
    closeTime: int)

  /** One trading day of the calendar map: a candle plus two derived percentages. */
  datatype DayRecord = DayRecord(
    openTime: int,
    open: real,
    high: real,
    low: real,
    close: real,
    volume: real,
    priceChangePercent: real,
    volatility: real)

  /** `new Date(t)` is a valid date (its `getTime()` is not `NaN`). */
  predicate ValidTime(t: int)
  {
    -MaxTime <= t <= MaxTime
  }

  /** The calendar day of a time stamp, as a day number counted from 1970-01-01. */
  function DayKey(t: int): int
  {
    t / MsPerDay
  }

  /** The Sunday that starts the week of `day` (day 0, 1970-01-01, was a Thursday). */
  function WeekStart(day: int): (w: int)
    ensures w <= day < w + 7
    ensures (w + 4) % 7 == 0
  {
    day - (day + 4) % 7
  }

  /** A time stamp on an earlier day is an earlier time stamp. */
  lemma DayKeyOrder(t1: int, t2: int)
    ensures DayKey(t1) < DayKey(t2) ==> t1 < t2
  {
    var q1, q2 := t1 / MsPerDay, t2 / MsPerDay;
    assert q1 * MsPerDay <= t1 < q1 * MsPerDay + MsPerDay;
    assert q2 * MsPerDay <= t2 < q2 * MsPerDay + MsPerDay;
  }

  function OpenTimes(ds: seq<DayRecord>): (r: seq<int>)
    ensures |r| == |ds| && forall i {:trigger r[i]} :: 0 <= i < |ds| ==> r[i] == ds[i].openTime
  {
    if |ds| == 0 then [] else OpenTimes(ds[..|ds| - 1]) + [ds[|ds| - 1].openTime]
  }

  function Highs(ds: seq<DayRecord>): (r: seq<real>)
    ensures |r| == |ds| && forall i {:trigger r[i]} :: 0 <= i < |ds| ==> r[i] == ds[i].high
  {
    if |ds| == 0 then [] else Highs(ds[..|ds| - 1]) + [ds[|ds| - 1].high]
  }

  function Lows(ds: seq<DayRecord>): (r: seq<real>)
    ensures |r| == |ds| && forall i {:trigger r[i]} :: 0 <= i < |ds| ==> r[i] == ds[i].low
  {
    if |ds| == 0 then [] else Lows(ds[..|ds| - 1]) + [ds[|ds| - 1].low]
  }

  function Closes(ds: seq<DayRecord>): (r: seq<real>)
    ensures |r| == |ds| && forall i {:trigger r[i]} :: 0 <= i < |ds| ==> r[i] == ds[i].close
  {
    if |ds| == 0 then [] else Closes(ds[..|ds| - 1]) + [ds[|ds| - 1].close]
  }

  function Volumes(ds: seq<DayRecord>): (r: seq<real>)
    ensures |r| == |ds| && forall i {:trigger r[i]} :: 0 <= i < |ds| ==> r[i] == ds[i].volume
  {
    if |ds| == 0 then [] else Volumes(ds[..|ds| - 1]) + [ds[|ds| - 1].volume]
  }
}
