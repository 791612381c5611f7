/**
 * The calendar's data preparation (src/utils/dataTransformer.js): the
 * date-keyed daily map with derived percentages, and the Sunday-start
 * weekly rollup built from it.
 */
module DataTransformer {
  import opened Wrappers
  import opened Series
  import opened Candles

  // ---------------------------------------------------------------------
  // Daily map (transformDataForCalendar)
  // ---------------------------------------------------------------------

  /** The record stored for one candle: its six OHLCV fields plus the day's change and range, both in percent of the open. */
  function Normalize(c: Candle): (r: DayRecord)
    requires c.open != 0.0
    ensures r.openTime == c.openTime && r.open == c.open && r.high == c.high
    ensures r.low == c.low && r.close == c.close && r.volume == c.volume
    ensures r.priceChangePercent * c.open == (c.close - c.open) * 100.0
    ensures r.volatility * c.open == (c.high - c.low) * 100.0
  {
    DayRecord(c.openTime, c.open, c.high, c.low, c.close, c.volume,
              (c.close - c.open) / c.open * 100.0,
              (c.high - c.low) / c.open * 100.0)
  }

  /** On a positive open, the change is positive exactly on an up day and the range is never negative. */
  lemma NormalizeSigns(c: Candle)
    requires c.open > 0.0
    ensures Normalize(c).priceChangePercent > 0.0 <==> c.close > c.open
    ensures Normalize(c).priceChangePercent == 0.0 <==> c.close == c.open
    ensures c.low <= c.high ==> Normalize(c).volatility >= 0.0
  {
    QuotientSign(c.close - c.open, c.open);
    QuotientSign(c.high - c.low, c.open);
  }

  /** Every candle may be stored: a non-zero open (the source divides by it) and a valid date. */
  predicate Storable(cs: seq<Candle>)
  {
    forall i :: 0 <= i < |cs| ==> cs[i].open != 0.0 && ValidTime(cs[i].openTime)
  }

  /** The map the `forEach` loop leaves after `cs`: each candle in turn is stored under its day, replacing what was there. */
  function DailyMap(cs: seq<Candle>): map<int, DayRecord>
    requires Storable(cs)
  {
    if |cs| == 0 then map[]
    else
      var last := cs[|cs| - 1];
      DailyMap(cs[..|cs| - 1])[DayKey(last.openTime) := Normalize(last)]
  }

  /**
   * transformDataForCalendar: `None` stands for an argument that is not an
   * array. The loop sets one entry per candle, in input order.
   */
  method TransformDataForCalendar(klineData: Option<seq<Candle>>) returns (dataMap: map<int, DayRecord>)
    requires klineData.Some? ==> Storable(klineData.value)
    ensures klineData.None? ==> dataMap == map[]
    ensures klineData.Some? ==> dataMap == DailyMap(klineData.value)
  {
    dataMap := map[];
    if klineData.None? {
      return;
    }
    var cs := klineData.value;
    var i := 0;
    while i < |cs|
      invariant 0 <= i <= |cs|
      invariant dataMap == DailyMap(cs[..i])
    {
      var dayData := cs[i];
      assert cs[..i + 1][..i] == cs[..i];
      dataMap := dataMap[DayKey(dayData.openTime) := Normalize(dayData)];
      i := i + 1;
    }
    assert cs[..i] == cs;
  }

  /** The keys of the daily map are exactly the days of the input candles. */
  lemma {:induction false} DailyMapKeys(cs: seq<Candle>, k: int)
    requires Storable(cs)
    ensures k in DailyMap(cs) <==> exists i :: 0 <= i < |cs| && DayKey(cs[i].openTime) == k
  {
    if |cs| > 0 {
      var init := cs[..|cs| - 1];
      DailyMapKeys(init, k);
      if exists i :: 0 <= i < |init| && DayKey(init[i].openTime) == k {
        var i :| 0 <= i < |init| && DayKey(init[i].openTime) == k;
        assert cs[i] == init[i];
      }
      if exists i :: 0 <= i < |cs| && DayKey(cs[i].openTime) == k {
        var i :| 0 <= i < |cs| && DayKey(cs[i].openTime) == k;
        if i < |cs| - 1 {
          assert init[i] == cs[i];
        }
      }
    }
  }

  /** Last write wins: the entry of a day is the normalised form of the latest candle of that day. */
  lemma {:induction false} DailyMapLastWins(cs: seq<Candle>, i: int)
    requires Storable(cs)
    requires 0 <= i < |cs|
    requires forall j :: i < j < |cs| ==> DayKey(cs[j].openTime) != DayKey(cs[i].openTime)
    ensures DayKey(cs[i].openTime) in DailyMap(cs)
    ensures DailyMap(cs)[DayKey(cs[i].openTime)] == Normalize(cs[i])
  {
    if i < |cs| - 1 {
      var init := cs[..|cs| - 1];
      assert init[i] == cs[i];
      forall j | i < j < |init| ensures DayKey(init[j].openTime) != DayKey(init[i].openTime) {
        assert init[j] == cs[j];
      }
      DailyMapLastWins(init, i);
    }
  }

  /** Every entry is stored under the day of its own time stamp. */
  predicate WellKeyed(m: map<int, DayRecord>)
  {
    forall k :: k in m ==> DayKey(m[k].openTime) == k
  }

  /** The daily map is well keyed and has no more entries than there were candles. */
  lemma {:induction false} DailyMapShape(cs: seq<Candle>)
    requires Storable(cs)
    ensures WellKeyed(DailyMap(cs))
    ensures |DailyMap(cs)| <= |cs|
    ensures forall k :: k in DailyMap(cs) ==> DailyMap(cs)[k].open != 0.0
  {
    if |cs| > 0 {
      var init := cs[..|cs| - 1];
      DailyMapShape(init);
      var k := DayKey(cs[|cs| - 1].openTime);
      assert DailyMap(cs).Keys == DailyMap(init).Keys + {k};
    }
  }

  // ---------------------------------------------------------------------
  // Sorting a week's members (dataPoints.sort by openTime)
  // ---------------------------------------------------------------------

  predicate SortedByOpenTime(s: seq<DayRecord>)
  {
    forall i, j :: 0 <= i < j < |s| ==> s[i].openTime <= s[j].openTime
  }

  /** Inserts `d` into sorted `s` after every element that does not start later than it, which keeps the sort stable. */
  function Insert(d: DayRecord, s: seq<DayRecord>): seq<DayRecord>
  {
    if |s| == 0 then [d]
    else if d.openTime < s[0].openTime then [d] + s
    else [s[0]] + Insert(d, s[1..])
  }

  /** Insertion sort of a week's members by start time. */
  function SortByOpenTime(s: seq<DayRecord>): seq<DayRecord>
  {
    if |s| == 0 then [] else Insert(s[|s| - 1], SortByOpenTime(s[..|s| - 1]))
  }

  /** Insertion keeps a list sorted and adds exactly the inserted day. */
  lemma {:induction false} InsertSorted(d: DayRecord, s: seq<DayRecord>)
    requires SortedByOpenTime(s)
    ensures SortedByOpenTime(Insert(d, s))
    ensures multiset(Insert(d, s)) == multiset(s) + multiset{d}
  {
    if |s| > 0 && s[0].openTime <= d.openTime {
      InsertSorted(d, s[1..]);
      InsertHead(d, s, Insert(d, s[1..]));
    }
  }

  lemma InsertHead(d: DayRecord, s: seq<DayRecord>, rest: seq<DayRecord>)
    requires |s| > 0 && SortedByOpenTime(s) && s[0].openTime <= d.openTime
    requires SortedByOpenTime(rest) && multiset(rest) == multiset(s[1..]) + multiset{d}
    ensures SortedByOpenTime([s[0]] + rest)
    ensures multiset([s[0]] + rest) == multiset(s) + multiset{d}
  {
    assert s == [s[0]] + s[1..];
    forall j | 0 <= j < |rest| ensures s[0].openTime <= rest[j].openTime {
      assert rest[j] in multiset(rest);
      if rest[j] != d {
        assert rest[j] in multiset(s[1..]);
        var p :| 0 <= p < |s[1..]| && s[1..][p] == rest[j];
        assert s[p + 1] == rest[j];
      }
    }
  }

  /** The sort orders the members by start time and is a permutation of them. */
  lemma {:induction false} SortByOpenTimeCorrect(s: seq<DayRecord>)
    ensures SortedByOpenTime(SortByOpenTime(s))
    ensures multiset(SortByOpenTime(s)) == multiset(s)
  {
    if |s| > 0 {
      var init := s[..|s| - 1];
      SortByOpenTimeCorrect(init);
      InsertSorted(s[|s| - 1], SortByOpenTime(init));
      assert s == init + [s[|s| - 1]];
    }
  }

  /** The first element of the sorted members starts no later, and the last no earlier, than any member. */
  lemma SortedEnds(s: seq<DayRecord>)
    requires |s| > 0
    ensures |SortByOpenTime(s)| == |s|
    ensures SortByOpenTime(s)[0] in s && SortByOpenTime(s)[|s| - 1] in s
    ensures forall j :: 0 <= j < |s| ==>
      SortByOpenTime(s)[0].openTime <= s[j].openTime <= SortByOpenTime(s)[|s| - 1].openTime
  {
    SortByOpenTimeCorrect(s);
    var r := SortByOpenTime(s);
    assert |r| == |multiset(r)| == |s|;
    assert r[0] in multiset(s) && r[|r| - 1] in multiset(s);
    forall j | 0 <= j < |s| ensures r[0].openTime <= s[j].openTime <= r[|r| - 1].openTime {
      assert s[j] in multiset(r);
      var p :| 0 <= p < |r| && r[p] == s[j];
    }
  }

  // ---------------------------------------------------------------------
  // Weekly rollup (createWeeklyDataMap)
  // ---------------------------------------------------------------------

  /** The `Infinity` that a new week's `low` starts from, or a real low. */
  datatype Low = Infinity | Finite(value: real)

  /** A week bucket while days are folded into it; `dataPoints` is scratch state. */
  datatype Bucket = Bucket(
    startDate: int,
    endDate: int,
    high: real,
    low: Low,
    volume: real,
    dataPoints: seq<DayRecord>)

  /** A finalised week: the bucket without its scratch member list, plus open, close and performance. */
  datatype WeekSummary = WeekSummary(
    startDate: int,
    endDate: int,
    high: real,
    low: real,
    volume: real,
    open: real,
    close: real,
    performance: real)

  /** The week key of a day: the day number of the Sunday that starts its week. */
  function WeekKey(d: DayRecord): int
  {
    WeekStart(DayKey(d.openTime))
  }

  /** A week bucket as first created: the week runs Sunday to Saturday, `high` starts at 0 and `low` at `Infinity`. */
  function NewBucket(w: int): Bucket
  {
    Bucket(w, w + 6, 0.0, Infinity, 0.0, [])
  }

  /** `Math.min(low, x)`. */
  function MinLow(low: Low, x: real): Low
  {
    match low
    case Infinity => Finite(x)
    case Finite(v) => Finite(Min(v, x))
  }

  /** Folds one day into its bucket: running high, low and volume, and the member list. */
  function Merge(b: Bucket, d: DayRecord): Bucket
  {
    b.(high := Max(b.high, d.high), low := MinLow(b.low, d.low),
       volume := b.volume + d.volume, dataPoints := b.dataPoints + [d])
  }

  /** The bucket of week `w` after folding `ms` into a new bucket, one day at a time. */
  function FoldBucket(w: int, ms: seq<DayRecord>): Bucket
  {
    if |ms| == 0 then NewBucket(w) else Merge(FoldBucket(w, ms[..|ms| - 1]), ms[|ms| - 1])
  }

  /** The bucket of week `w` with non-empty members `ms`, stated without the fold. */
  function BucketOf(w: int, ms: seq<DayRecord>): Bucket
    requires |ms| > 0
  {
    Bucket(w, w + 6, Max(0.0, MaxOf(Highs(ms))), Finite(MinOf(Lows(ms))), Sum(Volumes(ms)), ms)
  }

  /** Folding a non-empty member list gives the closed form: high is `max(0, highs)`, low the least low, volume the sum. */
  lemma {:induction false} FoldBucketClosedForm(w: int, ms: seq<DayRecord>)
    requires |ms| > 0
    ensures FoldBucket(w, ms) == BucketOf(w, ms)
  {
    var init, d := ms[..|ms| - 1], ms[|ms| - 1];
    assert ms == init + [d];
    if |init| == 0 {
      assert FoldBucket(w, ms) == Merge(NewBucket(w), d);
      MergeNewBucket(w, d);
    } else {
      FoldBucketClosedForm(w, init);
      assert FoldBucket(w, ms) == Merge(BucketOf(w, init), d);
      MergeBucketOf(w, init, d);
    }
  }

  /** Folding a day into a new bucket gives the bucket of that day alone. */
  lemma MergeNewBucket(w: int, d: DayRecord)
    ensures Merge(NewBucket(w), d) == BucketOf(w, [d])
  {
    assert [d][..0] == [];
    assert Volumes([d]) == [d.volume] && Highs([d]) == [d.high] && Lows([d]) == [d.low];
    assert Sum([d.volume]) == 0.0 + d.volume;
    assert NewBucket(w).dataPoints + [d] == [d];
  }

  /** Folding one more day into a bucket gives the bucket of the longer member list. */
  lemma MergeBucketOf(w: int, ms: seq<DayRecord>, d: DayRecord)
    requires |ms| > 0
    ensures Merge(BucketOf(w, ms), d) == BucketOf(w, ms + [d])
  {
    var ms' := ms + [d];
    assert ms'[..|ms|] == ms;
    assert Highs(ms') == Highs(ms) + [d.high];
    assert Lows(ms') == Lows(ms) + [d.low];
    assert Volumes(ms') == Volumes(ms) + [d.volume];
    assert (Highs(ms) + [d.high])[..|ms|] == Highs(ms);
    assert (Lows(ms) + [d.low])[..|ms|] == Lows(ms);
    assert (Volumes(ms) + [d.volume])[..|ms|] == Volumes(ms);
  }

  /** The days of `days`, in order, that the fold puts in week `w`: those with a valid date whose week starts on `w`. */
  function Members(days: seq<DayRecord>, w: int): seq<DayRecord>
  {
    if |days| == 0 then []
    else
      var d := days[|days| - 1];
      Members(days[..|days| - 1], w) + (if ValidTime(d.openTime) && WeekKey(d) == w then [d] else [])
  }

  /** A day is a member of week `w` exactly when it is an input day with a valid date whose week starts on `w`. */
  lemma {:induction false} MembersExactly(days: seq<DayRecord>, w: int, d: DayRecord)
    ensures d in Members(days, w) <==> d in days && ValidTime(d.openTime) && WeekKey(d) == w
  {
    if |days| > 0 {
      var init := days[..|days| - 1];
      MembersExactly(init, w, d);
      assert days == init + [days[|days| - 1]];
    }
  }

  /** Every valid input day lies in exactly one week, the one keyed by its week start; an invalid day lies in none. */
  lemma DayInExactlyOneWeek(days: seq<DayRecord>, i: int, w: int)
    requires 0 <= i < |days|
    ensures days[i] in Members(days, w) <==> ValidTime(days[i].openTime) && w == WeekKey(days[i])
  {
    MembersExactly(days, w, days[i]);
  }

  /** Appending a day extends the members of its own week only. */
  lemma MembersAppend(prefix: seq<DayRecord>, d: DayRecord, w: int)
    ensures Members(prefix + [d], w)
      == Members(prefix, w) + (if ValidTime(d.openTime) && WeekKey(d) == w then [d] else [])
  {
    assert (prefix + [d])[..|prefix|] == prefix;
  }

  predicate NonZeroOpens(days: seq<DayRecord>)
  {
    forall i :: 0 <= i < |days| ==> days[i].open != 0.0
  }

  /** A bucket that finalisation accepts: it has members, a real low, and no member with a zero open. */
  predicate Finalizable(b: Bucket)
  {
    |b.dataPoints| > 0 && b.low.Finite? && NonZeroOpens(b.dataPoints)
  }

  /** Week finalisation: sort the members by start time, open from the first, close from the last, drop the member list. */
  function Finalize(b: Bucket): WeekSummary
    requires Finalizable(b)
  {
    var sorted := SortByOpenTime(b.dataPoints);
    SortedEnds(b.dataPoints);
    var open := sorted[0].open;
    var close := sorted[|sorted| - 1].close;
    WeekSummary(b.startDate, b.endDate, b.high, b.low.value, b.volume, open, close,
                (close - open) / open * 100.0)
  }

  /** The finalised summary of week `w` with members `ms`. */
  function Summarize(w: int, ms: seq<DayRecord>): WeekSummary
    requires |ms| > 0 && NonZeroOpens(ms)
  {
    Finalize(BucketOf(w, ms))
  }

  /** `acc` holds, for every week with members among `prefix`, the fold of those members, and nothing else. */
  ghost predicate Folded(acc: map<int, Bucket>, prefix: seq<DayRecord>)
  {
    forall w :: (w in acc <==> |Members(prefix, w)| > 0)
                && (w in acc ==> acc[w] == FoldBucket(w, Members(prefix, w)))
  }

  /** One iteration of the first loop keeps `Folded`. */
  lemma FoldStep(acc: map<int, Bucket>, days: seq<DayRecord>, i: int, acc': map<int, Bucket>)
    requires 0 <= i < |days| && Folded(acc, days[..i])
    requires acc' == if ValidTime(days[i].openTime)
                     then acc[WeekKey(days[i]) := Merge(if WeekKey(days[i]) in acc then acc[WeekKey(days[i])] else NewBucket(WeekKey(days[i])), days[i])]
                     else acc
    ensures Folded(acc', days[..i + 1])
  {
    var prefix, d := days[..i], days[i];
    assert days[..i + 1] == prefix + [d];
    forall w ensures (w in acc' <==> |Members(prefix + [d], w)| > 0)
                     && (w in acc' ==> acc'[w] == FoldBucket(w, Members(prefix + [d], w)))
    {
      FoldStepWeek(acc, prefix, d, acc', w);
    }
  }

  /** Folding day `d` into the map keeps the entry of week `w` equal to the fold of that week's members. */
  lemma FoldStepWeek(acc: map<int, Bucket>, prefix: seq<DayRecord>, d: DayRecord, acc': map<int, Bucket>, w: int)
    requires w in acc <==> |Members(prefix, w)| > 0
    requires w in acc ==> acc[w] == FoldBucket(w, Members(prefix, w))
    requires acc' == if ValidTime(d.openTime)
                     then acc[WeekKey(d) := Merge(if WeekKey(d) in acc then acc[WeekKey(d)] else NewBucket(WeekKey(d)), d)]
                     else acc
    ensures w in acc' <==> |Members(prefix + [d], w)| > 0
    ensures w in acc' ==> acc'[w] == FoldBucket(w, Members(prefix + [d], w))
  {
    MembersAppend(prefix, d, w);
    var ms := Members(prefix, w);
    if ValidTime(d.openTime) && w == WeekKey(d) {
      assert Members(prefix + [d], w) == ms + [d];
      FoldBucketSnoc(w, ms, d);
      if w in acc {
        assert acc'[w] == Merge(acc[w], d);
      } else {
        assert ms == [];
        assert acc'[w] == Merge(NewBucket(w), d);
      }
    } else {
      assert Members(prefix + [d], w) == ms;
    }
  }

  /** Folding one more day folds it into the bucket of the earlier days. */
  lemma FoldBucketSnoc(w: int, ms: seq<DayRecord>, d: DayRecord)
    ensures FoldBucket(w, ms + [d]) == Merge(FoldBucket(w, ms), d)
  {
    assert (ms + [d])[..|ms|] == ms;
  }

  /** The weeks of the valid days of `days`. */
  function WeekKeys(days: seq<DayRecord>): set<int>
  {
    if |days| == 0 then {}
    else
      var d := days[|days| - 1];
      WeekKeys(days[..|days| - 1]) + (if ValidTime(d.openTime) then {WeekKey(d)} else {})
  }

  /** A week has members exactly when it is the week of a valid day. */
  lemma {:induction false} WeekKeysMembers(days: seq<DayRecord>, w: int)
    ensures w in WeekKeys(days) <==> |Members(days, w)| > 0
  {
    if |days| > 0 {
      WeekKeysMembers(days[..|days| - 1], w);
    }
  }

  /** There are no more weeks than days. */
  lemma {:induction false} WeekKeysCount(days: seq<DayRecord>)
    ensures |WeekKeys(days)| <= |days|
  {
    if |days| > 0 {
      WeekKeysCount(days[..|days| - 1]);
    }
  }

  lemma MembersNonZeroOpens(days: seq<DayRecord>, w: int)
    requires NonZeroOpens(days)
    ensures NonZeroOpens(Members(days, w))
  {
    var ms := Members(days, w);
    forall i | 0 <= i < |ms| ensures ms[i].open != 0.0 {
      MembersExactly(days, w, ms[i]);
    }
  }

  /** After the first loop every bucket is the closed-form bucket of its members and can be finalised. */
  lemma FoldedReady(acc: map<int, Bucket>, days: seq<DayRecord>, w: int)
    requires Folded(acc, days) && NonZeroOpens(days) && w in acc
    ensures |Members(days, w)| > 0 && NonZeroOpens(Members(days, w))
    ensures acc[w] == BucketOf(w, Members(days, w)) && Finalizable(acc[w])
  {
    MembersNonZeroOpens(days, w);
    FoldBucketClosedForm(w, Members(days, w));
  }

  /**
   * createWeeklyDataMap over the values of the daily map, in the map's
   * iteration order: fold every valid day into the bucket of its week, then
   * finalise every bucket.
   */
  method CreateWeeklyDataMap(days: seq<DayRecord>) returns (weeklyMap: map<int, WeekSummary>)
    requires NonZeroOpens(days)
    ensures forall w :: w in weeklyMap <==> |Members(days, w)| > 0
    ensures forall w :: w in weeklyMap ==>
      |Members(days, w)| > 0 && NonZeroOpens(Members(days, w)) && weeklyMap[w] == Summarize(w, Members(days, w))
    ensures |weeklyMap| <= |days|
  {
    var acc := FoldDays(days);
    forall w | w in acc ensures Finalizable(acc[w]) {
      FoldedReady(acc, days, w);
    }
    weeklyMap := FinalizeWeeks(acc);
    forall w | w in weeklyMap
      ensures |Members(days, w)| > 0 && NonZeroOpens(Members(days, w)) && weeklyMap[w] == Summarize(w, Members(days, w))
    {
      FoldedReady(acc, days, w);
    }
    forall w ensures w in acc <==> w in WeekKeys(days) {
      WeekKeysMembers(days, w);
    }
    WeekKeysCount(days);
    assert weeklyMap.Keys == WeekKeys(days);
  }

  /** The first loop of createWeeklyDataMap: running high, low, volume and member list per week. */
  method FoldDays(days: seq<DayRecord>) returns (acc: map<int, Bucket>)
    ensures Folded(acc, days)
  {
    acc := map[];
    var i := 0;
    while i < |days|
      invariant 0 <= i <= |days|
      invariant Folded(acc, days[..i])
    {
      var dayData := days[i];
      ghost var before := acc;
      if ValidTime(dayData.openTime) {
        var weekKey := WeekKey(dayData);
        var weekSummary := if weekKey in acc then acc[weekKey] else NewBucket(weekKey);
        acc := acc[weekKey := Merge(weekSummary, dayData)];
      }
      FoldStep(before, days, i, acc);
      i := i + 1;
    }
    assert days[..i] == days;
  }

  /** Some element of a non-empty set of week keys. */
  method Pick(s: set<int>) returns (w: int)
    requires s != {}
    ensures w in s
  {
    if forall x :: x !in s {
      assert false;
    }
    w :| w in s;
  }

  /** The second loop of createWeeklyDataMap: every bucket is finalised. */
  method FinalizeWeeks(acc: map<int, Bucket>) returns (weeklyMap: map<int, WeekSummary>)
    requires forall w :: w in acc ==> Finalizable(acc[w])
    ensures weeklyMap.Keys == acc.Keys
    ensures forall w :: w in weeklyMap ==> weeklyMap[w] == Finalize(acc[w])
  {
    weeklyMap := map[];
    var remaining := acc.Keys;
    while remaining != {}
      invariant remaining <= acc.Keys
      invariant weeklyMap.Keys == acc.Keys - remaining
      invariant forall w :: w in weeklyMap ==> weeklyMap[w] == Finalize(acc[w])
      decreases |remaining|
    {
      var w := Pick(remaining);
      weeklyMap := weeklyMap[w := Finalize(acc[w])];
      remaining := remaining - {w};
    }
  }

  /** A week's high is at least 0 and every member's high, and is either 0 or a member's high; its low is a member's lowest low; its volume is the members' total. */
  lemma WeekAggregates(w: int, ms: seq<DayRecord>)
    requires |ms| > 0 && NonZeroOpens(ms)
    ensures Summarize(w, ms).high >= 0.0
    ensures forall i :: 0 <= i < |ms| ==> ms[i].high <= Summarize(w, ms).high
    ensures Summarize(w, ms).high == 0.0 || exists i :: 0 <= i < |ms| && ms[i].high == Summarize(w, ms).high
    ensures forall i :: 0 <= i < |ms| ==> Summarize(w, ms).low <= ms[i].low
    ensures exists i :: 0 <= i < |ms| && ms[i].low == Summarize(w, ms).low
    ensures Summarize(w, ms).volume == Sum(Volumes(ms))
    ensures Summarize(w, ms).startDate == w && Summarize(w, ms).endDate == w + 6
  {
    var hs, ls := Highs(ms), Lows(ms);
    MaxOfIsMaximum(hs);
    MinOfIsMinimum(ls);
    var s := Summarize(w, ms);
    assert s.high == Max(0.0, MaxOf(hs)) && s.low == MinOf(ls);
    forall i | 0 <= i < |ms| ensures ms[i].high <= s.high && s.low <= ms[i].low {
      assert hs[i] == ms[i].high && ls[i] == ms[i].low;
    }
    var k :| 0 <= k < |hs| && hs[k] == MaxOf(hs);
    var j :| 0 <= j < |ls| && ls[j] == MinOf(ls);
    assert ms[j].low == s.low;
    assert s.high == 0.0 || ms[k].high == s.high;
  }

  /** With no negative highs the starting 0 is harmless: the week's high is some member's high. */
  lemma WeekHighAttained(w: int, ms: seq<DayRecord>)
    requires |ms| > 0 && NonZeroOpens(ms)
    requires forall i :: 0 <= i < |ms| ==> ms[i].high >= 0.0
    ensures exists i :: 0 <= i < |ms| && ms[i].high == Summarize(w, ms).high
  {
    var hs := Highs(ms);
    MaxOfIsMaximum(hs);
    var k :| 0 <= k < |hs| && hs[k] == MaxOf(hs);
    assert ms[k].high == Summarize(w, ms).high;
  }

  /** A week opens at its earliest member's open and closes at its latest member's close; performance is the change in percent of the open. */
  lemma WeekOpenClose(w: int, ms: seq<DayRecord>)
    requires |ms| > 0 && NonZeroOpens(ms)
    ensures exists i :: 0 <= i < |ms| && Summarize(w, ms).open == ms[i].open
                        && forall j :: 0 <= j < |ms| ==> ms[i].openTime <= ms[j].openTime
    ensures exists i :: 0 <= i < |ms| && Summarize(w, ms).close == ms[i].close
                        && forall j :: 0 <= j < |ms| ==> ms[j].openTime <= ms[i].openTime
    ensures Summarize(w, ms).performance * Summarize(w, ms).open
            == (Summarize(w, ms).close - Summarize(w, ms).open) * 100.0
  {
    SortedEnds(ms);
    var r := SortByOpenTime(ms);
    var s := Summarize(w, ms);
    assert s.open == r[0].open && s.close == r[|r| - 1].close;
    var i :| 0 <= i < |ms| && ms[i] == r[0];
    var k :| 0 <= k < |ms| && ms[k] == r[|r| - 1];
    assert s.open != 0.0;
    assert s.performance == (s.close - s.open) / s.open * 100.0;
  }
}
