# Market Seasonality Explorer: the data utilities, modelled in Dafny

This project models the three utility modules of the Market Seasonality Explorer front end. Together they turn exchange candles into what the calendar, the dashboard and the one-day view display.

- **dataTransformer.js**, modelled in `data_transformer.dfy`, has two operations:
  - `transformDataForCalendar` builds the date-keyed daily map. Each record gets its day's price change and volatility, both in percent of the open.
  - `createWeeklyDataMap` folds the daily records into Sunday-start weeks. Each week keeps its high, low, volume, open, close and performance.
- **dashboardUtils.js**, modelled in `dashboard_utils.dfy`, has the 20/50-day moving average, the 20-day dispersion and Wilder's 14-day RSI. It also has `calculateDashboardMetrics`, which selects the days of a date range from the daily map. It returns their chart series (labels, closes, volumes, 20/50-day moving averages) and their summary statistics. The moving-average series use the corrected windows, which end with each point's own day. The code as written slices one day short; that version is modelled separately (see Findings).
- **dailyViewUtils.js**, modelled in `daily_view_utils.dfy`, has `processIntradayData`. It turns one day's hourly candles into hour-labelled chart series and the day's high, low, volume and price change.

The shared entities live in separate files:
- `candles.dfy` holds the candle, the daily record, day numbers and week starts, and the column extractors.
- `series.dfy` holds sums, extremes and percentage changes.
- `wrappers.dfy` holds `Option`, which stands for the source's `null`.

Code that changes state step by step is modelled with methods and loop invariants:
- the `forEach` that fills the daily map;
- the two loops of the weekly rollup;
- the two loops of `calculateRSI`.

Each of these methods is proved against a specification function, and the properties are proved about that function. The rest is modelled as functions and lemmas.

Days are day numbers: `openTime / 86400000`, counted from 1970-01-01. A week is keyed by the day number of its Sunday.

## Model

| member | source | states |
|---|---|---|
| DataTransformer.Normalize | Frontend/market-seasonality-explorer/src/utils/dataTransformer.js:14-32 | The stored record copies the candle's six fields. Its change percentage times the open is a hundred times close minus open. Its volatility times the open is a hundred times high minus low. |
| DataTransformer.NormalizeSigns | Frontend/market-seasonality-explorer/src/utils/dataTransformer.js:17-18 | With a positive open, the change percentage is positive exactly when the close is above the open, and zero exactly when they are equal. The volatility is non-negative when low ≤ high. |
| DataTransformer.TransformDataForCalendar | Frontend/market-seasonality-explorer/src/utils/dataTransformer.js:8-35 | A non-array argument gives the empty map. Otherwise the loop's result is the map built by storing each candle under its day, in input order. |
| DataTransformer.DailyMapKeys | Frontend/market-seasonality-explorer/src/utils/dataTransformer.js:20-23 | A day is a key exactly when some candle falls on that day. |
| DataTransformer.DailyMapLastWins | Frontend/market-seasonality-explorer/src/utils/dataTransformer.js:12-33 | A day's entry is the record of the last candle on that day: later candles overwrite earlier ones. |
| DataTransformer.DailyMapShape | Frontend/market-seasonality-explorer/src/utils/dataTransformer.js:8-35 | Every entry is stored under its own day. There are no more entries than candles, and every stored open is non-zero. |
| Candles.WeekStart | Frontend/market-seasonality-explorer/src/utils/dataTransformer.js:48 | A week starts on the Sunday on or before the day, at most six days earlier. |
| DataTransformer.SortByOpenTimeCorrect | Frontend/market-seasonality-explorer/src/utils/dataTransformer.js:71 | Sorting the week's days gives ascending start times and a permutation of the days. |
| DataTransformer.SortedEnds | Frontend/market-seasonality-explorer/src/utils/dataTransformer.js:71-74 | The sorted list has the same length. Its first and last elements are days of the week with the least and the greatest start time. |
| DataTransformer.FoldBucketClosedForm | Frontend/market-seasonality-explorer/src/utils/dataTransformer.js:51-66 | Folding a week's days into a new bucket gives these values: high is max(0, greatest high), low is the least low, volume is the sum of volumes, and the member list is the days in order. |
| DataTransformer.FoldStep | Frontend/market-seasonality-explorer/src/utils/dataTransformer.js:44-67 | One iteration of the first loop preserves this invariant: a week has a bucket exactly when it has member days, and that bucket is the fold of those days. |
| DataTransformer.FoldDays | Frontend/market-seasonality-explorer/src/utils/dataTransformer.js:42-67 | The first loop ends with every week that has a member holding the fold of its members, and with no other week. |
| DataTransformer.FinalizeWeeks | Frontend/market-seasonality-explorer/src/utils/dataTransformer.js:69-82 | The second loop keeps the set of weeks and finalises every bucket. |
| DataTransformer.CreateWeeklyDataMap | Frontend/market-seasonality-explorer/src/utils/dataTransformer.js:41-85 | A week is a key exactly when one of the days falls in it. Its value is the summary of exactly those days. There are no more weeks than days. |
| DataTransformer.MembersExactly | Frontend/market-seasonality-explorer/src/utils/dataTransformer.js:44-66 | A record is among a week's members exactly when it is an input day with a valid date in that week. |
| DataTransformer.DayInExactlyOneWeek | Frontend/market-seasonality-explorer/src/utils/dataTransformer.js:45-49 | Each day with a valid date is in exactly one week, its own, and an invalid day is in none. |
| DataTransformer.WeekKeysMembers | Frontend/market-seasonality-explorer/src/utils/dataTransformer.js:48-60 | A week has a key exactly when it has members. |
| DataTransformer.WeekKeysCount | Frontend/market-seasonality-explorer/src/utils/dataTransformer.js:44-60 | There are no more weeks than days. |
| DataTransformer.WeekAggregates | Frontend/market-seasonality-explorer/src/utils/dataTransformer.js:52-65 | The week's high is ≥ 0 and ≥ every member's high, and it is either 0 or some member's high. Its low is ≤ every member's low and is some member's low. Its volume is the sum of the volumes. It runs from its Sunday to the Saturday six days later. |
| DataTransformer.WeekHighAttained | Frontend/market-seasonality-explorer/src/utils/dataTransformer.js:55-63 | When no member's high is negative, the week's high is some member's high. |
| DataTransformer.WeekOpenClose | Frontend/market-seasonality-explorer/src/utils/dataTransformer.js:70-78 | The week opens at the open of its earliest member and closes at the close of its latest member. The performance times the open is a hundred times the change. |
| DashboardUtils.CalculateMA | Frontend/market-seasonality-explorer/src/utils/dashboardUtils.js:6-10 | There is no average exactly when there are fewer days than the period. |
| DashboardUtils.MABounds | Frontend/market-seasonality-explorer/src/utils/dashboardUtils.js:8-9 | The average lies between the lowest and the highest of the last `period` closes. |
| DashboardUtils.MAConstant | Frontend/market-seasonality-explorer/src/utils/dashboardUtils.js:8-9 | When every close of the window is `c`, the average is `c`. |
| DashboardUtils.MAShift | Frontend/market-seasonality-explorer/src/utils/dashboardUtils.js:8-9 | Moving the window on by one day leaves the average unchanged exactly when the entering close equals the leaving close. |
| DashboardUtils.CalculateVariance | Frontend/market-seasonality-explorer/src/utils/dashboardUtils.js:11-17 | There is no result exactly when there are fewer days than the period, and the result is never negative. |
| DashboardUtils.VarianceZeroIff | Frontend/market-seasonality-explorer/src/utils/dashboardUtils.js:13-15 | The dispersion is zero exactly when every close of the window is the same. |
| DashboardUtils.FlatVarianceZero | Frontend/market-seasonality-explorer/src/utils/dashboardUtils.js:13-15 | A window of equal closes has zero dispersion. |
| DashboardUtils.VarianceZeroFlat | Frontend/market-seasonality-explorer/src/utils/dashboardUtils.js:13-15 | A window with zero dispersion has equal closes. |
| DashboardUtils.CalculateRSI | Frontend/market-seasonality-explorer/src/utils/dashboardUtils.js:18-39 | There is no RSI exactly when there are no more days than the period. Otherwise the RSI is Wilder's: averages seeded with the plain means of the first `period` gains and losses, smoothed with each later change, then converted. |
| DashboardUtils.SeedAverages | Frontend/market-seasonality-explorer/src/utils/dashboardUtils.js:20-25 | The first loop gives the mean gain and mean loss of the changes into days 1..period. A zero change counts as a gain. |
| DashboardUtils.SmoothAverages | Frontend/market-seasonality-explorer/src/utils/dashboardUtils.js:26-35 | The second loop gives the averages smoothed through the last day. |
| DashboardUtils.SmoothingStep | Frontend/market-seasonality-explorer/src/utils/dashboardUtils.js:27-34 | One smoothing step weighs the old average by `period - 1` and the new gain or loss by 1. |
| DashboardUtils.RsiRange | Frontend/market-seasonality-explorer/src/utils/dashboardUtils.js:36-38 | The RSI lies in [0, 100]. It is 100 exactly when the final average loss is zero. |
| DashboardUtils.RsiNoFall | Frontend/market-seasonality-explorer/src/utils/dashboardUtils.js:23-36 | A series that never falls has an RSI of 100. A flat series is included, because a zero change counts as a gain. |
| DashboardUtils.RsiHundredIff | Frontend/market-seasonality-explorer/src/utils/dashboardUtils.js:18-39 | With a period of at least 2, the RSI is 100 exactly when the series never falls. |
| DashboardUtils.RsiAllFalls | Frontend/market-seasonality-explorer/src/utils/dashboardUtils.js:18-39 | A strictly falling series has an RSI of 0. |
| DashboardUtils.PresentEmpty | Frontend/market-seasonality-explorer/src/utils/dashboardUtils.js:45-49 | The range selects nothing exactly when none of its days has data. |
| DashboardUtils.PresentSound | Frontend/market-seasonality-explorer/src/utils/dashboardUtils.js:45-47 | Every selected record is the map's entry for a day in the range, and the selected days ascend. |
| DashboardUtils.PresentComplete | Frontend/market-seasonality-explorer/src/utils/dashboardUtils.js:45-47 | Every entry for a day in the range is selected. |
| DashboardUtils.HistoryExactly | Frontend/market-seasonality-explorer/src/utils/dashboardUtils.js:51 | `allHistoricalData` ascends strictly by start time. It holds exactly the map's values. |
| DashboardUtils.FindIndex | Frontend/market-seasonality-explorer/src/utils/dashboardUtils.js:52 | The result is -1 or a position whose start time is the one sought. |
| DashboardUtils.FindIndexFirst | Frontend/market-seasonality-explorer/src/utils/dashboardUtils.js:52 | The position found is the first match. The result is -1 exactly when nothing matches. |
| DashboardUtils.FindIndexOf | Frontend/market-seasonality-explorer/src/utils/dashboardUtils.js:52 | When start times are distinct, looking up an element's start time finds that element. |
| DashboardUtils.EndIndex | Frontend/market-seasonality-explorer/src/utils/dashboardUtils.js:51-52 | `endIndex` is a position of the history with at least `periodData.length - 1` positions before it. |
| DashboardUtils.IndicatorWindow | Frontend/market-seasonality-explorer/src/utils/dashboardUtils.js:51-53 | `dataForIndicators` is the history through the range's last day with data. |
| DashboardUtils.CalculateDashboardMetrics | Frontend/market-seasonality-explorer/src/utils/dashboardUtils.js:42-94 | There is no result exactly when a date is missing, the map is empty, or no day of the range has data. Otherwise the result is the range's charts and statistics, about which `DashboardCharts` and `DashboardStats` state the details. Its `ma20Data`/`ma50Data` use the corrected windows of the Finding, not the as-written slices of lines 61 and 65. |
| DashboardUtils.DashboardCharts | Frontend/market-seasonality-explorer/src/utils/dashboardUtils.js:55-67 | The chart series have one entry per selected day: its label, close and volume. Day `i`'s 20- and 50-day averages are taken over the history through day `i` (corrected window, see Findings). |
| DashboardUtils.ChartsEndOnSummary | Frontend/market-seasonality-explorer/src/utils/dashboardUtils.js:60-90 | The last points of the moving-average charts are the summary's `ma20` and `ma50`. |
| DashboardUtils.PeriodFiguresBounds | Frontend/market-seasonality-explorer/src/utils/dashboardUtils.js:69-87 | `periodHigh` and `periodLow` bound every day's high and low, and each is reached on some day. `totalVolume` is the sum of the volumes. The price change runs from the first open to the last close. The average volatility lies between the least and the greatest daily volatility. |
| DashboardUtils.DashboardStats | Frontend/market-seasonality-explorer/src/utils/dashboardUtils.js:81-92 | The statistics are the figures of the selected days. The dispersion, `ma20`, `ma50` and RSI are taken over the history through the last selected day. |
| DashboardUtils.MaDataAsWritten | Frontend/market-seasonality-explorer/src/utils/dashboardUtils.js:60-67 | `ma20Data` (period 20) and `ma50Data` (period 50), sliced as the code slices them, have one entry per selected day. |
| DashboardUtils.MaAsWrittenLags | Frontend/market-seasonality-explorer/src/utils/dashboardUtils.js:60-67 | As written, day `i`'s average, for either period, covers only the history before day `i`. |
| DashboardUtils.AsWrittenChartMissesSummary | Frontend/market-seasonality-explorer/src/utils/dashboardUtils.js:60-91 | On a daily map of days 0..20, closing at 0 except day 20 at 1, take the range of day 20 alone. The as-written `ma20Data` point is 0, the summary's `ma20` is not, and the corrected chart point equals the summary's `ma20`. |
| DashboardUtils.LaggedAverageDiffers | Frontend/market-seasonality-explorer/src/utils/dashboardUtils.js:60-63 | Take 21 days closing at 0 except the last, which closes at 1. The lagged window's average is 0 and the average through the last day is not. |
| Series.PercentChangeMeaning | Frontend/market-seasonality-explorer/src/utils/dashboardUtils.js:86 | The percentage times the base is a hundred times the change. It is zero exactly when nothing changed. It is positive exactly when the change has the sign of the base. |
| DailyViewUtils.HourOfDay | Frontend/market-seasonality-explorer/src/utils/dailyViewUtils.js:14 | The hour is between 0 and 23. |
| DailyViewUtils.HourOfDayPlacesTime | Frontend/market-seasonality-explorer/src/utils/dailyViewUtils.js:14 | The time stamp lies inside that hour of its own day. |
| DailyViewUtils.Clock12 | Frontend/market-seasonality-explorer/src/utils/dailyViewUtils.js:14 | The twelve-hour value lies in 1..12 and agrees with the hour modulo 12. |
| DailyViewUtils.HourLabel | Frontend/market-seasonality-explorer/src/utils/dailyViewUtils.js:14 | The label is 3 or 4 characters long and ends in `AM` exactly for the hours before noon (`PM` otherwise). |
| DailyViewUtils.NumeralInjective | Frontend/market-seasonality-explorer/src/utils/dailyViewUtils.js:14 | Different clock values get different numerals. |
| DailyViewUtils.HourLabelInjective | Frontend/market-seasonality-explorer/src/utils/dailyViewUtils.js:14 | Different hours of the day get different labels. |
| DailyViewUtils.ProcessIntradayData | Frontend/market-seasonality-explorer/src/utils/dailyViewUtils.js:8-42 | There is no result exactly when the data are missing or empty. |
| DailyViewUtils.IntradayCharts | Frontend/market-seasonality-explorer/src/utils/dailyViewUtils.js:13-16 | The three series have one entry per candle: its hour label, close and volume. |
| DailyViewUtils.IntradayExtremes | Frontend/market-seasonality-explorer/src/utils/dailyViewUtils.js:19-20 | `dayHigh` and `dayLow` bound every candle's high and low, and each is reached by some candle. |
| DailyViewUtils.IntradayLowBelowHigh | Frontend/market-seasonality-explorer/src/utils/dailyViewUtils.js:19-20 | When every candle's low is ≤ its high, `dayLow` ≤ `dayHigh`. |
| DailyViewUtils.IntradayVolume | Frontend/market-seasonality-explorer/src/utils/dailyViewUtils.js:16-21 | `totalVolume` is the sum of the volume series for every non-empty input. When no volume is negative, it is not negative and it is zero only when nothing traded. |
| DailyViewUtils.IntradayChange | Frontend/market-seasonality-explorer/src/utils/dailyViewUtils.js:22-25 | The price change runs from the first open to the last close. The percentage times the open is a hundred times the change. The percentage is zero exactly when the day closed at its open, and, for a positive open, positive exactly when it closed above it. |

## Left out

- React components, the exchange API, `async` and the `header` string of the dashboard are not part of this model.
- Calendar keys use `openTime / 86400000`, the UTC day number, instead of date-fns local-time `yyyy-MM-dd` strings. Week starts are the UTC Sunday. Time zones are not modelled.
- The dashboard's `'MMM d'` labels are the day's `openTime`, because date formatting is not modelled.
- The intraday `'ha'` labels are computed from the UTC hour.
- `parseFloat`: candle fields arrive as numbers.
- Floating point is modelled as exact reals, with no rounding, `NaN` or `Infinity`.
- Divisions by an open price require it to be non-zero, because the source would produce `Infinity` or `NaN` there. The predicates that require it are `Storable`, `NonZeroOpens`, `RangeOpens` and `OpensAtNonZero`.
- DataTransformer.TransformDataForCalendar: requires every candle to have a valid date, because formatting an invalid date throws.
- DataTransformer.CreateWeeklyDataMap: receives the daily map's values as a sequence in iteration order. A `null` map, on which the source throws, is not modelled.
- DataTransformer.CreateWeeklyDataMap: the in-place `sort` and `delete dataPoints` are modelled as building a new summary from a sorted copy.
- DataTransformer.FinalizeWeeks: the `dataPoints.length > 0` guard is the precondition `Finalizable`. The first loop always leaves every bucket with at least one member.
- DashboardUtils.CalculateVariance: returns the variance, the square of `calculateStdDev`'s result, because `Math.sqrt` has no closed form over Dafny's reals. Its zero cases and sign are those of the standard deviation.
- DashboardUtils.CalculateRSI: takes the period explicitly instead of defaulting it to 14. DashboardUtils.RsiHundredIff: needs a period of at least 2. With a period of 1 the smoothing forgets all earlier losses.
- DashboardUtils.CalculateDashboardMetrics: dates are day numbers. It requires `startDate ≤ endDate`, because a reversed interval is not a valid input to `eachDayOfInterval`.
- DashboardUtils.CalculateDashboardMetrics: a `null` map is not modelled; an empty map is.
- DashboardUtils.History: sorting the map's values by `openTime` is modelled as listing them in day order. For a map keyed by each record's own day this is the same order, with no ties (`HistoryExactly`).
- The `stats` object is grouped into the period figures and the indicators. Its field values are unchanged except `stdDev`: the model's `variance` field is its square (see the `DashboardUtils.CalculateVariance` line above).
- The `|| 0` fallback of `avgVolatility` is not modelled. With at least one day and exact reals it changes nothing.
- `RangeCharts` and `RangeStats` recompute `periodData` and `endIndex` separately. The values are the same as the source's shared locals.

## Findings

| source | as written | input that shows it | evidently intended | confidence | as-written member | corrected member |
|---|---|---|---|---|---|---|
| Frontend/market-seasonality-explorer/src/utils/dashboardUtils.js:60-67 | `ma20Data`/`ma50Data` slice `allHistoricalData` up to `endIndex - periodData.length + index + 1`, which leaves out day `index` itself. The chart point of the range's last day therefore differs from the summary's `ma20`, which uses `slice(0, endIndex + 1)`. | 21 consecutive days closing at 0 except the last, which closes at 1. The last chart point averages days 0..19 and gives 0. The summary's `ma20` averages days 1..20 and gives 0.05. | Slice up to `endIndex - periodData.length + index + 2`, so that each point's window ends with its own day | medium, not executed | DashboardUtils.MaAsWrittenLags, DashboardUtils.AsWrittenChartMissesSummary, DashboardUtils.LaggedAverageDiffers | DashboardUtils.DashboardCharts, DashboardUtils.ChartsEndOnSummary |
