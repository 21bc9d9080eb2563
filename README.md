# Tick-to-candle engine of charts-demo, in Dafny

This project models the candle engine behind the charts-demo trading chart.
Market ticks arrive in two ways: as scaled integer klines from the REST API,
or one at a time from a live feed. Ticks are merged into a live series, folded
into fixed-interval OHLCV candles, padded to a minimum window, and handed to
the chart component. The chart component keeps its own candle list and a
`lastCandleTime` cursor. A mock data source stands in for the API: a random
walk with an initial history and a capped real-time series.

Each source file is a Dafny module:

| module | file | form |
|---|---|---|
| `ChartTypes` | `chart_types.dfy` | `Tick`, `CandleData`, `ChartCandle` as datatypes; `Option`, `Result`; strict time order |
| `Formatters` | `formatters.dfy` | pure functions: exact scaling by 10000, positional kline decoding, candle projection |
| `ChartAggregator` | `chart_aggregator.dfy` | the bucket-map loop and the padding loop as methods, each proved against specification functions |
| `ChartData` | `chart_data.dfy` | the live-series hook as a class: the series, the append-only tick log, and the replay loop |
| `TradingChartUI` | `trading_chart_ui.dfy` | the chart component as a class with `chartData` and `lastCandleTime`, specified by pure step functions |
| `MockChartData` | `mock_chart_data.dfy` | the capped state update, the tick generator, and the mock hook as a class with the generation loop |

Modelling choices:
- decimal.js values are exact `real`s.
- Times, counts and raw wire integers are `int`s.
- Dafny's `/` with a positive divisor rounds down, like `Math.floor`.
- The clock (`Date.now()`) is a `nowMillis` parameter.
- Each `Math.random()` result is a parameter in [0, 1), grouped by the call that consumes it.
- The chart library's series `update()` calls are reduced to their outcome: a series was missing, an update threw, or all three succeeded.
- React effects and state reducers are each one atomic step.

Main results:
- Aggregation returns strictly ascending candles, one per bucket that some tick touches and no other. Each candle is the in-order reduction of its bucket's ticks: open from the first tick, close from the last, high the maximum, low the minimum, volume the exact sum. The postcondition determines the result uniquely.
- Padding is a no-op on a long enough series, and so is idempotent. Otherwise it prepends evenly spaced zero candles that end one interval before the anchor, and it preserves time order.
- The live series is always the replay of the whole tick log over the last loaded history. Replay preserves time order and only rewrites the last element of the history.
- The chart cursor advances only on a successful series update with a newer candle. A failed update leaves the cursor behind the list, and a retry of the same bucket then appends the candle a second time.
- The mock series stays within 601 ticks and stays ascending. Every generated tick is well formed: positive prices, high and low bracketing the body, 10 to 89 trades.

## Model

| member | source | states |
|---|---|---|
| ChartAggregator.BucketOf | src/lib/chart-aggregator.ts:28 | the bucket start is a multiple of the interval and is the largest one at or below the tick time (`b <= t < b + I`) |
| ChartAggregator.TicksIn | src/lib/chart-aggregator.ts:27-30 | the ticks selected for a bucket are no more than the input and all fall in that bucket |
| ChartAggregator.Open | src/lib/chart-aggregator.ts:32-41 | a new candle starts at the bucket time with the tick's open and close; a well-formed tick gives a well-formed candle |
| ChartAggregator.Absorb | src/lib/chart-aggregator.ts:42-51 | folding a tick in keeps the candle's time and open, takes the tick's close, the larger high and the smaller low, adds the volumes, and keeps a well-formed candle well formed |
| ChartAggregator.Reduce | src/lib/chart-aggregator.ts:32-52 | the candle of a bucket carries the bucket start as its time |
| ChartAggregator.ReduceOpenClose | src/lib/chart-aggregator.ts:34-51 | a candle's open is the first bucket tick's open and its close the last bucket tick's close, in input order |
| ChartAggregator.ReduceHighIsMax | src/lib/chart-aggregator.ts:37-47 | a candle's high bounds every bucket tick's high and equals one of them |
| ChartAggregator.ReduceLowIsMin | src/lib/chart-aggregator.ts:38-48 | a candle's low is at most every bucket tick's low and equals one of them |
| ChartAggregator.ReduceVolumeIsSum | src/lib/chart-aggregator.ts:40-50 | a candle's volume is the exact sum of its bucket's tick volumes, matching an independently defined sum |
| ChartAggregator.ReduceWellFormed | src/lib/chart-aggregator.ts:32-52 | the candle of well-formed ticks is well formed: its low and high bracket open and close, and its volume is non-negative |
| ChartAggregator.TicksInContains | src/lib/chart-aggregator.ts:27-35 | every input tick is selected into the bucket of its own time |
| ChartAggregator.InsertByTime | src/lib/chart-aggregator.ts:56 | inserting a candle with a fresh time into an ascending list keeps it ascending and adds exactly that candle |
| ChartAggregator.SortByTime | src/lib/chart-aggregator.ts:56 | sorting candles with distinct times yields an ascending permutation of them |
| ChartAggregator.CollectBuckets | src/lib/chart-aggregator.ts:24-53 | the map loop: the keys listed are distinct and are exactly the map's keys; a bucket is a key iff some tick falls in it, and its entry is the in-order reduction of that bucket's ticks |
| ChartAggregator.AggregateCandles | src/lib/chart-aggregator.ts:18-57 | no ticks give no candles; the result is strictly ascending; each candle's bucket holds at least one tick and the candle is that bucket's in-order reduction; every tick's bucket appears |
| ChartAggregator.AggregationAligned | src/lib/chart-aggregator.ts:28-41 | every aggregated candle's time is the bucket of some input tick, hence a multiple of the interval |
| ChartAggregator.AggregationUnique | src/lib/chart-aggregator.ts:18-57 | any two results satisfying the aggregation postcondition for the same ticks are equal, so re-aggregating gives the same candles |
| ChartAggregator.AscendingSameTimes | src/lib/chart-aggregator.ts:56 | two strictly ascending lists with the same set of times list those times in the same order |
| ChartAggregator.Padded | src/lib/chart-aggregator.ts:68-100 | a long enough series is returned as is; otherwise the result has exactly `minCount` candles and ends with the input |
| ChartAggregator.PadCandlesWithEmpty | src/lib/chart-aggregator.ts:63-101 | the padding loop produces the padded series: the input when long enough, else placeholders followed by the input |
| ChartAggregator.PaddedShape | src/lib/chart-aggregator.ts:72-100 | a padded series has at least `minCount` candles and ends with the input unchanged; the m added candles are all zero, at anchor − m·I, …, anchor − 1·I |
| ChartAggregator.PaddedIdempotent | src/lib/chart-aggregator.ts:68-70 | padding a padded series again with the same minimum returns it unchanged, whatever the clock reads |
| ChartAggregator.PaddedAscending | src/lib/chart-aggregator.ts:80-100 | padding an ascending series keeps it strictly ascending |
| Formatters.ScaleDown | src/utils/formatters.ts:4-12 | the decoded value times 10000 is exactly the raw integer, with the same sign |
| Formatters.ScaleDownExample | src/utils/formatters.ts:6-12 | 125430 decodes to 12.543 |
| Formatters.MillisToSeconds | src/utils/formatters.ts:84 | seconds are the floor of milliseconds / 1000 |
| Formatters.ParseKline | src/utils/formatters.ts:76-93 | a record of at least 8 slots decodes positionally (0 high, 1 low, 2 open, 3 close, 4 mark, 5 volume scaled by 10000; 6 trades unscaled; 7 milliseconds floored to seconds); a shorter one is rejected with the first missing index |
| Formatters.ParseKlineExample | src/utils/formatters.ts:79-92 | a concrete kline decodes to prices 15.0/14.0/14.5/14.8, volume 2.0, 5 trades, time 1700000000 |
| Formatters.CandleToChart | src/utils/formatters.ts:25-34 | the projection keeps the time and converts each of the five Decimal fields with the given conversion; an order-preserving conversion keeps a well-formed candle's low and high around its open and close |
| Formatters.CandlesToChart | src/utils/formatters.ts:39-41 | the projected list has the same length, and each element is the projection of the candle at the same index |
| Formatters.CandlesToChartAscending | src/utils/formatters.ts:39-41 | projection keeps a strictly ascending candle list ascending |
| ChartData.ApplyTick | src/hooks/useChartData.ts:50-66 | merge rule: empty takes the tick; a newer tick is appended; a tick at the last time replaces the last element; an older tick changes nothing; all but the last element are kept; the length grows iff the series was empty or the tick is newer; ascending order is kept |
| ChartData.Replay | src/hooks/useChartData.ts:25-38 | an empty log leaves the history as is; each logged tick adds at most one element; a non-empty history or log gives a non-empty series |
| ChartData.ReplayAscending | src/hooks/useChartData.ts:25-38 | replaying any log over an ascending history gives an ascending series |
| ChartData.ReplayKeepsBase | src/hooks/useChartData.ts:25-38 | replay never shortens a non-empty history and only its last element can be rewritten |
| ChartData.ReplayConcat | src/hooks/useChartData.ts:25-38 | replaying a log in two parts equals replaying it in one |
| ChartData.ReplayDropsStale | src/hooks/useChartData.ts:33-37 | a replayed tick older than the current last element leaves the series unchanged |
| ChartData.ReplayExample | src/hooks/useChartData.ts:25-38 | replaying (100,12), (110,15), (90,5) over [(100,10)] gives [(100,12), (110,15)] |
| ChartData.ChartDataStore.constructor | src/hooks/useChartData.ts:8-10 | on mount, the series and the tick log are empty |
| ChartData.ChartDataStore.LoadHistory | src/hooks/useChartData.ts:19-42 | on a fetched history, the series becomes the replay of the whole log over it (the history itself when the log is empty) and is ascending when the history is; without a history nothing changes; the log is untouched |
| ChartData.ChartDataStore.HandleTick | src/hooks/useChartData.ts:45-67 | every live tick is appended to the log whatever its time; the series becomes the merge rule applied to it; the series stays the replay of the log |
| TradingChartUI.NextCursor | src/components/ui/trading-chart/trading-chart-ui.tsx:154-169 | the cursor never decreases, and it moves (to the candle's time) iff the candle is newer and all series updates succeed |
| TradingChartUI.NextChartData | src/components/ui/trading-chart/trading-chart-ui.tsx:173-189 | an accepted candle becomes the last element: sole element of an empty list, replacing the last at the cursor time, otherwise appended |
| TradingChartUI.OnCandle | src/components/ui/trading-chart/trading-chart-ui.tsx:112-190 | no candle, paused, or older than the cursor: nothing changes; otherwise the candle ends the list, which becomes one long when empty, keeps its length at the cursor time and grows by one for a newer candle; the cursor never decreases, and moves, to the candle's time, iff the candle is newer and the updates succeed |
| TradingChartUI.OnInitialData | src/components/ui/trading-chart/trading-chart-ui.tsx:66-70 | the list becomes the initial data; the cursor moves to its last time when non-empty and is otherwise kept |
| TradingChartUI.InitialDataSyncs | src/components/ui/trading-chart/trading-chart-ui.tsx:66-70 | loading ascending non-empty data leaves list and cursor in agreement |
| TradingChartUI.OnCandleKeepsSynced | src/components/ui/trading-chart/trading-chart-ui.tsx:112-190 | while series updates succeed, the list stays ascending and ends at the cursor |
| TradingChartUI.FailedUpdateDuplicatesCandle | src/components/ui/trading-chart/trading-chart-ui.tsx:129-189 | a newer candle whose update fails is still appended while the cursor stays behind; a successful retry of the same bucket appends it again, so the list is no longer ascending |
| TradingChartUI.EmptyReloadKeepsStaleCursor | src/components/ui/trading-chart/trading-chart-ui.tsx:66-70 | after an empty reload the old cursor still refuses older candles although the list is empty |
| TradingChartUI.TradingChart.constructor | src/components/ui/trading-chart/trading-chart-ui.tsx:51-63 | the list starts as the initial prop and the cursor at 0 |
| TradingChartUI.TradingChart.LoadInitialData | src/components/ui/trading-chart/trading-chart-ui.tsx:66-70 | the new state is the initial-data step applied to the old state |
| TradingChartUI.TradingChart.ApplyNewCandle | src/components/ui/trading-chart/trading-chart-ui.tsx:112-190 | the new state is the real-time step applied to the old state |
| MockChartData.AppendCapped | src/hooks/useMockChartData.ts:208-222 | empty becomes the tick; a newer tick is appended after the suffix kept (599 when there were more than 600, else all); an equal time replaces the last element; an older tick changes nothing |
| MockChartData.AppendCappedBounded | src/hooks/useMockChartData.ts:213-215 | a series of at most 601 ticks stays within 601 |
| MockChartData.AppendCappedIsMergeRule | src/hooks/useMockChartData.ts:208-222 | apart from a trim, the capped update is the live series' merge rule |
| MockChartData.AppendCappedAscending | src/hooks/useMockChartData.ts:212-215 | the capped update keeps a series ascending |
| MockChartData.PriceChangeBounded | src/hooks/useMockChartData.ts:14-23 | the relative price change lies strictly within ±1% |
| MockChartData.PriceChange | src/hooks/useMockChartData.ts:14-23 | with both noise draws at their midpoint the change is the pure trend bias: 0.0008 per direction unit, tripled on a big move |
| MockChartData.WickFactor | src/hooks/useMockChartData.ts:31-47 | the four wick classes (below 0.3, 0.3 to 0.7, 0.7 to 0.9, from 0.9) give factors in [0.0005, 0.0015), [0.002, 0.005), [0.005, 0.013) and [0.01, 0.025) |
| MockChartData.WickBounded | src/hooks/useMockChartData.ts:49-51 | a wick lies in [0, 0.025) |
| MockChartData.NextClosePositive | src/hooks/useMockChartData.ts:25-29 | a positive close moved by less than 1% stays positive |
| MockChartData.HighAboveBody | src/hooks/useMockChartData.ts:53 | the high is at or above both open and close |
| MockChartData.LowBelowBody | src/hooks/useMockChartData.ts:54 | the low is positive and at or below both open and close |
| MockChartData.MockVolume | src/hooks/useMockChartData.ts:56-65 | the three volume classes (below 0.6, 0.6 to 0.9, from 0.9) give volumes in [1, 6), [5, 20) and [15, 45) |
| MockChartData.TradesInRange | src/hooks/useMockChartData.ts:67 | the trade count lies in 10..89 |
| MockChartData.VolumeInRange | src/hooks/useMockChartData.ts:56-65 | the volume lies in [1, 45) |
| MockChartData.GenerateNextTick | src/hooks/useMockChartData.ts:8-79 | the next tick is one second later, opens at the previous close, and marks at its close |
| MockChartData.GeneratedTickWellFormed | src/hooks/useMockChartData.ts:25-78 | a generated tick is well formed (low and high bracket open and close, volume non-negative), with a positive close, a positive low, 10..89 trades and volume in [1, 45) |
| MockChartData.FirstTick | src/hooks/useMockChartData.ts:113-128 | the first tick sits at the start time, opens at 50000 and marks at its close; with valid draws it is well formed with a positive close, 10..59 trades and volume in [5, 15) |
| MockChartData.FirstTrend | src/hooks/useMockChartData.ts:130-133 | the walk starts rising, for 30 to 89 steps, with volatility in [0.8, 1.2) |
| MockChartData.NextTrend | src/hooks/useMockChartData.ts:136-145 | a running phase only counts down; an expired one draws its direction from the roll; either way the direction stays ±1 and the volatility within [0.6, 1.4] |
| MockChartData.NextTrendRenewedDuration | src/hooks/useMockChartData.ts:137-145 | a renewed phase lasts between 20 and 20 plus the span steps, counted before the step's decrement |
| MockChartData.Generate | src/hooks/useMockChartData.ts:113-160 | the first n ticks of the history number exactly n |
| MockChartData.GenerateShape | src/hooks/useMockChartData.ts:111-160 | the history ticks sit at consecutive seconds from the start time (so are strictly ascending), each opens at the previous close, marks equal closes, closes are positive, the first opens at 50000, and the phase stays valid |
| MockChartData.GenerateHistory | src/hooks/useMockChartData.ts:113-160 | the generation loop yields exactly the specified history, which fits the feed: 555 ticks, strictly ascending, a valid phase and a positive last close |
| MockChartData.HistoryFitsFeed | src/hooks/useMockChartData.ts:113-160 | the specified 555-tick history is strictly ascending, ends at a positive close and leaves a valid phase |
| MockChartData.MockFeed.constructor | src/hooks/useMockChartData.ts:88-96 | the hook starts with no data and no latest tick |
| MockChartData.MockFeed.Initialize | src/hooks/useMockChartData.ts:98-170 | disabled: data is emptied and nothing else changes; enabled: data is the 555-tick history from now − 9999999, the phase is where the walk left it, the latest tick is the last; the series bound and order are kept |
| MockChartData.MockFeed.RealtimeStep | src/hooks/useMockChartData.ts:181-225 | without history nothing changes, the phase included; otherwise the phase advances, the generated tick is stamped with the current second, becomes the latest tick, and goes through the capped update; the series bound and order are kept |

## Left out

- Network, authentication and transport: fetching klines over HTTP, the query cache, the socket subscription and the mock socket's timers are not part of this model. Fetched history enters as a parameter, and live ticks enter as method calls.
- Chart rendering: the chart library setup, series `setData` bodies, resize handling, colours, the chart-type toggle, date formatting and the floating-point percent change are not modelled.
- Formatters.CandleToChart: the Decimal-to-number conversion is an abstract function parameter; each number field is stated as the conversion of the matching Decimal field, the time is kept, and only order preservation is assumed of the conversion. Floating-point rounding of `toNumber` and the locale formatters (`formatPrice`, `formatDate`, `formatPercent`) are not modelled.
- Formatters.ParseKline: a record with fewer than 8 slots is rejected. In the source, a record of at most 5 slots throws, because decoding the first missing price or volume slot builds a Decimal from `undefined`; a record of 6 slots yields a tick whose trades are `undefined` and whose time is NaN; a record of 7 slots yields a tick whose time is NaN.
- Decimal precision: decimal.js rounds to 20 significant digits; the model computes exactly.
- MockChartData.GenerateNextTick: the source computes the new close, wicks and volume in JavaScript floating point; the model computes them exactly.
- MockChartData.FirstTick: the source computes the close factor `1 + (r - 0.5) * 0.001` and the volume `5 + r * 10` in JavaScript floating point; the model computes them exactly.
- Clock and randomness: `Date.now()` and every `Math.random()` result are parameters. The probabilities of the wick, volume and big-move classes are not modelled, only their ranges.
- React scheduling: effect ordering, state batching, the loading flags and timer cleanup are not modelled; each effect or state update is one step.
- The chart container component and the route file render nothing relevant to the candle state and are not part of this model.
