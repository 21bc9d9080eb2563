/**
 * The chart component's candle state (src/components/ui/trading-chart/trading-chart-ui.tsx):
 * the displayed candle list and the `lastCandleTime` cursor that decides
 * whether an incoming candle is stale, an update of the open candle, or new.
 *
 * The chart library is reduced to what it does to that state: whether the
 * three series existed and whether their `update()` calls threw.
 */
module TradingChartUI {
  import opened ChartTypes

  /** What happened to the series `update()` calls for one incoming candle. */
  datatype SeriesOutcome =
    | SeriesMissing   // a series ref was still null: no update attempted
    | UpdateThrew     // an update() call threw; the error was caught and logged
    | Updated         // all three updates succeeded

  /** The component state that the candle effects touch. */
  datatype ChartState = ChartState(chartData: seq<ChartCandle>, lastCandleTime: int)

  /** The cursor after an accepted candle: it moves only on a successful update with a newer candle. */
  function NextCursor(cursor: int, candle: ChartCandle, series: SeriesOutcome): (r: int)
    ensures r >= cursor
    ensures r != cursor <==> candle.time > cursor && series == Updated
    ensures r != cursor ==> r == candle.time
  {
    if candle.time > cursor && series == Updated then candle.time else cursor
  }

  /** The list after an accepted candle; this happens whatever the series outcome. */
  function NextChartData(data: seq<ChartCandle>, cursor: int, candle: ChartCandle): (r: seq<ChartCandle>)
    ensures |r| > 0 && r[|r| - 1] == candle
    ensures data == [] ==> r == [candle]
    ensures data != [] && candle.time == cursor ==> |r| == |data| && r[..|r| - 1] == data[..|data| - 1]
    ensures data != [] && candle.time != cursor ==> r == data + [candle]
  {
    if data == [] then [candle]
    else if candle.time == cursor then data[|data| - 1 := candle]
    else data + [candle]
  }

  /** The real-time effect for one render: nothing without a candle or while paused; stale candles are skipped. */
  function OnCandle(s: ChartState, newCandle: Option<ChartCandle>, isPlaying: bool, series: SeriesOutcome): (r: ChartState)
    ensures newCandle.None? || !isPlaying ==> r == s
    ensures newCandle.Some? && newCandle.value.time < s.lastCandleTime ==> r == s
    ensures newCandle.Some? && isPlaying && newCandle.value.time >= s.lastCandleTime ==>
      r.chartData != [] && r.chartData[|r.chartData| - 1] == newCandle.value
    ensures newCandle.Some? && isPlaying && newCandle.value.time >= s.lastCandleTime ==>
      |r.chartData| == if s.chartData == [] then 1
                       else if newCandle.value.time == s.lastCandleTime then |s.chartData|
                       else |s.chartData| + 1
    ensures r.lastCandleTime >= s.lastCandleTime
    ensures r.lastCandleTime != s.lastCandleTime ==> newCandle.Some? && r.lastCandleTime == newCandle.value.time
    ensures r.lastCandleTime != s.lastCandleTime <==>
      newCandle.Some? && isPlaying && newCandle.value.time > s.lastCandleTime && series == Updated
  {
    if newCandle.None? || !isPlaying then s
    else if newCandle.value.time < s.lastCandleTime then s
    else ChartState(NextChartData(s.chartData, s.lastCandleTime, newCandle.value),
                    NextCursor(s.lastCandleTime, newCandle.value, series))
  }

  /** The initial-data effect: show the data; point the cursor at its last candle, if any. */
  function OnInitialData(s: ChartState, initialData: seq<ChartCandle>): (r: ChartState)
    ensures r.chartData == initialData
    ensures initialData != [] ==> r.lastCandleTime == initialData[|initialData| - 1].time
    ensures initialData == [] ==> r.lastCandleTime == s.lastCandleTime
  {
    if |initialData| > 0 then ChartState(initialData, initialData[|initialData| - 1].time)
    else ChartState(initialData, s.lastCandleTime)
  }

  /** The list is ascending and the cursor is the time of its last candle. */
  predicate Synced(s: ChartState) {
    && ChartAscending(s.chartData)
    && (s.chartData != [] ==> s.chartData[|s.chartData| - 1].time == s.lastCandleTime)
  }

  /** Loading ascending, non-empty data puts list and cursor in agreement. */
  lemma InitialDataSyncs(s: ChartState, initialData: seq<ChartCandle>)
    requires ChartAscending(initialData) && initialData != []
    ensures Synced(OnInitialData(s, initialData))
  {
  }

  /** While every series update succeeds, list and cursor stay in agreement. */
  lemma OnCandleKeepsSynced(s: ChartState, newCandle: Option<ChartCandle>, isPlaying: bool)
    requires Synced(s)
    ensures Synced(OnCandle(s, newCandle, isPlaying, Updated))
  {
    if newCandle.Some? && isPlaying && newCandle.value.time >= s.lastCandleTime {
      var c := newCandle.value;
      var r := OnCandle(s, newCandle, isPlaying, Updated);
      var d := s.chartData;
      if d != [] && c.time == s.lastCandleTime {
        forall i, j | 0 <= i < j < |r.chartData| ensures r.chartData[i].time < r.chartData[j].time {
          if j < |d| - 1 {
            assert r.chartData[i] == d[i] && r.chartData[j] == d[j];
          } else {
            assert r.chartData[i] == d[i];
            assert d[i].time < d[|d| - 1].time;
          }
        }
      } else if d != [] {
        forall i, j | 0 <= i < j < |r.chartData| ensures r.chartData[i].time < r.chartData[j].time {
          assert r.chartData[i] == d[i];
          if j < |d| {
            assert r.chartData[j] == d[j];
          } else if i < |d| - 1 {
            assert d[i].time < d[|d| - 1].time;
          }
        }
      }
    }
  }

  /**
   * The list update is outside the try block and outside the series check: a
   * newer candle whose series update fails is still appended, but the cursor
   * stays behind. When the same bucket arrives again and the update succeeds,
   * it is appended a second time, so the list holds two candles with one time.
   */
  lemma FailedUpdateDuplicatesCandle(s: ChartState, c: ChartCandle, failure: SeriesOutcome, again: ChartCandle)
    requires Synced(s) && s.chartData != []
    requires c.time > s.lastCandleTime
    requires failure != Updated
    requires again.time == c.time
    ensures var mid := OnCandle(s, Some(c), true, failure);
      && mid.chartData == s.chartData + [c]
      && mid.lastCandleTime == s.lastCandleTime
      && !Synced(mid)
    ensures var mid := OnCandle(s, Some(c), true, failure);
      var after := OnCandle(mid, Some(again), true, Updated);
      && after.chartData == s.chartData + [c, again]
      && after.lastCandleTime == c.time
      && !ChartAscending(after.chartData)
  {
    var mid := OnCandle(s, Some(c), true, failure);
    var after := OnCandle(mid, Some(again), true, Updated);
    assert after.chartData == s.chartData + [c] + [again];
    assert s.chartData + [c] + [again] == s.chartData + [c, again];
    var n := |s.chartData|;
    assert after.chartData[n] == c && after.chartData[n + 1] == again;
  }

  /** An empty reload keeps the old cursor, so older candles are still refused though nothing is shown. */
  lemma EmptyReloadKeepsStaleCursor(s: ChartState, c: ChartCandle)
    requires c.time < s.lastCandleTime
    ensures OnCandle(OnInitialData(s, []), Some(c), true, Updated) == ChartState([], s.lastCandleTime)
  {
  }

  /** The chart component's mutable candle state. */
  class TradingChart {
    var chartData: seq<ChartCandle>
    var lastCandleTime: int

    function State(): ChartState
      reads this
    {
      ChartState(chartData, lastCandleTime)
    }

    /** First render: the list is the initial prop and the cursor starts at 0. */
    constructor (initialData: seq<ChartCandle>)
      ensures chartData == initialData && lastCandleTime == 0
    {
      chartData := initialData;
      lastCandleTime := 0;
    }

    /** The initial-data effect. */
    method LoadInitialData(initialData: seq<ChartCandle>)
      modifies this
      ensures State() == OnInitialData(old(State()), initialData)
    {
      chartData := initialData;
      if |initialData| > 0 {
        lastCandleTime := initialData[|initialData| - 1].time;
      }
    }

    /** The real-time effect: skip stale candles, update the series, then the list. */
    method ApplyNewCandle(newCandle: Option<ChartCandle>, isPlaying: bool, series: SeriesOutcome)
      modifies this
      ensures State() == OnCandle(old(State()), newCandle, isPlaying, series)
    {
      if newCandle.None? || !isPlaying {
        return;
      }
      var candle := newCandle.value;
      var isUpdatingExistingCandle := candle.time == lastCandleTime;
      var isNewCandle := candle.time > lastCandleTime;

      if candle.time < lastCandleTime {
        return;
      }

      if series == Updated && isNewCandle {
        lastCandleTime := candle.time;
      }

      if |chartData| == 0 {
        chartData := [candle];
      } else if isUpdatingExistingCandle {
        chartData := chartData[|chartData| - 1 := candle];
      } else {
        chartData := chartData + [candle];
      }
    }
  }
}
