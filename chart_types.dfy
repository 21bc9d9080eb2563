/**
 * Value types shared by the tick-to-candle engine (src/types/chart.ts).
 *
 * Decimal.js values are modelled as exact `real`s; JavaScript numbers that
 * carry times, counts and raw wire integers are modelled as `int`s.
 */
module ChartTypes {

  datatype Option<+T> = None | Some(value: T)

  datatype Result<+T, +E> = Success(value: T) | Failure(error: E)

  /** One market observation: a trade, or a feed snapshot already stamped with its interval. */
  datatype Tick = Tick(
    time: int,      // Unix seconds
    open: real,
    high: real,
    low: real,
    close: real,
    mark: real,
    volume: real,
    trades: int)

  /** OHLCV reduction of the ticks of one bucket; prices are exact decimals. */
  datatype CandleData = CandleData(
    time: int,      // bucket start, Unix seconds
    open: real,
    high: real,
    low: real,
    close: real,
    volume: real)

  /** The display projection of a candle: the time, and each numeric field
      converted from the matching Decimal field of the candle. */
  datatype ChartCandle = ChartCandle(
    time: int,
    open: real,
    high: real,
    low: real,
    close: real,
    volume: real)

  /** The larger of two prices (Decimal.max). */
  function Max(x: real, y: real): real { if x >= y then x else y }

  /** The smaller of two prices (Decimal.min). */
  function Min(x: real, y: real): real { if x <= y then x else y }

  /** A consistent tick: open and close lie between low and high, and the volume is not negative. */
  predicate WellFormedTick(t: Tick) {
    t.low <= t.open <= t.high && t.low <= t.close <= t.high && t.volume >= 0.0
  }

  /** A consistent candle, in the same sense. */
  predicate WellFormedCandle(c: CandleData) {
    c.low <= c.open <= c.high && c.low <= c.close <= c.high && c.volume >= 0.0
  }

  /** Strictly increasing by time: the series invariant (no two entries share a time). */
  predicate TicksAscending(s: seq<Tick>) {
    forall i, j :: 0 <= i < j < |s| ==> s[i].time < s[j].time
  }

  predicate CandlesAscending(s: seq<CandleData>) {
    forall i, j :: 0 <= i < j < |s| ==> s[i].time < s[j].time
  }

  predicate ChartAscending(s: seq<ChartCandle>) {
    forall i, j :: 0 <= i < j < |s| ==> s[i].time < s[j].time
  }
}
