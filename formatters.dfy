/**
 * Wire decoding and display projection (src/utils/formatters.ts).
 *
 * A kline arrives as a fixed-position integer array
 * [high, low, open, close, mark, volume, trades, timestampMillis]
 * whose price and volume slots are scaled by 10000.
 */
module Formatters {
  import opened ChartTypes

  const ScalingFactor: int := 10000

  /** Number of positional slots a kline record carries. */
  const KlineSlots: nat := 8

  /** Exact division of a scaled wire integer by the scaling factor. */
  function ScaleDown(value: int): (r: real)
    ensures r * ScalingFactor as real == value as real
    ensures value >= 0 <==> r >= 0.0
  {
    value as real / ScalingFactor as real
  }

  /** The example of the doc comment: 125430 is 12.543. */
  lemma ScaleDownExample()
    ensures ScaleDown(125430) == 12.543
  {
  }

  /** Milliseconds to whole seconds, rounding down. */
  function MillisToSeconds(ms: int): (s: int)
    ensures s * 1000 <= ms < (s + 1) * 1000
  {
    ms / 1000
  }

  datatype KlineError = MissingSlot(index: nat)

  /**
   * Reads a kline positionally. A record with fewer than eight slots is
   * rejected with the index of the first missing slot; extra slots are ignored.
   */
  function ParseKline(data: seq<int>): (r: Result<Tick, KlineError>)
    ensures r.Success? <==> |data| >= KlineSlots
    ensures r.Failure? ==> r.error.index == |data|
    ensures r.Success? ==>
      && r.value.high * 10000.0 == data[0] as real
      && r.value.low * 10000.0 == data[1] as real
      && r.value.open * 10000.0 == data[2] as real
      && r.value.close * 10000.0 == data[3] as real
      && r.value.mark * 10000.0 == data[4] as real
      && r.value.volume * 10000.0 == data[5] as real
      && r.value.trades == data[6]
      && r.value.time * 1000 <= data[7] < (r.value.time + 1) * 1000
  {
    if |data| < KlineSlots then
      Failure(MissingSlot(|data|))
    else
      Success(Tick(
        time := MillisToSeconds(data[7]),
        open := ScaleDown(data[2]),
        high := ScaleDown(data[0]),
        low := ScaleDown(data[1]),
        close := ScaleDown(data[3]),
        mark := ScaleDown(data[4]),
        volume := ScaleDown(data[5]),
        trades := data[6]))
  }

  /** The decoding example: prices 14.5/14.8, volume 2.0 and the time in seconds. */
  lemma ParseKlineExample()
    ensures var r := ParseKline([150000, 140000, 145000, 148000, 148000, 20000, 5, 1700000000000]);
      && r.Success?
      && r.value == Tick(1700000000, 14.5, 15.0, 14.0, 14.8, 14.8, 2.0, 5)
  {
  }

  /**
   * The Decimal-to-number projection of one candle. The conversion itself
   * (`Decimal.toNumber`) is left abstract as `project`; since rounding to the
   * nearest number never reverses an order, a well-formed candle keeps its
   * shape under any order-preserving conversion.
   */
  function CandleToChart(c: CandleData, project: real -> real): (r: ChartCandle)
    ensures r.time == c.time
    ensures r.open == project(c.open) && r.high == project(c.high) && r.low == project(c.low)
    ensures r.close == project(c.close) && r.volume == project(c.volume)
    ensures (forall x, y :: x <= y ==> project(x) <= project(y)) && WellFormedCandle(c) ==>
      r.low <= r.open <= r.high && r.low <= r.close <= r.high
  {
    ChartCandle(c.time, project(c.open), project(c.high), project(c.low),
                project(c.close), project(c.volume))
  }

  /** Element-wise projection: same length, same order, same times. */
  function CandlesToChart(cs: seq<CandleData>, project: real -> real): (r: seq<ChartCandle>)
    ensures |r| == |cs|
    ensures forall i :: 0 <= i < |cs| ==> r[i] == CandleToChart(cs[i], project)
  {
    if cs == [] then [] else [CandleToChart(cs[0], project)] + CandlesToChart(cs[1..], project)
  }

  /** Projection keeps a candle series strictly ascending by time. */
  lemma CandlesToChartAscending(cs: seq<CandleData>, project: real -> real)
    requires CandlesAscending(cs)
    ensures ChartAscending(CandlesToChart(cs, project))
  {
  }
}
