/**
 * The mock data source (src/hooks/useMockChartData.ts): a random-walk tick
 * generator, an initial history of 555 one-second ticks, and a per-second
 * real-time step whose state update caps the series near 600 ticks.
 *
 * Every `Math.random()` result is a parameter (a draw in [0, 1)), the clock is
 * a parameter, and the Decimal/number conversions are exact.
 */
module MockChartData {
  import opened ChartTypes
  import ChartData

  // ---------------------------------------------------------------------------
  // The capped state update of the real-time step

  /** Above this many ticks an append first trims the series. */
  const TrimAbove: nat := 600
  /** How many of the newest ticks a trim keeps. */
  const KeptOnTrim: nat := 599
  /** The longest series the capped update can produce from a series no longer than itself. */
  const MaxLength: nat := 601

  /**
   * The state update: empty becomes the tick; a newer tick is appended (after
   * keeping only the newest 599 when there were more than 600); an equal-time
   * tick replaces the last; an older tick changes nothing.
   */
  function AppendCapped(prev: seq<Tick>, newTick: Tick): (r: seq<Tick>)
    ensures prev == [] ==> r == [newTick]
    ensures prev != [] && newTick.time > prev[|prev| - 1].time ==>
      && |r| == (if |prev| > TrimAbove then KeptOnTrim + 1 else |prev| + 1)
      && r[|r| - 1] == newTick
      && r[..|r| - 1] == prev[|prev| - (|r| - 1)..]
    ensures prev != [] && newTick.time == prev[|prev| - 1].time ==>
      |r| == |prev| && r[..|r| - 1] == prev[..|prev| - 1] && r[|r| - 1] == newTick
    ensures prev != [] && newTick.time < prev[|prev| - 1].time ==> r == prev
  {
    if |prev| == 0 then [newTick]
    else
      var last := prev[|prev| - 1];
      if newTick.time > last.time then
        var newData := if |prev| > TrimAbove then prev[|prev| - KeptOnTrim..] else prev;
        newData + [newTick]
      else if newTick.time == last.time then
        prev[|prev| - 1 := newTick]
      else
        prev
  }

  /** The capped update never grows a series past 601 ticks. */
  lemma AppendCappedBounded(prev: seq<Tick>, newTick: Tick)
    requires |prev| <= MaxLength
    ensures |AppendCapped(prev, newTick)| <= MaxLength
  {
  }

  /** Apart from the trim, the capped update is the shared merge rule of the live series. */
  lemma AppendCappedIsMergeRule(prev: seq<Tick>, newTick: Tick)
    requires |prev| <= TrimAbove || prev == [] || newTick.time <= prev[|prev| - 1].time
    ensures AppendCapped(prev, newTick) == ChartData.ApplyTick(prev, newTick)
  {
  }

  /** The capped update keeps a series ascending: it is the merge rule applied to a suffix, which is ascending too. */
  lemma AppendCappedAscending(prev: seq<Tick>, newTick: Tick)
    requires TicksAscending(prev)
    ensures TicksAscending(AppendCapped(prev, newTick))
  {
    if prev != [] && newTick.time > prev[|prev| - 1].time {
      var off := if |prev| > TrimAbove then |prev| - KeptOnTrim else 0;
      var kept := prev[off..];
      assert TicksAscending(kept) by {
        forall i, j | 0 <= i < j < |kept| ensures kept[i].time < kept[j].time {
          assert kept[i] == prev[off + i] && kept[j] == prev[off + j];
        }
      }
      assert kept[|kept| - 1] == prev[|prev| - 1];
      assert AppendCapped(prev, newTick) == ChartData.ApplyTick(kept, newTick);
    } else {
      AppendCappedIsMergeRule(prev, newTick);
    }
  }

  // ---------------------------------------------------------------------------
  // generateNextTick

  /** A `Math.random()` result. */
  predicate UnitDraw(x: real) { 0.0 <= x < 1.0 }

  /** The random draws one call of generateNextTick consumes, in call order. */
  datatype TickDraws = TickDraws(
    noise: real, spike: real, wickType: real, wickSize: real,
    upperWick: real, lowerWick: real, volumeType: real, volumeSize: real, trades: real)

  predicate ValidTickDraws(d: TickDraws) {
    && UnitDraw(d.noise) && UnitDraw(d.spike) && UnitDraw(d.wickType) && UnitDraw(d.wickSize)
    && UnitDraw(d.upperWick) && UnitDraw(d.lowerWick) && UnitDraw(d.volumeType)
    && UnitDraw(d.volumeSize) && UnitDraw(d.trades)
  }

  /** Relative price change: the trend bias (tripled on a big move) plus noise and, on a big move, a spike. */
  function PriceChange(trendDirection: int, volatility: real, isBigMove: bool, d: TickDraws): (r: real)
    ensures d.noise == 0.5 && (!isBigMove || d.spike == 0.5) ==>
      r == (if isBigMove then 0.0024 else 0.0008) * trendDirection as real
  {
    var baseTrendBias := 0.0008 * trendDirection as real;
    var trendBias := if isBigMove then baseTrendBias * 3.0 else baseTrendBias;
    var baseNoise := (d.noise - 0.5) * volatility * 0.002;
    var spike := if isBigMove then (d.spike - 0.5) * volatility * 0.005 else 0.0;
    trendBias + baseNoise + spike
  }

  /** Wick size class: small 30%, medium 40%, large 20%, very large 10%. */
  function WickFactor(d: TickDraws): (r: real)
    ensures UnitDraw(d.wickSize) && d.wickType < 0.3 ==> 0.0005 <= r < 0.0015
    ensures UnitDraw(d.wickSize) && 0.3 <= d.wickType < 0.7 ==> 0.002 <= r < 0.005
    ensures UnitDraw(d.wickSize) && 0.7 <= d.wickType < 0.9 ==> 0.005 <= r < 0.013
    ensures UnitDraw(d.wickSize) && 0.9 <= d.wickType ==> 0.01 <= r < 0.025
  {
    if d.wickType < 0.3 then 0.0005 + d.wickSize * 0.001
    else if d.wickType < 0.7 then 0.002 + d.wickSize * 0.003
    else if d.wickType < 0.9 then 0.005 + d.wickSize * 0.008
    else 0.01 + d.wickSize * 0.015
  }

  /** Volume class: low 60%, medium 30%, high 10%. */
  function MockVolume(d: TickDraws): (r: real)
    ensures UnitDraw(d.volumeSize) && d.volumeType < 0.6 ==> 1.0 <= r < 6.0
    ensures UnitDraw(d.volumeSize) && 0.6 <= d.volumeType < 0.9 ==> 5.0 <= r < 20.0
    ensures UnitDraw(d.volumeSize) && 0.9 <= d.volumeType ==> 15.0 <= r < 45.0
  {
    if d.volumeType < 0.6 then 1.0 + d.volumeSize * 5.0
    else if d.volumeType < 0.9 then 5.0 + d.volumeSize * 15.0
    else 15.0 + d.volumeSize * 30.0
  }

  lemma ProductPositive(a: real, b: real)
    requires a > 0.0 && b > 0.0
    ensures a * b > 0.0
  {
  }

  lemma ProductNonNegative(a: real, b: real)
    requires a >= 0.0 && b >= 0.0
    ensures a * b >= 0.0
  {
    if a > 0.0 && b > 0.0 {
      ProductPositive(a, b);
    }
  }

  /** x * s stays below hi when x is a draw and 0 <= s < hi. */
  lemma ScaledBounds(x: real, s: real, hi: real)
    requires 0.0 <= x < 1.0 && 0.0 <= s < hi
    ensures 0.0 <= x * s < hi
  {
    ProductNonNegative(x, s);
    ProductNonNegative(1.0 - x, s);
    assert (1.0 - x) * s == s - x * s;
  }

  /** A centred draw times a volatility in [0, 2] lies in [-1, 1]. */
  lemma CentredScaled(c: real, v: real)
    requires -0.5 <= c <= 0.5 && 0.0 <= v <= 2.0
    ensures -1.0 <= c * v <= 1.0
  {
    ProductNonNegative(0.5 - c, v);
    ProductNonNegative(c + 0.5, v);
    assert (0.5 - c) * v == 0.5 * v - c * v;
    assert (c + 0.5) * v == c * v + 0.5 * v;
  }

  /** With draws in range and a bounded volatility, the relative change stays within one percent. */
  lemma PriceChangeBounded(trendDirection: int, volatility: real, isBigMove: bool, d: TickDraws)
    requires ValidTickDraws(d)
    requires -1 <= trendDirection <= 1 && 0.0 <= volatility <= 2.0
    ensures -0.01 < PriceChange(trendDirection, volatility, isBigMove, d) < 0.01
  {
    var nv := (d.noise - 0.5) * volatility;
    var sv := (d.spike - 0.5) * volatility;
    CentredScaled(d.noise - 0.5, volatility);
    CentredScaled(d.spike - 0.5, volatility);
    var bias := 0.0008 * trendDirection as real;
    assert -0.0008 <= bias <= 0.0008;
    assert -0.002 <= nv * 0.002 <= 0.002;
    assert -0.005 <= sv * 0.005 <= 0.005;
    assert PriceChange(trendDirection, volatility, isBigMove, d)
        == (if isBigMove then bias * 3.0 else bias) + nv * 0.002 + (if isBigMove then sv * 0.005 else 0.0);
  }

  /** A wick: a draw scaled by the wick factor. */
  function Wick(draw: real, d: TickDraws): real {
    draw * WickFactor(d)
  }

  /** For draws in range a wick lies in [0, 2.5%). */
  lemma WickBounded(draw: real, d: TickDraws)
    requires ValidTickDraws(d) && UnitDraw(draw)
    ensures 0.0 <= Wick(draw, d) < 0.025
  {
    ScaledBounds(draw, WickFactor(d), 0.025);
  }

  /** The close after a relative change. */
  function NextClose(prevClose: real, change: real): real {
    prevClose * (1.0 + change)
  }

  /** The close stays positive while the change stays within one percent. */
  lemma NextClosePositive(prevClose: real, change: real)
    requires prevClose > 0.0 && -0.01 < change < 0.01
    ensures NextClose(prevClose, change) > 0.0
  {
    ProductPositive(prevClose, 1.0 + change);
  }

  /** The high: the upper body edge raised by the upper wick. */
  function HighPrice(open: real, close: real, upperWick: real): real {
    Max(open, close) * (1.0 + upperWick)
  }

  /** The high is never below the body. */
  lemma HighAboveBody(open: real, close: real, upperWick: real)
    requires open > 0.0 && close > 0.0 && 0.0 <= upperWick
    ensures Max(open, close) <= HighPrice(open, close, upperWick)
  {
    var hi := Max(open, close);
    ProductNonNegative(hi, upperWick);
    assert HighPrice(open, close, upperWick) == hi * (1.0 + upperWick) == hi + hi * upperWick;
  }

  /** The low: the lower body edge lowered by the lower wick. */
  function LowPrice(open: real, close: real, lowerWick: real): real {
    Min(open, close) * (1.0 - lowerWick)
  }

  /** The low is positive and never above the body while the wick is below 100%. */
  lemma LowBelowBody(open: real, close: real, lowerWick: real)
    requires open > 0.0 && close > 0.0 && 0.0 <= lowerWick < 1.0
    ensures 0.0 < LowPrice(open, close, lowerWick) <= Min(open, close)
  {
    var lo := Min(open, close);
    assert lo > 0.0;
    ProductNonNegative(lo, lowerWick);
    ProductPositive(lo, 1.0 - lowerWick);
    assert LowPrice(open, close, lowerWick) == lo * (1.0 - lowerWick) == lo - lo * lowerWick;
  }

  /** The trade count: 10 plus a whole number below 80. */
  function MockTrades(d: TickDraws): int {
    (d.trades * 80.0).Floor + 10
  }

  lemma TradesInRange(d: TickDraws)
    requires ValidTickDraws(d)
    ensures 10 <= MockTrades(d) <= 89
  {
    ScaledBounds(d.trades, 80.0, 80.0 + 1.0);
    ProductNonNegative(1.0 - d.trades, 80.0);
    assert (1.0 - d.trades) * 80.0 == 80.0 - d.trades * 80.0;
  }

  /** Volume lies in [1, 45) for draws in range. */
  lemma VolumeInRange(d: TickDraws)
    requires ValidTickDraws(d)
    ensures 1.0 <= MockVolume(d) < 45.0
  {
  }

  /** The next tick of the random walk: one second later, opening at the previous close. */
  function GenerateNextTick(prev: Tick, trendDirection: int, volatility: real, isBigMove: bool, d: TickDraws): (t: Tick)
    ensures t.time == prev.time + 1
    ensures t.open == prev.close
    ensures t.mark == t.close
  {
    var open := prev.close;
    var close := NextClose(prev.close, PriceChange(trendDirection, volatility, isBigMove, d));
    Tick(
      time := prev.time + 1,
      open := open,
      high := HighPrice(open, close, Wick(d.upperWick, d)),
      low := LowPrice(open, close, Wick(d.lowerWick, d)),
      close := close,
      mark := close,
      volume := MockVolume(d),
      trades := MockTrades(d))
  }

  /**
   * Generated candles are well formed: positive prices, high at or above both
   * open and close, low at or below both, 10 to 89 trades and volume in [1, 45).
   */
  lemma GeneratedTickWellFormed(prev: Tick, trendDirection: int, volatility: real, isBigMove: bool, d: TickDraws)
    requires ValidTickDraws(d)
    requires -1 <= trendDirection <= 1 && 0.0 <= volatility <= 2.0
    requires prev.close > 0.0
    ensures var t := GenerateNextTick(prev, trendDirection, volatility, isBigMove, d);
      && t.close > 0.0
      && 0.0 < t.low <= Min(t.open, t.close)
      && Max(t.open, t.close) <= t.high
      && 10 <= t.trades <= 89
      && 1.0 <= t.volume < 45.0
      && WellFormedTick(t)
  {
    var change := PriceChange(trendDirection, volatility, isBigMove, d);
    PriceChangeBounded(trendDirection, volatility, isBigMove, d);
    NextClosePositive(prev.close, change);
    var close := NextClose(prev.close, change);
    WickBounded(d.upperWick, d);
    WickBounded(d.lowerWick, d);
    HighAboveBody(prev.close, close, Wick(d.upperWick, d));
    LowBelowBody(prev.close, close, Wick(d.lowerWick, d));
    TradesInRange(d);
    VolumeInRange(d);
  }

  // ---------------------------------------------------------------------------
  // The hook: initial history and the real-time step

  /** The draws the first tick consumes: close factor, volume and trades. */
  datatype FirstDraws = FirstDraws(closeNoise: real, volume: real, trades: real, trendDuration: real, volatility: real)

  predicate ValidFirstDraws(f: FirstDraws) {
    UnitDraw(f.closeNoise) && UnitDraw(f.volume) && UnitDraw(f.trades)
    && UnitDraw(f.trendDuration) && UnitDraw(f.volatility)
  }

  /** The draws one loop iteration consumes: a possible trend change, the big-move roll and the tick itself. */
  datatype StepDraws = StepDraws(direction: real, duration: real, volatilityRoll: real, volatility: real,
                                 bigMove: real, tick: TickDraws)

  predicate ValidStepDraws(s: StepDraws) {
    UnitDraw(s.direction) && UnitDraw(s.duration) && UnitDraw(s.volatilityRoll) && UnitDraw(s.volatility)
    && UnitDraw(s.bigMove) && ValidTickDraws(s.tick)
  }

  const InitialTickCount: nat := 555
  const StartingPrice: real := 50000.0
  /** How far before "now" the initial history starts, in seconds. */
  const HistoryOffset: int := 9999999

  /** Market phase of the random walk: trend direction, remaining duration, volatility. */
  datatype Trend = Trend(direction: int, duration: int, volatility: real)

  predicate ValidTrend(tr: Trend) {
    (tr.direction == 1 || tr.direction == -1) && 0.6 <= tr.volatility <= 1.4
  }

  /** The phase change of one step: when the phase has run out pick a new one, then count it down. */
  function NextTrend(tr: Trend, s: StepDraws, durationSpan: real): (r: Trend)
    requires durationSpan >= 0.0
    ensures ValidTrend(tr) && ValidStepDraws(s) ==> ValidTrend(r)
    ensures tr.duration > 0 ==> r == tr.(duration := tr.duration - 1)
    ensures tr.duration <= 0 ==> r.direction == (if s.direction > 0.5 then 1 else -1)
  {
    var renewed :=
      if tr.duration <= 0 then
        Trend(if s.direction > 0.5 then 1 else -1,
              (s.duration * durationSpan).Floor + 20,
              if s.volatilityRoll > 0.7 then 0.6 + s.volatility * 0.8 else tr.volatility)
      else tr;
    renewed.(duration := renewed.duration - 1)
  }

  /** A renewed phase lasts at least 20 steps and at most 20 plus the span, before the step's countdown. */
  lemma NextTrendRenewedDuration(tr: Trend, s: StepDraws, durationSpan: real)
    requires durationSpan >= 0.0
    requires tr.duration <= 0 && ValidStepDraws(s)
    ensures var r := NextTrend(tr, s, durationSpan);
      20 <= r.duration + 1 && (r.duration + 1 - 20) as real <= durationSpan
  {
    ProductNonNegative(s.duration, durationSpan);
    ProductNonNegative(1.0 - s.duration, durationSpan);
    assert (1.0 - s.duration) * durationSpan == durationSpan - s.duration * durationSpan;
  }

  /** The first tick of the history: opens at the starting price with a small random close. */
  function FirstTick(startTime: int, first: FirstDraws): (t: Tick)
    ensures t.time == startTime && t.open == StartingPrice && t.mark == t.close
    ensures ValidFirstDraws(first) ==>
      && t.close > 0.0
      && WellFormedTick(t)
      && 10 <= t.trades <= 59
      && 5.0 <= t.volume < 15.0
  {
    var firstOpen := StartingPrice;
    var firstClose := firstOpen * (1.0 + (first.closeNoise - 0.5) * 0.001);
    Tick(
      time := startTime,
      open := firstOpen,
      high := Max(firstOpen, firstClose) * 1.002,
      low := Min(firstOpen, firstClose) * 0.998,
      close := firstClose,
      mark := firstClose,
      volume := 5.0 + first.volume * 10.0,
      trades := (first.trades * 50.0).Floor + 10)
  }

  /** The phase the history starts in: rising, 30 to 89 steps long, volatility in [0.8, 1.2). */
  function FirstTrend(first: FirstDraws): (r: Trend)
    ensures r.direction == 1
    ensures ValidFirstDraws(first) ==> ValidTrend(r) && 30 <= r.duration <= 89 && 0.8 <= r.volatility < 1.2
  {
    Trend(1, (first.trendDuration * 60.0).Floor + 30, 0.8 + first.volatility * 0.4)
  }

  /** The ticks generated so far and the phase the walk is in. */
  datatype History = History(ticks: seq<Tick>, trend: Trend)

  /**
   * The first `n` ticks of the initial history: each step advances the phase,
   * rolls a big move with probability 0.15, generates the next tick and
   * stamps it with its position after the start time.
   */
  function Generate(startTime: int, first: FirstDraws, steps: seq<StepDraws>, n: nat): (h: History)
    requires 1 <= n <= |steps| + 1
    ensures |h.ticks| == n
    decreases n
  {
    if n == 1 then History([FirstTick(startTime, first)], FirstTrend(first))
    else
      var prev := Generate(startTime, first, steps, n - 1);
      var s := steps[n - 2];
      var tr := NextTrend(prev.trend, s, 80.0);
      var t := GenerateNextTick(prev.ticks[n - 2], tr.direction, tr.volatility, s.bigMove < 0.15, s.tick);
      History(prev.ticks + [t.(time := startTime + n - 1)], tr)
  }

  /**
   * The initial history has consecutive times from the start time, each tick
   * opens at the previous close, marks equal closes, prices stay positive and
   * the phase stays valid.
   */
  lemma {:induction false} GenerateShape(startTime: int, first: FirstDraws, steps: seq<StepDraws>, n: nat)
    requires ValidFirstDraws(first)
    requires forall k :: 0 <= k < |steps| ==> ValidStepDraws(steps[k])
    requires 1 <= n <= |steps| + 1
    ensures var h := Generate(startTime, first, steps, n);
      && ValidTrend(h.trend)
      && h.ticks[0].open == StartingPrice
      && (forall i :: 0 <= i < n ==> h.ticks[i].time == startTime + i)
      && (forall i :: 0 < i < n ==> h.ticks[i].open == h.ticks[i - 1].close)
      && (forall i :: 0 <= i < n ==> h.ticks[i].mark == h.ticks[i].close && h.ticks[i].close > 0.0)
      && TicksAscending(h.ticks)
    decreases n
  {
    if n > 1 {
      GenerateShape(startTime, first, steps, n - 1);
      var prev := Generate(startTime, first, steps, n - 1);
      var s := steps[n - 2];
      var tr := NextTrend(prev.trend, s, 80.0);
      GeneratedTickWellFormed(prev.ticks[n - 2], tr.direction, tr.volatility, s.bigMove < 0.15, s.tick);
      var h := Generate(startTime, first, steps, n);
      assert h.ticks[..n - 1] == prev.ticks;
      forall i | 0 <= i < n - 1 ensures h.ticks[i] == prev.ticks[i] {
        assert h.ticks[i] == h.ticks[..n - 1][i];
      }
    }
  }

  /**
   * The generation loop: the first tick, then 554 more, each advancing the
   * phase, rolling a big move with probability 0.15 and stamped with its
   * position after the start time.
   */
  method GenerateHistory(startTime: int, first: FirstDraws, steps: seq<StepDraws>)
    returns (initialTicks: seq<Tick>, current: Trend)
    requires ValidFirstDraws(first)
    requires |steps| >= InitialTickCount - 1
    requires forall k :: 0 <= k < |steps| ==> ValidStepDraws(steps[k])
    ensures History(initialTicks, current) == Generate(startTime, first, steps, InitialTickCount)
    ensures FitsFeed(initialTicks, current)
  {
    var lastTick := FirstTick(startTime, first);
    initialTicks := [lastTick];
    current := FirstTrend(first);

    var i := 1;
    while i < InitialTickCount
      invariant 1 <= i <= InitialTickCount
      invariant History(initialTicks, current) == Generate(startTime, first, steps, i)
      invariant lastTick == initialTicks[i - 1]
    {
      var s := steps[i - 1];
      current := NextTrend(current, s, 80.0);
      var isBigMove := s.bigMove < 0.15;
      var newTick := GenerateNextTick(lastTick, current.direction, current.volatility, isBigMove, s.tick);
      newTick := newTick.(time := startTime + i);
      initialTicks := initialTicks + [newTick];
      assert History(initialTicks, current) == Generate(startTime, first, steps, i + 1);
      lastTick := newTick;
      i := i + 1;
    }
    HistoryFitsFeed(startTime, first, steps);
  }

  /** A generated history the feed can take over: it fits, is ordered, and its phase and last price are valid. */
  predicate FitsFeed(ticks: seq<Tick>, tr: Trend) {
    && |ticks| == InitialTickCount
    && TicksAscending(ticks)
    && ValidTrend(tr)
    && ticks[|ticks| - 1].close > 0.0
  }

  /** The full history satisfies what the feed keeps invariant. */
  lemma HistoryFitsFeed(startTime: int, first: FirstDraws, steps: seq<StepDraws>)
    requires ValidFirstDraws(first)
    requires |steps| >= InitialTickCount - 1
    requires forall k :: 0 <= k < |steps| ==> ValidStepDraws(steps[k])
    ensures var h := Generate(startTime, first, steps, InitialTickCount); FitsFeed(h.ticks, h.trend)
  {
    GenerateShape(startTime, first, steps, InitialTickCount);
  }

  /** The first second of the history: the current second minus the offset. */
  function HistoryStart(nowMillis: int): int {
    nowMillis / 1000 - HistoryOffset
  }

  /** The mock hook's state. */
  class MockFeed {
    var data: seq<Tick>
    var latestTick: Option<Tick>
    var trend: Trend

    ghost predicate Valid()
      reads this
    {
      && |data| <= MaxLength
      && TicksAscending(data)
      && ValidTrend(trend)
      && (latestTick.Some? ==> latestTick.value.close > 0.0)
    }

    constructor ()
      ensures Valid()
      ensures data == [] && latestTick == None
    {
      data := [];
      latestTick := None;
      trend := Trend(1, 0, 1.0);
    }

    /**
     * The initial-data effect. When disabled, the data is emptied. Otherwise
     * the 555-tick history is generated from now - 9999999 and becomes the
     * data; the phase the walk ended in and the last tick are kept for the
     * real-time step.
     */
    method Initialize(enabled: bool, nowMillis: int, first: FirstDraws, steps: seq<StepDraws>)
      requires Valid()
      requires ValidFirstDraws(first)
      requires |steps| >= InitialTickCount - 1
      requires forall k :: 0 <= k < |steps| ==> ValidStepDraws(steps[k])
      modifies this
      ensures Valid()
      ensures !enabled ==> data == [] && latestTick == old(latestTick) && trend == old(trend)
      ensures enabled ==>
        var h := Generate(HistoryStart(nowMillis), first, steps, InitialTickCount);
        && data == h.ticks
        && trend == h.trend
        && latestTick == Some(data[|data| - 1])
    {
      if !enabled {
        data := [];
        return;
      }
      var startTime := HistoryStart(nowMillis);
      var initialTicks, current := GenerateHistory(startTime, first, steps);
      data := initialTicks;
      latestTick := Some(initialTicks[|initialTicks| - 1]);
      trend := current;
    }

    /**
     * One tick of the real-time timer: nothing before the history exists;
     * otherwise advance the phase, generate a tick stamped with the current
     * second, and apply the capped update.
     */
    method RealtimeStep(nowMillis: int, s: StepDraws)
      requires Valid()
      requires ValidStepDraws(s)
      modifies this
      ensures Valid()
      ensures old(latestTick).None? ==> data == old(data) && latestTick == None && trend == old(trend)
      ensures old(latestTick).Some? ==>
        && latestTick.Some?
        && latestTick.value.time == nowMillis / 1000
        && latestTick.value.open == old(latestTick).value.close
        && data == AppendCapped(old(data), latestTick.value)
        && trend == NextTrend(old(trend), s, 50.0)
        && latestTick.value == GenerateNextTick(old(latestTick).value, trend.direction, trend.volatility,
                                                s.bigMove < 0.12, s.tick).(time := nowMillis / 1000)
    {
      if latestTick.None? {
        return;
      }
      trend := NextTrend(trend, s, 50.0);
      var isBigMove := s.bigMove < 0.12;
      GeneratedTickWellFormed(latestTick.value, trend.direction, trend.volatility, isBigMove, s.tick);
      var newTick := GenerateNextTick(latestTick.value, trend.direction, trend.volatility, isBigMove, s.tick);
      newTick := newTick.(time := nowMillis / 1000);
      AppendCappedBounded(data, newTick);
      AppendCappedAscending(data, newTick);
      data := AppendCapped(data, newTick);
      latestTick := Some(newTick);
    }
  }
}
