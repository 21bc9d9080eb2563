/**
 * The live tick series of the chart-data hook (src/hooks/useChartData.ts):
 * every live tick is appended to a log and merged into the displayed series;
 * when historical data (re)loads, the whole log is replayed over it.
 */
module ChartData {
  import opened ChartTypes

  /** Whether the merge rule keeps a tick: the series is empty or the tick is not older than its last element. */
  predicate Accepts(data: seq<Tick>, tick: Tick) {
    data == [] || tick.time >= data[|data| - 1].time
  }

  /**
   * The merge rule for one tick: an empty series takes the tick; a tick at the
   * time of the last element replaces it; a newer tick is appended; an older
   * tick is dropped.
   */
  function ApplyTick(data: seq<Tick>, tick: Tick): (r: seq<Tick>)
    ensures |data| <= |r| <= |data| + 1
    ensures data == [] ==> r == [tick]
    ensures |data| > 0 ==> r[..|data| - 1] == data[..|data| - 1]
    ensures Accepts(data, tick) ==> r[|r| - 1] == tick
    ensures !Accepts(data, tick) ==> r == data
    ensures data != [] && tick.time > data[|data| - 1].time ==> r == data + [tick]
    ensures data != [] && tick.time == data[|data| - 1].time ==> r == data[|data| - 1 := tick]
    ensures |r| == |data| + 1 <==> data == [] || tick.time > data[|data| - 1].time
    ensures TicksAscending(data) ==> TicksAscending(r)
  {
    if |data| == 0 then [tick]
    else if tick.time == data[|data| - 1].time then data[|data| - 1 := tick]
    else if tick.time > data[|data| - 1].time then data + [tick]
    else data
  }

  /** Replaying a tick log over a base series: the left fold of ApplyTick. */
  function Replay(base: seq<Tick>, log: seq<Tick>): (r: seq<Tick>)
    ensures log == [] ==> r == base
    ensures |r| <= |base| + |log|
    ensures base != [] || log != [] ==> r != []
    decreases |log|
  {
    if log == [] then base else ApplyTick(Replay(base, log[..|log| - 1]), log[|log| - 1])
  }

  lemma ReplaySnoc(base: seq<Tick>, log: seq<Tick>, tick: Tick)
    ensures Replay(base, log + [tick]) == ApplyTick(Replay(base, log), tick)
  {
    assert (log + [tick])[..|log|] == log;
  }

  /** Replay over an ascending base stays ascending, however base and log overlap. */
  lemma {:induction false} ReplayAscending(base: seq<Tick>, log: seq<Tick>)
    requires TicksAscending(base)
    ensures TicksAscending(Replay(base, log))
  {
    if log != [] {
      ReplayAscending(base, log[..|log| - 1]);
    }
  }

  /** Replay never shortens the base and only ever rewrites its last element. */
  lemma {:induction false} ReplayKeepsBase(base: seq<Tick>, log: seq<Tick>)
    requires base != []
    ensures |Replay(base, log)| >= |base|
    ensures Replay(base, log)[..|base| - 1] == base[..|base| - 1]
  {
    if log != [] {
      var prev := Replay(base, log[..|log| - 1]);
      ReplayKeepsBase(base, log[..|log| - 1]);
      assert prev[..|base| - 1] == prev[..|prev| - 1][..|base| - 1];
    }
  }

  /** Replaying two log segments one after the other is replaying their concatenation. */
  lemma {:induction false} ReplayConcat(base: seq<Tick>, log1: seq<Tick>, log2: seq<Tick>)
    ensures Replay(base, log1 + log2) == Replay(Replay(base, log1), log2)
    decreases |log2|
  {
    if log2 == [] {
      assert log1 + log2 == log1;
    } else {
      var init := log2[..|log2| - 1];
      var last := log2[|log2| - 1];
      assert log1 + log2 == (log1 + init) + [last];
      ReplaySnoc(base, log1 + init, last);
      ReplayConcat(base, log1, init);
    }
  }

  /** A stale replayed tick leaves no trace. */
  lemma ReplayDropsStale(base: seq<Tick>, log: seq<Tick>, tick: Tick)
    requires Replay(base, log) != []
    requires tick.time < Replay(base, log)[|Replay(base, log)| - 1].time
    ensures Replay(base, log + [tick]) == Replay(base, log)
  {
    ReplaySnoc(base, log, tick);
  }

  /** A tick whose price fields all equal `price`, with volume 1 and one trade. */
  function Flat(time: int, price: real): Tick {
    Tick(time, price, price, price, price, price, 1.0, 1)
  }

  /** The worked example: the equal-time tick replaces, the newer appends, the stale one is dropped. */
  lemma ReplayExample()
    ensures Replay([Flat(100, 10.0)], [Flat(100, 12.0), Flat(110, 15.0), Flat(90, 5.0)])
         == [Flat(100, 12.0), Flat(110, 15.0)]
  {
    var base := [Flat(100, 10.0)];
    var a, b, c := Flat(100, 12.0), Flat(110, 15.0), Flat(90, 5.0);
    assert Replay(base, [a]) == [a] by {
      ReplaySnoc(base, [], a);
      assert [] + [a] == [a];
      assert ApplyTick(base, a) == [a];
    }
    assert Replay(base, [a, b]) == [a, b] by {
      ReplaySnoc(base, [a], b);
      assert [a] + [b] == [a, b];
      assert ApplyTick([a], b) == [a, b];
    }
    assert Replay(base, [a, b, c]) == [a, b] by {
      ReplaySnoc(base, [a, b], c);
      assert [a, b] + [c] == [a, b, c];
      assert ApplyTick([a, b], c) == [a, b];
    }
  }

  /**
   * The hook's state: the displayed series and the log of every live tick
   * received since mount. `base` is the historical series most recently
   * loaded (initially empty); the displayed series is always the replay of
   * the whole log over it.
   */
  class ChartDataStore {
    var data: seq<Tick>
    var accumulatedTicks: seq<Tick>
    ghost var base: seq<Tick>

    ghost predicate Valid()
      reads this
    {
      data == Replay(base, accumulatedTicks)
    }

    constructor ()
      ensures Valid()
      ensures data == [] && accumulatedTicks == []
    {
      data := [];
      accumulatedTicks := [];
      base := [];
    }

    /**
     * The historical-data effect: when a fetched series is present, start
     * from it and replay the accumulated live ticks over it in arrival order.
     */
    method LoadHistory(initialData: Option<seq<Tick>>)
      requires Valid()
      modifies this
      ensures Valid()
      ensures accumulatedTicks == old(accumulatedTicks)
      ensures initialData.None? ==> data == old(data) && base == old(base)
      ensures initialData.Some? ==> base == initialData.value
      ensures initialData.Some? && accumulatedTicks == [] ==> data == initialData.value
      ensures initialData.Some? && TicksAscending(initialData.value) ==> TicksAscending(data)
    {
      if initialData.Some? {
        var log := accumulatedTicks;
        var mergedData := initialData.value;
        var i := 0;
        while i < |log|
          invariant 0 <= i <= |log|
          invariant mergedData == Replay(initialData.value, log[..i])
          invariant accumulatedTicks == log
        {
          var tick := log[i];
          ghost var before := mergedData;
          if |mergedData| == 0 {
            mergedData := mergedData + [tick];
          } else {
            var lastTick := mergedData[|mergedData| - 1];
            if tick.time == lastTick.time {
              mergedData := mergedData[|mergedData| - 1 := tick];
            } else if tick.time > lastTick.time {
              mergedData := mergedData + [tick];
            }
          }
          assert mergedData == ApplyTick(before, tick);
          ReplaySnoc(initialData.value, log[..i], tick);
          assert log[..i + 1] == log[..i] + [tick];
          i := i + 1;
        }
        assert log[..i] == log;
        assert mergedData == Replay(initialData.value, log);
        if TicksAscending(initialData.value) {
          ReplayAscending(initialData.value, log);
        }
        data := mergedData;
        base := initialData.value;
      }
    }

    /** A live tick: always logged, then merged into the displayed series by the same rule. */
    method HandleTick(tick: Tick)
      requires Valid()
      modifies this
      ensures Valid()
      ensures accumulatedTicks == old(accumulatedTicks) + [tick]
      ensures data == ApplyTick(old(data), tick)
      ensures base == old(base)
    {
      ReplaySnoc(base, accumulatedTicks, tick);
      accumulatedTicks := accumulatedTicks + [tick];
      data := ApplyTick(data, tick);
    }
  }
}
