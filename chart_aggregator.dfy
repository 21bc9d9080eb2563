/**
 * Bulk aggregation of ticks into fixed-interval candles, and left-padding of a
 * short candle series with placeholder candles (src/lib/chart-aggregator.ts).
 */
module ChartAggregator {
  import opened ChartTypes

  /** Start of the bucket holding time t: floor(t / intervalSeconds) * intervalSeconds. */
  function BucketOf(t: int, intervalSeconds: int): (b: int)
    requires intervalSeconds > 0
    ensures b <= t < b + intervalSeconds
    ensures b % intervalSeconds == 0
  {
    var q := t / intervalSeconds;
    MultipleHasNoRemainder(q, intervalSeconds);
    q * intervalSeconds
  }

  /** a * d >= d for a positive multiplier. */
  lemma {:induction false} MulAtLeast(a: int, d: int)
    requires a >= 1 && d >= 0
    ensures a * d >= d
  {
    if a > 1 {
      MulAtLeast(a - 1, d);
      assert a * d == (a - 1) * d + d;
    }
  }

  lemma MultipleHasNoRemainder(q: int, d: int)
    requires d > 0
    ensures (q * d) % d == 0
  {
    var r := (q * d) % d;
    var p := (q * d) / d;
    var e := q - p;
    assert q * d == p * d + r;
    assert e * d == q * d - p * d;
    assert e * d == r;
    if e >= 1 {
      MulAtLeast(e, d);
    } else if e <= -1 {
      MulAtLeast(-e, d);
    }
  }

  // ---------------------------------------------------------------------------
  // The reduction of one bucket, as a specification

  /** The ticks of `ts` whose bucket is `b`, in input order. */
  function TicksIn(ts: seq<Tick>, b: int, intervalSeconds: int): (r: seq<Tick>)
    requires intervalSeconds > 0
    ensures |r| <= |ts|
    ensures forall k :: 0 <= k < |r| ==> BucketOf(r[k].time, intervalSeconds) == b
    decreases |ts|
  {
    if ts == [] then []
    else
      var rest := TicksIn(ts[..|ts| - 1], b, intervalSeconds);
      if BucketOf(ts[|ts| - 1].time, intervalSeconds) == b then rest + [ts[|ts| - 1]] else rest
  }

  /** A candle opened by the first tick of a bucket. */
  function Open(b: int, t: Tick): (r: CandleData)
    ensures r.time == b && r.open == t.open && r.close == t.close
    ensures WellFormedTick(t) ==> WellFormedCandle(r)
  {
    CandleData(b, t.open, t.high, t.low, t.close, t.volume)
  }

  /** A later tick of the same bucket folded into its candle. */
  function Absorb(c: CandleData, t: Tick): (r: CandleData)
    ensures r.time == c.time && r.open == c.open && r.close == t.close
    ensures r.high == Max(c.high, t.high) && r.low == Min(c.low, t.low)
    ensures r.volume == c.volume + t.volume
    ensures WellFormedCandle(c) && WellFormedTick(t) ==> WellFormedCandle(r)
  {
    CandleData(c.time, c.open, Max(c.high, t.high), Min(c.low, t.low), t.close, c.volume + t.volume)
  }

  /** The candle of bucket b after processing `ts` in order (a left fold). */
  function Reduce(b: int, ts: seq<Tick>): (c: CandleData)
    requires |ts| > 0
    ensures c.time == b
    decreases |ts|
  {
    if |ts| == 1 then Open(b, ts[0]) else Absorb(Reduce(b, ts[..|ts| - 1]), ts[|ts| - 1])
  }

  lemma ReduceSnoc(b: int, ts: seq<Tick>, t: Tick)
    requires |ts| > 0
    ensures Reduce(b, ts + [t]) == Absorb(Reduce(b, ts), t)
  {
    assert (ts + [t])[..|ts|] == ts;
  }

  /** Exact sum of the volumes, as an independent (right-recursive) definition. */
  function VolumeSum(ts: seq<Tick>): real {
    if ts == [] then 0.0 else ts[0].volume + VolumeSum(ts[1..])
  }

  lemma {:induction false} VolumeSumSnoc(ts: seq<Tick>, t: Tick)
    ensures VolumeSum(ts + [t]) == VolumeSum(ts) + t.volume
  {
    if ts != [] {
      assert (ts + [t])[1..] == ts[1..] + [t];
      VolumeSumSnoc(ts[1..], t);
    }
  }

  /** Open comes from the first tick of the bucket and close from the last, in input order. */
  lemma {:induction false} ReduceOpenClose(b: int, ts: seq<Tick>)
    requires |ts| > 0
    ensures Reduce(b, ts).open == ts[0].open
    ensures Reduce(b, ts).close == ts[|ts| - 1].close
  {
    if |ts| > 1 {
      ReduceOpenClose(b, ts[..|ts| - 1]);
    }
  }

  /** High is the maximum of the bucket's highs: an upper bound that some tick attains. */
  lemma {:induction false} ReduceHighIsMax(b: int, ts: seq<Tick>)
    requires |ts| > 0
    ensures forall k :: 0 <= k < |ts| ==> ts[k].high <= Reduce(b, ts).high
    ensures exists k :: 0 <= k < |ts| && Reduce(b, ts).high == ts[k].high
  {
    if |ts| > 1 {
      var init := ts[..|ts| - 1];
      ReduceHighIsMax(b, init);
      var k0 :| 0 <= k0 < |init| && Reduce(b, init).high == init[k0].high;
      assert Reduce(b, ts) == Absorb(Reduce(b, init), ts[|ts| - 1]);
      assert init[k0] == ts[k0];
      var last := |ts| - 1;
      if Reduce(b, ts).high == ts[last].high {
        assert 0 <= last < |ts| && Reduce(b, ts).high == ts[last].high;
      } else {
        assert 0 <= k0 < |ts| && Reduce(b, ts).high == ts[k0].high;
      }
      forall k | 0 <= k < |ts| ensures ts[k].high <= Reduce(b, ts).high {
        if k < |ts| - 1 {
          assert ts[k] == init[k];
        }
      }
    } else {
      assert Reduce(b, ts).high == ts[0].high;
    }
  }

  /** Low is the minimum of the bucket's lows: a lower bound that some tick attains. */
  lemma {:induction false} ReduceLowIsMin(b: int, ts: seq<Tick>)
    requires |ts| > 0
    ensures forall k :: 0 <= k < |ts| ==> Reduce(b, ts).low <= ts[k].low
    ensures exists k :: 0 <= k < |ts| && Reduce(b, ts).low == ts[k].low
  {
    if |ts| > 1 {
      var init := ts[..|ts| - 1];
      ReduceLowIsMin(b, init);
      var k0 :| 0 <= k0 < |init| && Reduce(b, init).low == init[k0].low;
      assert Reduce(b, ts) == Absorb(Reduce(b, init), ts[|ts| - 1]);
      assert init[k0] == ts[k0];
      var last := |ts| - 1;
      if Reduce(b, ts).low == ts[last].low {
        assert 0 <= last < |ts| && Reduce(b, ts).low == ts[last].low;
      } else {
        assert 0 <= k0 < |ts| && Reduce(b, ts).low == ts[k0].low;
      }
      forall k | 0 <= k < |ts| ensures Reduce(b, ts).low <= ts[k].low {
        if k < |ts| - 1 {
          assert ts[k] == init[k];
        }
      }
    } else {
      assert Reduce(b, ts).low == ts[0].low;
    }
  }

  /** Volume is the exact sum of the bucket's volumes. */
  lemma {:induction false} ReduceVolumeIsSum(b: int, ts: seq<Tick>)
    requires |ts| > 0
    ensures Reduce(b, ts).volume == VolumeSum(ts)
  {
    var init := ts[..|ts| - 1];
    assert ts == init + [ts[|ts| - 1]];
    VolumeSumSnoc(init, ts[|ts| - 1]);
    if |ts| > 1 {
      ReduceVolumeIsSum(b, init);
    }
  }

  /** A bucket of consistent ticks reduces to a consistent candle. */
  lemma {:induction false} ReduceWellFormed(b: int, ts: seq<Tick>)
    requires |ts| > 0
    requires forall k :: 0 <= k < |ts| ==> WellFormedTick(ts[k])
    ensures WellFormedCandle(Reduce(b, ts))
  {
    if |ts| > 1 {
      ReduceWellFormed(b, ts[..|ts| - 1]);
    }
  }

  /** Every tick of the input lands in the selection of its own bucket. */
  lemma {:induction false} TicksInContains(ts: seq<Tick>, j: int, intervalSeconds: int)
    requires intervalSeconds > 0
    requires 0 <= j < |ts|
    ensures ts[j] in TicksIn(ts, BucketOf(ts[j].time, intervalSeconds), intervalSeconds)
  {
    if j < |ts| - 1 {
      var init := ts[..|ts| - 1];
      assert init[j] == ts[j];
      TicksInContains(init, j, intervalSeconds);
    }
  }

  // ---------------------------------------------------------------------------
  // Sorting the candles by time (the `sort` call at the end of aggregation)

  /** Inserts c into a series that is ascending by time and holds no candle at c's time. */
  function InsertByTime(s: seq<CandleData>, c: CandleData): (r: seq<CandleData>)
    requires CandlesAscending(s)
    requires forall k :: 0 <= k < |s| ==> s[k].time != c.time
    ensures CandlesAscending(r)
    ensures multiset(r) == multiset(s) + multiset{c}
    ensures |r| == |s| + 1
  {
    if s == [] then [c]
    else if c.time < s[0].time then
      PrependKeepsOrder(c, s);
      [c] + s
    else
      var rest := s[1..];
      assert CandlesAscending(rest) && forall k :: 0 <= k < |rest| ==> rest[k].time != c.time by {
        forall k | 0 <= k < |rest| ensures rest[k] == s[k + 1] { }
      }
      var tail := InsertByTime(rest, c);
      ConsKeepsOrder(s, c, tail);
      [s[0]] + tail
  }

  /** A candle earlier than the first of an ascending list can be put in front of it. */
  lemma PrependKeepsOrder(c: CandleData, s: seq<CandleData>)
    requires CandlesAscending(s) && s != [] && c.time < s[0].time
    ensures CandlesAscending([c] + s)
  {
    var r := [c] + s;
    forall i, j | 0 <= i < j < |r| ensures r[i].time < r[j].time {
      assert r[j] == s[j - 1];
      if i > 0 {
        assert r[i] == s[i - 1];
      }
    }
  }

  /** The head of an ascending list, put back in front of c inserted into its rest, keeps the list ordered. */
  lemma ConsKeepsOrder(s: seq<CandleData>, c: CandleData, tail: seq<CandleData>)
    requires CandlesAscending(s) && s != [] && s[0].time < c.time
    requires CandlesAscending(tail) && multiset(tail) == multiset(s[1..]) + multiset{c}
    ensures CandlesAscending([s[0]] + tail)
    ensures multiset([s[0]] + tail) == multiset(s) + multiset{c}
  {
    var head, rest := s[0], s[1..];
    assert s == [head] + rest;
    forall k | 0 <= k < |tail| ensures head.time < tail[k].time {
      assert tail[k] in multiset(tail);
      if tail[k] != c {
        assert tail[k] in multiset(rest);
        var p :| 0 <= p < |rest| && rest[p] == tail[k];
        assert rest[p] == s[p + 1];
      }
    }
    var r := [head] + tail;
    forall i, j | 0 <= i < j < |r| ensures r[i].time < r[j].time {
      assert r[j] == tail[j - 1];
      if i > 0 {
        assert r[i] == tail[i - 1];
      }
    }
  }

  /** No two candles of cs share a time. */
  predicate DistinctTimes(cs: seq<CandleData>) {
    forall i, j :: 0 <= i < j < |cs| ==> cs[i].time != cs[j].time
  }

  /** Sorting by time; the candles handed to it come from distinct map keys. */
  function SortByTime(cs: seq<CandleData>): (r: seq<CandleData>)
    requires DistinctTimes(cs)
    ensures CandlesAscending(r)
    ensures multiset(r) == multiset(cs)
    decreases |cs|
  {
    if cs == [] then []
    else
      var init := cs[..|cs| - 1];
      var last := cs[|cs| - 1];
      var sorted := SortByTime(init);
      assert forall k :: 0 <= k < |sorted| ==> sorted[k].time != last.time by {
        forall k | 0 <= k < |sorted| ensures sorted[k].time != last.time {
          assert sorted[k] in multiset(init);
          var p :| 0 <= p < |init| && init[p] == sorted[k];
        }
      }
      assert cs == init + [last];
      InsertByTime(sorted, last)
  }

  // ---------------------------------------------------------------------------
  // aggregateCandles

  /** The selection of bucket b grows by the new tick exactly when the tick falls in b. */
  lemma TicksInSnoc(ts: seq<Tick>, t: Tick, b: int, intervalSeconds: int)
    requires intervalSeconds > 0
    ensures TicksIn(ts + [t], b, intervalSeconds) ==
      if BucketOf(t.time, intervalSeconds) == b then TicksIn(ts, b, intervalSeconds) + [t]
      else TicksIn(ts, b, intervalSeconds)
  {
    assert (ts + [t])[..|ts|] == ts;
  }

  /** The bucket map holds, for each bucket that `ts` touches and for no other, the reduction of its ticks. */
  ghost predicate Summarizes(m: map<int, CandleData>, ts: seq<Tick>, intervalSeconds: int)
    requires intervalSeconds > 0
  {
    && (forall b :: b in m ==>
          TicksIn(ts, b, intervalSeconds) != [] && m[b] == Reduce(b, TicksIn(ts, b, intervalSeconds)))
    && (forall b :: b !in m ==> TicksIn(ts, b, intervalSeconds) == [])
  }

  /** One iteration of the aggregation loop keeps the map a summary of the ticks seen so far. */
  lemma SummarizesStep(m: map<int, CandleData>, ts: seq<Tick>, t: Tick, intervalSeconds: int)
    requires intervalSeconds > 0
    requires Summarizes(m, ts, intervalSeconds)
    ensures var bt := BucketOf(t.time, intervalSeconds);
      Summarizes(m[bt := if bt in m then Absorb(m[bt], t) else Open(bt, t)], ts + [t], intervalSeconds)
  {
    var bt := BucketOf(t.time, intervalSeconds);
    var m' := m[bt := if bt in m then Absorb(m[bt], t) else Open(bt, t)];
    forall b
      ensures b in m' ==>
        TicksIn(ts + [t], b, intervalSeconds) != [] && m'[b] == Reduce(b, TicksIn(ts + [t], b, intervalSeconds))
      ensures b !in m' ==> TicksIn(ts + [t], b, intervalSeconds) == []
    {
      TicksInSnoc(ts, t, b, intervalSeconds);
      if b == bt && bt in m {
        ReduceSnoc(b, TicksIn(ts, b, intervalSeconds), t);
      }
    }
  }

  /**
   * The loop of aggregation: folds the ticks into a map keyed by bucket time
   * (first tick opens, later ticks widen high/low, replace close and add
   * volume), recording the keys in insertion order.
   */
  method CollectBuckets(ticks: seq<Tick>, intervalSeconds: int) returns (candlesMap: map<int, CandleData>, keys: seq<int>)
    requires intervalSeconds > 0
    ensures forall p, q :: 0 <= p < q < |keys| ==> keys[p] != keys[q]
    ensures forall k :: 0 <= k < |keys| ==> keys[k] in candlesMap
    ensures forall b :: b in candlesMap ==> b in keys
    ensures Summarizes(candlesMap, ticks, intervalSeconds)
  {
    candlesMap := map[];
    keys := [];
    var i := 0;
    while i < |ticks|
      invariant 0 <= i <= |ticks|
      invariant forall p, q :: 0 <= p < q < |keys| ==> keys[p] != keys[q]
      invariant forall k :: 0 <= k < |keys| ==> keys[k] in candlesMap
      invariant forall b :: b in candlesMap ==> b in keys
      invariant Summarizes(candlesMap, ticks[..i], intervalSeconds)
    {
      var tick := ticks[i];
      var bucketTime := BucketOf(tick.time, intervalSeconds);
      SummarizesStep(candlesMap, ticks[..i], tick, intervalSeconds);
      assert ticks[..i + 1] == ticks[..i] + [tick];
      if bucketTime !in candlesMap {
        candlesMap := candlesMap[bucketTime := Open(bucketTime, tick)];
        keys := keys + [bucketTime];
      } else {
        var existing := candlesMap[bucketTime];
        candlesMap := candlesMap[bucketTime := Absorb(existing, tick)];
      }
      i := i + 1;
    }
    assert ticks[..i] == ticks;
  }

  /**
   * Aggregates ticks into candles: the bucket map's candles, in the map's
   * insertion order, sorted by time.
   */
  method AggregateCandles(ticks: seq<Tick>, intervalSeconds: int) returns (candles: seq<CandleData>)
    requires intervalSeconds > 0
    ensures ticks == [] ==> candles == []
    ensures CandlesAscending(candles)
    ensures forall k :: 0 <= k < |candles| ==>
      && TicksIn(ticks, candles[k].time, intervalSeconds) != []
      && candles[k] == Reduce(candles[k].time, TicksIn(ticks, candles[k].time, intervalSeconds))
    ensures forall j :: 0 <= j < |ticks| ==>
      exists k :: 0 <= k < |candles| && candles[k].time == BucketOf(ticks[j].time, intervalSeconds)
  {
    if |ticks| == 0 {
      return [];
    }
    var candlesMap, keys := CollectBuckets(ticks, intervalSeconds);
    var values := seq(|keys|, k requires 0 <= k < |keys| => candlesMap[keys[k]]);
    assert forall k :: 0 <= k < |keys| ==> values[k].time == keys[k];
    candles := SortByTime(values);
    AggregateOutcome(ticks, intervalSeconds, candlesMap, keys, values, candles);
  }

  /** From the final bucket map to the postcondition of AggregateCandles. */
  lemma AggregateOutcome(ticks: seq<Tick>, intervalSeconds: int, m: map<int, CandleData>,
                         keys: seq<int>, values: seq<CandleData>, candles: seq<CandleData>)
    requires intervalSeconds > 0
    requires Summarizes(m, ticks, intervalSeconds)
    requires forall k :: 0 <= k < |keys| ==> keys[k] in m
    requires forall b :: b in m ==> b in keys
    requires |values| == |keys| && forall k :: 0 <= k < |keys| ==> values[k] == m[keys[k]]
    requires multiset(candles) == multiset(values)
    ensures forall k :: 0 <= k < |candles| ==>
      && TicksIn(ticks, candles[k].time, intervalSeconds) != []
      && candles[k] == Reduce(candles[k].time, TicksIn(ticks, candles[k].time, intervalSeconds))
    ensures forall j :: 0 <= j < |ticks| ==>
      exists k :: 0 <= k < |candles| && candles[k].time == BucketOf(ticks[j].time, intervalSeconds)
  {
    forall k | 0 <= k < |candles|
      ensures TicksIn(ticks, candles[k].time, intervalSeconds) != []
      ensures candles[k] == Reduce(candles[k].time, TicksIn(ticks, candles[k].time, intervalSeconds))
    {
      assert candles[k] in multiset(values);
      var p :| 0 <= p < |values| && values[p] == candles[k];
      var b := keys[p];
      assert b in m && m[b].time == b;
      assert candles[k].time == b;
    }
    forall j | 0 <= j < |ticks|
      ensures exists k :: 0 <= k < |candles| && candles[k].time == BucketOf(ticks[j].time, intervalSeconds)
    {
      var b := BucketOf(ticks[j].time, intervalSeconds);
      TicksInContains(ticks, j, intervalSeconds);
      assert b in m;
      var p :| 0 <= p < |keys| && keys[p] == b;
      assert values[p] in multiset(candles);
      var k :| 0 <= k < |candles| && candles[k] == values[p];
    }
  }

  /** A bucket selection is non-empty only if some input tick falls in that bucket. */
  lemma {:induction false} TicksInWitness(ts: seq<Tick>, b: int, intervalSeconds: int)
    requires intervalSeconds > 0
    requires TicksIn(ts, b, intervalSeconds) != []
    ensures exists j :: 0 <= j < |ts| && BucketOf(ts[j].time, intervalSeconds) == b
  {
    var init := ts[..|ts| - 1];
    if BucketOf(ts[|ts| - 1].time, intervalSeconds) != b {
      TicksInWitness(init, b, intervalSeconds);
      var j :| 0 <= j < |init| && BucketOf(init[j].time, intervalSeconds) == b;
      assert ts[j] == init[j];
    }
  }

  /** What AggregateCandles promises: ascending, one reduced candle per touched bucket and no other. */
  ghost predicate IsAggregation(ticks: seq<Tick>, intervalSeconds: int, candles: seq<CandleData>)
    requires intervalSeconds > 0
  {
    && CandlesAscending(candles)
    && (forall k :: 0 <= k < |candles| ==>
          && TicksIn(ticks, candles[k].time, intervalSeconds) != []
          && candles[k] == Reduce(candles[k].time, TicksIn(ticks, candles[k].time, intervalSeconds)))
    && (forall j :: 0 <= j < |ticks| ==>
          exists k :: 0 <= k < |candles| && candles[k].time == BucketOf(ticks[j].time, intervalSeconds))
  }

  /** Some input tick falls in the bucket that opens at `b`. */
  ghost predicate BucketOfSomeTick(ticks: seq<Tick>, intervalSeconds: int, b: int)
    requires intervalSeconds > 0
  {
    exists j :: 0 <= j < |ticks| && BucketOf(ticks[j].time, intervalSeconds) == b
  }

  /** Every aggregated candle is the bucket of some input tick, so it opens on a multiple of the interval. */
  lemma AggregationAligned(ticks: seq<Tick>, intervalSeconds: int, candles: seq<CandleData>)
    requires intervalSeconds > 0
    requires IsAggregation(ticks, intervalSeconds, candles)
    ensures forall k :: 0 <= k < |candles| ==> BucketOfSomeTick(ticks, intervalSeconds, candles[k].time)
    ensures forall k :: 0 <= k < |candles| ==> candles[k].time % intervalSeconds == 0
  {
    forall k | 0 <= k < |candles|
      ensures BucketOfSomeTick(ticks, intervalSeconds, candles[k].time)
      ensures candles[k].time % intervalSeconds == 0
    {
      TicksInWitness(ticks, candles[k].time, intervalSeconds);
      var j :| 0 <= j < |ticks| && BucketOf(ticks[j].time, intervalSeconds) == candles[k].time;
    }
  }

  /** Some candle of `cs` carries time `t`. */
  ghost predicate HasTime(cs: seq<CandleData>, t: int) {
    exists k :: 0 <= k < |cs| && cs[k].time == t
  }

  /** Every time that occurs in `a` also occurs in `b`. */
  ghost predicate TimesCovered(a: seq<CandleData>, b: seq<CandleData>) {
    forall i :: 0 <= i < |a| ==> HasTime(b, a[i].time)
  }

  lemma FirstTimesAgree(a: seq<CandleData>, b: seq<CandleData>)
    requires CandlesAscending(a) && CandlesAscending(b) && a != [] && b != []
    requires TimesCovered(a, b) && TimesCovered(b, a)
    ensures a[0].time == b[0].time
  {
    assert HasTime(b, a[0].time);
    assert HasTime(a, b[0].time);
    var ka :| 0 <= ka < |b| && b[ka].time == a[0].time;
    var ib :| 0 <= ib < |a| && a[ib].time == b[0].time;
    assert a[0].time <= a[ib].time;
    assert b[0].time <= b[ka].time;
  }

  lemma TailCovered(a: seq<CandleData>, b: seq<CandleData>)
    requires CandlesAscending(a) && CandlesAscending(b) && a != [] && b != []
    requires a[0].time == b[0].time && TimesCovered(a, b)
    ensures TimesCovered(a[1..], b[1..])
  {
    forall i | 0 <= i < |a| - 1 ensures HasTime(b[1..], a[1..][i].time) {
      assert HasTime(b, a[i + 1].time);
      var k :| 0 <= k < |b| && b[k].time == a[i + 1].time;
      assert a[0].time < a[i + 1].time;
      assert b[1..][k - 1] == b[k];
    }
  }

  lemma CoveredByEmpty(a: seq<CandleData>, b: seq<CandleData>)
    requires TimesCovered(a, b)
    ensures b == [] ==> a == []
  {
    if a != [] {
      assert HasTime(b, a[0].time);
    }
  }

  /** Two ascending series whose candles have the same set of times list those times in the same order. */
  lemma {:induction false} AscendingSameTimes(a: seq<CandleData>, b: seq<CandleData>)
    requires CandlesAscending(a) && CandlesAscending(b)
    requires TimesCovered(a, b) && TimesCovered(b, a)
    ensures |a| == |b|
    ensures forall i :: 0 <= i < |a| ==> a[i].time == b[i].time
    decreases |a|
  {
    CoveredByEmpty(a, b);
    CoveredByEmpty(b, a);
    if a == [] || b == [] {
    } else {
      FirstTimesAgree(a, b);
      TailCovered(a, b);
      TailCovered(b, a);
      AscendingSameTimes(a[1..], b[1..]);
      forall i | 0 <= i < |a| ensures a[i].time == b[i].time {
        if i > 0 {
          assert a[i] == a[1..][i - 1] && b[i] == b[1..][i - 1];
        }
      }
    }
  }

  /**
   * The postcondition of AggregateCandles determines its result: aggregating
   * the same ticks twice yields the same candles in the same order.
   */
  lemma AggregationUnique(ticks: seq<Tick>, intervalSeconds: int, a: seq<CandleData>, b: seq<CandleData>)
    requires intervalSeconds > 0
    requires IsAggregation(ticks, intervalSeconds, a) && IsAggregation(ticks, intervalSeconds, b)
    ensures a == b
  {
    AggregationCovers(ticks, intervalSeconds, a, b);
    AggregationCovers(ticks, intervalSeconds, b, a);
    AscendingSameTimes(a, b);
    forall i | 0 <= i < |a| ensures a[i] == b[i] {
      assert a[i].time == b[i].time;
    }
  }

  lemma AggregationCovers(ticks: seq<Tick>, intervalSeconds: int, a: seq<CandleData>, b: seq<CandleData>)
    requires intervalSeconds > 0
    requires IsAggregation(ticks, intervalSeconds, a) && IsAggregation(ticks, intervalSeconds, b)
    ensures TimesCovered(a, b)
  {
    forall i | 0 <= i < |a| ensures HasTime(b, a[i].time) {
      TicksInWitness(ticks, a[i].time, intervalSeconds);
      var j :| 0 <= j < |ticks| && BucketOf(ticks[j].time, intervalSeconds) == a[i].time;
      var k :| 0 <= k < |b| && b[k].time == BucketOf(ticks[j].time, intervalSeconds);
    }
  }

  // ---------------------------------------------------------------------------
  // padCandlesWithEmpty

  /** The all-zero placeholder candle at time t. */
  function EmptyCandle(t: int): CandleData {
    CandleData(t, 0.0, 0.0, 0.0, 0.0, 0.0)
  }

  predicate IsPlaceholder(c: CandleData) {
    c.open == 0.0 && c.high == 0.0 && c.low == 0.0 && c.close == 0.0 && c.volume == 0.0
  }

  /** Where padding counts back from: the first candle, else the bucket of "now". */
  function PaddingAnchor(candles: seq<CandleData>, intervalSeconds: int, nowMillis: int): int
    requires intervalSeconds > 0
  {
    if |candles| > 0 then candles[0].time else BucketOf(nowMillis / 1000, intervalSeconds)
  }

  /** `n` placeholders at anchor - n*I, ..., anchor - 1*I. */
  function Placeholders(anchor: int, intervalSeconds: int, n: nat): seq<CandleData> {
    seq(n, k requires 0 <= k < n => EmptyCandle(anchor - (n - k) * intervalSeconds))
  }

  /** The padded series as a value: unchanged when long enough, else placeholders then the input. */
  function Padded(candles: seq<CandleData>, intervalSeconds: int, minCount: int, nowMillis: int): (r: seq<CandleData>)
    requires intervalSeconds > 0
    ensures |candles| >= minCount ==> r == candles
    ensures |r| == if |candles| >= minCount then |candles| else minCount
    ensures r[|r| - |candles|..] == candles
  {
    if |candles| >= minCount then candles
    else Placeholders(PaddingAnchor(candles, intervalSeconds, nowMillis), intervalSeconds, minCount - |candles|) + candles
  }

  /**
   * Prepends all-zero candles, one interval apart and counting back from the
   * anchor, until the series holds `minCount` candles.
   */
  method PadCandlesWithEmpty(candles: seq<CandleData>, intervalSeconds: int, minCount: int, nowMillis: int)
    returns (result: seq<CandleData>)
    requires intervalSeconds > 0
    ensures result == Padded(candles, intervalSeconds, minCount, nowMillis)
  {
    if |candles| >= minCount {
      return candles;
    }
    var missingCount := minCount - |candles|;
    var padded: seq<CandleData> := [];
    var startTime: int;
    if |candles| > 0 {
      startTime := candles[0].time;
    } else {
      var now := nowMillis / 1000;
      startTime := BucketOf(now, intervalSeconds);
    }
    var i := 1;
    while i <= missingCount
      invariant 1 <= i <= missingCount + 1
      invariant |padded| == i - 1
      invariant forall k :: 0 <= k < |padded| ==> padded[k] == EmptyCandle(startTime - (i - 1 - k) * intervalSeconds)
    {
      var time := startTime - i * intervalSeconds;
      padded := [EmptyCandle(time)] + padded;
      i := i + 1;
    }
    result := padded + candles;
  }

  /** Shape of a padded series: nothing is lost, and the added candles are zero and evenly spaced. */
  lemma PaddedShape(candles: seq<CandleData>, intervalSeconds: int, minCount: int, nowMillis: int)
    requires intervalSeconds > 0
    ensures var r := Padded(candles, intervalSeconds, minCount, nowMillis);
      var m := if |candles| < minCount then minCount - |candles| else 0;
      var anchor := PaddingAnchor(candles, intervalSeconds, nowMillis);
      && |r| == |candles| + m
      && |r| >= minCount
      && r[m..] == candles
      && forall k :: 0 <= k < m ==> IsPlaceholder(r[k]) && r[k].time == anchor - (m - k) * intervalSeconds
  {
    if |candles| < minCount {
      var m := minCount - |candles|;
      var anchor := PaddingAnchor(candles, intervalSeconds, nowMillis);
      var r := Padded(candles, intervalSeconds, minCount, nowMillis);
      var ps := Placeholders(anchor, intervalSeconds, m);
      assert r == ps + candles;
      assert r[m..] == candles;
      forall k | 0 <= k < m ensures IsPlaceholder(r[k]) && r[k].time == anchor - (m - k) * intervalSeconds {
        assert r[k] == ps[k] == EmptyCandle(anchor - (m - k) * intervalSeconds);
      }
    }
  }

  /** Padding a second time with the same minimum changes nothing. */
  lemma PaddedIdempotent(candles: seq<CandleData>, intervalSeconds: int, minCount: int, nowMillis: int, laterMillis: int)
    requires intervalSeconds > 0
    ensures var once := Padded(candles, intervalSeconds, minCount, nowMillis);
      Padded(once, intervalSeconds, minCount, laterMillis) == once
  {
  }

  lemma StepsBack(anchor: int, intervalSeconds: int, n: nat, k1: int, k2: int)
    requires intervalSeconds > 0
    requires 0 <= k1 < k2 < n
    ensures anchor - (n - k1) * intervalSeconds < anchor - (n - k2) * intervalSeconds < anchor
  {
    var a, c := n - k1, n - k2;
    assert a * intervalSeconds - c * intervalSeconds == (a - c) * intervalSeconds;
    MulAtLeast(a - c, intervalSeconds);
    MulAtLeast(c, intervalSeconds);
  }

  /** Padding keeps an ascending series ascending: every placeholder precedes the anchor. */
  lemma PaddedAscending(candles: seq<CandleData>, intervalSeconds: int, minCount: int, nowMillis: int)
    requires intervalSeconds > 0
    requires CandlesAscending(candles)
    ensures CandlesAscending(Padded(candles, intervalSeconds, minCount, nowMillis))
  {
    if |candles| < minCount {
      var anchor := PaddingAnchor(candles, intervalSeconds, nowMillis);
      var n := minCount - |candles|;
      var r := Padded(candles, intervalSeconds, minCount, nowMillis);
      var ps := Placeholders(anchor, intervalSeconds, n);
      assert r == ps + candles;
      forall i, j | 0 <= i < j < |r| ensures r[i].time < r[j].time {
        if j < n {
          assert r[i] == ps[i] && r[j] == ps[j];
          StepsBack(anchor, intervalSeconds, n, i, j);
        } else if i < n {
          MulAtLeast(n - i, intervalSeconds);
          assert r[i] == ps[i];
          assert r[i].time == anchor - (n - i) * intervalSeconds < anchor;
          assert r[j] == candles[j - n];
          assert anchor == candles[0].time;
          assert j - n == 0 || candles[0].time < candles[j - n].time;
        } else {
          assert r[i] == candles[i - n] && r[j] == candles[j - n];
        }
      }
    }
  }
}
