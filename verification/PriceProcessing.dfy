/** Tick-to-candle aggregation (PriceProcessor.py).
    A processor keeps the start of the current bucket, a buffer of (time, price)
    samples and two output queues. Each snapshot is forwarded to the price queue,
    appended to the buffer, and, when its bucket is later than the stored one,
    the buffer is folded into an OHLC candle that goes to the candle queue.

    Timestamps are Unix seconds (UTC). The Unix epoch starts on an hour, so the
    start of a timestamp's hour is `t - t % 3600` and its minute is
    `(t % 3600) / 60`. */
module PriceProcessing {
  import opened Wrappers

  /** GRANULARITIES: bucket widths in minutes, by name. */
  const Granularities: map<string, nat> := map["1m" := 1, "5m" := 5, "15m" := 15, "1h" := 60]

  predicate IsGranularity(g: nat) {
    g == 1 || g == 5 || g == 15 || g == 60
  }

  /** Looking a name up in GRANULARITIES; an unknown name is a KeyError. */
  function GranularityMinutes(name: string): (r: Option<nat>)
    ensures r.Some? <==> name == "1m" || name == "5m" || name == "15m" || name == "1h"
    ensures r.Some? ==> IsGranularity(r.value) && 60 % r.value == 0
  {
    if name in Granularities then Some(Granularities[name]) else None
  }

  // ---------------------------------------------------------------------------
  // Time
  // ---------------------------------------------------------------------------

  function HourStart(t: nat): nat {
    t - t % 3600
  }

  /** The `minute` field of a timestamp. */
  function Minute(t: nat): nat {
    (t % 3600) / 60
  }

  /** round_time_down: keep the hour, set the minute to `minute - minute % g`,
      drop the seconds. The result is the start of the bucket `t` falls in:
      at or before `t`, less than one bucket width before it, on a whole
      minute whose value is a multiple of `g`. */
  function RoundTimeDown(g: nat, t: nat): (r: nat)
    requires IsGranularity(g)
    ensures r <= t && t - r < 60 * g
    ensures r % 60 == 0 && Minute(r) % g == 0
  {
    RoundTimeDownFacts(g, t);
    HourStart(t) + (Minute(t) - Minute(t) % g) * 60
  }

  /** Since `g` divides 60, dropping `minute % g` minutes and the seconds is
      the same as dropping `t % (60 * g)` seconds. */
  lemma RoundTimeDownFacts(g: nat, t: nat)
    requires IsGranularity(g)
    ensures Minute(t) % g <= Minute(t)
    ensures HourStart(t) + (Minute(t) - Minute(t) % g) * 60 == t - t % (60 * g)
    ensures var r := t - t % (60 * g); r % (60 * g) == 0 && r % 60 == 0 && Minute(r) % g == 0
  {
    var h, s := t / 3600, t % 3600;
    DivMod(t, 3600);
    DivMod(s, 60);
    MinuteBucket(g, t, h, s / 60, s % 60);
    BucketStartAligned(g, t);
  }

  /** With `t` split into hours, minutes and seconds, dropping `m % g` minutes
      and the seconds leaves `t - t % (60 * g)`. */
  lemma MinuteBucket(g: nat, t: nat, h: nat, m: nat, sec: nat)
    requires IsGranularity(g)
    requires t == 3600 * h + 60 * m + sec && m < 60 && sec < 60
    ensures m % g <= m && 3600 * h + (m - m % g) * 60 == t - t % (60 * g)
  {
    DivMod(m, g);
    if g == 1 {
      Unique(t, 60, 60 * h + m, sec);
    } else if g == 5 {
      Unique(t, 300, 12 * h + m / 5, 60 * (m % 5) + sec);
    } else if g == 15 {
      Unique(t, 900, 4 * h + m / 15, 60 * (m % 15) + sec);
    } else {
      Unique(t, 3600, h, 60 * m + sec);
    }
  }

  lemma BucketStartAligned(g: nat, t: nat)
    requires IsGranularity(g)
    ensures var r := t - t % (60 * g); r % (60 * g) == 0 && r % 60 == 0 && Minute(r) % g == 0
  {
    var k := 60 * g;
    var x := t / k;
    DivMod(t, k);
    var r := t - t % k;
    assert r == k * x;
    Unique(r, k, x, 0);
    if g == 1 {
      Unique(r, 60, x, 0);
      Unique(Minute(r), 1, Minute(r), 0);
    } else if g == 5 {
      Unique(r, 60, 5 * x, 0);
      var j := x % 12;
      DivMod(x, 12);
      Unique(r, 3600, x / 12, 300 * j);
      DivMod(300 * j, 60);
      Unique(300 * j, 60, 5 * j, 0);
      Unique(5 * j, 5, j, 0);
    } else if g == 15 {
      Unique(r, 60, 15 * x, 0);
      var j := x % 4;
      DivMod(x, 4);
      Unique(r, 3600, x / 4, 900 * j);
      DivMod(900 * j, 60);
      Unique(900 * j, 60, 15 * j, 0);
      Unique(15 * j, 15, j, 0);
    } else {
      Unique(r, 60, 60 * x, 0);
      Unique(r, 3600, x, 0);
    }
  }

  lemma DivMod(t: int, k: int)
    requires k > 0
    ensures t == k * (t / k) + t % k && 0 <= t % k < k
  {}

  /** The remainder is determined by any decomposition `t == k * x + y`. */
  lemma Unique(t: int, k: int, x: int, y: int)
    requires k > 0 && t == k * x + y && 0 <= y < k
    ensures t % k == y
  {
    DivMod(t, k);
    var d := x - t / k;
    assert k * d == t % k - y;
  }

  /** The bucket start is the floor of `t` to a multiple of `60 * g` seconds. */
  lemma RoundTimeDownIsFloor(g: nat, t: nat)
    requires IsGranularity(g)
    ensures RoundTimeDown(g, t) == t - t % (60 * g)
    ensures RoundTimeDown(g, t) % (60 * g) == 0
  {
    RoundTimeDownFacts(g, t);
  }

  /** Every bucket boundary at or before `t` is at or before its bucket start. */
  lemma RoundTimeDownIsGreatest(g: nat, t: nat, b: nat)
    requires IsGranularity(g)
    requires b % (60 * g) == 0 && b <= t
    ensures b <= RoundTimeDown(g, t)
  {
    RoundTimeDownIsFloor(g, t);
    FloorIsGreatest(t, 60 * g, b);
  }

  lemma FloorIsGreatest(t: nat, k: nat, b: nat)
    requires k > 0 && b % k == 0 && b <= t
    ensures b <= t - t % k
  {
    DivMod(t, k);
    DivMod(b, k);
    Unique(t - b, k, t / k - b / k, t % k);
    DivMod(t - b, k);
  }

  /** The bucket start of any `t` in `[60 g q, 60 g (q + 1))` is `60 g q`. */
  lemma RoundTimeDownOfBucket(g: nat, t: nat, q: nat)
    requires IsGranularity(g)
    requires 60 * g * q <= t < 60 * g * (q + 1)
    ensures RoundTimeDown(g, t) == 60 * g * q
  {
    RoundTimeDownIsFloor(g, t);
    Unique(t, 60 * g, q, t - 60 * g * q);
  }

  /** Rounding twice is rounding once. */
  lemma RoundTimeDownIdempotent(g: nat, t: nat)
    requires IsGranularity(g)
    ensures RoundTimeDown(g, RoundTimeDown(g, t)) == RoundTimeDown(g, t)
  {
    var r := RoundTimeDown(g, t);
    RoundTimeDownIsFloor(g, t);
    RoundTimeDownIsGreatest(g, r, r);
  }

  /** A later timestamp never falls in an earlier bucket. */
  lemma RoundTimeDownMonotone(g: nat, t1: nat, t2: nat)
    requires IsGranularity(g)
    requires t1 <= t2
    ensures RoundTimeDown(g, t1) <= RoundTimeDown(g, t2)
  {
    RoundTimeDownIsFloor(g, t1);
    RoundTimeDownIsGreatest(g, t2, RoundTimeDown(g, t1));
  }

  // ---------------------------------------------------------------------------
  // Candles
  // ---------------------------------------------------------------------------

  /** A price snapshot taken from the shared slot (LiveStreamPrice). */
  datatype LiveStreamPrice = LiveStreamPrice(time: nat, price: real)

  /** One row of the buffer (`current_candle_data_df`). */
  datatype Sample = Sample(time: nat, price: real)

  /** The candle dictionary built by construct_candle. */
  datatype Candle = Candle(datetime: nat, open: real, high: real, low: real, close: real, volume: real)

  /** The `price` column's max(). */
  function MaxPrice(buffer: seq<Sample>): (m: real)
    requires buffer != []
    ensures exists i :: 0 <= i < |buffer| && buffer[i].price == m
    ensures forall i :: 0 <= i < |buffer| ==> buffer[i].price <= m
  {
    if |buffer| == 1 then buffer[0].price
    else
      var rest := MaxPrice(buffer[1..]);
      assert forall i :: 1 <= i < |buffer| ==> buffer[i] == buffer[1..][i - 1];
      if buffer[0].price > rest then buffer[0].price else rest
  }

  /** The `price` column's min(). */
  function MinPrice(buffer: seq<Sample>): (m: real)
    requires buffer != []
    ensures exists i :: 0 <= i < |buffer| && buffer[i].price == m
    ensures forall i :: 0 <= i < |buffer| ==> m <= buffer[i].price
  {
    if |buffer| == 1 then buffer[0].price
    else
      var rest := MinPrice(buffer[1..]);
      assert forall i :: 1 <= i < |buffer| ==> buffer[i] == buffer[1..][i - 1];
      if buffer[0].price < rest then buffer[0].price else rest
  }

  /** `c` is the OHLC summary of a non-empty buffer, stamped `datetime`: first and
      last price, the largest and smallest price that occur, and no volume (the
      buffer has no volume column). */
  ghost predicate IsOhlc(c: Candle, datetime: nat, buffer: seq<Sample>)
    requires buffer != []
  {
    && c.datetime == datetime
    && c.open == buffer[0].price
    && c.close == buffer[|buffer| - 1].price
    && (exists i :: 0 <= i < |buffer| && buffer[i].price == c.high)
    && (forall i :: 0 <= i < |buffer| ==> buffer[i].price <= c.high)
    && (exists i :: 0 <= i < |buffer| && buffer[i].price == c.low)
    && (forall i :: 0 <= i < |buffer| ==> c.low <= buffer[i].price)
    && c.volume == 0.0
  }

  /** construct_candle on a buffer: the candle it returns and the buffer it leaves. */
  function CandleFrom(datetime: nat, buffer: seq<Sample>): (r: (Option<Candle>, seq<Sample>))
    ensures buffer == [] ==> r == (None, buffer)
    ensures buffer != [] ==> r.0.Some? && IsOhlc(r.0.value, datetime, buffer) && r.1 == []
  {
    if buffer == [] then (None, buffer)
    else
      var candle := Candle(datetime, buffer[0].price, MaxPrice(buffer), MinPrice(buffer),
                           buffer[|buffer| - 1].price, 0.0);
      (Some(candle), [])
  }

  lemma OhlcBounds(c: Candle, datetime: nat, buffer: seq<Sample>)
    requires buffer != [] && IsOhlc(c, datetime, buffer)
    ensures c.low <= c.open <= c.high && c.low <= c.close <= c.high
  {
    assert buffer[|buffer| - 1].price <= c.high;
  }

  /** A buffer has exactly one OHLC summary per stamp. */
  lemma OhlcUnique(c1: Candle, c2: Candle, datetime: nat, buffer: seq<Sample>)
    requires buffer != [] && IsOhlc(c1, datetime, buffer) && IsOhlc(c2, datetime, buffer)
    ensures c1 == c2
  {
    var i :| 0 <= i < |buffer| && buffer[i].price == c1.high;
    var j :| 0 <= j < |buffer| && buffer[j].price == c2.high;
    assert c1.high <= c2.high <= c1.high;
    var k :| 0 <= k < |buffer| && buffer[k].price == c1.low;
    var l :| 0 <= l < |buffer| && buffer[l].price == c2.low;
    assert c1.low <= c2.low <= c1.low;
  }

  // ---------------------------------------------------------------------------
  // The processor as a state machine
  // ---------------------------------------------------------------------------

  /** The processor's state: `last_complete_candle_time`, the buffer, and what
      it has put on its pair's price queue and candle queue. */
  datatype Aggregator = Aggregator(
    bucket: nat,
    buffer: seq<Sample>,
    prices: seq<LiveStreamPrice>,
    candles: seq<Option<Candle>>)

  /** detect_new_candle: store the tick's bucket; if it is later than the old
      one, build a candle from the buffer (stamped with the NEW bucket, since the
      bucket is stored first) and put it on the candle queue. */
  function Detected(g: nat, a: Aggregator, price: LiveStreamPrice): (a': Aggregator)
    requires IsGranularity(g)
    ensures a'.bucket == RoundTimeDown(g, price.time) && a'.prices == a.prices
    ensures a.bucket < a'.bucket ==>
              a'.candles == a.candles + [CandleFrom(a'.bucket, a.buffer).0] &&
              a'.buffer == CandleFrom(a'.bucket, a.buffer).1
    ensures a'.bucket <= a.bucket ==> a'.candles == a.candles && a'.buffer == a.buffer
  {
    var bucket := RoundTimeDown(g, price.time);
    if a.bucket < bucket then
      var (candle, rest) := CandleFrom(bucket, a.buffer);
      a.(bucket := bucket, buffer := rest, candles := a.candles + [candle])
    else
      a.(bucket := bucket)
  }

  /** One process_price call on the snapshot read from the shared slot. */
  function Step(g: nat, a: Aggregator, snapshot: Option<LiveStreamPrice>): (a': Aggregator)
    requires IsGranularity(g)
    // A missing snapshot changes nothing.
    ensures snapshot.None? ==> a' == a
    // Every snapshot goes to the price queue, and its bucket is stored, even an earlier one.
    ensures snapshot.Some? ==>
              a'.prices == a.prices + [snapshot.value] &&
              a'.bucket == RoundTimeDown(g, snapshot.value.time)
    // A candle is emitted exactly when the bucket moves forward; it is built
    // from the buffered samples and the tick itself, stamped with the new bucket,
    // and the buffer is emptied.
    ensures snapshot.Some? && a.bucket < a'.bucket ==>
              var tick := Sample(snapshot.value.time, snapshot.value.price);
              a'.candles == a.candles + [CandleFrom(a'.bucket, a.buffer + [tick]).0] &&
              a'.buffer == []
    ensures snapshot.Some? && a'.bucket <= a.bucket ==>
              a'.candles == a.candles &&
              a'.buffer == a.buffer + [Sample(snapshot.value.time, snapshot.value.price)]
  {
    match snapshot
    case None => a
    case Some(p) =>
      var a1 := a.(prices := a.prices + [p], buffer := a.buffer + [Sample(p.time, p.price)]);
      Detected(g, a1, p)
  }

  /** A run of process_price calls. */
  function Run(g: nat, a: Aggregator, snapshots: seq<Option<LiveStreamPrice>>): Aggregator
    requires IsGranularity(g)
    decreases |snapshots|
  {
    if snapshots == [] then a else Run(g, Step(g, a, snapshots[0]), snapshots[1..])
  }

  /** The snapshots that are not None, in order. */
  function Ticks(snapshots: seq<Option<LiveStreamPrice>>): seq<LiveStreamPrice> {
    if snapshots == [] then []
    else (if snapshots[0].Some? then [snapshots[0].value] else []) + Ticks(snapshots[1..])
  }

  /** The price queue receives every snapshot exactly once, in arrival order. */
  lemma {:induction false} RunForwardsEveryTick(g: nat, a: Aggregator, snapshots: seq<Option<LiveStreamPrice>>)
    requires IsGranularity(g)
    ensures Run(g, a, snapshots).prices == a.prices + Ticks(snapshots)
    decreases |snapshots|
  {
    if snapshots != [] {
      RunForwardsEveryTick(g, Step(g, a, snapshots[0]), snapshots[1..]);
    }
  }

  /** At most one candle per snapshot, and candles already queued stay put. */
  lemma {:induction false} RunEmitsAtMostOnePerTick(g: nat, a: Aggregator, snapshots: seq<Option<LiveStreamPrice>>)
    requires IsGranularity(g)
    ensures var a' := Run(g, a, snapshots);
            |a.candles| <= |a'.candles| <= |a.candles| + |Ticks(snapshots)| &&
            a'.candles[..|a.candles|] == a.candles
    decreases |snapshots|
  {
    if snapshots != [] {
      var a1 := Step(g, a, snapshots[0]);
      RunEmitsAtMostOnePerTick(g, a1, snapshots[1..]);
      var a' := Run(g, a, snapshots);
      assert a'.candles[..|a.candles|] == a'.candles[..|a1.candles|][..|a.candles|];
    }
  }

  ghost predicate NonDecreasingTimes(ticks: seq<LiveStreamPrice>) {
    forall i, j :: 0 <= i <= j < |ticks| ==> ticks[i].time <= ticks[j].time
  }

  /** Every queued candle is present, stamped on a bucket boundary, and the
      stamps strictly increase. */
  ghost predicate CandlesOrdered(g: nat, candles: seq<Option<Candle>>)
    requires IsGranularity(g)
  {
    && (forall i :: 0 <= i < |candles| ==> candles[i].Some? && candles[i].value.datetime % (60 * g) == 0)
    && (forall i, j :: 0 <= i < j < |candles| && candles[i].Some? && candles[j].Some? ==>
          candles[i].value.datetime < candles[j].value.datetime)
  }

  /** The last queued stamp is at most `bound`. */
  ghost predicate LastStampAtMost(candles: seq<Option<Candle>>, bound: nat) {
    candles != [] && candles[|candles| - 1].Some? ==> candles[|candles| - 1].value.datetime <= bound
  }

  /** Every tick is at `lo` or later. */
  ghost predicate TimesFrom(lo: nat, ticks: seq<LiveStreamPrice>) {
    forall i :: 0 <= i < |ticks| ==> lo <= ticks[i].time
  }

  lemma StepKeepsCandlesOrdered(g: nat, a: Aggregator, p: LiveStreamPrice)
    requires IsGranularity(g)
    requires CandlesOrdered(g, a.candles) && LastStampAtMost(a.candles, a.bucket)
    requires LastStampAtMost(a.candles, RoundTimeDown(g, p.time))
    ensures var a1 := Step(g, a, Some(p));
            CandlesOrdered(g, a1.candles) && LastStampAtMost(a1.candles, a1.bucket)
  {
    var a1 := Step(g, a, Some(p));
    var n := |a.candles|;
    if a.bucket < a1.bucket {
      var c := a1.candles[n].value;
      RoundTimeDownIsFloor(g, p.time);
      assert c.datetime == a1.bucket;
      forall i | 0 <= i < n
        ensures a1.candles[i].value.datetime < c.datetime
      {
        assert a.candles[i].value.datetime <= a.candles[n - 1].value.datetime;
      }
    }
  }

  lemma {:induction false} RunKeepsCandlesOrdered(g: nat, a: Aggregator, snapshots: seq<Option<LiveStreamPrice>>, lo: nat)
    requires IsGranularity(g)
    requires CandlesOrdered(g, a.candles) && LastStampAtMost(a.candles, a.bucket)
    requires LastStampAtMost(a.candles, RoundTimeDown(g, lo))
    requires NonDecreasingTimes(Ticks(snapshots)) && TimesFrom(lo, Ticks(snapshots))
    ensures CandlesOrdered(g, Run(g, a, snapshots).candles)
    decreases |snapshots|
  {
    if snapshots != [] {
      var a1 := Step(g, a, snapshots[0]);
      var rest := snapshots[1..];
      var off := if snapshots[0].Some? then 1 else 0;
      assert Ticks(snapshots) == (if snapshots[0].Some? then [snapshots[0].value] else []) + Ticks(rest);
      assert forall i :: 0 <= i < |Ticks(rest)| ==> Ticks(rest)[i] == Ticks(snapshots)[i + off];
      if snapshots[0].Some? {
        var p := snapshots[0].value;
        assert Ticks(snapshots)[0] == p;
        RoundTimeDownMonotone(g, lo, p.time);
        StepKeepsCandlesOrdered(g, a, p);
        RunKeepsCandlesOrdered(g, a1, rest, p.time);
      } else {
        RunKeepsCandlesOrdered(g, a1, rest, lo);
      }
    }
  }

  /** Starting from a processor that has queued no candle, ticks with
      non-decreasing timestamps yield candles whose stamps are bucket boundaries
      in strictly increasing order. */
  lemma CandleStampsIncrease(g: nat, a: Aggregator, snapshots: seq<Option<LiveStreamPrice>>)
    requires IsGranularity(g)
    requires a.candles == []
    requires NonDecreasingTimes(Ticks(snapshots))
    ensures CandlesOrdered(g, Run(g, a, snapshots).candles)
  {
    RunKeepsCandlesOrdered(g, a, snapshots, 0);
  }

  /** A tick in the stored bucket is only queued and buffered. */
  lemma StepWithinBucket(g: nat, a: Aggregator, p: LiveStreamPrice)
    requires IsGranularity(g) && RoundTimeDown(g, p.time) == a.bucket
    ensures Step(g, a, Some(p)) == a.(buffer := a.buffer + [Sample(p.time, p.price)], prices := a.prices + [p])
  {}

  // A worked example: five-minute candles, ticks at 00:00:00 (price 100),
  // 00:02:00 (105), 00:04:59 (98) and 00:05:01 (110) on 1970-01-01.

  /** The four ticks summarise to open 100, high 110, low 98, close 110. */
  lemma ScenarioCandle(b: seq<Sample>)
    requires b == [Sample(0, 100.0), Sample(120, 105.0), Sample(299, 98.0), Sample(301, 110.0)]
    ensures CandleFrom(300, b).0 == Some(Candle(300, 100.0, 110.0, 98.0, 110.0, 0.0))
  {
    var c := Candle(300, 100.0, 110.0, 98.0, 110.0, 0.0);
    assert IsOhlc(c, 300, b) by {
      assert b[3].price == c.high && b[2].price == c.low;
    }
    OhlcUnique(CandleFrom(300, b).0.value, c, 300, b);
  }

  /** The first three ticks fall in the bucket starting 00:00 and are only buffered. */
  lemma ScenarioFillsBucket(p1: LiveStreamPrice, p2: LiveStreamPrice, p3: LiveStreamPrice)
    requires p1 == LiveStreamPrice(0, 100.0) && p2 == LiveStreamPrice(120, 105.0)
    requires p3 == LiveStreamPrice(299, 98.0)
    ensures var s1, s2, s3 := Sample(0, 100.0), Sample(120, 105.0), Sample(299, 98.0);
            && Step(5, Aggregator(0, [], [], []), Some(p1)) == Aggregator(0, [s1], [p1], [])
            && Step(5, Aggregator(0, [s1], [p1], []), Some(p2)) == Aggregator(0, [s1, s2], [p1, p2], [])
            && Step(5, Aggregator(0, [s1, s2], [p1, p2], []), Some(p3)) == Aggregator(0, [s1, s2, s3], [p1, p2, p3], [])
  {
    var s1, s2, s3 := Sample(0, 100.0), Sample(120, 105.0), Sample(299, 98.0);
    StepInFirstBucket(Aggregator(0, [], [], []), p1);
    assert [] + [s1] == [s1] && [] + [p1] == [p1];
    StepInFirstBucket(Aggregator(0, [s1], [p1], []), p2);
    assert [s1] + [s2] == [s1, s2] && [p1] + [p2] == [p1, p2];
    StepInFirstBucket(Aggregator(0, [s1, s2], [p1, p2], []), p3);
    assert [s1, s2] + [s3] == [s1, s2, s3] && [p1, p2] + [p3] == [p1, p2, p3];
  }

  lemma StepInFirstBucket(a: Aggregator, p: LiveStreamPrice)
    requires a.bucket == 0 && p.time < 300
    ensures Step(5, a, Some(p)) == a.(buffer := a.buffer + [Sample(p.time, p.price)], prices := a.prices + [p])
  {
    RoundTimeDownOfBucket(5, p.time, 0);
    StepWithinBucket(5, a, p);
  }

  /** The fourth tick, at 00:05:01, crosses into the next bucket: the candle
      includes it and is stamped 00:05, the start of the new bucket. */
  lemma ScenarioCrossing(p1: LiveStreamPrice, p2: LiveStreamPrice, p3: LiveStreamPrice, p4: LiveStreamPrice)
    requires p1 == LiveStreamPrice(0, 100.0) && p2 == LiveStreamPrice(120, 105.0)
    requires p3 == LiveStreamPrice(299, 98.0) && p4 == LiveStreamPrice(301, 110.0)
    ensures var s1, s2, s3 := Sample(0, 100.0), Sample(120, 105.0), Sample(299, 98.0);
            Step(5, Aggregator(0, [s1, s2, s3], [p1, p2, p3], []), Some(p4)) ==
            Aggregator(300, [], [p1, p2, p3, p4], [Some(Candle(300, 100.0, 110.0, 98.0, 110.0, 0.0))])
  {
    var s1, s2, s3, s4 := Sample(0, 100.0), Sample(120, 105.0), Sample(299, 98.0), Sample(301, 110.0);
    RoundTimeDownOfBucket(5, p4.time, 1);
    assert [s1, s2, s3] + [s4] == [s1, s2, s3, s4] && [p1, p2, p3] + [p4] == [p1, p2, p3, p4];
    ScenarioCandle([s1, s2, s3, s4]);
  }

  /** The whole run from a processor started at 00:00 with nothing buffered. */
  lemma FiveMinuteScenario(p1: LiveStreamPrice, p2: LiveStreamPrice, p3: LiveStreamPrice, p4: LiveStreamPrice)
    requires p1 == LiveStreamPrice(0, 100.0) && p2 == LiveStreamPrice(120, 105.0)
    requires p3 == LiveStreamPrice(299, 98.0) && p4 == LiveStreamPrice(301, 110.0)
    ensures Run(5, Aggregator(0, [], [], []), [Some(p1), Some(p2), Some(p3), Some(p4)]) ==
            Aggregator(300, [], [p1, p2, p3, p4], [Some(Candle(300, 100.0, 110.0, 98.0, 110.0, 0.0))])
  {
    var s1, s2, s3 := Sample(0, 100.0), Sample(120, 105.0), Sample(299, 98.0);
    var ticks := [Some(p1), Some(p2), Some(p3), Some(p4)];
    ScenarioFillsBucket(p1, p2, p3);
    ScenarioCrossing(p1, p2, p3, p4);
    RunFirst(5, Aggregator(0, [], [], []), ticks);
    assert ticks[1..] == [Some(p2), Some(p3), Some(p4)];
    RunFirst(5, Aggregator(0, [s1], [p1], []), ticks[1..]);
    assert ticks[1..][1..] == [Some(p3), Some(p4)];
    RunFirst(5, Aggregator(0, [s1, s2], [p1, p2], []), ticks[1..][1..]);
    assert ticks[1..][1..][1..] == [Some(p4)];
    RunFirst(5, Aggregator(0, [s1, s2, s3], [p1, p2, p3], []), ticks[1..][1..][1..]);
    assert ticks[1..][1..][1..][1..] == [];
  }

  lemma RunFirst(g: nat, a: Aggregator, snapshots: seq<Option<LiveStreamPrice>>)
    requires IsGranularity(g) && snapshots != []
    ensures Run(g, a, snapshots) == Run(g, Step(g, a, snapshots[0]), snapshots[1..])
  {}

  // ---------------------------------------------------------------------------
  // The processor object
  // ---------------------------------------------------------------------------

  class PriceProcessor {
    const pair: string
    const granularity: nat
    var lastCompleteCandleTime: nat
    var currentCandleData: seq<Sample>
    /** What this processor has put on `price_queue[pair]` and `candle_queue[pair]`. */
    var priceQueue: seq<LiveStreamPrice>
    var candleQueue: seq<Option<Candle>>

    ghost predicate Valid()
      reads this
    {
      IsGranularity(granularity)
    }

    function State(): Aggregator
      reads this
    {
      Aggregator(lastCompleteCandleTime, currentCandleData, priceQueue, candleQueue)
    }

    /** __init__, once the granularity name has been looked up; `now` is the clock reading. */
    constructor (pair: string, granularity: nat, now: nat)
      requires IsGranularity(granularity)
      ensures Valid() && this.pair == pair && this.granularity == granularity
      ensures State() == Aggregator(RoundTimeDown(granularity, now), [], [], [])
    {
      this.pair := pair;
      this.granularity := granularity;
      currentCandleData := [];
      priceQueue := [];
      candleQueue := [];
      lastCompleteCandleTime := 0;
      new;
      SetLastCandle(now);
    }

    /** __init__ from the granularity's name: an unknown name raises KeyError,
        modelled as no processor. */
    static method Create(pair: string, name: string, now: nat) returns (r: Option<PriceProcessor>)
      ensures r.None? <==> name !in Granularities
      ensures r.Some? ==> fresh(r.value) && r.value.Valid() && r.value.pair == pair &&
                          r.value.granularity == Granularities[name] &&
                          r.value.State() == Aggregator(RoundTimeDown(Granularities[name], now), [], [], [])
    {
      var g := GranularityMinutes(name);
      if g.None? {
        return None;
      }
      var p := new PriceProcessor(pair, g.value, now);
      return Some(p);
    }

    method SetLastCandle(priceTime: nat)
      requires Valid()
      modifies this`lastCompleteCandleTime
      ensures lastCompleteCandleTime == RoundTimeDown(granularity, priceTime)
    {
      lastCompleteCandleTime := RoundTimeDown(granularity, priceTime);
    }

    method UpdateCandle(candle: Option<Candle>)
      modifies this`candleQueue
      ensures candleQueue == old(candleQueue) + [candle]
    {
      candleQueue := candleQueue + [candle];
    }

    method UpdatePrice(price: LiveStreamPrice)
      modifies this`priceQueue
      ensures priceQueue == old(priceQueue) + [price]
    {
      priceQueue := priceQueue + [price];
    }

    method ConstructCandle() returns (candle: Option<Candle>)
      modifies this`currentCandleData
      ensures (candle, currentCandleData) == CandleFrom(lastCompleteCandleTime, old(currentCandleData))
    {
      if currentCandleData != [] {
        var buffer := currentCandleData;
        candle := Some(Candle(lastCompleteCandleTime, buffer[0].price, MaxPrice(buffer), MinPrice(buffer),
                              buffer[|buffer| - 1].price, 0.0));
        currentCandleData := [];
      } else {
        candle := None;
      }
    }

    method DetectNewCandle(price: LiveStreamPrice)
      requires Valid()
      modifies this`lastCompleteCandleTime, this`currentCandleData, this`candleQueue
      ensures State() == Detected(granularity, old(State()), price)
    {
      var previous := lastCompleteCandleTime;
      SetLastCandle(price.time);
      if previous < lastCompleteCandleTime {
        var candle := ConstructCandle();
        UpdateCandle(candle);
      }
    }

    /** process_price, with the deep copy of `shared[pair]` taken under the lock
        passed in as `snapshot`. */
    method ProcessPrice(snapshot: Option<LiveStreamPrice>)
      requires Valid()
      modifies this
      ensures Valid()
      ensures State() == Step(granularity, old(State()), snapshot)
    {
      if snapshot.Some? {
        var price := snapshot.value;
        UpdatePrice(price);
        currentCandleData := currentCandleData + [Sample(price.time, price.price)];
        DetectNewCandle(price);
      }
    }
  }
}
