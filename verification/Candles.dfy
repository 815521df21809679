/**
 * Candles built tick by tick on six timeframes, against plain aggregation of the one-minute bars.
 * Bar times are milliseconds; prices are reals already rounded to the symbol's digits.
 */
module Candles {
  import opened Division
  import opened Options
  import opened TradingMath

  datatype Timeframe = M1 | M5 | M15 | H1 | H4 | D1

  const TIMEFRAMES: seq<Timeframe> := [M1, M5, M15, H1, H4, D1]

  const MINUTE_MS := 60_000

  function Minutes(tf: Timeframe): (k: int)
    ensures k > 0
  {
    match tf
    case M1 => 1
    case M5 => 5
    case M15 => 15
    case H1 => 60
    case H4 => 240
    case D1 => 1440
  }

  function Size(tf: Timeframe): (ms: int)
    ensures ms > 0
  {
    Minutes(tf) * MINUTE_MS
  }

  datatype Bar = Bar(time: int, open: real, high: real, low: real, close: real, volume: int)

  function Bucket(ts: int, ms: int): int
    requires ms > 0
  {
    ts / ms * ms
  }

  function NewBar(time: int, price: real): Bar { Bar(time, price, price, price, price, 1) }

  function MaxPrice(a: real, b: real): real { if a > b then a else b }

  function MinPrice(a: real, b: real): real { if a < b then a else b }

  /** A price of `volume` ticks joins a bar. */
  function Merge(bar: Bar, price: real, volume: int): Bar {
    bar.(high := MaxPrice(price, bar.high), low := MinPrice(price, bar.low), close := price, volume := bar.volume + volume)
  }

  /** A later bar of the same bucket joins an aggregated one. */
  function Join(last: Bar, b: Bar): Bar {
    last.(high := MaxPrice(b.high, last.high), low := MinPrice(b.low, last.low), close := b.close, volume := last.volume + b.volume)
  }

  // ----- aggregation -----

  function Absorb(out: seq<Bar>, b: Bar, ms: int): (r: seq<Bar>)
    requires ms > 0
    ensures r != []
  {
    var t := Bucket(b.time, ms);
    if out != [] && out[|out| - 1].time == t then out[..|out| - 1] + [Join(out[|out| - 1], b)]
    else out + [b.(time := t)]
  }

  function Aggregate(bars: seq<Bar>, ms: int): (out: seq<Bar>)
    requires ms > 0
    ensures bars != [] ==> out != []
  {
    if bars == [] then [] else Absorb(Aggregate(bars[..|bars| - 1], ms), bars[|bars| - 1], ms)
  }

  function Last(bars: seq<Bar>): Bar
    requires bars != []
  {
    bars[|bars| - 1]
  }

  method AggregateBars(bars: seq<Bar>, ms: int) returns (out: seq<Bar>)
    requires ms > 0
    ensures out == Aggregate(bars, ms)
  {
    out := [];
    for i := 0 to |bars|
      invariant out == Aggregate(bars[..i], ms)
    {
      assert bars[..i + 1] == bars[..i] + [bars[i]];
      AggregateMore(bars[..i], bars[i], ms);
      out := AbsorbBar(out, bars[i], ms);
    }
    assert bars[..|bars|] == bars;
  }

  method AbsorbBar(bars: seq<Bar>, b: Bar, ms: int) returns (out: seq<Bar>)
    requires ms > 0
    ensures out == Absorb(bars, b, ms)
  {
    out := bars;
    var t := Bucket(b.time, ms);
    if out != [] && out[|out| - 1].time == t {
      var last := out[|out| - 1];
      if b.high > last.high { last := last.(high := b.high); }
      if b.low < last.low { last := last.(low := b.low); }
      out := out[|out| - 1 := last.(close := b.close, volume := last.volume + b.volume)];
    } else {
      out := out + [b.(time := t)];
    }
  }

  lemma AggregateMore(bars: seq<Bar>, b: Bar, ms: int)
    requires ms > 0
    ensures Aggregate(bars + [b], ms) == Absorb(Aggregate(bars, ms), b, ms)
  {
    assert (bars + [b])[..|bars|] == bars;
  }

  lemma {:induction false} LastTime(bars: seq<Bar>, ms: int)
    requires ms > 0 && bars != []
    ensures Last(Aggregate(bars, ms)).time == Bucket(Last(bars).time, ms)
  {
  }

  // ----- buckets within buckets -----

  lemma BucketBracket(ts: int, ms: int)
    requires ms > 0
    ensures Bucket(ts, ms) <= ts < Bucket(ts, ms) + ms
  {
    assert ts == ts / ms * ms + ts % ms;
  }

  /** The bucket of a bucket start is the bucket of the instant, when the sizes divide. */
  lemma BucketOfBucket(ts: int, ms: int, k: int)
    requires ms > 0 && k > 0
    ensures ms * k > 0 && Bucket(Bucket(ts, ms), ms * k) == Bucket(ts, ms * k)
  {
    NestedDiv(ts, ms, k);
  }

  lemma BucketMonotone(a: int, b: int, ms: int)
    requires ms > 0 && a <= b
    ensures Bucket(a, ms) <= Bucket(b, ms)
  {
    BucketBracket(a, ms);
    BucketBracket(b, ms);
    var e := a / ms - b / ms;
    assert e * ms == Bucket(a, ms) - Bucket(b, ms);
    if e >= 1 {
      AtLeastOnce(e, ms);
    } else {
      assert e * ms <= 0;
    }
  }

  lemma BucketIdempotent(ts: int, ms: int)
    requires ms > 0
    ensures Bucket(Bucket(ts, ms), ms) == Bucket(ts, ms)
  {
    BucketOfBucket(ts, ms, 1);
  }

  /** A bucket of any timeframe is found from the minute. */
  lemma BucketOfMinute(ts: int, tf: Timeframe)
    ensures Bucket(Bucket(ts, MINUTE_MS), Size(tf)) == Bucket(ts, Size(tf))
  {
    BucketOfBucket(ts, MINUTE_MS, Minutes(tf));
    assert MINUTE_MS * Minutes(tf) == Size(tf);
  }

  // ----- aggregating twice -----

  lemma JoinAssociative(a: Bar, b: Bar, c: Bar)
    ensures Join(Join(a, b), c) == Join(a, Join(b, c))
  {
  }

  /** One more bar of the same fine bucket lands in the same coarse bar. */
  lemma AbsorbJoined(out: seq<Bar>, l: Bar, b: Bar, ms: int)
    requires ms > 0 && Bucket(l.time, ms) == Bucket(b.time, ms)
    ensures Absorb(out, Join(l, b), ms) == Absorb(Absorb(out, l, ms), b, ms)
  {
    var t := Bucket(l.time, ms);
    var first := Absorb(out, l, ms);
    assert first[|first| - 1].time == t;
    if out != [] && out[|out| - 1].time == t {
      JoinAssociative(out[|out| - 1], l, b);
      assert first[..|first| - 1] == out[..|out| - 1];
    } else {
      assert first[..|first| - 1] == out;
    }
  }

  /** Aggregating to one size and then to a multiple of it is aggregating once, for any bars in any order. */
  lemma {:induction false} AggregateTwice(bars: seq<Bar>, ms: int, k: int)
    requires ms > 0 && k > 0
    ensures ms * k > 0 && Aggregate(Aggregate(bars, ms), ms * k) == Aggregate(bars, ms * k)
  {
    assert ms * k > 0 by { assert ms * k >= ms; }
    if bars != [] {
      var front, b := bars[..|bars| - 1], bars[|bars| - 1];
      AggregateTwice(front, ms, k);
      AggregateOneMore(front, b, ms, k);
    }
  }

  lemma AggregateOneMore(front: seq<Bar>, b: Bar, ms: int, k: int)
    requires ms > 0 && k > 0 && ms * k > 0
    requires Aggregate(Aggregate(front, ms), ms * k) == Aggregate(front, ms * k)
    ensures Aggregate(Absorb(Aggregate(front, ms), b, ms), ms * k) == Absorb(Aggregate(front, ms * k), b, ms * k)
  {
    BucketOfBucket(b.time, ms, k);
    AbsorbOnTop(Aggregate(front, ms), b, Bucket(b.time, ms), ms * k);
  }

  /** A bar whose fine bucket starts at `t` lands in the same coarse bar as that bucket. */
  lemma AbsorbOnTop(fine: seq<Bar>, b: Bar, t: int, big: int)
    requires big > 0 && Bucket(t, big) == Bucket(b.time, big)
    ensures var more := if fine != [] && fine[|fine| - 1].time == t
                        then fine[..|fine| - 1] + [Join(fine[|fine| - 1], b)] else fine + [b.(time := t)];
            Aggregate(more, big) == Absorb(Aggregate(fine, big), b, big)
  {
    if fine != [] && fine[|fine| - 1].time == t {
      var head, l := fine[..|fine| - 1], fine[|fine| - 1];
      assert head + [l] == fine;
      AggregateMore(head, l, big);
      AggregateMore(head, Join(l, b), big);
      AbsorbJoined(Aggregate(head, big), l, b, big);
    } else {
      AggregateMore(fine, b.(time := t), big);
    }
  }

  // ----- the builder, one symbol -----

  type Current = map<Timeframe, Bar>

  datatype Tick = Tick(ts: int, price: real)

  /** What a tick does to the current bar of one timeframe. */
  function TickBar(cur: Option<Bar>, t: int, price: real): Bar {
    if cur.Some? && cur.value.time == t then Merge(cur.value, price, 1)
    else if cur.Some? && cur.value.time > t then cur.value
    else NewBar(t, price)
  }

  function Get(m: Current, tf: Timeframe): Option<Bar> { if tf in m then Some(m[tf]) else None }

  /** Bars of the timeframes `tfs` written over the current ones. */
  function Overlay(m: Current, tfs: seq<Timeframe>, bar: Timeframe -> Bar): Current {
    if tfs == [] then m else Overlay(m, tfs[..|tfs| - 1], bar)[tfs[|tfs| - 1] := bar(tfs[|tfs| - 1])]
  }

  lemma {:induction false} OverlayAt(m: Current, tfs: seq<Timeframe>, bar: Timeframe -> Bar, tf: Timeframe)
    ensures Get(Overlay(m, tfs, bar), tf) == if tf in tfs then Some(bar(tf)) else Get(m, tf)
  {
    if tfs != [] {
      var n := |tfs| - 1;
      OverlayAt(m, tfs[..n], bar, tf);
      assert tf in tfs <==> tf in tfs[..n] || tf == tfs[n];
    }
  }

  function BarAfter(m: Current, tick: Tick): Timeframe -> Bar {
    (tf: Timeframe) => TickBar(Get(m, tf), Bucket(tick.ts, Size(tf)), tick.price)
  }

  function Ticked(m: Current, tick: Tick, tfs: seq<Timeframe>): Current { Overlay(m, tfs, BarAfter(m, tick)) }

  /** The one-minute bar that a tick closes. */
  function ClosedBy(m: Current, tick: Tick): Option<Bar> {
    if M1 in m && m[M1].time < Bucket(tick.ts, MINUTE_MS) then Some(m[M1]) else None
  }

  /** A tick older than a bar is not reported on its timeframe. */
  predicate Moves(m: Current, tick: Tick, tf: Timeframe) {
    tf !in m || m[tf].time <= Bucket(tick.ts, Size(tf))
  }

  function Updates(m: Current, tick: Tick, tfs: seq<Timeframe>): seq<(Timeframe, Bar)> {
    if tfs == [] then []
    else
      var tf := tfs[|tfs| - 1];
      Updates(m, tick, tfs[..|tfs| - 1]) + if Moves(m, tick, tf) then [(tf, BarAfter(m, tick)(tf))] else []
  }

  function SortByTime(bars: seq<Bar>): (r: seq<Bar>)
    ensures |r| == |bars|
  {
    if bars == [] then [] else Insert(SortByTime(bars[..|bars| - 1]), bars[|bars| - 1])
  }

  /** Behind every bar that is not later, so bars of one time keep their order. */
  function Insert(sorted: seq<Bar>, b: Bar): (r: seq<Bar>)
    ensures |r| == |sorted| + 1
  {
    if sorted == [] || sorted[|sorted| - 1].time <= b.time then sorted + [b]
    else Insert(sorted[..|sorted| - 1], b) + [sorted[|sorted| - 1]]
  }

  /** The last bar of the aggregation to each timeframe. */
  function LastOf(bars: seq<Bar>): Timeframe -> Bar
    requires bars != []
  {
    (tf: Timeframe) => Last(Aggregate(bars, Size(tf)))
  }

  function Restored(bars: seq<Bar>, tfs: seq<Timeframe>): Current {
    if bars == [] then map[] else Overlay(map[], tfs, LastOf(SortByTime(bars)))
  }

  class CandleBuilder {
    const timeframes: seq<Timeframe>
    var bars: map<string, Current>
    var digits: map<string, nat>

    constructor (timeframes: seq<Timeframe>)
      ensures this.timeframes == timeframes && bars == map[] && digits == map[]
    {
      this.timeframes := timeframes;
      bars, digits := map[], map[];
    }

    /** From here on the symbol's mid prices are rounded to `d` digits; other symbols' stay as they are. */
    method SetDigits(symbol: string, d: nat)
      modifies this`digits
      ensures digits == old(digits)[symbol := d]
      ensures forall q :: Price(symbol, q) == RoundPrice((q.bid + q.ask) / 2.0, d)
      ensures forall other, q :: other != symbol ==> Price(other, q) == old(Price(other, q))
    {
      digits := digits[symbol := d];
    }

    function Of(symbol: string): Current
      reads this
    {
      if symbol in bars then bars[symbol] else map[]
    }

    function Price(symbol: string, q: Quote): real
      reads this
    {
      RoundPrice((q.bid + q.ask) / 2.0, if symbol in digits then digits[symbol] else 5)
    }

    method Restore(symbol: string, bars1m: seq<Bar>)
      modifies this`bars
      ensures bars == if bars1m == [] then old(bars) else old(bars)[symbol := Restored(bars1m, timeframes)]
    {
      if bars1m == [] {
        return;
      }
      var sorted := SortByTime(bars1m);
      var current: Current := map[];
      for i := 0 to |timeframes|
        invariant bars == old(bars) && current == Overlay(map[], timeframes[..i], LastOf(sorted))
      {
        var agg := AggregateBars(sorted, Size(timeframes[i]));
        assert timeframes[..i + 1][..i] == timeframes[..i];
        current := current[timeframes[i] := agg[|agg| - 1]];
      }
      assert timeframes[..|timeframes|] == timeframes;
      bars := bars[symbol := current];
    }

    method OnTick(symbol: string, ts: int, q: Quote) returns (updated: seq<(Timeframe, Bar)>, closed: Option<Bar>)
      requires NoneTwice(timeframes) && M1 in timeframes
      modifies this`bars
      ensures bars == old(bars)[symbol := Ticked(old(Of(symbol)), Tick(ts, Price(symbol, q)), timeframes)]
      ensures updated == Updates(old(Of(symbol)), Tick(ts, Price(symbol, q)), timeframes)
      ensures closed == ClosedBy(old(Of(symbol)), Tick(ts, Price(symbol, q)))
    {
      var tick := Tick(ts, Price(symbol, q));
      var before := Of(symbol);
      var current := before;
      updated, closed := [], None;
      for i := 0 to |timeframes|
        invariant updated == Updates(before, tick, timeframes[..i])
        invariant closed == if M1 in timeframes[..i] then ClosedBy(before, tick) else None
        invariant bars == old(bars) && current == Ticked(before, tick, timeframes[..i])
      {
        var tf := timeframes[i];
        var t := Bucket(ts, Size(tf));
        OverlayMore(before, timeframes, i, BarAfter(before, tick));
        UpdatesMore(before, tick, timeframes, i);
        current, updated, closed := TickOne(before, tick, tf, t, current, updated, closed);
      }
      assert timeframes[..|timeframes|] == timeframes;
      bars := bars[symbol := current];
    }
  }

  /** One round of the tick loop. */
  method TickOne(before: Current, tick: Tick, tf: Timeframe, t: int, current: Current, updated: seq<(Timeframe, Bar)>, closed: Option<Bar>)
    returns (current2: Current, updated2: seq<(Timeframe, Bar)>, closed2: Option<Bar>)
    requires t == Bucket(tick.ts, Size(tf)) && Get(current, tf) == Get(before, tf) && (tf.M1? ==> closed.None?)
    ensures current2 == current[tf := BarAfter(before, tick)(tf)]
    ensures updated2 == updated + if Moves(before, tick, tf) then [(tf, BarAfter(before, tick)(tf))] else []
    ensures closed2 == if tf.M1? then ClosedBy(before, tick) else closed
  {
    var cur := Get(current, tf);
    current2, updated2, closed2 := current, updated, closed;
    if cur.Some? && cur.value.time == t {
      current2 := current[tf := Merge(cur.value, tick.price, 1)];
      updated2 := updated + [(tf, current2[tf])];
    } else if cur.Some? && cur.value.time > t {
      // A tick from before the current bar is ignored here.
    } else {
      if cur.Some? && tf.M1? {
        closed2 := cur;
      }
      current2 := current[tf := NewBar(t, tick.price)];
      updated2 := updated + [(tf, current2[tf])];
    }
  }

  ghost predicate NoneTwice(tfs: seq<Timeframe>) {
    forall i, j :: 0 <= i < j < |tfs| ==> tfs[i] != tfs[j]
  }

  lemma OverlayMore(m: Current, tfs: seq<Timeframe>, i: nat, bar: Timeframe -> Bar)
    requires i < |tfs| && NoneTwice(tfs)
    ensures tfs[i] !in tfs[..i] && (M1 in tfs[..i + 1] <==> M1 in tfs[..i] || tfs[i].M1?)
    ensures Get(Overlay(m, tfs[..i], bar), tfs[i]) == Get(m, tfs[i])
    ensures Overlay(m, tfs[..i + 1], bar) == Overlay(m, tfs[..i], bar)[tfs[i] := bar(tfs[i])]
  {
    assert tfs[..i + 1][..i] == tfs[..i] && tfs[..i + 1][i] == tfs[i];
    OverlayAt(m, tfs[..i], bar, tfs[i]);
  }

  lemma UpdatesMore(m: Current, tick: Tick, tfs: seq<Timeframe>, i: nat)
    requires i < |tfs|
    ensures Updates(m, tick, tfs[..i + 1])
            == Updates(m, tick, tfs[..i]) + if Moves(m, tick, tfs[i]) then [(tfs[i], BarAfter(m, tick)(tfs[i]))] else []
  {
    assert tfs[..i + 1][..i] == tfs[..i];
  }

  // ----- the builder against aggregation -----

  /** The one-minute bars closed so far, oldest first, and the bars being built. */
  datatype History = History(closed: seq<Bar>, cur: Current)

  function Feed(h: History, tick: Tick, tfs: seq<Timeframe>): History {
    var closed := ClosedBy(h.cur, tick);
    History(if closed.Some? then h.closed + [closed.value] else h.closed, Ticked(h.cur, tick, tfs))
  }

  function FeedAll(ticks: seq<Tick>, tfs: seq<Timeframe>): History {
    if ticks == [] then History([], map[]) else Feed(FeedAll(ticks[..|ticks| - 1], tfs), ticks[|ticks| - 1], tfs)
  }

  lemma FeedMore(ticks: seq<Tick>, tick: Tick, tfs: seq<Timeframe>)
    ensures FeedAll(ticks + [tick], tfs) == Feed(FeedAll(ticks, tfs), tick, tfs)
  {
    assert (ticks + [tick])[..|ticks|] == ticks;
  }

  /** Every one-minute bar there is, the open one last. */
  function Series(h: History): seq<Bar>
    requires M1 in h.cur
  {
    h.closed + [h.cur[M1]]
  }

  ghost predicate Agrees(h: History, tf: Timeframe) {
    M1 in h.cur && Get(h.cur, tf) == Some(Last(Aggregate(Series(h), Size(tf))))
  }

  /** A tick older than the open minute that still falls into the current bar of `tf`. */
  predicate Absorbed(h: History, tick: Tick, tf: Timeframe) {
    && M1 in h.cur && tf in h.cur
    && Bucket(tick.ts, MINUTE_MS) < h.cur[M1].time && Bucket(tick.ts, Size(tf)) == h.cur[tf].time
  }

  lemma FeedAt(h: History, tick: Tick, tfs: seq<Timeframe>, tf: Timeframe)
    requires tf in tfs
    ensures Get(Feed(h, tick, tfs).cur, tf) == Some(TickBar(Get(h.cur, tf), Bucket(tick.ts, Size(tf)), tick.price))
  {
    OverlayAt(h.cur, tfs, BarAfter(h.cur, tick), tf);
  }

  lemma AbsorbMerged(out: seq<Bar>, b: Bar, price: real, ms: int)
    requires ms > 0
    ensures Last(Absorb(out, Merge(b, price, 1), ms)) == Merge(Last(Absorb(out, b, ms)), price, 1)
  {
  }

  lemma AggregateOne(b: Bar, ms: int)
    requires ms > 0
    ensures Aggregate([b], ms) == [b.(time := Bucket(b.time, ms))]
  {
    assert [b][..0] == [];
  }

  lemma FirstTickAgrees(h: History, tick: Tick, tfs: seq<Timeframe>, tf: Timeframe)
    requires h == History([], map[]) && tf in tfs && M1 in tfs
    ensures Agrees(Feed(h, tick, tfs), tf)
  {
    FeedAt(h, tick, tfs, tf);
    FeedAt(h, tick, tfs, M1);
    BucketOfMinute(tick.ts, tf);
    var b := NewBar(Bucket(tick.ts, MINUTE_MS), tick.price);
    assert Series(Feed(h, tick, tfs)) == [b];
    AggregateOne(b, Size(tf));
  }

  /** The tick belongs to the open minute. */
  lemma SameMinuteAgrees(h: History, tick: Tick, tfs: seq<Timeframe>, tf: Timeframe)
    requires Agrees(h, tf) && tf in tfs && M1 in tfs && Bucket(tick.ts, MINUTE_MS) == h.cur[M1].time
    ensures Agrees(Feed(h, tick, tfs), tf)
  {
    FeedAt(h, tick, tfs, tf);
    FeedAt(h, tick, tfs, M1);
    BucketOfMinute(tick.ts, tf);
    LastTime(Series(h), Size(tf));
    var open := h.cur[M1];
    assert Series(Feed(h, tick, tfs)) == h.closed + [Merge(open, tick.price, 1)];
    AggregateMore(h.closed, open, Size(tf));
    AggregateMore(h.closed, Merge(open, tick.price, 1), Size(tf));
    AbsorbMerged(Aggregate(h.closed, Size(tf)), open, tick.price, Size(tf));
  }

  /** The tick opens a new minute. */
  lemma NewMinuteAgrees(h: History, tick: Tick, tfs: seq<Timeframe>, tf: Timeframe)
    requires Agrees(h, tf) && tf in tfs && M1 in tfs && Bucket(tick.ts, MINUTE_MS) > h.cur[M1].time
    ensures Agrees(Feed(h, tick, tfs), tf)
  {
    FeedAt(h, tick, tfs, tf);
    FeedAt(h, tick, tfs, M1);
    var m := Bucket(tick.ts, MINUTE_MS);
    BucketOfMinute(tick.ts, tf);
    LastTime(Series(h), Size(tf));
    BucketMonotone(h.cur[M1].time, m, Size(tf));
    assert Series(Feed(h, tick, tfs)) == Series(h) + [NewBar(m, tick.price)];
    AggregateMore(Series(h), NewBar(m, tick.price), Size(tf));
  }

  /** The tick is older than the open minute: the one-minute bar skips it, a coarser one may not. */
  lemma LateTickAgrees(h: History, tick: Tick, tfs: seq<Timeframe>, tf: Timeframe)
    requires Agrees(h, tf) && tf in tfs && M1 in tfs && Bucket(tick.ts, MINUTE_MS) < h.cur[M1].time
    ensures Agrees(Feed(h, tick, tfs), tf) <==> !Absorbed(h, tick, tf)
  {
    FeedAt(h, tick, tfs, tf);
    FeedAt(h, tick, tfs, M1);
    var m := Bucket(tick.ts, MINUTE_MS);
    BucketOfMinute(tick.ts, tf);
    LastTime(Series(h), Size(tf));
    BucketMonotone(m, h.cur[M1].time, Size(tf));
    assert Series(Feed(h, tick, tfs)) == Series(h);
  }

  lemma TickAgreesIff(h: History, tick: Tick, tfs: seq<Timeframe>, tf: Timeframe)
    requires Agrees(h, tf) && tf in tfs && M1 in tfs
    ensures Agrees(Feed(h, tick, tfs), tf) <==> !Absorbed(h, tick, tf)
  {
    var m := Bucket(tick.ts, MINUTE_MS);
    if m == h.cur[M1].time {
      SameMinuteAgrees(h, tick, tfs, tf);
    } else if m > h.cur[M1].time {
      NewMinuteAgrees(h, tick, tfs, tf);
    } else {
      LateTickAgrees(h, tick, tfs, tf);
    }
  }

  /** After each tick the bar of `tf` is the last one of the aggregation. */
  ghost predicate AgreesThroughout(ticks: seq<Tick>, tfs: seq<Timeframe>, tf: Timeframe) {
    ticks == [] || (AgreesThroughout(ticks[..|ticks| - 1], tfs, tf) && Agrees(FeedAll(ticks, tfs), tf))
  }

  predicate NoneAbsorbed(ticks: seq<Tick>, tfs: seq<Timeframe>, tf: Timeframe) {
    ticks == []
    || (NoneAbsorbed(ticks[..|ticks| - 1], tfs, tf) && !Absorbed(FeedAll(ticks[..|ticks| - 1], tfs), ticks[|ticks| - 1], tf))
  }

  /** The incremental bar is the aggregated one after every tick, exactly when no late tick is absorbed. */
  lemma {:induction false} BuilderAgreesIff(ticks: seq<Tick>, tfs: seq<Timeframe>, tf: Timeframe)
    requires tf in tfs && M1 in tfs
    ensures AgreesThroughout(ticks, tfs, tf) <==> NoneAbsorbed(ticks, tfs, tf)
  {
    if ticks != [] {
      var n := |ticks| - 1;
      BuilderAgreesIff(ticks[..n], tfs, tf);
      if n == 0 {
        FirstTickAgrees(FeedAll(ticks[..n], tfs), ticks[0], tfs, tf);
      } else if AgreesThroughout(ticks[..n], tfs, tf) {
        TickAgreesIff(FeedAll(ticks[..n], tfs), ticks[n], tfs, tf);
      }
    }
  }

  // ----- ticks whose minute never goes back -----

  ghost predicate Forward(ticks: seq<Tick>) {
    forall i, j :: 0 <= i <= j < |ticks| ==> Bucket(ticks[i].ts, MINUTE_MS) <= Bucket(ticks[j].ts, MINUTE_MS)
  }

  /** Strictly ascending one-minute bars, closed before the open one. */
  ghost predicate Ascending(bars: seq<Bar>) {
    forall i, j :: 0 <= i < j < |bars| ==> bars[i].time < bars[j].time
  }

  lemma {:induction false} MinuteSeries(ticks: seq<Tick>, tfs: seq<Timeframe>)
    requires ticks != [] && M1 in tfs
    ensures var h := FeedAll(ticks, tfs);
            && M1 in h.cur && Ascending(Series(h))
            && (Forward(ticks) ==> h.cur[M1].time == Bucket(ticks[|ticks| - 1].ts, MINUTE_MS))
  {
    var n := |ticks| - 1;
    var h := FeedAll(ticks[..n], tfs);
    FeedAt(h, ticks[n], tfs, M1);
    if n > 0 {
      MinuteSeries(ticks[..n], tfs);
      assert ticks[..n][n - 1] == ticks[n - 1];
      FeedAscending(h, ticks[n], tfs);
    }
  }

  lemma AscendingMore(bars: seq<Bar>, b: Bar)
    requires Ascending(bars) && (bars == [] || bars[|bars| - 1].time < b.time)
    ensures Ascending(bars + [b])
  {
  }

  lemma FeedAscending(h: History, tick: Tick, tfs: seq<Timeframe>)
    requires M1 in tfs && M1 in h.cur && Ascending(Series(h))
    ensures M1 in Feed(h, tick, tfs).cur && Ascending(Series(Feed(h, tick, tfs)))
  {
    FeedAt(h, tick, tfs, M1);
    var t := Feed(h, tick, tfs);
    assert Size(M1) == MINUTE_MS;
    if ClosedBy(h.cur, tick).Some? {
      assert Series(h)[|h.closed|] == h.cur[M1];
      AscendingMore(Series(h), t.cur[M1]);
      assert Series(t) == Series(h) + [t.cur[M1]];
    } else {
      assert t.cur[M1].time == h.cur[M1].time;
      AscendingSwap(h.closed, h.cur[M1], t.cur[M1]);
    }
  }

  lemma AscendingSwap(bars: seq<Bar>, b: Bar, c: Bar)
    requires Ascending(bars + [b]) && c.time == b.time
    ensures Ascending(bars + [c])
  {
    var was, now := bars + [b], bars + [c];
    assert forall i :: 0 <= i < |now| ==> now[i].time == was[i].time;
  }

  /** With minutes that never go back, every timeframe shows what plain aggregation of the minutes shows. */
  lemma BuilderRefinesAggregation(ticks: seq<Tick>, tfs: seq<Timeframe>, tf: Timeframe)
    requires tf in tfs && M1 in tfs && Forward(ticks)
    ensures AgreesThroughout(ticks, tfs, tf)
  {
    ForwardNoneAbsorbed(ticks, tfs, tf);
    BuilderAgreesIff(ticks, tfs, tf);
  }

  lemma {:induction false} ForwardNoneAbsorbed(ticks: seq<Tick>, tfs: seq<Timeframe>, tf: Timeframe)
    requires M1 in tfs && Forward(ticks)
    ensures NoneAbsorbed(ticks, tfs, tf)
  {
    if ticks != [] {
      var n := |ticks| - 1;
      ForwardNoneAbsorbed(ticks[..n], tfs, tf);
      if n > 0 {
        MinuteSeries(ticks[..n], tfs);
        assert ticks[..n][n - 1] == ticks[n - 1];
      }
    }
  }

  /** An absorbed tick is possible: a minute-old tick inside the same five minutes makes the two disagree. */
  lemma LateTickBreaksAgreement()
    ensures !AgreesThroughout([Tick(60_000, 1.0), Tick(0, 1.0)], [M1, M5], M5)
  {
    var ticks, tfs := [Tick(60_000, 1.0), Tick(0, 1.0)], [M1, M5];
    assert ticks[..1] == [ticks[0]];
    MinuteOldAbsorbed(tfs, ticks[0], ticks[1]);
    BuilderAgreesIff(ticks, tfs, M5);
  }

  lemma MinuteOldAbsorbed(tfs: seq<Timeframe>, first: Tick, late: Tick)
    requires M1 in tfs && M5 in tfs && first.ts == 60_000 && late.ts == 0
    ensures Absorbed(FeedAll([first], tfs), late, M5)
  {
    FirstTickOpens(first, tfs, M1);
    FirstTickOpens(first, tfs, M5);
    assert Bucket(60_000, 60_000) == 60_000 && Bucket(60_000, 300_000) == 0;
    assert Bucket(0, 60_000) == 0 && Bucket(0, 300_000) == 0;
  }

  lemma FirstTickOpens(tick: Tick, tfs: seq<Timeframe>, tf: Timeframe)
    requires tf in tfs
    ensures var h := FeedAll([tick], tfs); tf in h.cur && h.cur[tf].time == Bucket(tick.ts, Size(tf))
  {
    assert FeedAll([], tfs) == History([], map[]);
    FeedMore([], tick, tfs);
    assert [] + [tick] == [tick];
    FeedAt(History([], map[]), tick, tfs, tf);
  }
}
