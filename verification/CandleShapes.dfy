/** What a bar shows of the ticks that fell into it. */
module CandleShapes {
  import opened Options
  import opened TradingMath
  import opened TradingLaws
  import opened Candles

  /** The latest bucket any tick fell into. */
  function LatestBucket(ticks: seq<Tick>, ms: int): int
    requires ticks != [] && ms > 0
  {
    var n := |ticks| - 1;
    var t := Bucket(ticks[n].ts, ms);
    if n == 0 then t
    else
      var before := LatestBucket(ticks[..n], ms);
      if t > before then t else before
  }

  /** The prices of the ticks of one bucket, as they came. */
  function PricesIn(ticks: seq<Tick>, ms: int, time: int): seq<real>
    requires ms > 0
  {
    if ticks == [] then []
    else
      var n := |ticks| - 1;
      PricesIn(ticks[..n], ms, time) + if Bucket(ticks[n].ts, ms) == time then [ticks[n].price] else []
  }

  /** First and last price, the highest and the lowest, and how many. */
  ghost predicate Shows(b: Bar, time: int, prices: seq<real>) {
    && prices != [] && b.time == time && b.volume == |prices|
    && b.open == prices[0] && b.close == prices[|prices| - 1]
    && b.high in prices && b.low in prices && forall p :: p in prices ==> b.low <= p <= b.high
  }

  lemma NewBarShows(time: int, price: real)
    ensures Shows(NewBar(time, price), time, [price])
  {
  }

  lemma MergeShows(b: Bar, time: int, prices: seq<real>, price: real)
    requires Shows(b, time, prices)
    ensures Shows(Merge(b, price, 1), time, prices + [price])
  {
    assert forall p :: p in prices + [price] <==> p in prices || p == price;
  }

  lemma {:induction false} NothingLater(ticks: seq<Tick>, ms: int, time: int)
    requires ticks != [] && ms > 0 && time > LatestBucket(ticks, ms)
    ensures PricesIn(ticks, ms, time) == []
  {
    var n := |ticks| - 1;
    if n > 0 {
      NothingLater(ticks[..n], ms, time);
    }
  }

  /**
   * On every timeframe the current bar is that of the latest bucket, and shows the first and last, the
   * highest and lowest price and the number of the ticks that fell into it - whatever other ticks came.
   */
  lemma {:induction false} BarShowsItsTicks(ticks: seq<Tick>, tfs: seq<Timeframe>, tf: Timeframe)
    requires ticks != [] && tf in tfs
    ensures var cur, time := Get(FeedAll(ticks, tfs).cur, tf), LatestBucket(ticks, Size(tf));
            cur.Some? && Shows(cur.value, time, PricesIn(ticks, Size(tf), time))
  {
    var n := |ticks| - 1;
    var h, tick := FeedAll(ticks[..n], tfs), ticks[n];
    FeedAt(h, tick, tfs, tf);
    if n == 0 {
      OverNothing(tfs, tf);
      NewBarShows(Bucket(tick.ts, Size(tf)), tick.price);
      assert PricesIn(ticks, Size(tf), Bucket(tick.ts, Size(tf))) == [tick.price];
    } else {
      BarShowsItsTicks(ticks[..n], tfs, tf);
      OneTickShows(ticks, Size(tf), Get(h.cur, tf).value);
    }
  }

  lemma OverNothing(tfs: seq<Timeframe>, tf: Timeframe)
    ensures Get(FeedAll([], tfs).cur, tf) == None
  {
  }

  lemma OneTickShows(ticks: seq<Tick>, ms: int, before: Bar)
    requires |ticks| > 1 && ms > 0
    requires var n := |ticks| - 1; Shows(before, LatestBucket(ticks[..n], ms), PricesIn(ticks[..n], ms, LatestBucket(ticks[..n], ms)))
    ensures var tick, time := ticks[|ticks| - 1], LatestBucket(ticks, ms);
            Shows(TickBar(Some(before), Bucket(tick.ts, ms), tick.price), time, PricesIn(ticks, ms, time))
  {
    var n := |ticks| - 1;
    var t, latest := Bucket(ticks[n].ts, ms), LatestBucket(ticks[..n], ms);
    if t > latest {
      NothingLater(ticks[..n], ms, t);
      NewBarShows(t, ticks[n].price);
      assert [] + [ticks[n].price] == [ticks[n].price];
    } else if t == latest {
      MergeShows(before, t, PricesIn(ticks[..n], ms, t), ticks[n].price);
    } else {
      assert PricesIn(ticks, ms, latest) == PricesIn(ticks[..n], ms, latest);
    }
  }

  /** The bar a tick closes is that of the minute before it, complete: no later tick can change it. */
  lemma ClosedBarShows(ticks: seq<Tick>, tfs: seq<Timeframe>, tick: Tick)
    requires ticks != [] && M1 in tfs
    ensures var closed, time := ClosedBy(FeedAll(ticks, tfs).cur, tick), LatestBucket(ticks, MINUTE_MS);
            if Bucket(tick.ts, MINUTE_MS) > time then closed.Some? && Shows(closed.value, time, PricesIn(ticks, MINUTE_MS, time)) else closed.None?
  {
    BarShowsItsTicks(ticks, tfs, M1);
    assert Size(M1) == MINUTE_MS;
  }

  ghost predicate InOrder(bars: seq<Bar>) {
    forall i, j :: 0 <= i < j < |bars| ==> bars[i].time <= bars[j].time
  }

  /** Restored rows are taken in the order of their times, none lost and none made up. */
  lemma {:induction false} SortedInOrder(bars: seq<Bar>)
    ensures InOrder(SortByTime(bars)) && multiset(SortByTime(bars)) == multiset(bars)
  {
    if bars != [] {
      var n := |bars| - 1;
      SortedInOrder(bars[..n]);
      InsertedSame(SortByTime(bars[..n]), bars[n]);
      InsertedInOrder(SortByTime(bars[..n]), bars[n]);
      assert bars == bars[..n] + [bars[n]];
    }
  }

  lemma {:induction false} InsertedSame(sorted: seq<Bar>, b: Bar)
    ensures multiset(Insert(sorted, b)) == multiset(sorted) + multiset{b}
  {
    if sorted != [] && sorted[|sorted| - 1].time > b.time {
      var n := |sorted| - 1;
      InsertedSame(sorted[..n], b);
      assert sorted == sorted[..n] + [sorted[n]];
    }
  }

  lemma {:induction false} InsertedInOrder(sorted: seq<Bar>, b: Bar)
    requires InOrder(sorted)
    ensures InOrder(Insert(sorted, b))
    ensures forall i :: 0 <= i < |Insert(sorted, b)| ==> Insert(sorted, b)[i] in sorted || Insert(sorted, b)[i] == b
  {
    if sorted != [] && sorted[|sorted| - 1].time > b.time {
      var n := |sorted| - 1;
      InsertedInOrder(sorted[..n], b);
      EarlierThanLast(sorted);
    }
  }

  lemma EarlierThanLast(sorted: seq<Bar>)
    requires InOrder(sorted) && sorted != []
    ensures forall x :: x in sorted ==> x.time <= sorted[|sorted| - 1].time
  {
  }

  /** A minute, five, fifteen, an hour, four and a day. */
  lemma TimeframesLast()
    ensures Size(M1) == 60_000 && Size(M5) == 5 * Size(M1) && Size(M15) == 3 * Size(M5) && Size(H1) == 4 * Size(M15)
    ensures Size(H4) == 4 * Size(H1) && Size(D1) == 6 * Size(H4) && TIMEFRAMES == [M1, M5, M15, H1, H4, D1]
  {
  }

  /** A bar's prices lie half-way between bid and ask, to half a point of the symbol's digits, or of five. */
  lemma PriceIsMid(builder: CandleBuilder, symbol: string, q: Quote)
    ensures var points := Points(if symbol in builder.digits then builder.digits[symbol] else 5);
            && IsWhole(points(builder.Price(symbol, q)))
            && -1.0 <= 2.0 * points(builder.Price(symbol, q)) - points(q.bid) - points(q.ask) <= 1.0
  {
    var digits := if symbol in builder.digits then builder.digits[symbol] else 5;
    RoundPriceNearest((q.bid + q.ask) / 2.0, digits);
    HalfWay(q.bid, q.ask, Scale(digits));
  }

  lemma HalfWay(a: real, b: real, scale: real)
    ensures 2.0 * ((a + b) / 2.0 * scale) == a * scale + b * scale
  {
    var half := (a + b) / 2.0;
    assert half + half == a + b;
    assert (half + half) * scale == half * scale + half * scale;
    assert (a + b) * scale == a * scale + b * scale;
  }
}
