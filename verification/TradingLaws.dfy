/**
 * What the trading formulas come to, side by side: who gains from which move, what a fill costs, what
 * a level does, and which requests pass.
 */
module TradingLaws {
  import opened Options
  import opened Money
  import opened TradingMath

  // ----- gains -----

  lemma Opposite(x: real, y: real)
    ensures -x * y == -(x * y)
  {
  }

  /** The gain is the move in the position's favour, times contract size and rate. */
  lemma GainIsMove(side: Side, entry: real, exit: real, contractSize: real, rate: real)
    ensures GainPerHundredth(side, entry, exit, contractSize, rate)
            == (if side.Buy? then exit - entry else entry - exit) * contractSize * rate
  {
    var k := (exit - entry) * contractSize;
    if side.Buy? {
      assert k * 1.0 == k;
    } else {
      Opposite(exit - entry, contractSize);
      assert entry - exit == -(exit - entry);
      assert k * -1.0 == -k;
    }
  }

  /** A buyer gains exactly when the price rises and a seller exactly when it falls, the one what the other loses. */
  lemma GainBySide(entry: real, exit: real, contractSize: real, rate: real)
    requires contractSize > 0.0 && rate > 0.0
    ensures var gain := (exit - entry) * contractSize * rate;
            && GainPerHundredth(Buy, entry, exit, contractSize, rate) == gain
            && GainPerHundredth(Sell, entry, exit, contractSize, rate) == -gain
            && (gain > 0.0 <==> exit > entry) && (gain < 0.0 <==> exit < entry)
  {
    SignOfProduct(exit - entry, contractSize);
    SignOfProduct((exit - entry) * contractSize, rate);
    GainIsMove(Buy, entry, exit, contractSize, rate);
    GainIsMove(Sell, entry, exit, contractSize, rate);
    assert entry - exit == -(exit - entry);
    Opposite(exit - entry, contractSize);
    Opposite((exit - entry) * contractSize, rate);
  }

  lemma SignOfProduct(x: real, y: real)
    requires y > 0.0
    ensures (x * y > 0.0 <==> x > 0.0) && (x * y < 0.0 <==> x < 0.0)
  {
    if x > 0.0 {
      PositiveProduct(x, y);
    } else if x < 0.0 {
      PositiveProduct(-x, y);
      assert -x * y == -(x * y);
    }
  }

  /** In and out again at one quote costs the spread, on either side. */
  lemma SpreadIsPaid(side: Side, q: Quote, contractSize: real, rate: real)
    requires contractSize > 0.0 && rate > 0.0
    ensures GainPerHundredth(side, FillPrice(side, q), MarkPrice(side, q), contractSize, rate) == -((q.ask - q.bid) * contractSize * rate)
  {
    GainBySide(FillPrice(side, q), MarkPrice(side, q), contractSize, rate);
    if side.Buy? {
      var k := (q.ask - q.bid) * contractSize;
      assert (q.bid - q.ask) * contractSize == -k;
      assert -k * rate == -(k * rate);
    }
  }

  // ----- stops -----

  /** The mark is at the stop or past it on the losing side. */
  predicate StopReached(side: Side, q: Quote, stopLoss: Option<real>) {
    stopLoss.Some? && if side.Buy? then q.bid <= stopLoss.value else q.ask >= stopLoss.value
  }

  /** The mark is at the target or past it on the winning side. */
  predicate TargetReached(side: Side, q: Quote, takeProfit: Option<real>) {
    takeProfit.Some? && if side.Buy? then q.bid >= takeProfit.value else q.ask <= takeProfit.value
  }

  lemma StopsFireIff(side: Side, q: Quote, stopLoss: Option<real>, takeProfit: Option<real>)
    ensures var t := CheckStops(side, q, stopLoss, takeProfit);
            && (t.None? <==> !StopReached(side, q, stopLoss) && !TargetReached(side, q, takeProfit))
            && (t == Some(StopLoss) <==> StopReached(side, q, stopLoss))
            && (t == Some(TakeProfit) <==> !StopReached(side, q, stopLoss) && TargetReached(side, q, takeProfit))
  {
  }

  /** A close at the level from the reference makes a loss. */
  predicate Loses(side: Side, reference: real, level: real) { if side.Buy? then level < reference else level > reference }

  predicate Wins(side: Side, reference: real, level: real) { if side.Buy? then level > reference else level < reference }

  /** Levels are accepted exactly when they are positive, the stop loses and the target wins; the stop is looked at first. */
  lemma StopsValidIff(side: Side, reference: real, stopLoss: Option<real>, takeProfit: Option<real>)
    ensures var stop := stopLoss.Some? ==> stopLoss.value > 0.0 && Loses(side, reference, stopLoss.value);
            var target := takeProfit.Some? ==> takeProfit.value > 0.0 && Wins(side, reference, takeProfit.value);
            ValidateStops(side, reference, stopLoss, takeProfit)
            == if !stop then Some(InvalidStopLoss) else if !target then Some(InvalidTakeProfit) else None
  {
  }

  /** What accepted levels are worth: from the reference a stop loses money and a target makes some. */
  lemma StopsAreWorth(side: Side, reference: real, stopLoss: Option<real>, takeProfit: Option<real>, contractSize: real, rate: real)
    requires contractSize > 0.0 && rate > 0.0
    requires (stopLoss.Some? ==> stopLoss.value > 0.0) && (takeProfit.Some? ==> takeProfit.value > 0.0)
    ensures ValidateStops(side, reference, stopLoss, takeProfit) == None
            <==> (stopLoss.Some? ==> GainPerHundredth(side, reference, stopLoss.value, contractSize, rate) < 0.0)
                 && (takeProfit.Some? ==> GainPerHundredth(side, reference, takeProfit.value, contractSize, rate) > 0.0)
  {
    if stopLoss.Some? {
      GainBySide(reference, stopLoss.value, contractSize, rate);
    }
    if takeProfit.Some? {
      GainBySide(reference, takeProfit.value, contractSize, rate);
    }
  }

  // ----- resting orders -----

  /** A price is accepted exactly when it is positive and the order is not marketable yet. */
  lemma RestingPriceValidIff(side: Side, kind: OrderKind, price: Option<real>, q: Quote)
    requires !kind.Market?
    ensures ValidatePendingPrice(side, kind, price, q)
            == if price.Some? && price.value > 0.0 && !PendingTriggered(side, kind, price.value, q) then None else Some(InvalidPrice)
  {
  }

  /** Once triggered an order fills at the market; for a LIMIT that is its price or better, and before that it is its price. */
  lemma FillsAtMarket(side: Side, kind: OrderKind, price: real, q: Quote)
    ensures PendingTriggered(side, kind, price, q) ==> PendingFillPrice(side, kind, price, q) == Edge(side, q)
    ensures kind.Limit? && !PendingTriggered(side, kind, price, q) ==> PendingFillPrice(side, kind, price, q) == price
    ensures kind.Limit? ==> if side.Buy? then PendingFillPrice(side, kind, price, q) <= price else PendingFillPrice(side, kind, price, q) >= price
  {
  }

  // ----- margin and volume -----

  /** Margin times leverage is the notional, to half a cent of margin. */
  predicate Covers(margin: int, leverage: real, notional: real) {
    -leverage <= 2.0 * (margin as real * leverage - notional) <= leverage
  }

  /** The margin of an order covers its notional; a leverage that is not positive counts as one. */
  lemma MarginIsNotional(hundredths: int, contractSize: real, price: real, rate: real, leverage: real)
    ensures Covers(RequiredMargin(hundredths, contractSize, price, rate, leverage), if leverage > 0.0 then leverage else 1.0,
                   hundredths as real * contractSize * price * rate)
  {
    RoundedCovers(hundredths as real * contractSize * price * rate, if leverage > 0.0 then leverage else 1.0);
  }

  lemma RoundedCovers(notional: real, leverage: real)
    requires leverage > 0.0
    ensures Covers(RoundCents(notional / leverage), leverage, notional)
  {
    OverTimes(notional, leverage);
    ScaleNear(RoundCents(notional / leverage) as real, notional / leverage, leverage, notional);
  }

  lemma OverTimes(x: real, k: real)
    requires k > 0.0
    ensures x / k * k == x
  {
  }

  lemma ScaleNear(x: real, y: real, k: real, whole: real)
    requires y - 0.5 <= x <= y + 0.5 && k > 0.0 && y * k == whole
    ensures -k <= 2.0 * (x * k - whole) <= k
  {
    NotNegative(x - y + 0.5, k);
    NotNegative(0.5 - (x - y), k);
    Spread(x, y, k, 0.5);
    Spread(y, x, k, 0.5);
  }

  lemma Spread(x: real, y: real, k: real, c: real)
    ensures (x - y + c) * k == x * k - y * k + c * k
    ensures (c - (x - y)) * k == c * k - (x * k - y * k)
  {
  }

  lemma NotNegative(x: real, k: real)
    requires x >= 0.0 && k > 0.0
    ensures x * k >= 0.0
  {
  }

  predicate IsSteps(volume: real, step: real, n: int) { volume == n as real * step }

  /** A volume is accepted exactly when it is positive, within the bounds and a whole number of steps. */
  lemma VolumeValidIff(volume: real, rule: VolumeRule)
    ensures ValidateVolume(volume, rule) == None
            <==> 0.0 < volume && rule.min <= volume <= rule.max && exists n :: IsSteps(volume, Step(rule), n)
  {
    var step := Step(rule);
    if IsWhole(volume / step) {
      OverTimes(volume, step);
      assert IsSteps(volume, step, (volume / step).Floor);
    }
    if n :| IsSteps(volume, step, n) {
      assert volume / step == n as real;
    }
  }

  /** A volume in hundredths is the nearest to the one asked for. */
  lemma HundredthsNearest(volume: real)
    ensures -0.005 <= Lots(RoundVolume(volume)) - volume <= 0.005
  {
  }

  /** A rounded price is a whole number of points, the nearest to the price. */
  lemma RoundPriceNearest(price: real, digits: nat)
    ensures IsWhole(Points(digits)(RoundPrice(price, digits)))
    ensures -0.5 <= Points(digits)(RoundPrice(price, digits)) - Points(digits)(price) <= 0.5
  {
    RoundPricePoints(price, digits);
  }
}
