/**
 * Trading arithmetic: fills, marks, stops, triggers, volumes and margin.
 * Volumes are whole hundredths of a lot once accepted; a client may ask for any real volume.
 */
module TradingMath {
  import opened Money
  import opened Options

  datatype Side = Buy | Sell
  datatype OrderKind = Market | Limit | Stop
  datatype StopTrigger = StopLoss | TakeProfit
  datatype Quote = Quote(bid: real, ask: real)

  datatype RejectCode =
    | InvalidVolume | InvalidPrice | InvalidStopLoss | InvalidTakeProfit
    | MaxPositions | MaxPositionSize | InsufficientMargin | NoFxPath | MarketHalted
    | WeekendClosed | OvernightClosed | NewsWindow
    | UnknownSymbol | AccountNotTradable

  datatype VolumeRule = VolumeRule(min: real, max: real, step: real)

  function Direction(side: Side): int { if side.Buy? then 1 else -1 }

  function FillPrice(side: Side, q: Quote): real { if side.Buy? then q.ask else q.bid }

  function MarkPrice(side: Side, q: Quote): real { if side.Buy? then q.bid else q.ask }

  function Scale(digits: nat): (r: real)
    ensures r >= 1.0
  {
    if digits == 0 then 1.0 else 10.0 * Scale(digits - 1)
  }

  /** A price in points, which are whole on the grid of `digits` decimals. */
  function Points(digits: nat): real -> real { (price: real) => price * Scale(digits) }

  function RoundPrice(price: real, digits: nat): real {
    RoundHalfUp(Points(digits)(price)) as real / Scale(digits)
  }

  /** The stop-loss wins when one tick reaches both levels. */
  function CheckStops(side: Side, q: Quote, stopLoss: Option<real>, takeProfit: Option<real>): (t: Option<StopTrigger>) {
    var mark := MarkPrice(side, q);
    match side
    case Buy =>
      if stopLoss.Some? && mark <= stopLoss.value then Some(StopLoss)
      else if takeProfit.Some? && mark >= takeProfit.value then Some(TakeProfit)
      else None
    case Sell =>
      if stopLoss.Some? && mark >= stopLoss.value then Some(StopLoss)
      else if takeProfit.Some? && mark <= takeProfit.value then Some(TakeProfit)
      else None
  }

  function PendingTriggered(side: Side, kind: OrderKind, price: real, q: Quote): bool {
    match kind
    case Market => true
    case Limit => if side.Buy? then q.ask <= price else q.bid >= price
    case Stop => if side.Buy? then q.ask >= price else q.bid <= price
  }

  function PendingFillPrice(side: Side, kind: OrderKind, price: real, q: Quote): real {
    if kind.Limit? then
      if side.Buy? then (if price <= q.ask then price else q.ask)
      else if price >= q.bid then price else q.bid
    else FillPrice(side, q)
  }

  function ValidateStops(side: Side, reference: real, stopLoss: Option<real>, takeProfit: Option<real>): Option<RejectCode> {
    if stopLoss.Some? && (stopLoss.value <= 0.0
                          || if side.Buy? then stopLoss.value >= reference else stopLoss.value <= reference)
    then Some(InvalidStopLoss)
    else if takeProfit.Some? && (takeProfit.value <= 0.0
                                 || if side.Buy? then takeProfit.value <= reference else takeProfit.value >= reference)
    then Some(InvalidTakeProfit)
    else None
  }

  function ValidatePendingPrice(side: Side, kind: OrderKind, price: Option<real>, q: Quote): Option<RejectCode> {
    if price.None? || price.value <= 0.0 then Some(InvalidPrice)
    else if side.Buy? && kind.Limit? && price.value >= q.ask then Some(InvalidPrice)
    else if side.Buy? && kind.Stop? && price.value <= q.ask then Some(InvalidPrice)
    else if side.Sell? && kind.Limit? && price.value <= q.bid then Some(InvalidPrice)
    else if side.Sell? && kind.Stop? && price.value >= q.bid then Some(InvalidPrice)
    else None
  }

  /** The side of the quote that a resting order waits for. */
  function Edge(side: Side, q: Quote): real { if side.Buy? then q.ask else q.bid }

  function Ceiling(x: real): int { -((-x).Floor) }

  /** Rounding takes `price` to the edge or past it: it is within half a point of the nearest such price. */
  predicate RoundsOver(points: real -> real, price: real, edge: real) {
    if price < edge then points(price) + 0.5 >= Ceiling(points(edge)) as real
    else points(price) + 0.5 < points(edge).Floor as real + 1.0
  }

  /**
   * The price check looks at the price as it was asked for, and the order rests at the rounded one.
   * So an accepted order is marketable at once exactly when rounding takes it over the edge; one
   * asked for on the grid never is.
   */
  lemma AcceptedPendingTriggersIff(side: Side, kind: OrderKind, price: Option<real>, q: Quote, digits: nat)
    requires !kind.Market? && ValidatePendingPrice(side, kind, price, q) == None
    ensures PendingTriggered(side, kind, RoundPrice(price.value, digits), q) <==> RoundsOver(Points(digits), price.value, Edge(side, q))
    ensures IsWhole(Points(digits)(price.value)) ==> !PendingTriggered(side, kind, RoundPrice(price.value, digits), q)
  {
    PointsInOrder(digits);
    RoundPricePoints(price.value, digits);
    TriggersBy(side, kind, price, q, Points(digits), RoundPrice(price.value, digits));
  }

  ghost predicate InOrder(points: real -> real) {
    forall a, b :: a < b <==> points(a) < points(b)
  }

  lemma TriggersBy(side: Side, kind: OrderKind, price: Option<real>, q: Quote, points: real -> real, stored: real)
    requires !kind.Market? && ValidatePendingPrice(side, kind, price, q) == None
    requires InOrder(points) && points(stored) == RoundHalfUp(points(price.value)) as real
    ensures PendingTriggered(side, kind, stored, q) <==> RoundsOver(points, price.value, Edge(side, q))
    ensures IsWhole(points(price.value)) ==> !PendingTriggered(side, kind, stored, q)
  {
    var edge := Edge(side, q);
    assert price.value < edge <==> points(price.value) < points(edge);
    assert edge < price.value <==> points(edge) < points(price.value);
    assert stored < edge <==> points(stored) < points(edge);
    assert edge < stored <==> points(edge) < points(stored);
    RoundedBetween(points(price.value), points(edge));
  }

  lemma PointsInOrder(digits: nat)
    ensures InOrder(Points(digits))
  {
    forall a, b ensures a < b <==> Points(digits)(a) < Points(digits)(b) {
      ScaledStrict(a, b, Scale(digits));
    }
  }

  lemma RoundPricePoints(price: real, digits: nat)
    ensures Points(digits)(RoundPrice(price, digits)) == RoundHalfUp(Points(digits)(price)) as real
  {
    QuotientTimes(RoundHalfUp(Points(digits)(price)) as real, Scale(digits));
  }

  lemma QuotientTimes(y: real, scale: real)
    requires scale >= 1.0
    ensures y / scale * scale == y
  {
  }

  /** From below the rounded points reach `e`, or from above they fall to it, exactly when they round over. */
  lemma RoundedBetween(x: real, e: real)
    ensures RoundHalfUp(x) as real >= e <==> x + 0.5 >= Ceiling(e) as real
    ensures RoundHalfUp(x) as real <= e <==> x + 0.5 < e.Floor as real + 1.0
    ensures IsWhole(x) && x < e ==> RoundHalfUp(x) as real < e
    ensures IsWhole(x) && x > e ==> RoundHalfUp(x) as real > e
  {
    FloorOrder(e, RoundHalfUp(x));
    FloorOrder(-e, -RoundHalfUp(x));
    RoundedSide(x, e);
  }

  lemma RoundedSide(x: real, e: real)
    ensures RoundHalfUp(x) >= Ceiling(e) <==> x + 0.5 >= Ceiling(e) as real
    ensures RoundHalfUp(x) <= e.Floor <==> x + 0.5 < e.Floor as real + 1.0
    ensures IsWhole(x) && x < e ==> RoundHalfUp(x) < Ceiling(e)
    ensures IsWhole(x) && x > e ==> RoundHalfUp(x) > e.Floor
  {
    FloorOrder(x + 0.5, Ceiling(e));
    FloorOrder(x + 0.5, e.Floor + 1);
    if IsWhole(x) {
      WholeSide(x, x.Floor, e);
    }
  }

  lemma WholeSide(x: real, n: int, e: real)
    requires x == n as real
    ensures RoundHalfUp(x) == n && (x < e ==> n < Ceiling(e)) && (x > e ==> n > e.Floor)
  {
    FloorOrder(x + 0.5, n);
    FloorOrder(x + 0.5, n + 1);
    FloorOrder(-e, -n);
    FloorOrder(e, n);
  }

  lemma FloorOrder(y: real, n: int)
    ensures y.Floor >= n <==> y >= n as real
  {
    var f := y.Floor;
    assert f as real <= y < f as real + 1.0;
    assert f + 1 <= n ==> (f + 1) as real <= n as real;
  }

  lemma ScaledStrict(a: real, b: real, scale: real)
    requires scale >= 1.0
    ensures a < b <==> a * scale < b * scale
  {
    assert (b - a) * scale == b * scale - a * scale;
    if a < b {
      PositiveProduct(b - a, scale);
    } else if b < a {
      PositiveProduct(a - b, scale);
      assert (a - b) * scale == a * scale - b * scale;
    }
  }

  lemma PositiveProduct(a: real, b: real)
    requires a > 0.0 && b > 0.0
    ensures a * b > 0.0
  {
  }

  // ----- volumes -----

  const DEFAULT_STEP := 0.01

  function Step(rule: VolumeRule): (s: real)
    ensures s > 0.0
  {
    if rule.step > 0.0 then rule.step else DEFAULT_STEP
  }

  predicate IsWhole(x: real) { x.Floor as real == x }

  function ValidateVolume(volume: real, rule: VolumeRule): Option<RejectCode> {
    if volume <= 0.0 || volume < rule.min || volume > rule.max || !IsWhole(volume / Step(rule)) then Some(InvalidVolume)
    else None
  }

  /** Hundredths of a lot. */
  function RoundVolume(v: real): int { RoundHalfUp(v * 100.0) }

  function Lots(hundredths: int): real { hundredths as real / 100.0 }

  predicate WholeHundredths(step: real) { IsWhole(step * 100.0) }

  ghost predicate OnGrid(v: real, step: real)
    requires step > 0.0
  {
    IsWhole(v / step)
  }

  ghost predicate RoundingKeepsGrid(step: real)
    requires step > 0.0
  {
    forall v: real :: v > 0.0 && OnGrid(v, step) ==> Lots(RoundVolume(v)) == v
  }

  lemma WholeProduct(a: real, b: real, c: real)
    requires IsWhole(a) && IsWhole(b) && a * b == c
    ensures IsWhole(c)
  {
    assert (a.Floor * b.Floor) as real == a * b;
  }

  /** The volume an order is stored with is the volume it asked for, exactly when the step is whole hundredths. */
  lemma RoundingKeepsGridIff(step: real)
    requires step > 0.0
    ensures RoundingKeepsGrid(step) <==> WholeHundredths(step)
  {
    if WholeHundredths(step) {
      forall v: real | v > 0.0 && OnGrid(v, step)
        ensures Lots(RoundVolume(v)) == v
      {
        RoundVolumeExact(v, step);
      }
    } else {
      assert step / step == 1.0;
      assert OnGrid(step, step);
      assert Lots(RoundVolume(step)) == step ==> RoundVolume(step) as real == step * 100.0;
    }
  }

  lemma RoundVolumeExact(v: real, step: real)
    requires step > 0.0 && WholeHundredths(step) && OnGrid(v, step)
    ensures Lots(RoundVolume(v)) == v
  {
    CancelStep(v, step);
    WholeProduct(v / step, step * 100.0, v * 100.0);
    var h := (v * 100.0).Floor;
    assert RoundHalfUp(h as real) == h;
  }

  lemma CancelStep(v: real, step: real)
    requires step > 0.0
    ensures (v / step) * (step * 100.0) == v * 100.0
  {
    var q := v / step;
    assert q * step == v;
    assert q * (step * 100.0) == (q * step) * 100.0;
  }

  // ----- money -----

  /** Cents of the account currency that one hundredth of a lot has gained, before rounding. */
  function GainPerHundredth(side: Side, entry: real, exit: real, contractSize: real, rate: real): real {
    (exit - entry) * contractSize * Direction(side) as real * rate
  }

  function Gross(perHundredth: real, hundredths: int): int {
    RoundCents(perHundredth * hundredths as real)
  }

  function Commission(perLot: real, hundredths: int): int {
    RoundCents(perLot * hundredths as real)
  }

  function RequiredMargin(hundredths: int, contractSize: real, price: real, rate: real, leverage: real): int {
    var lev := if leverage > 0.0 then leverage else 1.0;
    RoundCents(hundredths as real * contractSize * price * rate / lev)
  }

  /** `x` is within `halves` half-cents of the exact amount. */
  ghost predicate Near(x: int, exact: real, halves: int) {
    -(halves as real) <= 2.0 * (x as real - exact) <= halves as real
  }

  lemma GrossNear(k: real, hundredths: int)
    ensures Near(Gross(k, hundredths), Gain(k)(hundredths), 1)
  {
  }

  function RealSum(s: seq<real>): real {
    if s == [] then 0.0 else RealSum(s[..|s| - 1]) + s[|s| - 1]
  }

  /** Half-cent errors add up. */
  lemma {:induction false} SumNear(exact: seq<real>, paid: seq<int>)
    requires |paid| == |exact|
    requires forall i :: 0 <= i < |exact| ==> Near(paid[i], exact[i], 1)
    ensures Near(Sum(paid), RealSum(exact), |exact|)
  {
    if exact != [] {
      var n := |exact| - 1;
      SumNear(exact[..n], paid[..n]);
      assert Near(paid[n], exact[n], 1);
    }
  }

  /** What each piece has gained before rounding; `gain` is the gain of a volume. */
  function Exact(gain: int -> real, pieces: seq<int>): seq<real> {
    if pieces == [] then [] else Exact(gain, pieces[..|pieces| - 1]) + [gain(pieces[|pieces| - 1])]
  }

  ghost predicate Additive(gain: int -> real) {
    gain(0) == 0.0 && forall a, b :: gain(a) + gain(b) == gain(a + b)
  }

  lemma {:induction false} ExactSum(gain: int -> real, pieces: seq<int>)
    requires Additive(gain)
    ensures RealSum(Exact(gain, pieces)) == gain(Sum(pieces))
  {
    if pieces != [] {
      var n := |pieces| - 1;
      ExactSum(gain, pieces[..n]);
      assert Exact(gain, pieces)[..|Exact(gain, pieces)| - 1] == Exact(gain, pieces[..n]);
    }
  }

  lemma {:induction false} ExactAt(gain: int -> real, pieces: seq<int>)
    ensures |Exact(gain, pieces)| == |pieces| && forall i :: 0 <= i < |pieces| ==> Exact(gain, pieces)[i] == gain(pieces[i])
  {
    if pieces != [] {
      ExactAt(gain, pieces[..|pieces| - 1]);
    }
  }

  function Gain(perHundredth: real): int -> real { (hundredths: int) => perHundredth * hundredths as real }

  lemma GainAdds(k: real)
    ensures Additive(Gain(k))
  {
    forall a, b ensures Gain(k)(a) + Gain(k)(b) == Gain(k)(a + b) {
      TwoGains(k, a, b);
    }
    TwoGains(k, 0, 0);
  }

  lemma TwoGains(k: real, a: int, b: int)
    ensures Gain(k)(a) + Gain(k)(b) == Gain(k)(a + b)
  {
    Distributes(k, a as real, b as real, (a + b) as real);
  }

  lemma Distributes(k: real, x: real, y: real, z: real)
    requires x + y == z
    ensures k * x + k * y == k * z
  {
  }

  lemma NearEachOther(x: int, y: int, exact: real, n: int)
    requires Near(x, exact, n) && Near(y, exact, 1)
    ensures -(n + 1) <= 2 * (x - y) <= n + 1
  {
    assert (2 * (x - y)) as real == 2.0 * (x as real - exact) - 2.0 * (y as real - exact);
  }

  /** Closing in n pieces at one price and rate pays within (n + 1) / 2 cents of closing at once. */
  lemma PiecewiseCloseNearWhole(k: real, pieces: seq<int>, paid: seq<int>)
    requires |paid| == |pieces| && forall i :: 0 <= i < |pieces| ==> paid[i] == Gross(k, pieces[i])
    ensures -(|pieces| + 1) <= 2 * (Sum(paid) - Gross(k, Sum(pieces))) <= |pieces| + 1
  {
    forall i | 0 <= i < |pieces| ensures Near(paid[i], Gain(k)(pieces[i]), 1) {
      GrossNear(k, pieces[i]);
    }
    GrossNear(k, Sum(pieces));
    GainAdds(k);
    PiecesNearWhole(Gain(k), pieces, paid, Gross(k, Sum(pieces)));
  }

  lemma PiecesNearWhole(gain: int -> real, pieces: seq<int>, paid: seq<int>, whole: int)
    requires |paid| == |pieces| && Additive(gain)
    requires forall i :: 0 <= i < |pieces| ==> Near(paid[i], gain(pieces[i]), 1)
    requires Near(whole, gain(Sum(pieces)), 1)
    ensures -(|pieces| + 1) <= 2 * (Sum(paid) - whole) <= |pieces| + 1
  {
    ExactAt(gain, pieces);
    SumNear(Exact(gain, pieces), paid);
    ExactSum(gain, pieces);
    NearEachOther(Sum(paid), whole, gain(Sum(pieces)), |pieces|);
  }
}
