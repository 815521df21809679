/** What a tick does to each position and each resting order, written out side by side. */
module LiveTicks {
  import opened Options
  import opened Money
  import opened TradingMath
  import opened TradingLaws
  import opened ChallengeRules
  import opened Live
  import opened LiveBooks
  import opened LiveFrames

  // ----- stops -----

  /** The quote is at the position's stop or target, or past it. */
  predicate Reached(p: Position, symbol: string, q: Quote) {
    p.symbol == symbol && (StopReached(p.side, q, p.stopLoss) || TargetReached(p.side, q, p.takeProfit))
  }

  /** The level the position closes at. */
  function Level(p: Position, q: Quote): real
    requires StopReached(p.side, q, p.stopLoss) || TargetReached(p.side, q, p.takeProfit)
  {
    if StopReached(p.side, q, p.stopLoss) then p.stopLoss.value else p.takeProfit.value
  }

  /** From index `from` on, the queue holds a close of the position at the price. */
  ghost predicate Asked(queue: seq<Queued>, from: nat, id: nat, price: real) {
    exists i :: from <= i < |queue| && queue[i].op == StopClose(id, price)
  }

  ghost predicate AsksNothing(queue: seq<Queued>, from: nat, id: nat) {
    forall i :: from <= i < |queue| ==> !(queue[i].op.StopClose? && queue[i].op.pos == id)
  }

  ghost predicate SameLevels(p: Position, r: Position) {
    r.symbol == p.symbol && r.side == p.side && r.stopLoss == p.stopLoss && r.takeProfit == p.takeProfit
  }

  /** A position is flagged, and its close queued at the level, exactly if `fires`. */
  ghost predicate Flags(s: Account, t: Account, q: Quote, id: nat, fires: bool) {
    && id in s.book.positions && id in t.book.positions && s.queue <= t.queue
    && var p, r := s.book.positions[id], t.book.positions[id];
       && SameLevels(p, r)
       && (r.closing <==> p.closing || fires)
       && (if fires && !p.closing
           then Reached(p, p.symbol, q) && Asked(t.queue, |s.queue|, id, Level(p, q))
           else AsksNothing(t.queue, |s.queue|, id))
  }

  lemma TickPositionFlags(s: Account, symbol: string, q: Quote, k: nat, id: nat)
    requires id in s.book.positions
    ensures var t := TickPosition(s, symbol, q, k);
            && t.w == s.w && t.breaching == s.breaching
            && Flags(s, t, q, id, k == id && s.w.open && !s.breaching && !s.book.positions[id].closing && Reached(s.book.positions[id], symbol, q))
  {
    if k in s.book.positions && s.book.positions[k].symbol == symbol {
      TickHeldFlags(s, symbol, q, k, id);
    }
  }

  lemma TickHeldFlags(s: Account, symbol: string, q: Quote, k: nat, id: nat)
    requires id in s.book.positions && k in s.book.positions && s.book.positions[k].symbol == symbol
    ensures var t := TickPosition(s, symbol, q, k);
            && t.w == s.w && t.breaching == s.breaching
            && Flags(s, t, q, id, k == id && s.w.open && !s.breaching && !s.book.positions[id].closing && Reached(s.book.positions[id], symbol, q))
  {
    var p := s.book.positions[k];
    StopsFireIff(p.side, q, p.stopLoss, p.takeProfit);
    var t := TickPosition(s, symbol, q, k);
    if t.queue != s.queue {
      assert t.queue == s.queue + [t.queue[|s.queue|]];
    }
  }

  lemma FlagsTrans(s: Account, t: Account, u: Account, q: Quote, id: nat, first: bool, second: bool)
    requires Flags(s, t, q, id, first) && Flags(t, u, q, id, second)
    ensures Flags(s, u, q, id, first || second)
  {
    if first && !s.book.positions[id].closing {
      var i :| |s.queue| <= i < |t.queue| && t.queue[i].op == StopClose(id, Level(s.book.positions[id], q));
      assert u.queue[i] == t.queue[i];
    } else {
      assert forall i :: 0 <= i < |t.queue| ==> u.queue[i] == t.queue[i];
    }
  }

  lemma {:induction false} TickPositionsFlags(s: Account, symbol: string, q: Quote, ids: seq<nat>, id: nat)
    requires id in s.book.positions
    ensures var t := TickPositions(s, symbol, q, ids);
            Flags(s, t, q, id, id in ids && s.w.open && !s.breaching && !s.book.positions[id].closing && Reached(s.book.positions[id], symbol, q))
    decreases |ids|
  {
    if ids != [] {
      var t := TickPosition(s, symbol, q, ids[0]);
      TickPositionFlags(s, symbol, q, ids[0], id);
      TickPositionsFlags(t, symbol, q, ids[1..], id);
      var fires := s.w.open && !s.breaching && !s.book.positions[id].closing && Reached(s.book.positions[id], symbol, q);
      FlagsTrans(s, t, TickPositions(t, symbol, q, ids[1..]), q, id, ids[0] == id && fires, id in ids[1..] && fires && ids[0] != id);
    }
  }

  /** The orders' part of a tick and its end leave positions alone and queue no close. */
  ghost predicate LeavesPositions(s: Account, t: Account) {
    && t.book.positions == s.book.positions && s.queue <= t.queue
    && forall i :: |s.queue| <= i < |t.queue| ==> !t.queue[i].op.StopClose?
  }

  lemma LeavesTrans(s: Account, t: Account, u: Account)
    requires LeavesPositions(s, t) && LeavesPositions(t, u)
    ensures LeavesPositions(s, u)
  {
    assert forall i :: 0 <= i < |t.queue| ==> u.queue[i] == t.queue[i];
  }

  lemma {:induction false} TickOrdersLeave(cal: Calendar, s: Account, symbol: string, q: Quote, ids: seq<string>)
    ensures LeavesPositions(s, TickOrders(cal, s, symbol, q, ids))
    decreases |ids|
  {
    if ids != [] {
      var t := TickOrder(cal, s, symbol, q, ids[0]);
      TickOrdersLeave(cal, t, symbol, q, ids[1..]);
      LeavesTrans(s, t, TickOrders(cal, t, symbol, q, ids[1..]));
    }
  }

  /** The quote as the tick takes it in, the positions, then the orders. */
  function AfterPositions(s: Account, symbol: string, q: Quote, w: World): Account {
    var s1 := s.(w := Quoted(s.w, symbol, q, w));
    TickPositions(s1, symbol, q, s1.book.posOrder)
  }

  function AfterOrders(cal: Calendar, s: Account, symbol: string, q: Quote, w: World): Account {
    var t := AfterPositions(s, symbol, q, w);
    TickOrders(cal, t, symbol, q, t.book.ordOrder)
  }

  lemma TickIs(cal: Calendar, s: Account, symbol: string, q: Quote, w: World)
    requires symbol in s.w.instruments
    ensures Tick(cal, s, symbol, q, w) == TickDone(AfterOrders(cal, s, symbol, q, w), Holds(s, symbol))
  {
    assert Holds(s.(w := Quoted(s.w, symbol, q, w)), symbol) == Holds(s, symbol);
  }

  /**
   * A tick flags a position exactly when it is on the symbol, the market is open, the account is not
   * breaching, the position is not on its way out, and the quote has reached its stop or its target;
   * and then queues its close at the stop if that is reached, else at the target.
   */
  lemma TickFlagsIff(cal: Calendar, s: Account, symbol: string, q: Quote, w: World, id: nat)
    requires Books(s) && symbol in s.w.instruments && id in s.book.positions
    ensures Flags(s, Tick(cal, s, symbol, q, w), q, id,
                  w.open && !s.breaching && !s.book.positions[id].closing && Reached(s.book.positions[id], symbol, q))
  {
    TickIs(cal, s, symbol, q, w);
    TickPositionsFlags(s.(w := Quoted(s.w, symbol, q, w)), symbol, q, s.book.posOrder, id);
    var t, u := AfterPositions(s, symbol, q, w), AfterOrders(cal, s, symbol, q, w);
    TickOrdersLeave(cal, t, symbol, q, t.book.ordOrder);
    LeavesTrans(t, u, Tick(cal, s, symbol, q, w));
    FlagsStay(s, t, Tick(cal, s, symbol, q, w), q, id,
              w.open && !s.breaching && !s.book.positions[id].closing && Reached(s.book.positions[id], symbol, q));
  }

  lemma FlagsStay(s: Account, t: Account, u: Account, q: Quote, id: nat, fires: bool)
    requires Flags(s, t, q, id, fires) && LeavesPositions(t, u)
    ensures Flags(s, u, q, id, fires)
  {
    FlagsTrans(s, t, u, q, id, fires, false);
  }

  // ----- marks -----

  /** The price a position is valued at: a buyer would sell at the bid, a seller buy back at the ask. */
  function ValuedAt(side: Side, q: Quote): real { if side.Buy? then q.bid else q.ask }

  /** Cents gained by `volume` hundredths from the entry to the price. */
  function Worth(side: Side, entry: real, price: real, inst: Instrument, rate: real, volume: int): int {
    RoundCents(Value(if side.Buy? then price - entry else entry - price, inst, rate, volume))
  }

  /** What a move of the price is worth on a volume. */
  function Value(move: real, inst: Instrument, rate: real, volume: int): real { move * inst.contractSize * rate * volume as real }

  lemma WorthIsGross(side: Side, entry: real, price: real, inst: Instrument, rate: real, volume: int)
    ensures Gross(GainPerHundredth(side, entry, price, inst.contractSize, rate), volume) == Worth(side, entry, price, inst, rate, volume)
  {
    GainIsMove(side, entry, price, inst.contractSize, rate);
  }

  /** A position is revalued at the quote, and nothing else of it changes but the flag. */
  ghost predicate Revalued(w: World, p: Position, r: Position, q: Quote) {
    && r == p.(mark := r.mark, floating := r.floating, closing := r.closing)
    && if p.symbol in w.instruments && w.instruments[p.symbol].quoteCurrency in w.rates then
         var inst := w.instruments[p.symbol];
         && r.mark == Some(ValuedAt(p.side, q))
         && r.floating == Worth(p.side, p.entry, ValuedAt(p.side, q), inst, w.rates[inst.quoteCurrency], p.volume)
       else r.mark == p.mark && r.floating == p.floating
  }

  lemma MarkedRevalues(w: World, p: Position, q: Quote)
    ensures Revalued(w, p, Marked(w, p, q), q)
  {
    if p.symbol in w.instruments && w.instruments[p.symbol].quoteCurrency in w.rates {
      var inst := w.instruments[p.symbol];
      WorthIsGross(p.side, p.entry, ValuedAt(p.side, q), inst, w.rates[inst.quoteCurrency], p.volume);
    }
  }

  lemma {:induction false} TickPositionsValue(s: Account, symbol: string, q: Quote, ids: seq<nat>, id: nat)
    requires id in s.book.positions
    ensures var t := TickPositions(s, symbol, q, ids);
            && id in t.book.positions
            && var p, r := s.book.positions[id], t.book.positions[id];
               if p.symbol == symbol && id in ids then Revalued(s.w, p, r, q) else r == p
    decreases |ids|
  {
    if ids != [] {
      TickPositionValues(s, symbol, q, ids[0], id);
      TickPositionsValue(TickPosition(s, symbol, q, ids[0]), symbol, q, ids[1..], id);
    }
  }

  lemma TickPositionValues(s: Account, symbol: string, q: Quote, k: nat, id: nat)
    requires id in s.book.positions
    ensures var t := TickPosition(s, symbol, q, k);
            && t.w == s.w && id in t.book.positions
            && var p, r := s.book.positions[id], t.book.positions[id];
               if p.symbol == symbol && k == id then Revalued(s.w, p, r, q) else r == p
  {
    if k in s.book.positions {
      MarkedRevalues(s.w, s.book.positions[k], q);
    }
  }

  /** A tick revalues every position on its symbol at the quote, with the FX rates of the moment, and no other. */
  lemma TickRevalues(cal: Calendar, s: Account, symbol: string, q: Quote, w: World, id: nat)
    requires Books(s) && symbol in s.w.instruments && id in s.book.positions
    ensures var t := Tick(cal, s, symbol, q, w);
            && t.w == s.w.(quotes := s.w.quotes[symbol := q], open := w.open, stale := w.stale, rates := w.rates)
            && id in t.book.positions
            && var p, r := s.book.positions[id], t.book.positions[id];
               if p.symbol == symbol then Revalued(t.w, p, r, q) else r == p
  {
    TickIs(cal, s, symbol, q, w);
    TickPositionsValue(s.(w := Quoted(s.w, symbol, q, w)), symbol, q, s.book.posOrder, id);
    var t := AfterPositions(s, symbol, q, w);
    TickOrdersLeave(cal, t, symbol, q, t.book.ordOrder);
  }

  // ----- resting orders -----

  /** The side of the market the order waits for has come to its price: from above for BUY LIMIT and SELL STOP, from below for the others. */
  predicate Marketable(o: Pending, symbol: string, q: Quote) {
    && o.symbol == symbol
    && var market := if o.side.Buy? then q.ask else q.bid;
       (o.kind.Market? || if o.side.Buy? == o.kind.Limit? then market <= o.price else market >= o.price)
  }

  /** A rule of the account keeps new exposure on the symbol out: session windows for what is not crypto, news for all. */
  predicate KeptOut(cal: Calendar, rules: Rules, w: World, symbol: string, now: int) {
    || (IsSession(w, symbol) && ((!rules.weekendAllowed && cal.inWindow(Weekend, now)) || (!rules.overnightAllowed && cal.inWindow(Overnight, now))))
    || (!rules.newsAllowed && symbol in w.news)
  }

  lemma RestrictedIff(cal: Calendar, rules: Rules, w: World, symbol: string, now: int)
    ensures RuleRestriction(cal, rules, w, symbol, now).Some? <==> KeptOut(cal, rules, w, symbol, now)
  {
  }

  ghost predicate FillAsked(queue: seq<Queued>, from: nat, o: Pending, q: Quote) {
    exists i :: from <= i < |queue| && queue[i].op == TriggerOrder(o, q)
  }

  ghost predicate NoFillAsked(queue: seq<Queued>, from: nat, id: string) {
    forall i :: from <= i < |queue| ==> !(queue[i].op.TriggerOrder? && queue[i].op.order.id == id)
  }

  /** An order is flagged, and its fill at the quote queued, exactly if `fires`. */
  ghost predicate Triggers(s: Account, t: Account, q: Quote, id: string, fires: bool) {
    && id in s.book.pending && id in t.book.pending && s.queue <= t.queue
    && var o, r := s.book.pending[id], t.book.pending[id];
       && r == o.(triggering := o.triggering || fires)
       && if fires && !o.triggering then FillAsked(t.queue, |s.queue|, r, q) else NoFillAsked(t.queue, |s.queue|, id)
  }

  lemma TriggersTrans(s: Account, t: Account, u: Account, q: Quote, id: string, first: bool, second: bool)
    requires Triggers(s, t, q, id, first) && Triggers(t, u, q, id, second)
    ensures Triggers(s, u, q, id, first || second)
  {
    if first && !s.book.pending[id].triggering {
      var i :| |s.queue| <= i < |t.queue| && t.queue[i].op == TriggerOrder(t.book.pending[id], q);
      assert u.queue[i] == t.queue[i];
    } else {
      assert forall i :: 0 <= i < |t.queue| ==> u.queue[i] == t.queue[i];
    }
  }

  predicate Fires(cal: Calendar, s: Account, o: Pending, symbol: string, q: Quote) {
    s.w.open && !s.breaching && !o.triggering && Marketable(o, symbol, q) && !KeptOut(cal, s.rules, s.w, symbol, s.now)
  }

  lemma TickOrderTriggers(cal: Calendar, s: Account, symbol: string, q: Quote, k: string, id: string)
    requires KeysOk(s.book) && id in s.book.pending
    ensures var t := TickOrder(cal, s, symbol, q, k);
            && t.w == s.w && t.breaching == s.breaching && t.rules == s.rules && t.now == s.now
            && Triggers(s, t, q, id, k == id && Fires(cal, s, s.book.pending[id], symbol, q))
  {
    RestrictedIff(cal, s.rules, s.w, symbol, s.now);
    var t := TickOrder(cal, s, symbol, q, k);
    if t.queue != s.queue {
      assert t.queue == s.queue + [t.queue[|s.queue|]];
    }
  }

  lemma {:induction false} TickOrdersTriggerIff(cal: Calendar, s: Account, symbol: string, q: Quote, ids: seq<string>, id: string)
    requires KeysOk(s.book) && id in s.book.pending
    ensures Triggers(s, TickOrders(cal, s, symbol, q, ids), q, id, id in ids && Fires(cal, s, s.book.pending[id], symbol, q))
    decreases |ids|
  {
    if ids != [] {
      var t := TickOrder(cal, s, symbol, q, ids[0]);
      TickOrderTriggers(cal, s, symbol, q, ids[0], id);
      TickOrderQuiet(cal, s, symbol, q, ids[0]);
      TickOrdersTriggerIff(cal, t, symbol, q, ids[1..], id);
      var fires := Fires(cal, s, s.book.pending[id], symbol, q);
      TriggersTrans(s, t, TickOrders(cal, t, symbol, q, ids[1..]), q, id, ids[0] == id && fires, id in ids[1..] && fires && ids[0] != id);
    }
  }

  /** The positions' part of a tick and its end leave resting orders alone and queue no fill. */
  ghost predicate LeavesOrders(s: Account, t: Account) {
    && t.book.pending == s.book.pending && s.queue <= t.queue
    && forall i :: |s.queue| <= i < |t.queue| ==> !t.queue[i].op.TriggerOrder?
  }

  lemma {:induction false} TickPositionsLeave(s: Account, symbol: string, q: Quote, ids: seq<nat>)
    ensures var t := TickPositions(s, symbol, q, ids);
            && LeavesOrders(s, t) && t.breaching == s.breaching && t.rules == s.rules && t.book.ordOrder == s.book.ordOrder
    decreases |ids|
  {
    if ids != [] {
      var t := TickPosition(s, symbol, q, ids[0]);
      TickPositionsLeave(t, symbol, q, ids[1..]);
      var u := TickPositions(t, symbol, q, ids[1..]);
      assert forall i :: 0 <= i < |t.queue| ==> u.queue[i] == t.queue[i];
    }
  }

  lemma TriggersBetween(s: Account, t: Account, u: Account, v: Account, q: Quote, id: string, fires: bool)
    requires LeavesOrders(s, t) && Triggers(t, u, q, id, fires) && LeavesOrders(u, v)
    ensures Triggers(s, v, q, id, fires)
  {
    assert Triggers(s, t, q, id, false);
    TriggersTrans(s, t, u, q, id, false, fires);
    assert Triggers(u, v, q, id, false);
    TriggersTrans(s, u, v, q, id, fires, false);
  }

  /**
   * A tick sets a resting order off exactly when it is on the symbol, the market is open, the account
   * is not breaching, the order is not on its way, the market has come to its price and no rule keeps
   * the account out; and then queues its fill at this quote.
   */
  lemma TickTriggersIff(cal: Calendar, s: Account, symbol: string, q: Quote, w: World, id: string)
    requires Books(s) && symbol in s.w.instruments && id in s.book.pending
    ensures var t := Tick(cal, s, symbol, q, w);
            Triggers(s, t, q, id, w.open && !s.breaching && !s.book.pending[id].triggering && Marketable(s.book.pending[id], symbol, q)
                                  && !KeptOut(cal, s.rules, t.w, symbol, s.now))
  {
    var s1 := s.(w := Quoted(s.w, symbol, q, w));
    var t, u, v := AfterPositions(s, symbol, q, w), AfterOrders(cal, s, symbol, q, w), Tick(cal, s, symbol, q, w);
    TickIs(cal, s, symbol, q, w);
    TickPositionsLeave(s1, symbol, q, s1.book.posOrder);
    TickPositionsQuiet(s1, symbol, q, s1.book.posOrder);
    TickOrdersTriggerIff(cal, t, symbol, q, t.book.ordOrder, id);
    TickDoneQuiet(u, Holds(s, symbol));
    TickEndLeaves(u, Holds(s, symbol));
    TriggersBetween(s, t, u, v, q, id, Fires(cal, t, t.book.pending[id], symbol, q));
  }

  lemma TickEndLeaves(s: Account, touched: bool)
    ensures var t := TickDone(s, touched); LeavesOrders(s, t) && t.w == s.w
  {
  }

  // ----- equity and the breach flag -----

  /** The sum over what is held, whatever the order. */
  ghost function Total(positions: map<nat, Position>, amount: Position -> int): int {
    if positions == map[] then 0
    else
      var id :| id in positions;
      amount(positions[id]) + Total(positions - {id}, amount)
  }

  lemma {:induction false} TotalWithout(positions: map<nat, Position>, amount: Position -> int, id: nat)
    requires id in positions
    ensures Total(positions, amount) == amount(positions[id]) + Total(positions - {id}, amount)
    decreases |positions|
  {
    var k :| k in positions && Total(positions, amount) == amount(positions[k]) + Total(positions - {k}, amount);
    if k != id {
      RemovedSize(positions, k);
      RemovedSize(positions, id);
      TotalWithout(positions - {k}, amount, id);
      TotalWithout(positions - {id}, amount, k);
      assert positions - {k} - {id} == positions - {id} - {k};
    }
  }

  const FloatingOf: Position -> int := (p: Position) => p.floating

  const MarginOf: Position -> int := (p: Position) => p.margin

  lemma {:induction false} SumsSkip(order: seq<nat>, positions: map<nat, Position>, id: nat)
    requires id !in order
    ensures FloatingSum(order, positions - {id}) == FloatingSum(order, positions)
    ensures MarginSum(order, positions - {id}) == MarginSum(order, positions)
  {
    if order != [] {
      SumsSkip(order[1..], positions, id);
    }
  }

  lemma {:induction false} SumsAreTotals(order: seq<nat>, positions: map<nat, Position>)
    requires NoRepeats(order) && forall id :: id in order <==> id in positions
    ensures FloatingSum(order, positions) == Total(positions, FloatingOf)
    ensures MarginSum(order, positions) == Total(positions, MarginOf)
  {
    if order == [] {
      assert positions == map[];
    } else {
      var id := order[0];
      assert id in positions && id !in order[1..];
      TotalWithout(positions, FloatingOf, id);
      TotalWithout(positions, MarginOf, id);
      SumsAreTotals(order[1..], positions - {id});
      SumsSkip(order[1..], positions, id);
    }
  }

  /** Equity is the balance and what every held position has gained, each counted once; margin is theirs; the peak follows up. */
  lemma RecomputedIs(s: Account)
    requires KeysOk(s.book)
    ensures var f := Recompute(s).fig;
            && f.balance == s.fig.balance && f.equity == f.balance + Total(s.book.positions, FloatingOf)
            && f.marginUsed == Total(s.book.positions, MarginOf)
            && f.highWaterMark == (if s.fig.highWaterMark > f.equity then s.fig.highWaterMark else f.equity)
  {
    SumsAreTotals(s.book.posOrder, s.book.positions);
  }

  /** A tick on a held symbol brings equity and margin up to date with every held position. */
  lemma TickEquity(cal: Calendar, s: Account, symbol: string, q: Quote, w: World)
    requires Books(s) && symbol in s.w.instruments && Holds(s, symbol)
    ensures var t := Tick(cal, s, symbol, q, w);
            && t.fig.balance == s.fig.balance && t.fig.equity == s.fig.balance + Total(t.book.positions, FloatingOf)
            && t.fig.marginUsed == Total(t.book.positions, MarginOf)
  {
    TickKeepsOrder(cal, s, symbol, q, w);
    TickIs(cal, s, symbol, q, w);
    RecomputedIs(AfterOrders(cal, s, symbol, q, w));
  }

  lemma TickKeepsOrder(cal: Calendar, s: Account, symbol: string, q: Quote, w: World)
    requires Books(s) && symbol in s.w.instruments
    ensures var u := AfterOrders(cal, s, symbol, q, w); KeysOk(u.book) && u.fig == s.fig && u.breaching == s.breaching && u.rules == s.rules && u.w.open == w.open
  {
    var s1 := s.(w := Quoted(s.w, symbol, q, w));
    var t := AfterPositions(s, symbol, q, w);
    TickPositionsQuiet(s1, symbol, q, s1.book.posOrder);
    SameBookKeeps(s1.book, t.book);
    TickOrdersQuiet(cal, t, symbol, q, t.book.ordOrder);
    SameBookKeeps(t.book, AfterOrders(cal, s, symbol, q, w).book);
    TickPositionsOneWay(s1, symbol, q, s1.book.posOrder);
    TickOrdersOneWay(cal, t, symbol, q, t.book.ordOrder);
  }

  predicate AtOrBelow(equity: int, floor: Floor) { floor.Some? && equity <= floor.value }

  /**
   * A tick flags the account exactly when it holds the symbol, the market is open, none of its symbols
   * is stale, and its equity has come down to one of the two floors.
   */
  lemma TickFlagsAccountIff(cal: Calendar, s: Account, symbol: string, q: Quote, w: World)
    requires Books(s) && symbol in s.w.instruments
    ensures var t := Tick(cal, s, symbol, q, w);
            t.breaching
            <==> s.breaching
                 || (Holds(s, symbol) && w.open && !HoldsStale(t)
                     && (AtOrBelow(t.fig.equity, DrawdownFloor(t)) || AtOrBelow(t.fig.equity, LossFloor(t))))
  {
    TickKeepsOrder(cal, s, symbol, q, w);
    TickIs(cal, s, symbol, q, w);
    var r := Recompute(AfterOrders(cal, s, symbol, q, w));
    assert HoldsStale(r) == HoldsStale(CheckForBreach(r));
  }
}
