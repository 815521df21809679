/**
 * What becomes of an order: which ones are accepted, what position each turns into, what its close
 * pays, and what comes of a change of its levels.
 */
module LiveOrders {
  import opened Options
  import opened Money
  import opened TradingMath
  import opened TradingLaws
  import opened ChallengeRules
  import opened Live
  import opened LiveBooks
  import opened LiveFrames
  import opened LiveTicks

  // ----- acceptance -----

  ghost predicate VolumeFits(volume: real, rule: VolumeRule) {
    0.0 < volume && rule.min <= volume <= rule.max && exists n :: IsSteps(volume, TradingMath.Step(rule), n)
  }

  predicate LevelsFit(side: Side, reference: real, stopLoss: Option<real>, takeProfit: Option<real>) {
    && (stopLoss.Some? ==> stopLoss.value > 0.0 && Loses(side, reference, stopLoss.value))
    && (takeProfit.Some? ==> takeProfit.value > 0.0 && Wins(side, reference, takeProfit.value))
  }

  /** The account trades, the symbol is open to it and quoted, and the volume is allowed. */
  ghost predicate MayTrade(cal: Calendar, s: Account, m: OrderMsg) {
    && !s.book.untracked && !s.breaching && (s.fig.status == Active || s.fig.status == FundedStatus)
    && m.symbol in s.w.instruments && s.w.instruments[m.symbol].enabled
    && !KeptOut(cal, s.rules, s.w, m.symbol, s.now)
    && m.symbol in s.w.quotes && m.symbol !in s.w.stale && s.w.open
    && VolumeFits(m.volume, s.w.instruments[m.symbol].volume)
    && (s.rules.maxPositions.Some? && s.rules.maxPositions.value > 0
        ==> |s.book.positions| + |s.book.pending| + 1 <= s.rules.maxPositions.value)
    && (s.rules.maxPositionSize.Some? && s.rules.maxPositionSize.value > 0.0
        ==> Lots(RoundVolume(m.volume)) <= s.rules.maxPositionSize.value)
    && s.w.instruments[m.symbol].quoteCurrency in s.w.rates
  }

  /** A buyer is filled at the ask and a seller at the bid; an order with a price rests at it, rounded. */
  function EntryPrice(m: OrderMsg, inst: Instrument, q: Quote): real
    requires m.kind.Market? || m.price.Some?
  {
    if m.kind.Market? then (if m.side.Buy? then q.ask else q.bid) else RoundPrice(m.price.value, inst.digits)
  }

  function MarginOf(s: Account, inst: Instrument, volume: int, price: real): int
    requires inst.quoteCurrency in s.w.rates
  {
    RequiredMargin(volume, inst.contractSize, price, s.w.rates[inst.quoteCurrency], s.rules.leverage)
  }

  /** The price is on the right side, the levels fit it and the account can afford the margin. */
  ghost predicate PriceFits(s: Account, m: OrderMsg)
    requires m.symbol in s.w.instruments && m.symbol in s.w.quotes && s.w.instruments[m.symbol].quoteCurrency in s.w.rates
  {
    var inst, q := s.w.instruments[m.symbol], s.w.quotes[m.symbol];
    && (m.kind.Market? || (m.price.Some? && m.price.value > 0.0 && !PendingTriggered(m.side, m.kind, m.price.value, q)))
    && LevelsFit(m.side, EntryPrice(m, inst, q), m.stopLoss, m.takeProfit)
    && MarginOf(s, inst, RoundVolume(m.volume), EntryPrice(m, inst, q)) <= s.fig.equity - s.fig.marginUsed
  }

  /** What an accepted order is going to be: a position at its entry price, or the same order resting. */
  ghost predicate BecomesAsAsked(s: Account, m: OrderMsg, v: Verdict)
    requires m.symbol in s.w.instruments && m.symbol in s.w.quotes && s.w.instruments[m.symbol].quoteCurrency in s.w.rates
    requires m.kind.Market? || m.price.Some?
  {
    var inst := s.w.instruments[m.symbol];
    var price := EntryPrice(m, inst, s.w.quotes[m.symbol]);
    if m.kind.Market? then v == FillNow(RoundVolume(m.volume), price, MarginOf(s, inst, RoundVolume(m.volume), price))
    else v == Rest(Pending(m.id, m.symbol, m.side, m.kind, RoundVolume(m.volume), price, m.stopLoss, m.takeProfit, false))
  }

  /** An order is accepted exactly when all of this holds, and then it becomes what was asked for. */
  lemma OrderAcceptedIff(cal: Calendar, s: Account, m: OrderMsg)
    ensures !CheckOrder(cal, s, m).Refused? <==> MayTrade(cal, s, m) && PriceFits(s, m)
    ensures !CheckOrder(cal, s, m).Refused? ==> BecomesAsAsked(s, m, CheckOrder(cal, s, m))
  {
    RestrictedIff(cal, s.rules, s.w, m.symbol, s.now);
    if m.symbol in s.w.instruments {
      VolumeValidIff(m.volume, s.w.instruments[m.symbol].volume);
      if MayTrade(cal, s, m) {
        PriceAcceptedIff(cal, s, m);
      }
    }
  }

  lemma PriceAcceptedIff(cal: Calendar, s: Account, m: OrderMsg)
    requires MayTrade(cal, s, m)
    ensures !CheckOrder(cal, s, m).Refused? <==> PriceFits(s, m)
    ensures !CheckOrder(cal, s, m).Refused? ==> BecomesAsAsked(s, m, CheckOrder(cal, s, m))
  {
    var inst, q := s.w.instruments[m.symbol], s.w.quotes[m.symbol];
    RestrictedIff(cal, s.rules, s.w, m.symbol, s.now);
    VolumeValidIff(m.volume, inst.volume);
    if !m.kind.Market? {
      RestingPriceValidIff(m.side, m.kind, m.price, q);
    }
    if m.kind.Market? || m.price.Some? {
      StopsValidIff(m.side, EntryPrice(m, inst, q), m.stopLoss, m.takeProfit);
    }
  }

  // ----- from the message to the position -----

  /** The message arrives at an idle account, its turn comes, and the ledger answers. */
  function Handled(cal: Calendar, s: Account, c: Command, reply: Reply): Account {
    Next(cal, Next(cal, Next(cal, s, Happened(Submitted(c))), Began), Resumed(reply))
  }

  predicate AtRest(s: Account) { s.run.Idle? && s.queue == [] }

  /** A position just opened: the row, and the same position in memory, valued at the last quote. */
  ghost predicate JustOpened(s: Account, t: Account, symbol: string, side: Side, volume: int, entry: real,
                             stopLoss: Option<real>, takeProfit: Option<real>, margin: int) {
    var id := s.book.db.nextId;
    var row := Position(id, symbol, side, volume, entry, stopLoss, takeProfit, margin, Some(entry), 0, false);
    && t.book.db.open == s.book.db.open[id := row] && t.book.db.trades == s.book.db.trades && t.book.db.balance == s.book.db.balance
    && id in t.book.positions && t.book.positions == s.book.positions[id := t.book.positions[id]]
    && if symbol in s.w.quotes then Revalued(s.w, row, t.book.positions[id], s.w.quotes[symbol]) && !t.book.positions[id].closing
       else t.book.positions[id] == row
  }

  lemma OpenedValues(w: World, b: Book, p: Position)
    requires !p.closing
    ensures var c := Opened(w, b, p);
            && p.id in c.positions && c.positions == b.positions[p.id := c.positions[p.id]] && c.db == b.db
            && if p.symbol in w.quotes then Revalued(w, p, c.positions[p.id], w.quotes[p.symbol]) && !c.positions[p.id].closing
               else c.positions[p.id] == p
  {
    if p.symbol in w.quotes {
      MarkedRevalues(w, p, w.quotes[p.symbol]);
    }
  }

  /** The operation at the head of an idle account's queue starts. */
  lemma Starts(cal: Calendar, s: Account, c: Command)
    requires AtRest(s)
    ensures Next(cal, Next(cal, s, Happened(Submitted(c))), Began) == Perform(cal, s, Queued(Client(c), s.now))
  {
    var t := Next(cal, s, Happened(Submitted(c)));
    assert t.queue == [Queued(Client(c), s.now)] && t.queue[1..] == [];
    assert t.(queue := []) == s;
  }

  /** An accepted market order that was not sent before opens what it asked for, at the ask or the bid. */
  lemma MarketOrderOpens(cal: Calendar, s: Account, m: OrderMsg, reply: Reply)
    requires AtRest(s) && m.kind.Market? && MayTrade(cal, s, m) && PriceFits(s, m) && reply.ok && m.id !in s.book.db.orders
    ensures var inst, q := s.w.instruments[m.symbol], s.w.quotes[m.symbol];
            var entry := if m.side.Buy? then q.ask else q.bid;
            var t := Handled(cal, s, PlaceOrder(m), reply);
            && JustOpened(s, t, m.symbol, m.side, RoundVolume(m.volume), entry, m.stopLoss, m.takeProfit,
                          MarginOf(s, inst, RoundVolume(m.volume), entry))
            && t.book.db.orders == s.book.db.orders[m.id := OrderFilled] && AtRest(t)
            && t.w == s.w && t.breaching == s.breaching && t.book.untracked == s.book.untracked
  {
    Starts(cal, s, PlaceOrder(m));
    OrderAcceptedIff(cal, s, m);
    var inst, q := s.w.instruments[m.symbol], s.w.quotes[m.symbol];
    var entry := if m.side.Buy? then q.ask else q.bid;
    var margin := MarginOf(s, inst, RoundVolume(m.volume), entry);
    OpeningOpens(s.(run := Opening(m, RoundVolume(m.volume), entry, margin)), reply);
  }

  lemma OpeningOpens(s: Account, reply: Reply)
    requires s.run.Opening? && reply.ok && s.run.msg.id !in s.book.db.orders
    ensures var t, m := Resume(s, reply), s.run.msg;
            && JustOpened(s, t, m.symbol, m.side, s.run.volume, s.run.price, m.stopLoss, m.takeProfit, s.run.margin)
            && t.book.db.orders == s.book.db.orders[m.id := OrderFilled] && t.run.Idle? && t.queue == s.queue
            && t.w == s.w && t.breaching == s.breaching && t.book.untracked == s.book.untracked
  {
    var m := s.run.msg;
    var p := NewPosition(s.book.db.nextId, m.symbol, m.side, s.run.volume, s.run.price, m.stopLoss, m.takeProfit, s.run.margin);
    OpenedValues(s.w, s.book.(db := RecordOpen(s.book.db, p, m.id)), p);
  }

  /** An accepted order with a price rests as it was asked for, PENDING in the ledger. */
  lemma RestingOrderRests(cal: Calendar, s: Account, m: OrderMsg, reply: Reply)
    requires AtRest(s) && !m.kind.Market? && MayTrade(cal, s, m) && PriceFits(s, m) && reply.ok && m.id !in s.book.db.orders
    ensures var t := Handled(cal, s, PlaceOrder(m), reply);
            var o := Pending(m.id, m.symbol, m.side, m.kind, RoundVolume(m.volume),
                             RoundPrice(m.price.value, s.w.instruments[m.symbol].digits), m.stopLoss, m.takeProfit, false);
            && t.book.pending == s.book.pending[m.id := o] && t.book.positions == s.book.positions
            && t.book.db == s.book.db.(orders := s.book.db.orders[m.id := OrderPending]) && AtRest(t)
  {
    Starts(cal, s, PlaceOrder(m));
    OrderAcceptedIff(cal, s, m);
  }

  /** An order that is refused, or was sent before, opens and rests nothing. */
  lemma RefusedOrderDoesNothing(cal: Calendar, s: Account, m: OrderMsg, reply: Reply)
    requires AtRest(s) && (!MayTrade(cal, s, m) || !PriceFits(s, m) || m.id in s.book.db.orders || !reply.ok)
    ensures var t := Handled(cal, s, PlaceOrder(m), reply);
            && t.book.positions == s.book.positions && t.book.pending == s.book.pending
            && t.book.db.open == s.book.db.open && t.book.db.balance == s.book.db.balance && AtRest(t)
  {
    Starts(cal, s, PlaceOrder(m));
    OrderAcceptedIff(cal, s, m);
  }

  /** A refusal is recorded under the order's new id, unless the account is off or the symbol is not one to trade. */
  lemma RefusalRecordedIff(cal: Calendar, s: Account, m: OrderMsg, reply: Reply)
    requires AtRest(s) && !(MayTrade(cal, s, m) && PriceFits(s, m))
    ensures var t := Handled(cal, s, PlaceOrder(m), reply);
            var tradable := !s.breaching && (s.fig.status == Active || s.fig.status == FundedStatus);
            var recorded := !s.book.untracked && m.id !in s.book.db.orders
                            && (tradable ==> m.symbol in s.w.instruments && s.w.instruments[m.symbol].enabled);
            t == if recorded then s.(book := s.book.(db := s.book.db.(orders := s.book.db.orders[m.id := OrderRejected]))) else s
  {
    Starts(cal, s, PlaceOrder(m));
    OrderAcceptedIff(cal, s, m);
  }

  /** A triggered order fills at the market of the quote that triggered it, rounded, with its own side, volume and levels. */
  lemma TriggeredOrderFills(cal: Calendar, s: Account, o: Pending, q: Quote, at: int, reply: Reply)
    requires s.run.Idle? && s.queue == [Queued(TriggerOrder(o, q), at)] && !s.book.untracked && o.id in s.book.pending
    requires o.symbol in s.w.instruments && s.w.instruments[o.symbol].quoteCurrency in s.w.rates && reply.ok && Marketable(o, o.symbol, q)
    requires var inst := s.w.instruments[o.symbol];
             MarginOf(s, inst, o.volume, RoundPrice(if o.side.Buy? then q.ask else q.bid, inst.digits)) <= s.fig.equity - s.fig.marginUsed
    ensures var inst := s.w.instruments[o.symbol];
            var entry := RoundPrice(if o.side.Buy? then q.ask else q.bid, inst.digits);
            var t := Next(cal, Next(cal, s, Began), Resumed(reply));
            && JustOpened(s, t, o.symbol, o.side, o.volume, entry, o.stopLoss, o.takeProfit, MarginOf(s, inst, o.volume, entry))
            && t.book.pending == s.book.pending - {o.id} && t.book.db.orders == s.book.db.orders[o.id := OrderFilled]
            && t.book.results == s.book.results + [(o.id, Filled)] && AtRest(t)
  {
    var inst := s.w.instruments[o.symbol];
    FillsAtMarket(o.side, o.kind, o.price, q);
    var entry := RoundPrice(if o.side.Buy? then q.ask else q.bid, inst.digits);
    assert s.queue[1..] == [];
    assert Next(cal, s, Began) == s.(queue := [], run := Filling(o, entry, MarginOf(s, inst, o.volume, entry)));
    FillingFills(s.(queue := [], run := Filling(o, entry, MarginOf(s, inst, o.volume, entry))), reply);
  }

  lemma FillingFills(s: Account, reply: Reply)
    requires s.run.Filling? && reply.ok
    ensures var t, o := Resume(s, reply), s.run.order;
            && JustOpened(s, t, o.symbol, o.side, o.volume, s.run.price, o.stopLoss, o.takeProfit, s.run.margin)
            && t.book.pending == s.book.pending - {o.id} && t.book.db.orders == s.book.db.orders[o.id := OrderFilled]
            && t.book.results == s.book.results + [(o.id, Filled)] && t.run.Idle? && t.queue == s.queue
  {
    var o := s.run.order;
    var p := NewPosition(s.book.db.nextId, o.symbol, o.side, o.volume, s.run.price, o.stopLoss, o.takeProfit, s.run.margin);
    OpenedValues(s.w, FillOrder(s.book, o.id, p), p);
  }
}
