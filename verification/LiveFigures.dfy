/**
 * The figures and levels an account shows: after a load, a reload, a close, a new anchor, a failure
 * and a change of levels.
 */
module LiveFigures {
  import opened Options
  import opened Money
  import opened TradingMath
  import opened TradingLaws
  import opened ChallengeRules
  import opened DailyReset
  import opened Live
  import opened LiveBooks
  import opened LiveTicks
  import opened LiveOrders
  import opened LiveSafety

  /** Equity is the balance and what every held position has gained; margin is theirs; the peak is not below equity. */
  ghost predicate UpToDate(t: Account) {
    && t.fig.equity == t.fig.balance + Total(t.book.positions, FloatingOf) && t.fig.marginUsed == Total(t.book.positions, LiveTicks.MarginOf)
    && t.fig.highWaterMark >= t.fig.equity
  }

  lemma RecomputedUpToDate(s: Account)
    requires KeysOk(s.book)
    ensures UpToDate(Recompute(s)) && Recompute(s).fig.balance == s.fig.balance
  {
    RecomputedIs(s);
  }

  /** The columns of the row are taken over; only the peak is the greater of the two. */
  ghost predicate FromRow(s: Account, t: Account, row: Reply) {
    && t.fig.status == row.status && t.fig.balance == t.book.db.balance && t.fig.anchor == row.anchor
    && t.fig.highWaterMark == Max(Max(s.fig.highWaterMark, row.highWaterMark), t.fig.equity)
  }

  /** After a reload the figures are the row's, and up to date with what is held. */
  lemma ReloadedFigures(cal: Calendar, s: Account, row: Reply, rows: seq<nat>)
    requires Books(s) && !s.book.untracked && CanAutoEvaluate(row.status)
    ensures var t := Next(cal, s, Happened(RowReloaded(row, rows)));
            UpToDate(t) && FromRow(s, t, row)
  {
    MergeRowKeeps(s, row, rows);
    var b := AddMissing(s.w, s.book, rows);
    var u := ApplyRow(s, row).(book := DropClosed(b, b.posOrder));
    assert MergeRow(s, row, rows).book == u.book;
    RecomputedIs(u);
    MergeRowThins(s, row, rows);
  }

  /** A row that trades no more only has everything closed and the account taken off, in its turn. */
  lemma StoppedRowEmpties(cal: Calendar, s: Account, row: Reply, rows: seq<nat>)
    requires !s.book.untracked && row.status != Active && row.status != FundedStatus
    ensures Next(cal, s, Happened(RowReloaded(row, rows))) == s.(queue := s.queue + [Queued(CloseAll, s.now)])
  {
  }

  /** What is left of a position has its row's volume and margin, is not closing, and is revalued at the close's quote. */
  ghost predicate LeftOver(w: World, p: Position, r: Position, row: Position, q: Option<Quote>) {
    var rest := p.(volume := row.volume, margin := row.margin, closing := false);
    if q.Some? then Revalued(w, rest, r, q.value) && !r.closing else r == rest
  }

  /** After a close is recorded memory has the row's figures and what is left of the position. */
  lemma ClosedFigures(s: Account, id: nat, plan: ClosePlan, reply: Reply)
    requires Books(s) && s.run.Closing? && s.run.pos == id && s.run.plan == plan
    ensures var t := ApplyClose(s, id, plan, reply);
            && UpToDate(t) && FromRow(s, t, reply)
            && (id in t.book.db.open <==> id in t.book.positions)
            && (id in t.book.db.open
                ==> LeftOver(s.w, s.book.positions[id], t.book.positions[id], t.book.db.open[id], plan.quote))
            && (forall k :: k in t.book.positions && k != id ==> k in s.book.positions && t.book.positions[k] == s.book.positions[k])
  {
    ApplyCloseKeeps(s, id, plan, reply);
    ApplyCloseRow(s, id, plan, reply);
    ClosedMemory(s, id, plan, reply);
  }

  lemma ClosedMemory(s: Account, id: nat, plan: ClosePlan, reply: Reply)
    requires id in s.book.positions && KeysOk(ApplyClose(s, id, plan, reply).book)
    ensures var t := ApplyClose(s, id, plan, reply);
            && UpToDate(t) && FromRow(s, t, reply)
            && (id in t.book.db.open <==> id in t.book.positions)
            && (id in t.book.db.open
                ==> LeftOver(s.w, s.book.positions[id], t.book.positions[id], t.book.db.open[id], plan.quote))
            && (forall k :: k in t.book.positions && k != id ==> k in s.book.positions && t.book.positions[k] == s.book.positions[k])
  {
    var t := ApplyClose(s, id, plan, reply);
    RecomputedIs(ApplyRow(s.(book := t.book), reply));
    if id in t.book.db.open && plan.quote.Some? {
      var row := t.book.db.open[id];
      MarkedRevalues(s.w, s.book.positions[id].(volume := row.volume, margin := row.margin, closing := false), plan.quote.value);
    }
  }

  // ----- anchors and failures -----

  /** A captured boundary anchors the day's loss at the equity of the moment, with every held position in it. */
  lemma CaptureAnchors(cal: Calendar, s: Account, boundary: int, at: int, reply: Reply)
    requires KeysOk(s.book) && s.run.Idle? && s.queue == [Queued(CaptureAnchor(boundary), at)] && !s.book.untracked
    ensures var t := Next(cal, Next(cal, s, Began), Resumed(reply));
            && UpToDate(t) && t.fig.balance == s.fig.balance && t.book == s.book && AtRest(t)
            && t.fig.anchor == if reply.ok then t.fig.equity else s.fig.anchor
  {
    assert s.queue[1..] == [];
    RecomputedUpToDate(s.(queue := []));
  }

  /** A failure that is recorded shows in memory with the ledger's balance, and the account is on its way off. */
  lemma FailureShows(cal: Calendar, s: Account, reply: Reply)
    requires s.run.Failing?
    ensures var t := Next(cal, s, Resumed(reply));
            && (reply.ok ==> t.fig.status == reply.status && t.fig.balance == s.book.db.balance)
            && (t.book.untracked || t.run == Cancelling(s.book.ordOrder, ThenUntrack))
  {
  }

  // ----- loading -----

  /** An account comes up with its row's balance and peak; its anchor is the row's unless a boundary went by unwatched. */
  lemma LoadedFigures(w: World, now: int, rules: Rules, resetTime: ResetTime, startingBalance: int, row: Figures,
                      db: Ledger, rows: seq<nat>, orders: seq<Pending>, judged: Option<Reply>)
    requires LedgerOk(db) && PendingRows(db, orders) && (forall id :: id in rows <==> id in db.open)
    ensures var t := Track(w, now, rules, resetTime, startingBalance, row, db, rows, orders, judged);
            && (judged.None? ==> UpToDate(t) && t.fig.balance == row.balance && t.fig.anchor == row.anchor && t.fig.status == row.status)
            && (judged.Some? && !judged.value.ok ==> UpToDate(t) && t.fig.balance == row.balance && t.fig.anchor == t.fig.equity)
            && (judged.Some? && judged.value.ok && CanAutoEvaluate(judged.value.status)
                ==> UpToDate(t) && t.fig.balance == db.balance && t.fig.anchor == judged.value.anchor && t.fig.status == judged.value.status)
            && (ValidReset(resetTime) ==> t.nextBoundary > now) && t.queue == [] && t.sweeps == map[] && t.done == map[] && !t.breaching
  {
    var b := Book(map[], [], map[], [], false, db, []);
    RowsLoad(w, b, rows);
    OrdersLoad(AddMissing(w, b, rows), orders);
    var c := AddOrders(AddMissing(w, b, rows), orders);
    LoadedStock(c);
    var s := Account(w, now, rules, resetTime, startingBalance, c, row, false, map[], 0, NextDayStart(resetTime, now), [], Idle, {}, map[]);
    RecomputedUpToDate(s);
    if ValidReset(resetTime) {
      NextIsBoundary(resetTime, now);
    }
    if judged.Some? {
      RecomputedUpToDate(ApplyRow(s, judged.value));
    }
  }

  // ----- levels -----

  /** Asked-for levels; what is not mentioned stays. */
  function Asked(kept: Option<real>, asked: Option<Option<real>>): Option<real> { if asked.Some? then asked.value else kept }

  /** The price new levels are judged by: where the position could be closed, or without a quote its entry. */
  function JudgedBy(w: World, p: Position): real {
    if p.symbol in w.quotes then ValuedAt(p.side, w.quotes[p.symbol]) else p.entry
  }

  /**
   * New levels take hold, in memory and in the row, exactly when they fit the price of the moment and
   * the position is not on its way out; nothing else of it changes.
   */
  lemma ModifySetsLevels(cal: Calendar, s: Account, id: nat, stopLoss: Option<Option<real>>, takeProfit: Option<Option<real>>, reply: Reply)
    requires AtRest(s) && !s.book.untracked && id in s.book.positions && id in s.book.db.open
    ensures var p, row, t := s.book.positions[id], s.book.db.open[id], Handled(cal, s, ModifyPosition(id, stopLoss, takeProfit), reply);
            var sl, tp := Asked(p.stopLoss, stopLoss), Asked(p.takeProfit, takeProfit);
            if !p.closing && LevelsFit(p.side, JudgedBy(s.w, p), sl, tp) && reply.ok then
              && t.book.positions == s.book.positions[id := p.(stopLoss := sl, takeProfit := tp)]
              && t.book.db == s.book.db.(open := s.book.db.open[id := row.(stopLoss := sl, takeProfit := tp)])
            else t.book == s.book
  {
    Starts(cal, s, ModifyPosition(id, stopLoss, takeProfit));
    ModifyStartsIff(s, id, stopLoss, takeProfit);
  }

  lemma ModifyStartsIff(s: Account, id: nat, stopLoss: Option<Option<real>>, takeProfit: Option<Option<real>>)
    requires !s.book.untracked && id in s.book.positions
    ensures var p := s.book.positions[id];
            var sl, tp := Asked(p.stopLoss, stopLoss), Asked(p.takeProfit, takeProfit);
            BeginModify(s, id, stopLoss, takeProfit)
            == if !p.closing && LevelsFit(p.side, JudgedBy(s.w, p), sl, tp) then s.(run := Modifying(id, sl, tp)) else s
  {
    var p := s.book.positions[id];
    StopsValidIff(p.side, JudgedBy(s.w, p), Asked(p.stopLoss, stopLoss), Asked(p.takeProfit, takeProfit));
  }
}
