/**
 * What a run of one tracked account guarantees from the moment it is loaded: each position leaves
 * the books once and with all of its volume, each order ends once, the position limit holds, and
 * the holding rules bind for every interleaving.
 */
module LiveSafety {
  import opened Options
  import opened TradingMath
  import ChallengeRules
  import DailyReset
  import opened Sessions
  import opened Live
  import opened LiveBooks
  import opened LiveHolding
  import opened LiveFrames

  /** An account just loaded: memory is the OPEN rows and the PENDING orders, nothing is queued or in flight. */
  ghost predicate Fresh(s: Account) {
    && Stock(s.book) && !s.book.untracked && s.book.results == [] && WithinLimit(s.rules, s.book, 0)
    && s.book.positions.Keys == s.book.db.open.Keys
    && (forall id :: id in s.book.positions ==> !s.book.positions[id].closing)
    && s.queue == [] && s.run.Idle? && s.done == map[] && s.stuck == {}
  }

  // ----- loading -----

  /** Every position in memory is an OPEN row, unflagged, in the insertion order. */
  ghost predicate LoadedRows(b: Book) {
    && (forall id :: id in b.positions ==> id in b.db.open && SamePosition(b.db.open[id], b.positions[id])
                                           && !b.positions[id].closing && id in b.posOrder)
    && (forall id :: id in b.posOrder ==> id in b.positions) && NoRepeats(b.posOrder)
  }

  lemma {:induction false} RowsLoad(w: World, b: Book, rows: seq<nat>)
    requires LoadedRows(b) && LedgerOk(b.db)
    ensures var c := AddMissing(w, b, rows);
            && LoadedRows(c) && c == b.(positions := c.positions, posOrder := c.posOrder)
            && (forall id :: id in c.positions <==> id in b.positions || (id in rows && id in b.db.open))
    decreases |rows|
  {
    if rows != [] {
      var id := rows[0];
      if id in b.db.open && id !in b.positions {
        var p := b.db.open[id].(closing := false);
        if p.symbol in w.quotes {
          MarkedSame(w, p, w.quotes[p.symbol]);
        }
        AppendNoRepeats(b.posOrder, p.id);
        RowsLoad(w, Opened(w, b, p), rows[1..]);
      } else {
        RowsLoad(w, b, rows[1..]);
      }
    }
  }

  ghost predicate LoadedOrders(b: Book) {
    && (forall id :: id in b.pending ==> b.pending[id].id == id && id in b.ordOrder && b.pending[id].volume >= 0
                                         && id in b.db.orders && b.db.orders[id].OrderPending?)
    && (forall id :: id in b.ordOrder ==> id in b.pending)
    && NoRepeats(b.ordOrder)
  }

  ghost predicate PendingRows(db: Ledger, orders: seq<Pending>) {
    forall o :: o in orders ==> o.id in db.orders && db.orders[o.id].OrderPending? && o.volume >= 0
  }

  lemma {:induction false} OrdersLoad(b: Book, orders: seq<Pending>)
    requires LoadedOrders(b) && PendingRows(b.db, orders)
    ensures var c := AddOrders(b, orders);
            LoadedOrders(c) && c == b.(pending := c.pending, ordOrder := c.ordOrder)
    decreases |orders|
  {
    if orders != [] {
      var o := orders[0].(triggering := false);
      assert orders[0] in orders;
      if o.id !in b.pending {
        AppendNoRepeats(b.ordOrder, o.id);
      }
      OrdersLoad(AddPending(b, o), orders[1..]);
    }
  }

  /** Loading from consistent rows gives an account all the run properties below apply to. */
  lemma TrackedIsFresh(w: World, now: int, rules: Rules, resetTime: DailyReset.ResetTime, startingBalance: int, row: Figures,
                       db: Ledger, rows: seq<nat>, orders: seq<Pending>, judged: Option<Reply>)
    requires LedgerOk(db) && PendingRows(db, orders) && (forall id :: id in rows <==> id in db.open)
    requires WithinLimit(rules, Track(w, now, rules, resetTime, startingBalance, row, db, rows, orders, judged).book, 0)
    ensures var s := Track(w, now, rules, resetTime, startingBalance, row, db, rows, orders, judged);
            if judged.Some? && judged.value.ok && !ChallengeRules.CanAutoEvaluate(judged.value.status) then s.book.untracked && s.book.positions == map[]
            else Fresh(s)
  {
    var b := Book(map[], [], map[], [], false, db, []);
    RowsLoad(w, b, rows);
    OrdersLoad(AddMissing(w, b, rows), orders);
    LoadedStock(AddOrders(AddMissing(w, b, rows), orders));
  }

  lemma LoadedStock(b: Book)
    requires LoadedRows(b) && LoadedOrders(b) && LedgerOk(b.db) && !b.untracked && b.results == []
    requires forall id :: id in b.positions <==> id in b.db.open
    ensures Stock(b)
  {
    assert forall id :: id in b.positions ==> b.db.open[id].id == id;
  }

  lemma FreshHolds(cal: Calendar, s: Account)
    requires Fresh(s)
    ensures Books(s) && Holding(cal, s)
  {
  }

  // ----- closing -----

  /**
   * However stop, manual, breach and holding-rule closes interleave with each other and with rows
   * closed elsewhere, a position ends at most once and its volumes add up to what was opened.
   */
  lemma ClosedOnceAndConserved(cal: Calendar, s: Account, steps: seq<Step>, id: nat)
    requires Fresh(s) && id in Run(cal, s, steps).book.db.lots
    ensures var db := Run(cal, s, steps).book.db;
            && FullCloses(db.trades, id) + (if id in db.open then 1 else 0) + (if id in db.voided then 1 else 0) == 1
            && ClosedVolume(db.trades, id) + OpenVolume(db, id) + VoidedVolume(db, id) == db.lots[id]
            && OpenVolume(db, id) >= 0
  {
    FreshHolds(cal, s);
    RunKeepsBooks(cal, s, steps);
    assert Conserved(Run(cal, s, steps).book.db, id);
  }

  /** The rows closed elsewhere since the last merge, and those that merge passed over because they were closing. */
  ghost function Unseen(cal: Calendar, s: Account, steps: seq<Step>): set<nat> {
    if steps == [] then {}
    else
      var front, step := steps[..|steps| - 1], steps[|steps| - 1];
      UnseenAfter(Run(cal, s, front), Unseen(cal, s, front), step)
  }

  function UnseenAfter(t: Account, before: set<nat>, step: Step): set<nat> {
    match step
    case Happened(ChangedElsewhere(closed, _)) => before + closed * t.book.db.open.Keys
    case Happened(RowReloaded(row, _)) =>
      if t.book.untracked || !ChallengeRules.CanAutoEvaluate(row.status) then before
      else set id | id in before && id in t.book.positions && t.book.positions[id].closing
    case _ => before
  }

  ghost predicate OnlyUnseenDiffer(b: Book, unseen: set<nat>) {
    && (forall id :: id in unseen ==> id in b.db.voided)
    && (!b.untracked ==> forall id :: id in b.positions && id !in b.db.open ==> id in unseen)
  }

  lemma {:induction false} RunDiffers(cal: Calendar, s: Account, steps: seq<Step>)
    requires Fresh(s)
    ensures OnlyUnseenDiffer(Run(cal, s, steps).book, Unseen(cal, s, steps))
  {
    FreshHolds(cal, s);
    if steps != [] {
      var front := steps[..|steps| - 1];
      RunDiffers(cal, s, front);
      RunKeepsBooks(cal, s, front);
      StepDiffers(cal, Run(cal, s, front), Unseen(cal, s, front), steps[|steps| - 1]);
    }
  }

  lemma StepDiffers(cal: Calendar, s: Account, unseen: set<nat>, step: Step)
    requires Books(s) && OnlyUnseenDiffer(s.book, unseen)
    ensures OnlyUnseenDiffer(Next(cal, s, step).book, UnseenAfter(s, unseen, step))
  {
    match step
    case Happened(ChangedElsewhere(closed, _)) =>
    case Happened(RowReloaded(row, rows)) => MergeRowThins(s, row, rows);
    case _ =>
      StepKeepsBooks(cal, s, step);
      NewIdIsFresh(s.book);
      NextAdmits(cal, s, step);
  }

  /**
   * While the account is tracked, memory holds every OPEN row as it is; what it holds besides is
   * exactly what was closed elsewhere since the last merge.
   */
  lemma MemoryMirrorsRows(cal: Calendar, s: Account, steps: seq<Step>)
    requires Fresh(s) && !Run(cal, s, steps).book.untracked
    ensures var b := Run(cal, s, steps).book;
            && b.db.open.Keys <= b.positions.Keys
            && b.positions.Keys - b.db.open.Keys == b.positions.Keys * Unseen(cal, s, steps)
            && (forall id :: id in b.db.open ==> b.positions[id].volume == b.db.open[id].volume
                                                 && b.positions[id].symbol == b.db.open[id].symbol)
  {
    FreshHolds(cal, s);
    RunKeepsBooks(cal, s, steps);
    RunDiffers(cal, s, steps);
  }

  /**
   * A merge makes memory and the OPEN rows the same again, up to positions already on their way
   * out; so it does completely exactly when no closing position has lost its row.
   */
  lemma MergeRestoresMirror(s: Account, row: Reply, rows: seq<nat>)
    requires Books(s) && !s.book.untracked && ChallengeRules.CanAutoEvaluate(row.status)
    ensures var b := MergeRow(s, row, rows).book;
            && (forall id :: id in b.positions <==> id in s.book.db.open || (id in s.book.positions && s.book.positions[id].closing))
            && (b.positions.Keys == b.db.open.Keys
                <==> forall id :: id in s.book.positions && s.book.positions[id].closing ==> id in s.book.db.open)
  {
    MergeRowThins(s, row, rows);
    var b := MergeRow(s, row, rows).book;
    if b.positions.Keys == b.db.open.Keys {
      forall id | id in s.book.positions && s.book.positions[id].closing ensures id in s.book.db.open {
        assert id in b.positions.Keys;
      }
    }
  }

  /**
   * The balance is what was there at the load, plus what each close was credited with (gross less
   * commission), plus what payouts and resets moved.
   */
  lemma BalanceIsCredits(cal: Calendar, s: Account, steps: seq<Step>)
    requires Fresh(s)
    ensures var db := Run(cal, s, steps).book.db;
            db.balance == s.book.db.balance - NetSum(s.book.db.trades) + NetSum(db.trades) + Moved(steps)
  {
    FreshHolds(cal, s);
    RunOneWay(cal, s, steps);
  }

  // ----- ticks miss nothing -----

  /** A position that should be stopped out at this quote, and is not on its way out. */
  predicate Overdue(p: Position, symbol: string, q: Quote) {
    p.symbol == symbol && !p.closing && CheckStops(p.side, q, p.stopLoss, p.takeProfit).Some?
  }

  lemma TickPositionStops(s: Account, symbol: string, q: Quote, id: nat)
    requires s.w.open && !s.breaching
    ensures var t := TickPosition(s, symbol, q, id);
            && t.w == s.w && t.breaching == s.breaching && t.book.positions.Keys == s.book.positions.Keys
            && (forall k :: k in t.book.positions && Overdue(t.book.positions[k], symbol, q) ==> k != id && Overdue(s.book.positions[k], symbol, q))
  {
    if id in s.book.positions {
      MarkedSame(s.w, s.book.positions[id], q);
      MarkedStops(s.w, s.book.positions[id], q);
    }
  }

  lemma MarkedStops(w: World, p: Position, q: Quote)
    ensures var m := Marked(w, p, q); m.side == p.side && m.stopLoss == p.stopLoss && m.takeProfit == p.takeProfit
  {
  }

  lemma {:induction false} TickPositionsStop(s: Account, symbol: string, q: Quote, ids: seq<nat>)
    requires s.w.open && !s.breaching
    ensures var t := TickPositions(s, symbol, q, ids);
            && t.book.positions.Keys == s.book.positions.Keys
            && (forall k :: k in t.book.positions && Overdue(t.book.positions[k], symbol, q) ==> k !in ids && Overdue(s.book.positions[k], symbol, q))
    decreases |ids|
  {
    if ids != [] {
      TickPositionStops(s, symbol, q, ids[0]);
      TickPositionsStop(TickPosition(s, symbol, q, ids[0]), symbol, q, ids[1..]);
      assert forall k :: k in ids ==> k == ids[0] || k in ids[1..];
    }
  }

  /** After a tick in an open market every held position whose stop or target it reached is marked closing. */
  lemma NoStopMissed(cal: Calendar, s: Account, symbol: string, q: Quote, w: World, id: nat)
    requires Books(s) && symbol in s.w.instruments && w.open && !s.breaching
    ensures var t := Tick(cal, s, symbol, q, w);
            id in t.book.positions ==> !Overdue(t.book.positions[id], symbol, q)
  {
    var s1 := s.(w := Quoted(s.w, symbol, q, w));
    TickPositionsStop(s1, symbol, q, s1.book.posOrder);
    var s2 := TickPositions(s1, symbol, q, s1.book.posOrder);
    TickOrdersSame(cal, s2, symbol, q, s2.book.ordOrder);
    TickDoneQuiet(TickOrders(cal, s2, symbol, q, s2.book.ordOrder), Holds(s1, symbol));
  }

  /** A resting order that should trigger at this quote, and is not on its way. */
  predicate Ripe(cal: Calendar, s: Account, o: Pending, symbol: string, q: Quote) {
    && o.symbol == symbol && !o.triggering && PendingTriggered(o.side, o.kind, o.price, q)
    && RuleRestriction(cal, s.rules, s.w, symbol, s.now).None?
  }

  lemma {:induction false} TickOrdersTrigger(cal: Calendar, s: Account, symbol: string, q: Quote, ids: seq<string>)
    requires s.w.open && !s.breaching
    ensures var t := TickOrders(cal, s, symbol, q, ids);
            && t.w == s.w && t.rules == s.rules && t.now == s.now && t.book.pending.Keys == s.book.pending.Keys
            && (forall k :: k in t.book.pending && Ripe(cal, t, t.book.pending[k], symbol, q)
                            ==> k !in ids && Ripe(cal, s, s.book.pending[k], symbol, q))
    decreases |ids|
  {
    if ids != [] {
      TickOrdersTrigger(cal, TickOrder(cal, s, symbol, q, ids[0]), symbol, q, ids[1..]);
      assert forall k :: k in ids ==> k == ids[0] || k in ids[1..];
    }
  }

  /** After a tick in an open market every resting order it reached is triggering, unless a rule holds it back. */
  lemma NoTriggerMissed(cal: Calendar, s: Account, symbol: string, q: Quote, w: World, id: string)
    requires Books(s) && symbol in s.w.instruments && w.open && !s.breaching
    ensures var t := Tick(cal, s, symbol, q, w);
            id in t.book.pending ==> !Ripe(cal, t, t.book.pending[id], symbol, q)
  {
    var s1 := s.(w := Quoted(s.w, symbol, q, w));
    TickPositionsQuiet(s1, symbol, q, s1.book.posOrder);
    TickPositionsOneWay(s1, symbol, q, s1.book.posOrder);
    var s2 := TickPositions(s1, symbol, q, s1.book.posOrder);
    NoneRipeAfter(cal, s2, symbol, q, Holds(s1, symbol));
    assert Tick(cal, s, symbol, q, w) == TickDone(TickOrders(cal, s2, symbol, q, s2.book.ordOrder), Holds(s1, symbol));
  }

  lemma NoneRipeAfter(cal: Calendar, s: Account, symbol: string, q: Quote, touched: bool)
    requires KeysOk(s.book) && s.w.open && !s.breaching
    ensures var t := TickDone(TickOrders(cal, s, symbol, q, s.book.ordOrder), touched);
            forall k :: k in t.book.pending ==> !Ripe(cal, t, t.book.pending[k], symbol, q)
  {
    TickOrdersTrigger(cal, s, symbol, q, s.book.ordOrder);
    var u := TickOrders(cal, s, symbol, q, s.book.ordOrder);
    TickDoneQuiet(u, touched);
    var t := TickDone(u, touched);
    assert t.w == u.w && t.now == u.now && t.rules == u.rules && t.book == u.book;
  }

  lemma {:induction false} TickOrdersSame(cal: Calendar, s: Account, symbol: string, q: Quote, ids: seq<string>)
    ensures TickOrders(cal, s, symbol, q, ids).book.positions == s.book.positions
    decreases |ids|
  {
    if ids != [] {
      TickOrdersSame(cal, TickOrder(cal, s, symbol, q, ids[0]), symbol, q, ids[1..]);
    }
  }

  /** An order the engine accepts to rest is marketable at that very quote exactly when rounding took it over the edge. */
  lemma RestedOrderTriggersIff(cal: Calendar, s: Account, m: OrderMsg)
    requires CheckOrder(cal, s, m).Rest?
    ensures var o := CheckOrder(cal, s, m).order;
            && FreshQuote(s.w, m.symbol).Some? && m.price.Some? && m.symbol in s.w.instruments
            && var q := FreshQuote(s.w, m.symbol).value;
               PendingTriggered(o.side, o.kind, o.price, q)
               <==> RoundsOver(Points(s.w.instruments[m.symbol].digits), m.price.value, Edge(m.side, q))
  {
    AcceptedPendingTriggersIff(m.side, m.kind, m.price, FreshQuote(s.w, m.symbol).value, s.w.instruments[m.symbol].digits);
  }

  // ----- daily anchors -----

  /** The timer of a tracked account is the anchor timer, and a capture is queued exactly when it takes a boundary. */
  lemma AnchorTimerRefines(s: Account, captured: seq<int>)
    requires !s.book.untracked
    ensures var t := Live.AnchorTimer(s);
            var a := DailyReset.AfterSecond(s.resetTime, DailyReset.Anchors(s.nextBoundary, captured), DailyReset.Second(s.now, s.breaching));
            && t.nextBoundary == a.next
            && t.queue == s.queue + (if a.captured == captured then [] else [Queued(CaptureAnchor(a.captured[|captured|]), s.now)])
  {
    assert captured + [DailyReset.CurrentDayStart(s.resetTime, s.now)] != captured;
  }

  // ----- orders and the limit -----

  /** Positions, resting orders and the order being placed never exceed the account's limit. */
  lemma LimitHolds(cal: Calendar, s: Account, steps: seq<Step>)
    requires Fresh(s) && s.rules.maxPositions.Some? && s.rules.maxPositions.value > 0
    ensures var t := Run(cal, s, steps);
            |t.book.positions| + |t.book.pending| + InFlight(t.run) <= s.rules.maxPositions.value
  {
    FreshHolds(cal, s);
    RunKeepsBooks(cal, s, steps);
    RunOneWay(cal, s, steps);
  }

  /** A placed order is reported at most once, so it is never both filled and cancelled; one that rests is unreported. */
  lemma OrdersEndOnce(cal: Calendar, s: Account, steps: seq<Step>)
    requires Fresh(s)
    ensures var b := Run(cal, s, steps).book;
            && (forall i, j :: 0 <= i < j < |b.results| ==> b.results[i].0 != b.results[j].0)
            && (forall i :: 0 <= i < |b.results| ==> b.results[i].0 !in b.pending && b.results[i].0 in b.db.orders
                                                     && b.db.orders[b.results[i].0] == StatusOf(b.results[i].1))
            && (forall id :: id in b.pending ==> id in b.db.orders && b.db.orders[id].OrderPending?)
  {
    FreshHolds(cal, s);
    RunKeepsBooks(cal, s, steps);
  }

  // ----- holding rules in New York -----

  /** The position is marked closing, and its close is queued, in flight, or failed at the queue. */
  ghost predicate LeavingSoon(t: Account, id: nat)
    requires id in t.book.positions
  {
    && t.book.positions[id].closing
    && (CloseQueued(t.queue, id) || id in t.stuck || (t.run.Closing? && t.run.pos == id))
  }

  /**
   * Every position held on a session instrument is on its way out; for the weekend no session order
   * rests. An account that is being closed for good is the exception: it flags as it goes.
   */
  ghost predicate Bound(t: Account, rule: HoldingRule) {
    && (Winding(t.run)
        || forall id :: id in t.book.positions && IsSession(t.w, t.book.positions[id].symbol) ==> LeavingSoon(t, id))
    && (rule.Weekend? ==> forall id :: id in t.book.pending ==> !IsSession(t.w, t.book.pending[id].symbol))
  }

  /**
   * The session weekend and the daily rollover: once a sweep for `rule` ended without a failure,
   * and until its window ends, every position still held on a session instrument is marked closing
   * with that close queued, in flight or failed at the queue; for the weekend no session order
   * rests. The run may change the catalogue, as long as nothing a rule has skipped turns into a
   * session instrument.
   */
  lemma HoldingRuleBinds(off: Zone, s: Account, steps: seq<Step>, rule: HoldingRule)
    requires NewYork(off) && Fresh(s) && TameRun(NewYorkCalendar(off), s, steps)
    requires OpenRule(NewYorkCalendar(off), Run(NewYorkCalendar(off), s, steps), rule)
    ensures var t := Run(NewYorkCalendar(off), s, steps); Forbids(t.rules, rule) && Bound(t, rule)
  {
    var cal := NewYorkCalendar(off);
    NewYorkStays(off);
    FreshHolds(cal, s);
    RunHoldsIff(cal, s, steps);
    assert LiveHolding.Quiet(Run(cal, s, steps), rule);
  }

  /** The account has an unmarked position on the symbol, or for the weekend a resting order. */
  ghost predicate Keeps(t: Account, rule: HoldingRule, symbol: string) {
    || (!Winding(t.run) && HeldOn(t.book.positions, symbol, []))
    || (rule.Weekend? && RestsOn(t.book.pending, symbol, []))
  }

  /** A catalogue change leaves the account bound exactly when it turns no symbol it keeps something on into a session instrument. */
  lemma CatalogueUnbindsIff(off: Zone, s: Account, steps: seq<Step>, rule: HoldingRule, w: World)
    requires NewYork(off) && Fresh(s) && TameRun(NewYorkCalendar(off), s, steps)
    requires OpenRule(NewYorkCalendar(off), Run(NewYorkCalendar(off), s, steps), rule)
    ensures var t := Run(NewYorkCalendar(off), s, steps);
            Bound(Next(NewYorkCalendar(off), t, Happened(MarketChanged(w))), rule)
            <==> forall symbol :: Turns(t.w, w, symbol) ==> !Keeps(t, rule, symbol)
  {
    var cal := NewYorkCalendar(off);
    NewYorkStays(off);
    FreshHolds(cal, s);
    RunHoldsIff(cal, s, steps);
    QuietUnbindsIff(Run(cal, s, steps), rule, w);
  }

  lemma QuietUnbindsIff(t: Account, rule: HoldingRule, w: World)
    requires ClosingTraced(t) && LiveHolding.Quiet(t, rule)
    ensures Bound(t.(w := w), rule) <==> forall symbol :: Turns(t.w, w, symbol) ==> !Keeps(t, rule, symbol)
  {
    if !Winding(t.run) {
      CoverTurns(t, w, []);
    }
    if rule.Weekend? {
      OrdersTurn(t, w, []);
    }
    assert !Winding(t.run) ==> (Covered(w, t.book.positions, [])
                                <==> forall id :: id in t.book.positions && IsSession(w, t.book.positions[id].symbol) ==> LeavingSoon(t.(w := w), id));
  }

  /** The catalogue changes only while nothing is queued or in flight. */
  ghost predicate ChangesAtRest(cal: Calendar, s: Account, steps: seq<Step>) {
    steps == []
    || (var front, step := steps[..|steps| - 1], steps[|steps| - 1];
        ChangesAtRest(cal, s, front)
        && (step.Happened? && step.event.MarketChanged? ==> Run(cal, s, front).queue == [] && Run(cal, s, front).run.Idle?))
  }

  /** At every moment of the run, whatever rule was swept for in a window still open binds. */
  ghost predicate BoundThroughout(cal: Calendar, s: Account, steps: seq<Step>) {
    && (forall rule :: OpenRule(cal, Run(cal, s, steps), rule) ==> Bound(Run(cal, s, steps), rule))
    && (steps != [] ==> BoundThroughout(cal, s, steps[..|steps| - 1]))
  }

  /** When catalogues only change at rest, the rules bind throughout exactly when every change is tame. */
  lemma {:induction false} HoldingRuleBindsIff(off: Zone, s: Account, steps: seq<Step>)
    requires NewYork(off) && Fresh(s) && ChangesAtRest(NewYorkCalendar(off), s, steps)
    ensures BoundThroughout(NewYorkCalendar(off), s, steps) <==> TameRun(NewYorkCalendar(off), s, steps)
  {
    var cal := NewYorkCalendar(off);
    if TameRun(cal, s, steps) {
      forall rule | OpenRule(cal, Run(cal, s, steps), rule) ensures Bound(Run(cal, s, steps), rule) {
        HoldingRuleBinds(off, s, steps, rule);
      }
    }
    if steps != [] {
      HoldingRuleBindsIff(off, s, steps[..|steps| - 1]);
      if BoundThroughout(cal, s, steps) {
        BoundStepIsTame(off, s, steps);
      }
    }
  }

  lemma BoundStepIsTame(off: Zone, s: Account, steps: seq<Step>)
    requires NewYork(off) && Fresh(s) && steps != [] && ChangesAtRest(NewYorkCalendar(off), s, steps)
    requires TameRun(NewYorkCalendar(off), s, steps[..|steps| - 1]) && BoundThroughout(NewYorkCalendar(off), s, steps)
    ensures TameStep(NewYorkCalendar(off), Run(NewYorkCalendar(off), s, steps[..|steps| - 1]), Run(NewYorkCalendar(off), s, steps))
  {
    var cal, front, step := NewYorkCalendar(off), steps[..|steps| - 1], steps[|steps| - 1];
    var t := Run(cal, s, front);
    if step.Happened? && step.event.MarketChanged? {
      var w := step.event.w;
      assert Run(cal, s, steps) == t.(w := w);
      forall rule, symbol | OpenRule(cal, t, rule) && Turns(t.w, w, symbol) ensures !Keeps(t, rule, symbol) {
        assert OpenRule(cal, t.(w := w), rule);
        CatalogueUnbindsIff(off, s, front, rule, w);
      }
      TameAtRest(cal, t, w);
    } else {
      StepKeepsCatalogue(cal, t, step);
    }
  }

  lemma TameAtRest(cal: Calendar, t: Account, w: World)
    requires t.queue == [] && t.run.Idle?
    requires forall rule, symbol :: OpenRule(cal, t, rule) && Turns(t.w, w, symbol) ==> !Keeps(t, rule, symbol)
    ensures TameStep(cal, t, t.(w := w))
  {
    forall symbol | Turns(t.w, w, symbol) ensures !Skipped(cal, t, symbol) {
      forall rule | OpenRule(cal, t, rule) ensures !Exposed(t, rule, symbol) {
        assert !Keeps(t, rule, symbol);
      }
    }
  }

  /** And the next step opens no position and rests no order on a session instrument. */
  lemma HoldingRuleAdmitsNothing(off: Zone, s: Account, steps: seq<Step>, step: Step, rule: HoldingRule)
    requires NewYork(off) && Fresh(s) && TameRun(NewYorkCalendar(off), s, steps)
    requires OpenRule(NewYorkCalendar(off), Run(NewYorkCalendar(off), s, steps), rule)
    ensures var cal := NewYorkCalendar(off);
            var t := Run(cal, s, steps);
            var u := Next(cal, t, step);
            && (forall id :: id in u.book.positions && id !in t.book.positions ==> !IsSession(t.w, u.book.positions[id].symbol))
            && (forall id :: id in u.book.pending && id !in t.book.pending ==> !IsSession(t.w, u.book.pending[id].symbol))
  {
    var cal := NewYorkCalendar(off);
    var t := Run(cal, s, steps);
    NewYorkStays(off);
    FreshHolds(cal, s);
    RunHoldsIff(cal, s, steps);
    RunKeepsBooks(cal, s, steps);
    assert LiveHolding.Quiet(t, rule);
    NextAdmits(cal, t, step);
  }

  // ----- what escapes -----

  /** A second in a window that was swept queues no other sweep for it. */
  lemma NoSecondSweep(off: Zone, s: Account, at: int)
    requires NewYork(off) && IsWeekendRestricted(off, at) && at <= s.now < WeekendReopen(off, at) && !s.rules.weekendAllowed
    requires Weekend in s.sweeps && s.sweeps[Weekend] == WeekendCutoff(off, at)
    ensures EnforceHoldingRules(NewYorkCalendar(off), s) == s
  {
    CutoffConstantOnWindow(off, at, s.now);
  }

  /** Position 0 on a symbol whose instrument is not loaded, for an account that may not hold over the weekend. */
  function EscapingAccount(now: int): Account {
    var p := Position(0, "X", Buy, 10, 1.0, None, None, 0, None, 0, false);
    Track(World(map[], map[], {}, true, map[], {}), now, Rules(false, true, true, None, None, 1.0, 10.0, 5.0, ChallengeRules.Static),
          DailyReset.ResetTime(0, 0, 0), 100, Figures(ChallengeRules.Active, 100, 100, 100, 0, 0, 100),
          Ledger(map[0 := p], map[0 := 10], map[], [], map[], 1, 100), [0], [], None)
  }

  function Reopened(): World {
    World(map["X" := Instrument(true, Forex, 5, 1.0, VolumeRule(0.01, 1.0, 0.01), 0.0, "USD")], map[], {}, true, map[], {})
  }

  /** The timer queues the sweep, the sweep runs, and then the catalogue loads the instrument. */
  function EscapingSteps(): seq<Step> { [Happened(SecondPassed), Began, Happened(MarketChanged(Reopened()))] }

  /**
   * At any instant of any New York weekend: the sweep skips a position whose instrument is not
   * loaded and counts as clean; when the instrument comes back, the account holds an unmarked
   * session position, nothing is queued, and no second until the reopen sweeps again.
   */
  lemma LoadedInstrumentEscapes(off: Zone, now: int)
    requires NewYork(off) && IsWeekendRestricted(off, now) && now >= 0
    ensures var cal := NewYorkCalendar(off);
            var t := Run(cal, EscapingAccount(now), EscapingSteps());
            && Fresh(EscapingAccount(now)) && OpenRule(cal, t, Weekend) && t.queue == [] && t.run.Idle?
            && 0 in t.book.positions && IsSession(t.w, t.book.positions[0].symbol) && !t.book.positions[0].closing
            && (forall u :: now <= u < WeekendReopen(off, now) ==> EnforceHoldingRules(cal, t.(now := u)) == t.(now := u))
            && !TameRun(cal, EscapingAccount(now), EscapingSteps())
  {
    EscapingIsFresh(now);
    EscapingRun(off, now);
    EscapesNow(off, Swept(off, now), now);
  }

  lemma EscapingRun(off: Zone, now: int)
    requires NewYork(off) && IsWeekendRestricted(off, now) && now >= 0
    ensures var cal, t := NewYorkCalendar(off), Swept(off, now).(w := Reopened());
            && Run(cal, EscapingAccount(now), EscapingSteps()) == t
            && (TameRun(cal, EscapingAccount(now), EscapingSteps()) ==> TameStep(cal, Swept(off, now), t))
  {
    EscapingSweep(off, now);
    ThreeSteps(NewYorkCalendar(off), EscapingAccount(now), EscapingSteps());
  }

  /** The sweep has run and found nothing. */
  function Swept(off: Zone, now: int): Account {
    EscapingAccount(now).(sweeps := map[Weekend := WeekendCutoff(off, now)], done := map[Weekend := now])
  }

  lemma EscapingSweep(off: Zone, now: int)
    requires NewYork(off) && IsWeekendRestricted(off, now) && now >= 0
    ensures var cal := NewYorkCalendar(off);
            Begin(cal, OnEvent(cal, EscapingAccount(now), SecondPassed)) == Swept(off, now)
  {
    EscapingIsFresh(now);
    SweepIsQueued(off, EscapingAccount(now));
    SweepFindsNothing(NewYorkCalendar(off), OnEvent(NewYorkCalendar(off), EscapingAccount(now), SecondPassed));
  }

  lemma EscapesNow(off: Zone, s: Account, now: int)
    requires NewYork(off) && IsWeekendRestricted(off, now) && s.now == now && !s.rules.weekendAllowed && s.run.Idle?
    requires Weekend in s.done && s.done[Weekend] == now && Weekend in s.sweeps && s.sweeps[Weekend] == WeekendCutoff(off, now)
    requires s.w.instruments == map[] && 0 in s.book.positions && s.book.positions[0].symbol == "X" && !s.book.positions[0].closing
    ensures var cal, t := NewYorkCalendar(off), s.(w := Reopened());
            && OpenRule(cal, t, Weekend) && !TameStep(cal, s, t)
            && (forall u :: now <= u < WeekendReopen(off, now) ==> EnforceHoldingRules(cal, t.(now := u)) == t.(now := u))
  {
    var cal, t := NewYorkCalendar(off), s.(w := Reopened());
    forall u | now <= u < WeekendReopen(off, now) ensures EnforceHoldingRules(cal, t.(now := u)) == t.(now := u) {
      NoSecondSweep(off, t.(now := u), now);
    }
    assert HeldOn(s.book.positions, "X", []) && Turns(s.w, t.w, "X");
    assert Exposed(s, Weekend, "X");
    assert OpenRule(cal, s, Weekend);
  }

  lemma ThreeSteps(cal: Calendar, s: Account, steps: seq<Step>)
    requires |steps| == 3
    ensures var s1 := Next(cal, s, steps[0]);
            var s2 := Next(cal, s1, steps[1]);
            var t := Next(cal, s2, steps[2]);
            Run(cal, s, steps) == t && (TameRun(cal, s, steps) ==> TameStep(cal, s2, t))
  {
    assert steps[..2][..1] == [steps[0]] && [steps[0]][..0] == [];
    assert Run(cal, s, [steps[0]]) == Next(cal, Run(cal, s, []), steps[0]);
    assert Run(cal, s, steps[..2]) == Next(cal, Run(cal, s, steps[..2][..1]), steps[1]);
  }

  lemma SweepIsQueued(off: Zone, s: Account)
    requires NewYork(off) && IsWeekendRestricted(off, s.now) && !s.rules.weekendAllowed && s.retryAt <= s.now < s.nextBoundary
    requires !s.breaching && !s.book.untracked && s.sweeps == map[] && s.queue == []
    ensures OnEvent(NewYorkCalendar(off), s, SecondPassed)
            == s.(sweeps := map[Weekend := WeekendCutoff(off, s.now)], queue := [Queued(Sweep(Weekend), s.now)])
  {
    assert Live.AnchorTimer(s) == s;
  }

  lemma SweepFindsNothing(cal: Calendar, s: Account)
    requires s.run.Idle? && !s.book.untracked && !s.breaching && s.w.instruments == map[] && s.book.ordOrder == []
    requires |s.book.posOrder| == 1 && |s.queue| == 1 && s.queue[0].op == Sweep(Weekend)
    ensures Begin(cal, s) == s.(queue := [], done := s.done[Weekend := s.queue[0].at])
  {
    var t := s.(queue := s.queue[1..]);
    assert t.queue == [];
    assert SweepLoop(t, Weekend, s.queue[0].at, s.book.posOrder, 0) == SweepLoop(t, Weekend, s.queue[0].at, s.book.posOrder[1..], 0);
    assert s.book.posOrder[1..] == [];
    assert SessionOrders(t.w, t.book.pending, t.book.ordOrder) == [];
  }

  lemma EscapingIsFresh(now: int)
    ensures var s := EscapingAccount(now);
            && Fresh(s) && s.now == now && !s.breaching && s.sweeps == map[] && s.retryAt == 0 && s.nextBoundary > now
            && s.w == World(map[], map[], {}, true, map[], {}) && !s.rules.weekendAllowed && s.rules.overnightAllowed
            && s.book.posOrder == [0] && 0 in s.book.positions && s.book.positions[0].symbol == "X" && !s.book.positions[0].closing && s.book.ordOrder == []
  {
  }
}
