/**
 * What each piece of an account leaves alone: nothing is held that no fill or accepted order
 * brought, the rules and the starting balance stay, the peak never falls, and neither the breach
 * flag nor the end of tracking is ever taken back.
 */
module LiveFrames {
  import opened Options
  import opened Money
  import opened TradingMath
  import opened ChallengeRules
  import opened Live
  import opened LiveBooks
  import opened LiveHolding

  /** The credits of all closes. */
  function NetSum(trades: seq<Trade>): int {
    if trades == [] then 0 else NetSum(trades[..|trades| - 1]) + trades[|trades| - 1].net
  }

  /** The part of the balance that no close has brought. */
  function Deposit(db: Ledger): int { db.balance - NetSum(db.trades) }

  lemma RecordCloseKeepsDeposit(db: Ledger, id: nat, plan: ClosePlan)
    ensures Deposit(RecordClose(db, id, plan)) == Deposit(db)
  {
    if id in db.open {
      var t := RecordClose(db, id, plan).trades;
      assert t[..|t| - 1] == db.trades;
    }
  }

  ghost predicate OneWay(s: Account, t: Account) {
    && t.rules == s.rules && t.startingBalance == s.startingBalance
    && t.fig.highWaterMark >= s.fig.highWaterMark
    && (s.breaching ==> t.breaching) && (s.book.untracked ==> t.book.untracked)
  }

  /** The queue, the breach flag, the deposit and the rows closed elsewhere stay as they are. */
  ghost predicate SameRest(s: Account, t: Account) {
    && t.queue == s.queue && t.breaching == s.breaching
    && Deposit(t.book.db) == Deposit(s.book.db) && t.book.db.voided == s.book.db.voided
  }

  /** Nothing new is held either. */
  ghost predicate Confined(s: Account, t: Account) {
    && OneWay(s, t) && SameRest(s, t)
    && t.book.positions.Keys <= s.book.positions.Keys
    && t.book.pending.Keys <= s.book.pending.Keys
  }

  /** Only a fill adds a position, and only an accepted resting order adds one to the list. */
  ghost predicate Admits(s: Account, t: Account) {
    && OneWay(s, t)
    && (forall id :: id in t.book.positions && id !in s.book.positions
                     ==> id == s.book.db.nextId
                         && ((s.run.Opening? && t.book.positions[id].symbol == s.run.msg.symbol)
                             || (s.run.Filling? && t.book.positions[id].symbol == s.run.order.symbol)))
    && (forall id :: id in t.book.pending && id !in s.book.pending
                     ==> s.run.Resting? && t.book.pending[id].symbol == s.run.order.symbol)
  }

  lemma ConfinedTrans(s: Account, t: Account, u: Account)
    requires Confined(s, t) && Confined(t, u)
    ensures Confined(s, u)
  {
  }

  lemma {:induction false} SweepLoopConfined(s: Account, rule: HoldingRule, at: int, todo: seq<nat>, failures: nat)
    ensures Confined(s, SweepLoop(s, rule, at, todo, failures))
    decreases |todo|
  {
    if todo != [] {
      SweepLoopConfined(s, rule, at, todo[1..], failures);
      SweepLoopConfined(s, rule, at, todo[1..], failures + 1);
    }
  }

  lemma {:induction false} CloseAllLoopConfined(s: Account, reason: Option<FailureReason>, todo: seq<nat>)
    ensures Confined(s, CloseAllLoop(s, reason, todo))
    decreases |todo|
  {
    if todo != [] {
      CloseAllLoopConfined(s, reason, todo[1..]);
      CloseAllLoopConfined(s.(book := SetClosing(s.book, todo[0], false)), reason, todo[1..]);
    }
  }

  lemma PerformConfined(cal: Calendar, s: Account, q: Queued)
    ensures Confined(s, Perform(cal, s, q))
  {
    match q.op
    case Sweep(rule) => SweepLoopConfined(s, rule, q.at, s.book.posOrder, 0);
    case CloseAll => CloseAllLoopConfined(s, None, s.book.posOrder);
    case Client(command) => ClientConfined(cal, s, q);
    case TriggerOrder(o, quote) => BeginTriggerConfined(s, o, quote);
    case StopClose(id, price) => BeginStopConfined(s, id, price);
    case _ =>
  }

  lemma BeginStopConfined(s: Account, id: nat, price: real)
    ensures Confined(s, BeginStop(s, id, price))
  {
  }

  lemma ClientConfined(cal: Calendar, s: Account, q: Queued)
    requires q.op.Client?
    ensures Confined(s, Perform(cal, s, q))
  {
    match q.op.command
    case PlaceOrder(m) => BeginPlaceConfined(cal, s, m);
    case _ =>
  }

  lemma BeginPlaceConfined(cal: Calendar, s: Account, m: OrderMsg)
    ensures Confined(s, BeginPlace(cal, s, m))
  {
  }

  lemma BeginTriggerConfined(s: Account, o: Pending, q: Quote)
    ensures Confined(s, BeginTrigger(s, o, q))
  {
  }

  lemma AfterCloseConfined(s: Account, after: After)
    ensures Confined(s, AfterClose(s, after))
  {
    match after
    case SweepMore(rule, at, todo, failures) => SweepLoopConfined(s, rule, at, todo, failures);
    case BreachMore(reason, todo) => CloseAllLoopConfined(s, Some(reason), todo);
    case AdminMore(todo) => CloseAllLoopConfined(s, None, todo);
    case _ =>
  }

  lemma CloseFailedConfined(s: Account, id: nat, after: After)
    ensures Confined(s, CloseFailed(s, id, after))
  {
    var t := s.(book := SetClosing(s.book, id, false));
    match after
    case SweepMore(rule, at, todo, failures) => SweepLoopConfined(t, rule, at, todo, failures + 1);
    case BreachMore(reason, todo) => CloseAllLoopConfined(t, Some(reason), todo);
    case AdminMore(todo) => CloseAllLoopConfined(t, None, todo);
    case _ =>
  }

  lemma CancelThenConfined(s: Account, ids: seq<string>)
    ensures Confined(s, CancelThen(s, ids, ThenUntrack))
  {
  }

  lemma ResumeClosingConfined(s: Account, id: nat, plan: ClosePlan, after: After, reply: Reply)
    requires Books(s) && s.run == Closing(id, plan, after)
    ensures Confined(s, ResumeClosing(s, id, plan, after, reply))
  {
    if reply.ok {
      var t := ApplyClose(s, id, plan, reply);
      ApplyCloseRow(s, id, plan, reply);
      RecordCloseKeepsDeposit(s.book.db, id, plan);
      assert Confined(s, t);
      AfterCloseConfined(t, after);
      CancelThenConfined(t, t.book.ordOrder);
      ConfinedTrans(s, t, ResumeClosing(s, id, plan, after, reply));
    } else {
      CloseFailedConfined(s, id, after);
    }
  }

  lemma CancellingConfined(s: Account, ids: seq<string>, next: AfterCancel)
    ensures Confined(s, Settle(s.(book := CancelEach(s.book, ids)), next))
  {
    CancelEachBook(s.book, ids);
  }

  lemma {:induction false} TickPositionsOneWay(s: Account, symbol: string, q: Quote, ids: seq<nat>)
    ensures var t := TickPositions(s, symbol, q, ids); OneWay(s, t) && t.breaching == s.breaching && t.fig == s.fig
    decreases |ids|
  {
    if ids != [] {
      TickPositionsOneWay(TickPosition(s, symbol, q, ids[0]), symbol, q, ids[1..]);
    }
  }

  lemma {:induction false} TickOrdersOneWay(cal: Calendar, s: Account, symbol: string, q: Quote, ids: seq<string>)
    ensures var t := TickOrders(cal, s, symbol, q, ids); OneWay(s, t) && t.breaching == s.breaching && t.fig == s.fig
    decreases |ids|
  {
    if ids != [] {
      TickOrdersOneWay(cal, TickOrder(cal, s, symbol, q, ids[0]), symbol, q, ids[1..]);
    }
  }

  lemma TickOneWay(cal: Calendar, s: Account, symbol: string, q: Quote, w: World)
    ensures OneWay(s, Tick(cal, s, symbol, q, w))
  {
    var s1 := s.(w := Quoted(s.w, symbol, q, w));
    TickPositionsOneWay(s1, symbol, q, s1.book.posOrder);
    var s2 := TickPositions(s1, symbol, q, s1.book.posOrder);
    TickOrdersOneWay(cal, s2, symbol, q, s2.book.ordOrder);
  }

  /** What the web application adds to the balance in one step, and in a run. */
  function MovedBy(step: Step): int {
    if ClosesElsewhere(step) then step.event.credit else 0
  }

  predicate ClosesElsewhere(step: Step) { step.Happened? && step.event.ChangedElsewhere? }

  function Moved(steps: seq<Step>): int {
    if steps == [] then 0 else Moved(steps[..|steps| - 1]) + MovedBy(steps[|steps| - 1])
  }

  /** No event adds a position or an order. */
  ghost predicate HoldsNoMore(s: Account, t: Account) {
    t.book.positions.Keys <= s.book.positions.Keys && t.book.pending.Keys <= s.book.pending.Keys
  }

  lemma EventOneWay(cal: Calendar, s: Account, e: Event)
    requires Books(s)
    ensures var t := OnEvent(cal, s, e);
            && OneWay(s, t) && HoldsNoMore(s, t) && Deposit(t.book.db) == Deposit(s.book.db) + MovedBy(Happened(e))
            && (!e.ChangedElsewhere? ==> t.book.db.voided == s.book.db.voided)
  {
    match e
    case RowReloaded(row, rows) => MergeRowThins(s, row, rows);
    case ChangedElsewhere(closed, credit) =>
    case Ticked(symbol, q, w) =>
      EventQuiet(cal, s, e);
      TickOneWay(cal, s, symbol, q, w);
    case _ => EventQuiet(cal, s, e);
  }

  lemma ResumeAdmits(s: Account, reply: Reply)
    requires Books(s)
    ensures Admits(s, Resume(s, reply)) && SameRest(s, Resume(s, reply))
  {
    match s.run
    case Closing(id, plan, after) => ResumeClosingConfined(s, id, plan, after, reply);
    case Flushing(reason) => CloseAllLoopConfined(s, Some(reason), s.book.posOrder);
    case Cancelling(ids, next) => CancellingConfined(s, ids, next);
    case Opening(m, volume, price, margin) => OpeningAdmits(s, m, volume, price, margin, reply.ok);
    case Filling(o, price, margin) => FillingAdmits(s, o, price, margin, reply.ok);
    case _ => RestAdmits(s, reply);
  }

  lemma OpeningAdmits(s: Account, m: OrderMsg, volume: int, price: real, margin: int, ok: bool)
    requires s.run == Opening(m, volume, price, margin)
    ensures var t := ResumeOpening(s, m, volume, price, margin, ok); Admits(s, t) && SameRest(s, t) && t.run.Idle?
  {
    if m.id !in s.book.db.orders && ok {
      var p := NewPosition(s.book.db.nextId, m.symbol, m.side, volume, price, m.stopLoss, m.takeProfit, margin);
      OpenedOpen(s.w, s.book.(db := RecordOpen(s.book.db, p, m.id)), p);
    }
  }

  lemma FillingAdmits(s: Account, o: Pending, price: real, margin: int, ok: bool)
    requires s.run == Filling(o, price, margin)
    ensures var t := ResumeFilling(s, o, price, margin, ok); Admits(s, t) && SameRest(s, t) && t.run.Idle?
  {
    var p := NewPosition(s.book.db.nextId, o.symbol, o.side, o.volume, price, o.stopLoss, o.takeProfit, margin);
    OpenedOpen(s.w, FillOrder(s.book, o.id, p), p);
  }

  lemma RestAdmits(s: Account, reply: Reply)
    requires s.run.Idle? || s.run.Resting? || s.run.Failing? || s.run.Anchoring? || s.run.Modifying?
    ensures Admits(s, Resume(s, reply)) && SameRest(s, Resume(s, reply))
  {
    match s.run
    case Resting(o) => RestingAdmits(s, o, reply.ok);
    case _ =>
  }

  lemma RestingAdmits(s: Account, o: Pending, ok: bool)
    requires s.run == Resting(o)
    ensures Admits(s, ResumeResting(s, o, ok)) && SameRest(s, ResumeResting(s, o, ok))
  {
  }

  lemma NextAdmits(cal: Calendar, s: Account, step: Step)
    requires Books(s)
    ensures Admits(s, Next(cal, s, step))
    ensures Deposit(Next(cal, s, step).book.db) == Deposit(s.book.db) + MovedBy(step)
    ensures !ClosesElsewhere(step) ==> Next(cal, s, step).book.db.voided == s.book.db.voided
  {
    match step
    case Happened(e) => EventOneWay(cal, s, e);
    case Began =>
      if s.run.Idle? && s.queue != [] {
        PerformConfined(cal, s.(queue := s.queue[1..]), s.queue[0]);
      }
    case Resumed(reply) => ResumeAdmits(s, reply);
  }

  lemma {:induction false} RunOneWay(cal: Calendar, s: Account, steps: seq<Step>)
    requires Books(s)
    ensures OneWay(s, Run(cal, s, steps))
    ensures Deposit(Run(cal, s, steps).book.db) == Deposit(s.book.db) + Moved(steps)
  {
    if steps != [] {
      var front := steps[..|steps| - 1];
      RunKeepsBooks(cal, s, front);
      RunOneWay(cal, s, front);
      NextAdmits(cal, Run(cal, s, front), steps[|steps| - 1]);
    }
  }
}
