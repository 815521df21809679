/**
 * The engine's own form: an account whose fields are updated in place. What the source does with a
 * loop is a loop here, proved against the transition functions of `Live`; a piece without a loop
 * is the transition function itself, assigned to the fields. So every invariant proved about runs
 * of those functions holds of the object.
 */
module LiveEngine {
  import opened Options
  import opened Money
  import opened TradingMath
  import opened ChallengeRules
  import opened DailyReset
  import opened Live
  import opened LiveBooks

  /** One of `ids` is held on `symbol`. */
  ghost predicate Touched(b: Book, symbol: string, ids: seq<nat>) {
    exists k :: 0 <= k < |ids| && ids[k] in b.positions && b.positions[ids[k]].symbol == symbol
  }

  lemma TouchedMore(b: Book, symbol: string, ids: seq<nat>, i: nat)
    requires i < |ids|
    ensures Touched(b, symbol, ids[..i + 1])
            <==> Touched(b, symbol, ids[..i]) || (ids[i] in b.positions && b.positions[ids[i]].symbol == symbol)
  {
    assert ids[..i + 1] == ids[..i] + [ids[i]];
    if Touched(b, symbol, ids[..i]) {
      var k :| 0 <= k < i && ids[..i][k] in b.positions && b.positions[ids[..i][k]].symbol == symbol;
      assert ids[..i + 1][k] == ids[..i][k];
    }
    if ids[i] in b.positions && b.positions[ids[i]].symbol == symbol {
      assert ids[..i + 1][i] == ids[i];
    }
  }

  /** One more position of the list is ticked. */
  lemma TouchOne(b: Book, s: Account, symbol: string, q: Quote, ids: seq<nat>, i: nat)
    requires i < |ids| && SameBook(b, s.book)
    ensures SameBook(b, Live.TickPosition(s, symbol, q, ids[i]).book)
    ensures Touched(b, symbol, ids[..i + 1])
            <==> Touched(b, symbol, ids[..i]) || (ids[i] in s.book.positions && s.book.positions[ids[i]].symbol == symbol)
  {
    TickPositionQuiet(s, symbol, q, ids[i]);
    SameBookTrans(b, s.book, Live.TickPosition(s, symbol, q, ids[i]).book);
    TouchedMore(b, symbol, ids, i);
  }

  lemma TouchedHolds(s: Account, symbol: string)
    requires forall id :: id in s.book.posOrder <==> id in s.book.positions
    ensures Touched(s.book, symbol, s.book.posOrder) <==> Holds(s, symbol)
  {
    if Holds(s, symbol) {
      var id :| id in s.book.positions && s.book.positions[id].symbol == symbol;
      assert id in s.book.posOrder;
    }
  }

  /** The insertion orders list exactly the keys of the maps. */
  ghost predicate Listed(b: Book) {
    (forall id :: id in b.posOrder <==> id in b.positions) && (forall id :: id in b.ordOrder <==> id in b.pending)
  }

  lemma BooksListed(s: Account)
    requires Books(s) || Between(s)
    ensures Listed(s.book)
  {
  }

  /** What an account was loaded with stays, and its insertion orders list its maps. */
  ghost predicate Fits(s: Account, t: Account) { SameSettings(s, t) && Listed(t.book) }

  predicate SameSettings(s: Account, t: Account) {
    t.rules == s.rules && t.resetTime == s.resetTime && t.startingBalance == s.startingBalance
  }

  lemma BeginFits(cal: Calendar, s: Account)
    requires Books(s) && s.run.Idle? && s.queue != [] && !s.queue[0].op.CloseAll?
    requires s.queue[0].op.Sweep? ==> s.book.untracked || s.breaching
    ensures Fits(s, Live.Begin(cal, s))
  {
    BeginKeepsSettings(cal, s);
    BeginKeepsBooks(cal, s);
    BooksListed(Live.Begin(cal, s));
  }

  lemma BeginKeepsSettings(cal: Calendar, s: Account)
    requires s.run.Idle? && s.queue != [] && !s.queue[0].op.CloseAll?
    requires s.queue[0].op.Sweep? ==> s.book.untracked || s.breaching
    ensures SameSettings(s, Live.Begin(cal, s))
  {
  }

  lemma ResumeFits(s: Account, reply: Reply)
    requires Books(s) && !s.run.Flushing? && !s.run.Cancelling? && !s.run.Closing?
    ensures Fits(s, Live.Resume(s, reply))
  {
    ResumeKeepsSettings(s, reply);
    ResumeKeepsBooks(s, reply);
    BooksListed(Live.Resume(s, reply));
  }

  lemma ResumeKeepsSettings(s: Account, reply: Reply)
    requires !s.run.Flushing? && !s.run.Cancelling? && !s.run.Closing?
    ensures SameSettings(s, Live.Resume(s, reply))
  {
    match s.run
    case Opening(m, volume, price, margin) =>
      var t := ResumeOpening(s, m, volume, price, margin, reply.ok);
      assert SameSettings(s, t);
    case Resting(o) =>
      var t := ResumeResting(s, o, reply.ok);
      assert SameSettings(s, t);
    case Filling(o, price, margin) =>
      var t := ResumeFilling(s, o, price, margin, reply.ok);
      assert SameSettings(s, t);
    case _ =>
  }

  lemma OtherFits(cal: Calendar, s: Account, step: Step)
    requires Books(s) && step.Happened? && !step.event.Ticked? && !step.event.RowReloaded?
    ensures Fits(s, Next(cal, s, step))
  {
    EventKeepsSettings(cal, s, step.event);
    EventKeepsBooks(cal, s, step.event);
    BooksListed(OnEvent(cal, s, step.event));
  }

  lemma EventKeepsSettings(cal: Calendar, s: Account, e: Event)
    requires !e.Ticked? && !e.RowReloaded?
    ensures SameSettings(s, OnEvent(cal, s, e))
  {
    if e.SecondPassed? {
      assert SameSettings(s, Live.AnchorTimer(s));
      assert SameSettings(Live.AnchorTimer(s), EnforceHoldingRules(cal, Live.AnchorTimer(s)));
    }
  }

  lemma ApplyCloseFits(s: Account, id: nat, plan: ClosePlan, reply: Reply)
    requires Books(s) && s.run.Closing? && s.run.pos == id && s.run.plan == plan
    ensures Fits(s, ApplyClose(s, id, plan, reply))
  {
    ApplyCloseKeeps(s, id, plan, reply);
    BooksListed(ApplyClose(s, id, plan, reply));
  }

  /** How the loop that a close was part of goes on, with `more` failures. */
  function GoneOn(s: Account, after: After, more: nat): Account {
    match after
    case SweepMore(rule, at, todo, failures) => SweepLoop(s, rule, at, todo, failures + more)
    case BreachMore(reason, todo) => CloseAllLoop(s, Some(reason), todo)
    case AdminMore(todo) => CloseAllLoop(s, None, todo)
    case _ => s.(run := Idle)
  }

  lemma ClosedOrFailed(s: Account, id: nat, after: After)
    ensures AfterClose(s, after) == GoneOn(s, after, 0)
    ensures !after.StopDone? ==> CloseFailed(s, id, after) == GoneOn(s.(book := SetClosing(s.book, id, false)), after, 1)
  {
  }

  /** What the two operations with a loop do when their turn comes. */
  lemma LoopsBegin(cal: Calendar, s: Account)
    requires s.run.Idle? && s.queue != []
    ensures s.queue[0].op.Sweep? && !s.book.untracked && !s.breaching
            ==> Live.Begin(cal, s) == SweepLoop(s.(queue := s.queue[1..]), s.queue[0].op.rule, s.queue[0].at, s.book.posOrder, 0)
    ensures s.queue[0].op.CloseAll? ==> Live.Begin(cal, s) == CloseAllLoop(s.(queue := s.queue[1..]), None, s.book.posOrder)
  {
  }

  class LiveAccount {
    const rules: Rules
    const resetTime: ResetTime
    const startingBalance: int
    var w: World
    var now: int
    var positions: map<nat, Position>
    var posOrder: seq<nat>
    var pending: map<string, Pending>
    var ordOrder: seq<string>
    var untracked: bool
    var db: Ledger
    var results: seq<(string, Final)>
    var fig: Figures
    var breaching: bool
    var sweeps: map<HoldingRule, int>
    var retryAt: int
    var nextBoundary: int
    var queue: seq<Queued>
    var run: Running
    var stuck: set<nat>
    var done: map<HoldingRule, int>

    function Held(): Book reads this {
      Book(positions, posOrder, pending, ordOrder, untracked, db, results)
    }

    function View(): Account reads this {
      Account(w, now, rules, resetTime, startingBalance, Held(), fig, breaching, sweeps, retryAt, nextBoundary, queue, run,
              stuck, done)
    }

    ghost predicate Valid() reads this { Listed(Held()) }

    // ----- tracking -----

    constructor (w: World, now: int, rules: Rules, resetTime: ResetTime, startingBalance: int, row: Figures,
                 db: Ledger, rows: seq<nat>, orders: seq<Pending>, judged: Option<Reply>)
      ensures Valid()
      ensures View() == Track(w, now, rules, resetTime, startingBalance, row, db, rows, orders, judged)
    {
      this.w, this.now, this.rules, this.resetTime, this.startingBalance := w, now, rules, resetTime, startingBalance;
      this.db, fig := db, row;
      positions, posOrder, pending, ordOrder, untracked, results := map[], [], map[], [], false, [];
      breaching, sweeps, retryAt, nextBoundary := false, map[], 0, NextDayStart(resetTime, now);
      queue, run, stuck, done := [], Idle, {}, map[];
      new;
      Fill(rows, orders);
      Anchor(judged);
    }

    method Fill(rows: seq<nat>, orders: seq<Pending>)
      requires Valid()
      modifies this`positions, this`posOrder, this`pending, this`ordOrder
      ensures Valid() && Held() == Live.AddOrders(Live.AddMissing(w, old(Held()), rows), orders)
    {
      AddMissing(rows);
      AddOrders(orders);
    }

    method Anchor(judged: Option<Reply>)
      requires Valid()
      modifies this
      ensures Valid() && View() == Anchored(old(View()), judged)
    {
      if judged.Some? && judged.value.ok {
        fig := ApplyRow(View(), judged.value).fig;
        if !CanAutoEvaluate(judged.value.status) {
          Hold(Untrack(Held()));
          return;
        }
      }
      Recompute();
      if judged.Some? && !judged.value.ok {
        fig := fig.(anchor := fig.equity);
      }
    }

    method AddOrders(orders: seq<Pending>)
      requires Valid()
      modifies this`pending, this`ordOrder
      ensures Valid()
      ensures Held() == Live.AddOrders(old(Held()), orders)
    {
      var i := 0;
      while i < |orders|
        invariant 0 <= i <= |orders| && Valid()
        invariant Live.AddOrders(Held(), orders[i..]) == Live.AddOrders(old(Held()), orders)
      {
        AddOrder(orders[i].(triggering := false));
        i := i + 1;
      }
    }

    method AddOrder(o: Pending)
      requires Valid()
      modifies this`pending, this`ordOrder
      ensures Valid()
      ensures Held() == AddPending(old(Held()), o)
    {
      if o.id !in pending {
        ordOrder := ordOrder + [o.id];
      }
      pending := pending[o.id := o];
    }

    // ----- marking -----

    method Recompute()
      modifies this`fig
      ensures View() == Live.Recompute(old(View()))
    {
      var floating, margin, i := 0, 0, 0;
      while i < |posOrder|
        invariant 0 <= i <= |posOrder|
        invariant floating + FloatingSum(posOrder[i..], positions) == FloatingSum(posOrder, positions)
        invariant margin + MarginSum(posOrder[i..], positions) == MarginSum(posOrder, positions)
      {
        if posOrder[i] in positions {
          floating := floating + positions[posOrder[i]].floating;
          margin := margin + positions[posOrder[i]].margin;
        }
        i := i + 1;
      }
      fig := fig.(floating := floating, marginUsed := margin, equity := fig.balance + floating);
      if fig.equity > fig.highWaterMark {
        fig := fig.(highWaterMark := fig.equity);
      }
    }

    // ----- ticks -----

    method TickPosition(symbol: string, q: Quote, id: nat) returns (touched: bool)
      requires Valid()
      modifies this`positions, this`queue
      ensures Valid()
      ensures View() == Live.TickPosition(old(View()), symbol, q, id)
      ensures touched == (id in old(positions) && old(positions)[id].symbol == symbol)
    {
      touched := id in positions && positions[id].symbol == symbol;
      if touched {
        positions := positions[id := Marked(w, positions[id], q)];
        var p := positions[id];
        if w.open && !p.closing && !breaching {
          var trigger := CheckStops(p.side, q, p.stopLoss, p.takeProfit);
          if trigger.Some? {
            positions := positions[id := p.(closing := true)];
            var price := if trigger.value.StopLoss? then p.stopLoss.value else p.takeProfit.value;
            queue := queue + [Queued(StopClose(id, price), now)];
          }
        }
      }
    }

    method TickOrder(cal: Calendar, symbol: string, q: Quote, id: string)
      requires Valid()
      modifies this`pending, this`queue
      ensures Valid()
      ensures View() == Live.TickOrder(cal, old(View()), symbol, q, id)
    {
      if id in pending && pending[id].symbol == symbol && w.open {
        var o := pending[id];
        if !o.triggering && !breaching && PendingTriggered(o.side, o.kind, o.price, q) {
          var restriction := RuleRestriction(cal, rules, w, symbol, now);
          if restriction.None? {
            pending := pending[id := o.(triggering := true)];
            queue := queue + [Queued(TriggerOrder(o.(triggering := true), q), now)];
          }
        }
      }
    }

    method HoldsStaleSymbol() returns (stale: bool)
      requires Valid()
      ensures stale == HoldsStale(View())
    {
      var i := 0;
      while i < |posOrder|
        invariant 0 <= i <= |posOrder|
        invariant forall k :: 0 <= k < i ==> positions[posOrder[k]].symbol !in w.stale
      {
        if positions[posOrder[i]].symbol in w.stale {
          return true;
        }
        i := i + 1;
      }
      return false;
    }

    method OnTick(cal: Calendar, symbol: string, q: Quote, market: World)
      requires Valid()
      modifies this
      ensures Valid()
      ensures View() == Tick(cal, old(View()), symbol, q, market)
    {
      if symbol !in w.instruments {
        return;
      }
      w := Quoted(w, symbol, q, market);
      ghost var s1 := View();
      var touched := TickEveryPosition(symbol, q);
      ghost var s2 := View();
      var ids, i := ordOrder, 0;
      while i < |ids|
        invariant 0 <= i <= |ids| && Valid()
        invariant TickOrders(cal, View(), symbol, q, ids[i..]) == TickOrders(cal, s2, symbol, q, ids)
      {
        TickOrder(cal, symbol, q, ids[i]);
        i := i + 1;
      }
      if touched {
        Recompute();
        var stale := HoldsStaleSymbol();
        if w.open && !breaching && !stale {
          Become(CheckForBreach(View()));
        }
      }
    }

    method TickEveryPosition(symbol: string, q: Quote) returns (touched: bool)
      requires Valid()
      modifies this
      ensures Valid()
      ensures View() == TickPositions(old(View()), symbol, q, old(posOrder))
      ensures touched == Holds(old(View()), symbol)
    {
      ghost var s1 := View();
      var ids, i := posOrder, 0;
      touched := false;
      SameBookRefl(s1.book);
      while i < |ids|
        invariant 0 <= i <= |ids| && Valid() && SameBook(s1.book, Held())
        invariant TickPositions(View(), symbol, q, ids[i..]) == TickPositions(s1, symbol, q, ids)
        invariant touched == Touched(s1.book, symbol, ids[..i])
      {
        ghost var before := View();
        var hit := TickPosition(symbol, q, ids[i]);
        TouchOne(s1.book, before, symbol, q, ids, i);
        touched := touched || hit;
        i := i + 1;
      }
      assert ids[..|ids|] == ids;
      TouchedHolds(s1, symbol);
    }

    /** A piece of code without a loop: the account becomes `t`. */
    method Become(t: Account)
      requires Fits(View(), t)
      modifies this
      ensures Valid() && View() == t
    {
      Hold(t.book);
      w, now, fig, run := t.w, t.now, t.fig, t.run;
      Go(t);
    }

    method Hold(b: Book)
      modifies this`positions, this`posOrder, this`pending, this`ordOrder, this`untracked, this`db, this`results
      ensures Held() == b
    {
      positions, posOrder, pending, ordOrder := b.positions, b.posOrder, b.pending, b.ordOrder;
      untracked, db, results := b.untracked, b.db, b.results;
    }

    method Go(t: Account)
      modifies this`breaching, this`queue, this`sweeps, this`retryAt, this`nextBoundary, this`stuck, this`done
      ensures breaching == t.breaching && queue == t.queue && sweeps == t.sweeps && retryAt == t.retryAt
      ensures nextBoundary == t.nextBoundary && stuck == t.stuck && done == t.done
    {
      breaching, queue, sweeps, retryAt := t.breaching, t.queue, t.sweeps, t.retryAt;
      nextBoundary, stuck, done := t.nextBoundary, t.stuck, t.done;
    }

    // ----- reloading -----

    method MergeRow(row: Reply, rows: seq<nat>)
      requires Valid()
      modifies this
      ensures Valid()
      ensures View() == Live.MergeRow(old(View()), row, rows)
    {
      if untracked {
        return;
      }
      if !CanAutoEvaluate(row.status) {
        queue := queue + [Queued(CloseAll, now)];
        return;
      }
      MergeOpenRow(row, rows);
    }

    method MergeOpenRow(row: Reply, rows: seq<nat>)
      requires Valid() && !untracked && CanAutoEvaluate(row.status)
      modifies this
      ensures Valid()
      ensures View() == Live.MergeRow(old(View()), row, rows)
    {
      fig := ApplyRow(View(), row).fig;
      MergePositions(rows);
      Recompute();
    }

    method MergePositions(rows: seq<nat>)
      requires Valid()
      modifies this`positions, this`posOrder
      ensures Valid()
      ensures var b := Live.AddMissing(w, old(Held()), rows); Held() == Live.DropClosed(b, b.posOrder)
    {
      AddMissing(rows);
      DropClosed(posOrder);
    }

    method AddMissing(ids: seq<nat>)
      requires Valid()
      modifies this`positions, this`posOrder
      ensures Valid()
      ensures Held() == Live.AddMissing(w, old(Held()), ids)
    {
      var i := 0;
      while i < |ids|
        invariant 0 <= i <= |ids| && Valid()
        invariant Live.AddMissing(w, Held(), ids[i..]) == Live.AddMissing(w, old(Held()), ids)
      {
        if ids[i] in db.open && ids[i] !in positions {
          var p := db.open[ids[i]].(closing := false);
          if p.id !in positions {
            posOrder := posOrder + [p.id];
          }
          positions := positions[p.id := if p.symbol in w.quotes then Marked(w, p, w.quotes[p.symbol]) else p];
        }
        i := i + 1;
      }
    }

    method DropClosed(ids: seq<nat>)
      requires Valid()
      modifies this`positions, this`posOrder
      ensures Valid()
      ensures Held() == Live.DropClosed(old(Held()), ids)
    {
      var i := 0;
      while i < |ids|
        invariant 0 <= i <= |ids| && Valid()
        invariant Live.DropClosed(Held(), ids[i..]) == Live.DropClosed(old(Held()), ids)
      {
        var id := ids[i];
        if id in positions && id !in db.open && !positions[id].closing {
          positions, posOrder := positions - {id}, Without(posOrder, id);
        }
        i := i + 1;
      }
    }

    // ----- closing -----

    /** The flattening loop runs until it awaits a ledger call or comes to its end. */
    method FlattenForRule(rule: HoldingRule, at: int, ids: seq<nat>, failed: nat)
      requires Valid()
      modifies this
      ensures Valid()
      ensures View() == SweepLoop(old(View()), rule, at, ids, failed)
    {
      var todo, failures := ids, failed;
      while todo != []
        invariant Valid() && View() == old(View())
        invariant SweepLoop(View(), rule, at, todo, failures) == SweepLoop(View(), rule, at, ids, failed)
        decreases |todo|
      {
        var id := todo[0];
        if id in positions && IsSession(w, positions[id].symbol) && !positions[id].closing {
          var p := positions[id];
          var q := LookupQuote(w, p.symbol);
          var price := if q.Some? then Some(MarkPrice(p.side, q.value)) else p.mark;
          if price.Some? {
            var plan := PlanClose(View(), p, price.value, p.volume, q);
            if plan.Some? {
              Become(StartClose(View(), id, plan.value, SweepMore(rule, at, todo[1..], failures)));
              return;
            }
          }
          failures := failures + 1;
        }
        todo := todo[1..];
      }
      Become(SweepLoop(View(), rule, at, [], failures));
    }

    /** Closing everything, for a breach or for an admin, up to the next await. */
    method CloseEverything(reason: Option<FailureReason>, ids: seq<nat>)
      requires Valid()
      modifies this
      ensures Valid()
      ensures View() == CloseAllLoop(old(View()), reason, ids)
    {
      var todo := ids;
      while todo != []
        invariant Valid()
        invariant CloseAllLoop(View(), reason, todo) == CloseAllLoop(old(View()), reason, ids)
        decreases |todo|
      {
        var id := todo[0];
        if id in positions && positions[id].symbol in w.quotes {
          var p := positions[id];
          var q := w.quotes[p.symbol];
          var plan := PlanClose(View(), p, MarkPrice(p.side, q), p.volume, Some(q));
          if plan.Some? {
            Become(StartClose(View(), id, plan.value, if reason.Some? then BreachMore(reason.value, todo[1..]) else AdminMore(todo[1..])));
            return;
          }
          positions := positions[id := p.(closing := false)];
        }
        todo := todo[1..];
      }
      Become(CloseAllLoop(View(), reason, []));
    }

    method CancelOrders(ids: seq<string>)
      requires Valid()
      modifies this`pending, this`ordOrder, this`db, this`results
      ensures Valid()
      ensures Held() == CancelEach(old(Held()), ids)
    {
      var i := 0;
      while i < |ids|
        invariant 0 <= i <= |ids| && Valid()
        invariant CancelEach(Held(), ids[i..]) == CancelEach(old(Held()), ids)
      {
        CancelOrder(ids[i]);
        i := i + 1;
      }
    }

    method CancelOrder(id: string)
      requires Valid()
      modifies this`pending, this`ordOrder, this`db, this`results
      ensures Valid()
      ensures Held() == CancelOne(old(Held()), id)
    {
      if id in db.orders && db.orders[id].OrderPending? {
        db := db.(orders := db.orders[id := OrderCancelled]);
      }
      results := results + [(id, Cancelled)];
      pending, ordOrder := pending - {id}, Without(ordOrder, id);
    }

    // ----- one step -----

    /** Any step the engine can take, with the books kept. */
    method Take(cal: Calendar, step: Step)
      requires Valid() && Books(View())
      modifies this
      ensures Valid() && View() == Next(cal, old(View()), step)
      ensures Books(View())
    {
      StepKeepsBooks(cal, View(), step);
      match step
      case Happened(Ticked(symbol, q, market)) => OnTick(cal, symbol, q, market);
      case Happened(RowReloaded(row, rows)) => MergeRow(row, rows);
      case Began => Begin(cal);
      case Resumed(reply) => Resume(reply);
      case _ =>
        OtherFits(cal, View(), step);
        Become(Next(cal, View(), step));
    }

    method Begin(cal: Calendar)
      requires Valid() && Books(View())
      modifies this
      ensures Valid() && View() == Live.Begin(cal, old(View()))
    {
      if !run.Idle? || queue == [] {
        return;
      }
      if (queue[0].op.Sweep? && !untracked && !breaching) || queue[0].op.CloseAll? {
        BeginLoop(cal);
      } else {
        BeginFits(cal, View());
        Become(Live.Begin(cal, View()));
      }
    }

    method BeginLoop(cal: Calendar)
      requires Valid() && run.Idle? && queue != [] && ((queue[0].op.Sweep? && !untracked && !breaching) || queue[0].op.CloseAll?)
      modifies this
      ensures Valid() && View() == Live.Begin(cal, old(View()))
    {
      LoopsBegin(cal, View());
      var q := queue[0];
      queue := queue[1..];
      if q.op.Sweep? {
        FlattenForRule(q.op.rule, q.at, posOrder, 0);
      } else {
        CloseEverything(None, posOrder);
      }
    }

    method Resume(reply: Reply)
      requires Valid() && Books(View())
      modifies this
      ensures Valid() && View() == Live.Resume(old(View()), reply)
    {
      if run.Flushing? {
        CloseEverything(Some(run.reason), posOrder);
      } else if run.Cancelling? {
        FinishCancelling(run.orders, run.next);
      } else if run.Closing? {
        FinishClose(run.pos, run.plan, run.after, reply);
      } else {
        ResumeFits(View(), reply);
        Become(Live.Resume(View(), reply));
      }
    }

    method FinishCancelling(ids: seq<string>, next: AfterCancel)
      requires Valid()
      modifies this
      ensures Valid() && View() == Settle(old(View()).(book := CancelEach(old(Held()), ids)), next)
    {
      CancelOrders(ids);
      Become(Settle(View(), next));
    }

    /** After the ledger call of a close: the loop it was part of goes on. */
    method FinishClose(id: nat, plan: ClosePlan, after: After, reply: Reply)
      requires Valid() && Books(View()) && run == Closing(id, plan, after)
      modifies this
      ensures Valid() && View() == ResumeClosing(old(View()), id, plan, after, reply)
    {
      if !reply.ok {
        GiveUpClose(id, after);
      } else {
        RecordClose(id, plan, reply);
        if !CanAutoEvaluate(reply.status) && !KeepsTracked(after) {
          Leave();
        } else {
          ClosedOrFailed(View(), id, after);
          GoOn(after, 0);
        }
      }
    }

    method GiveUpClose(id: nat, after: After)
      requires Valid() && id in positions
      modifies this
      ensures Valid() && View() == CloseFailed(old(View()), id, after)
    {
      ClosedOrFailed(View(), id, after);
      if after.StopDone? {
        run, stuck := Idle, stuck + {id};
      } else {
        positions := positions[id := positions[id].(closing := false)];
        GoOn(after, 1);
      }
    }

    method Leave()
      requires Valid()
      modifies this
      ensures Valid() && View() == CancelThen(old(View()), old(ordOrder), ThenUntrack)
    {
      Become(CancelThen(View(), ordOrder, ThenUntrack));
    }

    method RecordClose(id: nat, plan: ClosePlan, reply: Reply)
      requires Valid() && Books(View()) && run.Closing? && run.pos == id && run.plan == plan
      modifies this
      ensures Valid() && View() == ApplyClose(old(View()), id, plan, reply)
    {
      ApplyCloseFits(View(), id, plan, reply);
      Become(ApplyClose(View(), id, plan, reply));
    }

    method GoOn(after: After, more: nat)
      requires Valid()
      modifies this
      ensures Valid() && View() == GoneOn(old(View()), after, more)
    {
      match after
      case SweepMore(rule, at, todo, failures) => FlattenForRule(rule, at, todo, failures + more);
      case BreachMore(reason, todo) => CloseEverything(Some(reason), todo);
      case AdminMore(todo) => CloseEverything(None, todo);
      case _ => run := Idle;
    }
  }
}
