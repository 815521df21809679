/**
 * What the handling of a breach, or the emptying of an account for an administrator, leaves OPEN. It
 * closes position after position, awaiting the ledger for each, while ticks, reloads and changes made
 * elsewhere go on in between.
 */
module LiveBreach {
  import opened Options
  import opened TradingMath
  import opened ChallengeRules
  import opened Live
  import opened LiveBooks
  import opened LiveFrames
  import opened LiveRisk

  /** The position is passed over: no quote, or its instrument or its rate is not loaded. */
  predicate CannotClose(w: World, p: Position) {
    p.symbol !in w.quotes || p.symbol !in w.instruments || Rate(w, w.instruments[p.symbol].quoteCurrency).None?
  }

  /** The OPEN rows the closing loop passes over before its next await. */
  function PassedOver(w: World, b: Book, todo: seq<nat>): set<nat>
    decreases |todo|
  {
    if todo == [] || (todo[0] in b.positions && !CannotClose(w, b.positions[todo[0]])) then {}
    else PassedOver(w, b, todo[1..]) + ({todo[0]} * b.db.open.Keys)
  }

  /** The rows left so far: passed over, or their close failed; not those closed elsewhere since. */
  function LeftAfter(s: Account, left: set<nat>, step: Step): set<nat> {
    match step
    case Happened(ChangedElsewhere(closed, _)) => left - closed
    case Began => if StartsEmptying(s) then PassedOver(s.w, s.book, s.book.posOrder) else left
    case Resumed(reply) =>
      (match s.run
       case Flushing(_) => PassedOver(s.w, s.book, s.book.posOrder)
       case Closing(id, plan, BreachMore(_, todo)) => LeftByClose(s, left, id, plan, todo, reply)
       case Closing(id, plan, AdminMore(todo)) => LeftByClose(s, left, id, plan, todo, reply)
       case _ => left)
    case _ => left
  }

  predicate StartsEmptying(s: Account) { s.run.Idle? && s.queue != [] && s.queue[0].op.CloseAll? }

  function LeftByClose(s: Account, left: set<nat>, id: nat, plan: ClosePlan, todo: seq<nat>, reply: Reply): set<nat> {
    if reply.ok then left - {id} + PassedOver(s.w, ApplyClose(s, id, plan, reply).book, todo)
    else left + ({id} * s.book.db.open.Keys) + PassedOver(s.w, s.book, todo)
  }

  function LeftOpen(cal: Calendar, s: Account, steps: seq<Step>): set<nat> {
    if steps == [] then {}
    else
      var front := steps[..|steps| - 1];
      LeftAfter(Run(cal, s, front), LeftOpen(cal, s, front), steps[|steps| - 1])
  }

  // ----- the loop -----

  /** Every OPEN row is left, is being closed, or is still on the list; and nothing closed is called left. */
  ghost predicate Accounted(t: Account, left: set<nat>) {
    match t.run
    case Closing(id, plan, BreachMore(_, todo)) => AllButTodo(t, left, id, plan, todo)
    case Closing(id, plan, AdminMore(todo)) => AllButTodo(t, left, id, plan, todo)
    case Failing(_) => !t.book.untracked ==> left == t.book.db.open.Keys
    case _ => true
  }

  ghost predicate AllButTodo(t: Account, left: set<nat>, id: nat, plan: ClosePlan, todo: seq<nat>) {
    && id in t.book.positions && plan.volume == t.book.positions[id].volume
    && left <= t.book.db.open.Keys && (forall k :: k in t.book.db.open ==> k in left || k == id || k in todo)
  }

  lemma {:induction false} PassedOverSame(w: World, b: Book, c: Book, todo: seq<nat>)
    requires SameBook(b, c)
    ensures PassedOver(w, b, todo) == PassedOver(w, c, todo)
    decreases |todo|
  {
    if todo != [] {
      PassedOverSame(w, b, c, todo[1..]);
    }
  }

  lemma PlansUnless(s: Account, p: Position, price: real, q: Quote)
    requires p.symbol in s.w.quotes
    ensures var plan := PlanClose(s, p, price, p.volume, Some(q));
            (plan.None? <==> CannotClose(s.w, p)) && (plan.Some? ==> plan.value.volume == p.volume)
  {
  }

  lemma {:induction false} LoopAccounts(s: Account, reason: Option<FailureReason>, todo: seq<nat>, left: set<nat>)
    requires left <= s.book.db.open.Keys && forall k :: k in s.book.db.open ==> k in left || k in todo
    ensures var t := CloseAllLoop(s, reason, todo);
            && Accounted(t, left + PassedOver(s.w, s.book, todo))
            && (!t.run.Closing? ==> t.book.db.open.Keys == left + PassedOver(s.w, s.book, todo))
            && (reason.None? && !t.run.Closing? ==> Leaving(t.run) || t.book.untracked)
    decreases |todo|
  {
    if todo != [] {
      var id, rest := todo[0], todo[1..];
      var more := {id} * s.book.db.open.Keys;
      if id in s.book.positions && s.book.positions[id].symbol in s.w.quotes {
        var p := s.book.positions[id];
        PlansUnless(s, p, MarkPrice(p.side, s.w.quotes[p.symbol]), s.w.quotes[p.symbol]);
        if CannotClose(s.w, p) {
          var t := s.(book := SetClosing(s.book, id, false));
          SetClosingSame(s.book, id, false);
          PassedOverSame(s.w, s.book, t.book, rest);
          LoopAccounts(t, reason, rest, left + more);
          assert left + PassedOver(s.w, s.book, todo) == left + more + PassedOver(s.w, t.book, rest);
        }
      } else {
        LoopAccounts(s, reason, rest, left + more);
        assert left + PassedOver(s.w, s.book, todo) == left + more + PassedOver(s.w, s.book, rest);
      }
    }
  }

  // ----- every step -----

  lemma EventAccounts(cal: Calendar, s: Account, left: set<nat>, e: Event)
    requires Books(s) && Accounted(s, left)
    ensures Accounted(OnEvent(cal, s, e), LeftAfter(s, left, Happened(e)))
  {
    match e
    case RowReloaded(row, rows) => MergeRowThins(s, row, rows);
    case ChangedElsewhere(closed, credit) =>
    case _ => EventQuiet(cal, s, e);
  }

  /** In the middle of a breach handling or of an emptying. */
  predicate Midway(run: Running) {
    run.Failing? || (run.Closing? && (run.after.BreachMore? || run.after.AdminMore?))
  }

  lemma {:induction false} SweepNotMidway(s: Account, rule: HoldingRule, at: int, todo: seq<nat>, failures: nat)
    ensures !Midway(SweepLoop(s, rule, at, todo, failures).run)
    decreases |todo|
  {
    if todo != [] {
      SweepNotMidway(s, rule, at, todo[1..], failures);
      SweepNotMidway(s, rule, at, todo[1..], failures + 1);
    }
  }

  /** No other operation starts as the middle of one. */
  lemma PerformNotMidway(cal: Calendar, s: Account, q: Queued)
    requires s.run.Idle? && !q.op.CloseAll?
    ensures !Midway(Perform(cal, s, q).run)
  {
    match q.op
    case Sweep(rule) => SweepNotMidway(s, rule, q.at, s.book.posOrder, 0);
    case _ =>
  }

  lemma EmptyingStarts(cal: Calendar, s: Account)
    requires Books(s) && StartsEmptying(s)
    ensures var left, t := PassedOver(s.w, s.book, s.book.posOrder), Begin(cal, s);
            && Accounted(t, left)
            && (!t.run.Closing? && !s.book.untracked ==> t.book.db.open.Keys == left && (Leaving(t.run) || t.book.untracked))
  {
    if s.book.untracked {
      EmptyingNothing(cal, s);
    } else {
      LoopFromStart(s.(queue := s.queue[1..]));
    }
  }

  lemma LoopFromStart(s: Account)
    requires Books(s.(run := Idle)) && !s.book.untracked
    ensures var left, t := PassedOver(s.w, s.book, s.book.posOrder), CloseAllLoop(s, None, s.book.posOrder);
            Accounted(t, left) && (!t.run.Closing? ==> t.book.db.open.Keys == left && (Leaving(t.run) || t.book.untracked))
  {
    LoopAccounts(s, None, s.book.posOrder, {});
    assert {} + PassedOver(s.w, s.book, s.book.posOrder) == PassedOver(s.w, s.book, s.book.posOrder);
  }

  lemma EmptyingNothing(cal: Calendar, s: Account)
    requires Books(s) && StartsEmptying(s) && s.book.untracked
    ensures !Midway(Begin(cal, s).run)
  {
    var rest := s.(queue := s.queue[1..]);
    CloseAllLoopConfined(rest, None, s.book.posOrder);
    BeginKeepsBooks(cal, s);
    CloseAllLoopRun(rest, None, s.book.posOrder);
  }

  lemma BeginAccounts(cal: Calendar, s: Account, left: set<nat>)
    requires Books(s) && Accounted(s, left)
    ensures Accounted(Begin(cal, s), LeftAfter(s, left, Began))
  {
    if StartsEmptying(s) {
      EmptyingStarts(cal, s);
    } else if s.run.Idle? && s.queue != [] {
      PerformNotMidway(cal, s.(queue := s.queue[1..]), s.queue[0]);
    }
  }

  /** The position's row is closed whole, so it is not OPEN any more. */
  lemma WholeClose(s: Account, id: nat, plan: ClosePlan, reply: Reply)
    requires Stock(s.book) && !s.book.untracked && id in s.book.positions && plan.volume == s.book.positions[id].volume
    ensures ApplyClose(s, id, plan, reply).book.db.open == s.book.db.open - {id}
  {
    ApplyCloseRow(s, id, plan, reply);
    if id in s.book.db.open {
      assert SamePosition(s.book.db.open[id], s.book.positions[id]);
    } else {
      assert s.book.db.open - {id} == s.book.db.open;
    }
  }

  lemma CloseAccounts(s: Account, left: set<nat>, reply: Reply)
    requires Books(s) && Accounted(s, left) && s.run.Closing? && (s.run.after.BreachMore? || s.run.after.AdminMore?)
    ensures var t := Resume(s, reply);
            && Accounted(t, LeftAfter(s, left, Resumed(reply)))
            && (!t.run.Closing? ==> t.book.db.open.Keys == LeftAfter(s, left, Resumed(reply)))
            && (s.run.after.AdminMore? && !t.run.Closing? ==> Leaving(t.run) || t.book.untracked)
  {
    var id, plan, todo := s.run.pos, s.run.plan, s.run.after.todo;
    var reason := if s.run.after.BreachMore? then Some(s.run.after.reason) else None;
    if reply.ok {
      WholeClose(s, id, plan, reply);
      LoopAccounts(ApplyClose(s, id, plan, reply), reason, todo, left - {id});
    } else {
      var t := s.(book := SetClosing(s.book, id, false));
      SetClosingSame(s.book, id, false);
      PassedOverSame(s.w, s.book, t.book, todo);
      LoopAccounts(t, reason, todo, left + ({id} * s.book.db.open.Keys));
    }
  }

  lemma ResumeAccounts(s: Account, left: set<nat>, reply: Reply)
    requires Books(s) && Accounted(s, left)
    ensures Accounted(Resume(s, reply), LeftAfter(s, left, Resumed(reply)))
  {
    if s.run.Closing? && (s.run.after.BreachMore? || s.run.after.AdminMore?) {
      CloseAccounts(s, left, reply);
    } else if s.run.Flushing? {
      FlushedAccounts(s, left, reply);
    } else if s.run.Closing? {
      CloseNotMidway(s, reply);
    } else {
      RestNotMidway(s, reply);
    }
  }

  lemma CloseNotMidway(s: Account, reply: Reply)
    requires s.run.Closing? && !Midway(s.run)
    ensures !Midway(Resume(s, reply).run)
  {
    if s.run.after.SweepMore? {
      var a := s.run.after;
      SweepNotMidway(ApplyClose(s, s.run.pos, s.run.plan, reply), a.rule, a.at, a.todo, a.failures);
      SweepNotMidway(s.(book := SetClosing(s.book, s.run.pos, false)), a.rule, a.at, a.todo, a.failures + 1);
    }
  }

  lemma RestNotMidway(s: Account, reply: Reply)
    requires !s.run.Closing? && !s.run.Flushing?
    ensures !Midway(Resume(s, reply).run)
  {
    match s.run
    case Opening(m, volume, price, margin) => OpeningAdmits(s, m, volume, price, margin, reply.ok);
    case Filling(o, price, margin) => FillingAdmits(s, o, price, margin, reply.ok);
    case _ =>
  }

  lemma FlushedAccounts(s: Account, left: set<nat>, reply: Reply)
    requires Books(s) && s.run.Flushing?
    ensures Accounted(Resume(s, reply), LeftAfter(s, left, Resumed(reply)))
  {
    if s.book.untracked {
      CloseAllLoopConfined(s, Some(s.run.reason), s.book.posOrder);
      ResumeKeepsBooks(s, reply);
    } else {
      LoopAccounts(s, Some(s.run.reason), s.book.posOrder, {});
    }
  }

  lemma {:induction false} RunAccounts(cal: Calendar, s: Account, steps: seq<Step>)
    requires Books(s) && s.run.Idle?
    ensures Accounted(Run(cal, s, steps), LeftOpen(cal, s, steps))
  {
    if steps != [] {
      var front, step := steps[..|steps| - 1], steps[|steps| - 1];
      var t, left := Run(cal, s, front), LeftOpen(cal, s, front);
      RunAccounts(cal, s, front);
      RunKeepsBooks(cal, s, front);
      match step
      case Happened(e) => EventAccounts(cal, t, left, e);
      case Began => BeginAccounts(cal, t, left);
      case Resumed(reply) => ResumeAccounts(t, left, reply);
    }
  }

  /**
   * When the handling of a breach asks the ledger to fail the account, the rows still OPEN are
   * exactly those it could not close: passed over without a quote, an instrument or a rate, or with
   * a close that failed.
   */
  lemma BreachLeavesOpen(cal: Calendar, s: Account, steps: seq<Step>)
    requires Books(s) && s.run.Idle? && Run(cal, s, steps).run.Failing? && !Run(cal, s, steps).book.untracked
    ensures Run(cal, s, steps).book.db.open.Keys == LeftOpen(cal, s, steps)
  {
    RunAccounts(cal, s, steps);
  }

  /**
   * And when an emptying for an administrator ends, which takes the account off, the rows still OPEN are
   * exactly those.
   */
  lemma EmptyingLeavesOpen(cal: Calendar, s: Account, steps: seq<Step>, step: Step)
    requires Books(s) && s.run.Idle? && !Run(cal, s, steps).book.untracked
    requires var t := Run(cal, s, steps);
             (step.Began? && StartsEmptying(t)) || (step.Resumed? && t.run.Closing? && t.run.after.AdminMore?)
    requires !Next(cal, Run(cal, s, steps), step).run.Closing?
    ensures var t, u := Run(cal, s, steps), Next(cal, Run(cal, s, steps), step);
            && u.book.db.open.Keys == LeftAfter(t, LeftOpen(cal, s, steps), step)
            && Gone(u)
  {
    RunAccounts(cal, s, steps);
    RunKeepsBooks(cal, s, steps);
    if step.Began? {
      EmptyingStarts(cal, Run(cal, s, steps));
    } else {
      CloseAccounts(Run(cal, s, steps), LeftOpen(cal, s, steps), step.reply);
    }
  }

  // ----- after the handling -----

  /** The account is off, or on its way off with nothing more to close. */
  predicate Gone(t: Account) { t.book.untracked || t.run.Failing? || Leaving(t.run) }

  function ClosedBy(step: Step): set<nat> {
    match step
    case Happened(ChangedElsewhere(closed, _)) => closed
    case _ => {}
  }

  function ClosedSince(steps: seq<Step>): set<nat> {
    if steps == [] then {} else ClosedSince(steps[..|steps| - 1]) + ClosedBy(steps[|steps| - 1])
  }

  lemma {:induction false} CancelKeepsRows(b: Book, ids: seq<string>)
    ensures CancelEach(b, ids).db.open == b.db.open && (b.untracked ==> CancelEach(b, ids).untracked)
    decreases |ids|
  {
    if ids != [] {
      CancelKeepsRows(CancelOne(b, ids[0]), ids[1..]);
    }
  }

  lemma {:induction false} CloseAllKeepsRows(s: Account, reason: Option<FailureReason>, todo: seq<nat>)
    ensures CloseAllLoop(s, reason, todo).book.db == s.book.db
    decreases |todo|
  {
    if todo != [] {
      CloseAllKeepsRows(s, reason, todo[1..]);
      CloseAllKeepsRows(s.(book := SetClosing(s.book, todo[0], false)), reason, todo[1..]);
    }
  }

  lemma PerformWhenGone(cal: Calendar, s: Account, q: Queued)
    requires Books(s) && s.book.untracked
    ensures Perform(cal, s, q).book.db.open.Keys == s.book.db.open.Keys
  {
    if q.op.CloseAll? {
      CloseAllKeepsRows(s, None, s.book.posOrder);
    }
  }

  lemma ResumeWhenGone(s: Account, reply: Reply)
    requires Books(s) && Gone(s)
    ensures Resume(s, reply).book.db.open.Keys == s.book.db.open.Keys && Gone(Resume(s, reply))
  {
    match s.run
    case Cancelling(ids, next) => CancelWhenGone(s, reply);
    case Flushing(reason) =>
      CloseAllKeepsRows(s, Some(reason), s.book.posOrder);
      CloseAllLoopConfined(s, Some(reason), s.book.posOrder);
    case _ => RestWhenGone(s, reply);
  }

  lemma CancelWhenGone(s: Account, reply: Reply)
    requires Gone(s) && s.run.Cancelling?
    ensures Resume(s, reply).book.db.open.Keys == s.book.db.open.Keys && Gone(Resume(s, reply))
  {
    CancelKeepsRows(s.book, s.run.orders);
  }

  lemma RestWhenGone(s: Account, reply: Reply)
    requires Books(s) && Gone(s) && !s.run.Cancelling? && !s.run.Flushing?
    ensures Resume(s, reply).book.db.open.Keys == s.book.db.open.Keys && Gone(Resume(s, reply))
  {
    if s.run.Modifying? {
      LevelsKeepRows(s.book, s.run.pos, s.run.stopLoss, s.run.takeProfit);
    }
  }

  lemma LevelsKeepRows(b: Book, id: nat, stopLoss: Option<real>, takeProfit: Option<real>)
    ensures SetLevels(b, id, stopLoss, takeProfit).db.open.Keys == b.db.open.Keys && SetLevels(b, id, stopLoss, takeProfit).untracked == b.untracked
  {
  }

  lemma StepWhenGone(cal: Calendar, s: Account, step: Step)
    requires Books(s) && Gone(s)
    ensures Next(cal, s, step).book.db.open.Keys == s.book.db.open.Keys - ClosedBy(step) && Gone(Next(cal, s, step))
  {
    match step
    case Happened(e) => EventWhenGone(cal, s, e);
    case Began => BeginWhenGone(cal, s);
    case Resumed(reply) => ResumeWhenGone(s, reply);
  }

  lemma EventWhenGone(cal: Calendar, s: Account, e: Event)
    requires Books(s) && Gone(s)
    ensures var t := OnEvent(cal, s, e); t.book.db.open.Keys == s.book.db.open.Keys - ClosedBy(Happened(e)) && Gone(t)
  {
    if !e.ChangedElsewhere? {
      if e.RowReloaded? {
        ReloadWhenGone(cal, s, e);
      } else {
        QuietWhenGone(cal, s, e);
      }
      assert s.book.db.open.Keys - {} == s.book.db.open.Keys;
    }
  }

  lemma ReloadWhenGone(cal: Calendar, s: Account, e: Event)
    requires Books(s) && Gone(s) && e.RowReloaded?
    ensures var t := OnEvent(cal, s, e); t.book.db.open.Keys == s.book.db.open.Keys && Gone(t)
  {
    MergeRowThins(s, e.row, e.rows);
  }

  lemma QuietWhenGone(cal: Calendar, s: Account, e: Event)
    requires Books(s) && Gone(s) && !FromRows(e)
    ensures var t := OnEvent(cal, s, e); t.book.db.open.Keys == s.book.db.open.Keys && Gone(t)
  {
    EventQuiet(cal, s, e);
  }

  lemma BeginWhenGone(cal: Calendar, s: Account)
    requires Books(s) && Gone(s)
    ensures Begin(cal, s).book.db.open.Keys == s.book.db.open.Keys && Gone(Begin(cal, s))
  {
    if s.run.Idle? && s.queue != [] {
      PerformConfined(cal, s.(queue := s.queue[1..]), s.queue[0]);
      PerformWhenGone(cal, s.(queue := s.queue[1..]), s.queue[0]);
    }
  }

  /** And whatever happens afterwards, they stay OPEN until they are closed elsewhere. */
  lemma {:induction false} LeftStaysOpen(cal: Calendar, t: Account, steps: seq<Step>)
    requires Books(t) && Gone(t)
    ensures Run(cal, t, steps).book.db.open.Keys == t.book.db.open.Keys - ClosedSince(steps) && Gone(Run(cal, t, steps))
  {
    if steps != [] {
      var front := steps[..|steps| - 1];
      LeftStaysOpen(cal, t, front);
      RunKeepsBooks(cal, t, front);
      StepWhenGone(cal, Run(cal, t, front), steps[|steps| - 1]);
    }
  }
}
