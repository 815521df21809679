/**
 * The loss limits over whole runs: the peak and the drawdown floor never fall, a flagged account
 * stays flagged and is always on its way out, and a tick that evaluates an account either flags it
 * - for the reason the recorded rules would give - or leaves it strictly above both floors.
 */
module LiveRisk {
  import opened Options
  import opened Money
  import opened TradingMath
  import opened ChallengeRules
  import opened Sessions
  import opened Live
  import opened LiveBooks
  import opened LiveHolding
  import opened LiveFrames
  import opened LiveSafety

  // ----- floors -----

  predicate FloorLe(a: Floor, b: Floor) {
    (a.Some? <==> b.Some?) && (a.Some? ==> a.value <= b.value)
  }

  /** Along any run the high-water mark and the max-drawdown floor never decrease, and the flag is never taken back. */
  lemma PeakAndFloorNeverFall(cal: Calendar, s: Account, before: seq<Step>, after: seq<Step>)
    requires Fresh(s)
    ensures var t, u := Run(cal, s, before), Run(cal, s, before + after);
            && t.fig.highWaterMark <= u.fig.highWaterMark
            && FloorLe(DrawdownFloor(t), DrawdownFloor(u))
            && (t.breaching ==> u.breaching)
            && (t.book.untracked ==> u.book.untracked)
  {
    FreshHolds(cal, s);
    RunKeepsBooks(cal, s, before);
    RunSplits(cal, s, before, after);
    RunOneWay(cal, Run(cal, s, before), after);
    RunOneWay(cal, s, before);
  }

  lemma {:induction false} RunSplits(cal: Calendar, s: Account, before: seq<Step>, after: seq<Step>)
    ensures Run(cal, s, before + after) == Run(cal, Run(cal, s, before), after)
    decreases |after|
  {
    if after == [] {
      assert before + after == before;
    } else {
      var n := |after| - 1;
      RunSplits(cal, s, before, after[..n]);
      assert (before + after)[..|before + after| - 1] == before + after[..n];
    }
  }

  // ----- the flag -----

  predicate BreachRun(run: Running) {
    run.Flushing? || run.Failing? || (run.Closing? && run.after.BreachMore?)
  }

  predicate Leaving(run: Running) { run.Cancelling? && run.next.ThenUntrack? }

  ghost predicate BreachQueued(queue: seq<Queued>) {
    exists i :: 0 <= i < |queue| && queue[i].op.ExecuteBreach?
  }

  ghost predicate OneBreach(queue: seq<Queued>) {
    forall i, j :: 0 <= i < j < |queue| ==> !(queue[i].op.ExecuteBreach? && queue[j].op.ExecuteBreach?)
  }

  /** A breach is handled once, and as long as it is not done with, its handling is queued or in flight. */
  ghost predicate BreachTraced(s: Account) {
    && OneBreach(s.queue)
    && (BreachQueued(s.queue) || BreachRun(s.run) ==> s.breaching)
    && !(BreachQueued(s.queue) && BreachRun(s.run))
    && (s.breaching ==> s.book.untracked || BreachQueued(s.queue) || BreachRun(s.run) || Leaving(s.run))
  }

  /** Operations other than breach handling join the queue. */
  ghost predicate Appends(s: Account, t: Account) {
    && t.breaching == s.breaching && t.run == s.run && t.book.untracked == s.book.untracked
    && s.queue <= t.queue
    && forall i :: |s.queue| <= i < |t.queue| ==> !t.queue[i].op.ExecuteBreach?
  }

  lemma AppendsKeeps(s: Account, t: Account)
    requires BreachTraced(s) && Appends(s, t)
    ensures BreachTraced(t)
  {
    assert forall i :: 0 <= i < |s.queue| ==> t.queue[i] == s.queue[i];
    assert BreachQueued(t.queue) <==> BreachQueued(s.queue);
  }

  lemma AppendsTrans(s: Account, t: Account, u: Account)
    requires Appends(s, t) && Appends(t, u)
    ensures Appends(s, u)
  {
    assert forall i :: 0 <= i < |t.queue| ==> u.queue[i] == t.queue[i];
  }

  lemma {:induction false} TickPositionsAppends(s: Account, symbol: string, q: Quote, ids: seq<nat>)
    ensures Appends(s, TickPositions(s, symbol, q, ids))
    decreases |ids|
  {
    if ids != [] {
      var s1 := TickPosition(s, symbol, q, ids[0]);
      TickPositionsAppends(s1, symbol, q, ids[1..]);
      AppendsTrans(s, s1, TickPositions(s, symbol, q, ids));
    }
  }

  lemma {:induction false} TickOrdersAppends(cal: Calendar, s: Account, symbol: string, q: Quote, ids: seq<string>)
    ensures Appends(s, TickOrders(cal, s, symbol, q, ids))
    decreases |ids|
  {
    if ids != [] {
      var s1 := TickOrder(cal, s, symbol, q, ids[0]);
      TickOrdersAppends(cal, s1, symbol, q, ids[1..]);
      AppendsTrans(s, s1, TickOrders(cal, s, symbol, q, ids));
    }
  }

  lemma FlagKeeps(s: Account)
    requires BreachTraced(s) && !s.breaching
    ensures BreachTraced(CheckForBreach(s))
  {
    var t := CheckForBreach(s);
    if t.breaching {
      assert t.queue[|s.queue|].op.ExecuteBreach?;
      assert forall i :: 0 <= i < |s.queue| ==> t.queue[i] == s.queue[i] && !s.queue[i].op.ExecuteBreach?;
    }
  }

  lemma TickTracesBreach(cal: Calendar, s: Account, symbol: string, q: Quote, w: World)
    requires BreachTraced(s)
    ensures BreachTraced(Tick(cal, s, symbol, q, w))
  {
    var s1 := s.(w := Quoted(s.w, symbol, q, w));
    TickPositionsAppends(s1, symbol, q, s1.book.posOrder);
    var s2 := TickPositions(s1, symbol, q, s1.book.posOrder);
    TickOrdersAppends(cal, s2, symbol, q, s2.book.ordOrder);
    var s3 := TickOrders(cal, s2, symbol, q, s2.book.ordOrder);
    AppendsTrans(s1, s2, s3);
    AppendsKeeps(s, s1);
    AppendsKeeps(s1, s3);
    AppendsKeeps(s3, Recompute(s3));
    if !s3.breaching {
      FlagKeeps(Recompute(s3));
    }
  }

  lemma EventTracesBreach(cal: Calendar, s: Account, e: Event)
    requires BreachTraced(s) && Books(s)
    ensures BreachTraced(OnEvent(cal, s, e))
  {
    match e
    case Ticked(symbol, q, w) => TickTracesBreach(cal, s, symbol, q, w);
    case RowReloaded(row, rows) =>
      MergeRowThins(s, row, rows);
      AppendsKeeps(s, OnEvent(cal, s, e));
    case _ => AppendsKeeps(s, OnEvent(cal, s, e));
  }

  // ----- operations -----

  lemma {:induction false} SweepLoopRun(s: Account, rule: HoldingRule, at: int, todo: seq<nat>, failures: nat)
    ensures !BreachRun(SweepLoop(s, rule, at, todo, failures).run)
    decreases |todo|
  {
    if todo != [] {
      SweepLoopRun(s, rule, at, todo[1..], failures);
      SweepLoopRun(s, rule, at, todo[1..], failures + 1);
    }
  }

  /** The closing loop stays in the handling of the breach, or ends by taking the account off. */
  lemma {:induction false} CloseAllLoopRun(s: Account, reason: Option<FailureReason>, todo: seq<nat>)
    ensures BreachRun(CloseAllLoop(s, reason, todo).run) <==> reason.Some?
    decreases |todo|
  {
    if todo != [] {
      CloseAllLoopRun(s, reason, todo[1..]);
      CloseAllLoopRun(s.(book := SetClosing(s.book, todo[0], false)), reason, todo[1..]);
    }
  }

  lemma PerformRun(cal: Calendar, s: Account, q: Queued)
    requires s.run.Idle?
    ensures BreachRun(Perform(cal, s, q).run) <==> q.op.ExecuteBreach?
  {
    match q.op
    case Sweep(rule) => SweepLoopRun(s, rule, q.at, s.book.posOrder, 0);
    case CloseAll => CloseAllLoopRun(s, None, s.book.posOrder);
    case _ =>
  }

  lemma BeginTracesBreach(cal: Calendar, s: Account)
    requires BreachTraced(s)
    ensures BreachTraced(Begin(cal, s))
  {
    if s.run.Idle? && s.queue != [] {
      var t, tail := Begin(cal, s), s.queue[1..];
      PerformConfined(cal, s.(queue := tail), s.queue[0]);
      PerformRun(cal, s.(queue := tail), s.queue[0]);
      assert forall i :: 0 <= i < |tail| ==> tail[i] == s.queue[i + 1];
      if BreachQueued(s.queue) && !s.queue[0].op.ExecuteBreach? {
        var i :| 0 <= i < |s.queue| && s.queue[i].op.ExecuteBreach?;
        assert tail[i - 1].op.ExecuteBreach?;
      }
      assert BreachQueued(tail) <==> BreachQueued(s.queue) && !s.queue[0].op.ExecuteBreach?;
    }
  }

  lemma ResumeRun(s: Account, reply: Reply)
    requires Books(s)
    ensures var t := Resume(s, reply);
            && (BreachRun(t.run) ==> BreachRun(s.run))
            && (BreachRun(s.run) ==> BreachRun(t.run) || Leaving(t.run) || t.book.untracked)
            && (Leaving(s.run) ==> t.book.untracked)
  {
    match s.run
    case Closing(id, plan, after) => ResumeClosingRun(s, id, plan, after, reply);
    case Flushing(reason) =>
      CloseAllLoopRun(s, Some(reason), s.book.posOrder);
    case Cancelling(ids, next) =>
    case _ => RestRun(s, reply);
  }

  lemma RestRun(s: Account, reply: Reply)
    requires !s.run.Closing? && !s.run.Flushing? && !s.run.Cancelling?
    ensures var t := Resume(s, reply);
            && !BreachRun(t.run)
            && (s.run.Failing? ==> Leaving(t.run) || t.book.untracked)
  {
    match s.run
    case Opening(m, volume, price, margin) => OpeningAdmits(s, m, volume, price, margin, reply.ok);
    case Filling(o, price, margin) => FillingAdmits(s, o, price, margin, reply.ok);
    case _ =>
  }

  lemma AfterCloseRun(s: Account, after: After)
    ensures BreachRun(AfterClose(s, after).run) <==> after.BreachMore?
  {
    match after
    case SweepMore(rule, at, todo, failures) => SweepLoopRun(s, rule, at, todo, failures);
    case BreachMore(reason, todo) => CloseAllLoopRun(s, Some(reason), todo);
    case AdminMore(todo) => CloseAllLoopRun(s, None, todo);
    case _ =>
  }

  lemma CloseFailedRun(s: Account, id: nat, after: After)
    ensures BreachRun(CloseFailed(s, id, after).run) <==> after.BreachMore?
  {
    var t := s.(book := SetClosing(s.book, id, false));
    CloseFailedShape(s, id, after);
    match after
    case SweepMore(rule, at, todo, failures) => SweepLoopRun(t, rule, at, todo, failures + 1);
    case BreachMore(reason, todo) => CloseAllLoopRun(t, Some(reason), todo);
    case AdminMore(todo) => CloseAllLoopRun(t, None, todo);
    case _ =>
  }

  lemma ResumeClosingRun(s: Account, id: nat, plan: ClosePlan, after: After, reply: Reply)
    requires Books(s) && s.run == Closing(id, plan, after)
    ensures var t := ResumeClosing(s, id, plan, after, reply);
            BreachRun(t.run) <==> after.BreachMore?
  {
    AfterCloseRun(ApplyClose(s, id, plan, reply), after);
    CloseFailedRun(s, id, after);
  }

  lemma ResumeTracesBreach(s: Account, reply: Reply)
    requires BreachTraced(s) && Books(s)
    ensures BreachTraced(Resume(s, reply))
  {
    ResumeRun(s, reply);
    ResumeAdmits(s, reply);
  }

  lemma {:induction false} RunTracesBreach(cal: Calendar, s: Account, steps: seq<Step>)
    requires BreachTraced(s) && Books(s)
    ensures BreachTraced(Run(cal, s, steps))
  {
    if steps != [] {
      var front := steps[..|steps| - 1];
      RunTracesBreach(cal, s, front);
      RunKeepsBooks(cal, s, front);
      var t := Run(cal, s, front);
      match steps[|steps| - 1]
      case Happened(e) => EventTracesBreach(cal, t, e);
      case Began => BeginTracesBreach(cal, t);
      case Resumed(reply) => ResumeTracesBreach(t, reply);
    }
  }

  /** No breach is lost and none is handled twice. */
  lemma BreachHandledOnce(cal: Calendar, s: Account, steps: seq<Step>)
    requires Fresh(s) && !s.breaching
    ensures BreachTraced(Run(cal, s, steps))
  {
    FreshHolds(cal, s);
    RunTracesBreach(cal, s, steps);
  }

  // ----- what a tick decides -----

  /** The rules' input for the figures the engine holds; days, target and phase may be anything. */
  ghost predicate SameFigures(s: Account, input: DecisionInput) {
    && CanAutoEvaluate(input.status) && input.startingBalance == s.startingBalance && input.equity == s.fig.equity
    && input.highWaterMark == s.fig.highWaterMark && input.dailyAnchorBalance == s.fig.anchor
    && input.rules.maxDrawdown == s.rules.maxDrawdown && input.rules.dailyDrawdown == s.rules.dailyDrawdown
    && input.rules.drawdownMode == s.rules.drawdownMode
  }

  predicate DrawdownFailure(d: Decision) {
    d.failureReason == Some(MaxDrawdown) || d.failureReason == Some(DailyLoss)
  }

  /**
   * After a tick on a symbol the account holds, with the market open and no stale holding, the
   * account is flagged or strictly above both floors; and it is newly flagged exactly when the
   * recorded rules would fail it on the same figures, with their reason queued for execution.
   */
  lemma EvaluatedTick(cal: Calendar, s: Account, symbol: string, q: Quote, w: World, input: DecisionInput)
    requires Holds(s, symbol) && symbol in s.w.instruments && w.open
    requires var t := Tick(cal, s, symbol, q, w); !HoldsStale(t) && SameFigures(t, input)
    ensures var t := Tick(cal, s, symbol, q, w);
            && (t.breaching || (!Below(t.fig.equity, DrawdownFloor(t)) && !Below(t.fig.equity, LossFloor(t))))
            && (!s.breaching ==> (t.breaching <==> DrawdownFailure(DetermineChallengeTransition(input))))
            && (!s.breaching && t.breaching
                ==> t.queue != [] && t.queue[|t.queue| - 1].op.ExecuteBreach?
                    && Some(t.queue[|t.queue| - 1].op.reason) == DetermineChallengeTransition(input).failureReason)
  {
    var s1 := s.(w := Quoted(s.w, symbol, q, w));
    TickPositionsOneWay(s1, symbol, q, s1.book.posOrder);
    var s2 := TickPositions(s1, symbol, q, s1.book.posOrder);
    TickOrdersOneWay(cal, s2, symbol, q, s2.book.ordOrder);
    var s3 := TickOrders(cal, s2, symbol, q, s2.book.ordOrder);
    assert Holds(s1, symbol);
    var r := Recompute(s3);
    assert HoldsStale(r) == HoldsStale(Tick(cal, s, symbol, q, w));
    if !r.breaching {
      LiveCheckAgreesWithRules(input, MaxDrawdown);
      LiveCheckAgreesWithRules(input, DailyLoss);
    }
  }

  // ----- a payment reaches the engine -----

  /** The figures in memory are those of the rows and of the last marks. */
  ghost predicate UpToDate(s: Account) {
    && !s.book.untracked && s.book.positions.Keys == s.book.db.open.Keys
    && s.fig.balance == s.book.db.balance && s.fig.equity == s.fig.balance + FloatingSum(s.book.posOrder, s.book.positions)
    && s.fig.equity <= s.fig.highWaterMark
  }

  /** A payment takes `consumed` off the balance, and the worker is told to reload the account's row. */
  function PaidOut(cal: Calendar, s: Account, consumed: int, row: Reply, rows: seq<nat>): Account {
    OnEvent(cal, OnEvent(cal, s, ChangedElsewhere({}, 0 - consumed)), RowReloaded(row, rows))
  }

  lemma {:induction false} NothingToDrop(b: Book, ids: seq<nat>)
    requires b.positions.Keys <= b.db.open.Keys
    ensures DropClosed(b, ids) == b
    decreases |ids|
  {
    if ids != [] {
      NothingToDrop(b, ids[1..]);
    }
  }

  /** The equity falls by what was consumed; the peak in memory does not follow the row's. */
  lemma PaymentReachesEngine(cal: Calendar, s: Account, consumed: nat, row: Reply, rows: seq<nat>)
    requires Books(s) && UpToDate(s) && CanAutoEvaluate(row.status) && row.highWaterMark <= s.fig.highWaterMark
    ensures var t := PaidOut(cal, s, consumed, row, rows);
            && t.fig.equity == s.fig.equity - consumed && t.fig.highWaterMark == s.fig.highWaterMark && t.fig.anchor == row.anchor
            && t.rules == s.rules && t.startingBalance == s.startingBalance
  {
    var t := OnEvent(cal, s, ChangedElsewhere({}, 0 - consumed));
    PaymentElsewhere(cal, s, consumed);
    MergeNothing(t, row, rows);
    ReloadedFigures(t, row);
  }

  lemma PaymentElsewhere(cal: Calendar, s: Account, consumed: nat)
    requires Books(s)
    ensures var t := OnEvent(cal, s, ChangedElsewhere({}, 0 - consumed));
            && Books(t) && t.book.db.open == s.book.db.open && t.book.db.balance == s.book.db.balance - consumed
            && t == s.(book := s.book.(db := t.book.db))
  {
    EventKeepsBooks(cal, s, ChangedElsewhere({}, 0 - consumed));
    assert s.book.db.open - {} == s.book.db.open;
  }

  /** The figures after a reload that changes no position. */
  lemma ReloadedFigures(s: Account, row: Reply)
    ensures var f := Recompute(ApplyRow(s, row)).fig;
            && f.equity == s.book.db.balance + FloatingSum(s.book.posOrder, s.book.positions) && f.anchor == row.anchor
            && f.highWaterMark == Max(Max(s.fig.highWaterMark, row.highWaterMark), f.equity)
  {
  }

  /** With the same positions in memory and in the rows, a reload only brings the row's figures. */
  lemma MergeNothing(s: Account, row: Reply, rows: seq<nat>)
    requires Books(s) && !s.book.untracked && CanAutoEvaluate(row.status) && s.book.positions.Keys <= s.book.db.open.Keys
    ensures MergeRow(s, row, rows) == Recompute(ApplyRow(s, row))
  {
    AddMissingNothing(s.w, s.book, rows);
    NothingToDrop(s.book, s.book.posOrder);
    assert ApplyRow(s, row).(book := s.book) == ApplyRow(s, row);
  }

  /**
   * A payout of the whole profit: the payment lowers the recorded peak with the balance, but the
   * engine keeps its own. So the engine fails the account exactly when the limit trails and the
   * peak had reached the starting balance plus the limit, while the recorded rules fail it exactly
   * when the lowered peak still does.
   */
  lemma WholeProfitPaidFailsIff(cal: Calendar, s: Account, consumed: nat, row: Reply, rows: seq<nat>)
    requires Books(s) && UpToDate(s) && CanAutoEvaluate(row.status) && row.highWaterMark == s.fig.highWaterMark - consumed
    requires s.fig.equity == s.startingBalance + consumed
    ensures var t := PaidOut(cal, s, consumed, row, rows);
            var limit := ChallengeRules.Limit(s.startingBalance, s.rules.maxDrawdown);
            var recorded := MaxDrawdownFloor(s.startingBalance, row.highWaterMark, s.rules.maxDrawdown, s.rules.drawdownMode);
            && (CheckBreach(t.fig.equity, DrawdownFloor(t), LossFloor(t)) == Some(MaxDrawdown)
                <==> limit > 0 && s.rules.drawdownMode.Trailing? && s.fig.highWaterMark >= s.startingBalance + limit)
            && (Below(t.fig.equity, recorded)
                <==> limit > 0 && s.rules.drawdownMode.Trailing? && s.fig.highWaterMark - consumed >= s.startingBalance + limit)
  {
    PaymentReachesEngine(cal, s, consumed, row, rows);
  }

  /** For any payment the two disagree exactly when the equity left lies between the two floors. */
  lemma PaymentSplitsTheChecks(cal: Calendar, s: Account, consumed: nat, row: Reply, rows: seq<nat>)
    requires Books(s) && UpToDate(s) && CanAutoEvaluate(row.status) && row.highWaterMark == s.fig.highWaterMark - consumed
    ensures var t := PaidOut(cal, s, consumed, row, rows);
            var recorded := MaxDrawdownFloor(s.startingBalance, row.highWaterMark, s.rules.maxDrawdown, s.rules.drawdownMode);
            && (Below(t.fig.equity, recorded) ==> Below(t.fig.equity, DrawdownFloor(t)))
            && (Below(t.fig.equity, DrawdownFloor(t)) && !Below(t.fig.equity, recorded)
                <==> recorded.Some? && recorded.value < s.fig.equity - consumed <= DrawdownFloor(s).value)
  {
    PaymentReachesEngine(cal, s, consumed, row, rows);
  }

  // ----- a reset reaches the engine -----

  /** Every OPEN row is closed and the balance put back; then the worker reloads the row. */
  function ResetEvent(s: Account): Event { ChangedElsewhere(s.book.db.open.Keys, s.startingBalance - s.book.db.balance) }

  function AfterReset(cal: Calendar, s: Account, row: Reply, rows: seq<nat>): Account {
    OnEvent(cal, OnEvent(cal, s, ResetEvent(s)), RowReloaded(row, rows))
  }

  /** The columns of a new account, with the status of its phase. */
  predicate ResetRow(s: Account, row: Reply) {
    CanAutoEvaluate(row.status) && row.highWaterMark == s.startingBalance && row.anchor == s.startingBalance
  }

  /** Nothing is held any more and the equity is the starting balance, but the peak in memory stays. */
  lemma ResetReachesEngine(cal: Calendar, s: Account, row: Reply, rows: seq<nat>)
    requires Books(s) && !s.book.untracked && ResetRow(s, row)
    requires forall id :: id in s.book.positions ==> !s.book.positions[id].closing
    ensures var t := AfterReset(cal, s, row, rows);
            && t.book.positions == map[] && t.fig.equity == s.startingBalance && t.fig.anchor == s.startingBalance
            && t.fig.highWaterMark == Max(s.fig.highWaterMark, s.startingBalance)
            && t.rules == s.rules && t.startingBalance == s.startingBalance
  {
    ResetElsewhere(cal, s);
    var t := OnEvent(cal, s, ResetEvent(s));
    MergeEmpties(t, row, rows);
    assert AfterReset(cal, s, row, rows) == MergeRow(t, row, rows);
  }

  lemma ResetElsewhere(cal: Calendar, s: Account)
    requires Books(s)
    ensures var t := OnEvent(cal, s, ResetEvent(s));
            && Books(t) && t.book.db.open == map[] && t.book.db.balance == s.startingBalance
            && t.book.positions == s.book.positions && t.book.untracked == s.book.untracked
            && t.fig == s.fig && t.rules == s.rules && t.startingBalance == s.startingBalance
  {
    EventKeepsBooks(cal, s, ResetEvent(s));
  }

  lemma MergeEmpties(s: Account, row: Reply, rows: seq<nat>)
    requires Books(s) && !s.book.untracked && CanAutoEvaluate(row.status) && s.book.db.open == map[]
    requires forall id :: id in s.book.positions ==> !s.book.positions[id].closing
    ensures var t := MergeRow(s, row, rows);
            && t.book.positions == map[] && t.rules == s.rules && t.startingBalance == s.startingBalance
            && t.fig.equity == s.book.db.balance && t.fig.anchor == row.anchor
            && t.fig.highWaterMark == Max(Max(s.fig.highWaterMark, row.highWaterMark), s.book.db.balance)
  {
    var t := MergeRow(s, row, rows);
    MergeRowThins(s, row, rows);
    MergeRowKeeps(s, row, rows);
    assert t.book.positions.Keys == {};
    assert t.book.posOrder == [];
    ReloadedFigures(s.(book := t.book), row);
  }

  /**
   * A reset puts the recorded peak back to the starting balance, but the engine keeps its own. So
   * the recorded rules never fail the account that was reset, while the engine fails it exactly
   * when the limit trails and the old peak had reached the starting balance plus the limit.
   */
  lemma ResetFailsIff(cal: Calendar, s: Account, row: Reply, rows: seq<nat>)
    requires Books(s) && !s.book.untracked && ResetRow(s, row)
    requires forall id :: id in s.book.positions ==> !s.book.positions[id].closing
    ensures var t := AfterReset(cal, s, row, rows);
            var limit := ChallengeRules.Limit(s.startingBalance, s.rules.maxDrawdown);
            var recorded := MaxDrawdownFloor(s.startingBalance, row.highWaterMark, s.rules.maxDrawdown, s.rules.drawdownMode);
            && CheckBreach(t.fig.equity, recorded, DailyLossFloor(row.anchor, s.rules.dailyDrawdown)) == None
            && CheckBreach(t.fig.equity, DrawdownFloor(t), LossFloor(t))
               == if limit > 0 && s.rules.drawdownMode.Trailing? && s.fig.highWaterMark >= s.startingBalance + limit
                  then Some(MaxDrawdown) else None
  {
    ResetReachesEngine(cal, s, row, rows);
  }
}
