/** When a second queues the sweep of a holding rule, over every New York session. */
module LiveSweeps {
  import opened Options
  import opened Sessions
  import opened DailyReset
  import opened TradingMath
  import opened ChallengeRules
  import opened Live
  import opened LiveBooks
  import opened LiveHolding
  import opened LiveFrames
  import opened LiveRisk
  import opened LiveSafety

  /** From index `from` on, the queue holds a sweep for the rule. */
  ghost predicate SweepQueued(queue: seq<Queued>, from: nat, rule: HoldingRule) {
    exists i :: from <= i < |queue| && queue[i].op == Sweep(rule)
  }

  /** The account can be swept at all. */
  predicate Sweepable(s: Account) { !s.breaching && !s.book.untracked && s.now >= s.retryAt }

  /** The weekend rule holds for the account now. */
  predicate WeekendBinds(off: Zone, s: Account)
    requires NewYork(off)
  {
    !s.rules.weekendAllowed && IsWeekendRestricted(off, s.now)
  }

  predicate RolloverBinds(off: Zone, s: Account)
    requires NewYork(off)
  {
    !s.rules.overnightAllowed && IsRolloverWindow(off, s.now)
  }

  predicate SweptFor(s: Account, rule: HoldingRule, cutoff: int) { rule in s.sweeps && s.sweeps[rule] == cutoff }

  /**
   * A second queues a weekend sweep exactly when the account may not hold over the weekend, its window
   * is open and its cutoff has not been swept; and an overnight sweep exactly when no weekend rule
   * binds, the account may not hold overnight, the rollover window is open and its cutoff has not been
   * swept. The cutoff is noted with it, and nothing else is.
   */
  lemma SecondSweepsIff(off: Zone, s: Account)
    requires NewYork(off)
    ensures var t := OnEvent(NewYorkCalendar(off), s, SecondPassed);
            var weekend := Sweepable(s) && WeekendBinds(off, s) && !SweptFor(s, Weekend, WeekendCutoff(off, s.now));
            var rollover := Sweepable(s) && !WeekendBinds(off, s) && RolloverBinds(off, s)
                            && !SweptFor(s, Overnight, DailyRolloverCutoff(off, s.now));
            && (SweepQueued(t.queue, |s.queue|, Weekend) <==> weekend)
            && (SweepQueued(t.queue, |s.queue|, Overnight) <==> rollover)
            && t.sweeps == (if weekend then s.sweeps[Weekend := WeekendCutoff(off, s.now)]
                            else if rollover then s.sweeps[Overnight := DailyRolloverCutoff(off, s.now)] else s.sweeps)
            && t.book == s.book && t.done == s.done && t.retryAt == s.retryAt
  {
    var a := Live.AnchorTimer(s);
    TimerQueues(s);
    EnforceIff(off, a);
    var weekend := Sweepable(s) && WeekendBinds(off, s) && !SweptFor(s, Weekend, WeekendCutoff(off, s.now));
    var rollover := Sweepable(s) && !WeekendBinds(off, s) && RolloverBinds(off, s) && !SweptFor(s, Overnight, DailyRolloverCutoff(off, s.now));
    QueuedIff(s.queue, a.queue, OnEvent(NewYorkCalendar(off), s, SecondPassed).queue, weekend, rollover, s.now);
  }

  lemma QueuedIff(queue: seq<Queued>, anchored: seq<Queued>, swept: seq<Queued>, weekend: bool, rollover: bool, now: int)
    requires queue <= anchored && (forall i :: |queue| <= i < |anchored| ==> !anchored[i].op.Sweep?) && !(weekend && rollover)
    requires swept == anchored + (if weekend then [Queued(Sweep(Weekend), now)] else if rollover then [Queued(Sweep(Overnight), now)] else [])
    ensures SweepQueued(swept, |queue|, Weekend) <==> weekend
    ensures SweepQueued(swept, |queue|, Overnight) <==> rollover
  {
    assert forall i :: |queue| <= i < |anchored| ==> swept[i] == anchored[i];
    if weekend || rollover {
      assert swept[|anchored|].op == Sweep(if weekend then Weekend else Overnight);
    }
  }

  lemma TimerQueues(s: Account)
    ensures var a := Live.AnchorTimer(s);
            && a == s.(nextBoundary := a.nextBoundary, queue := a.queue)
            && (a.queue == s.queue || a.queue == s.queue + [Queued(CaptureAnchor(CurrentDayStart(s.resetTime, s.now)), s.now)])
  {
  }

  /** The sweep a second adds to the queue, if any. */
  lemma EnforceIff(off: Zone, s: Account)
    requires NewYork(off)
    ensures var t := EnforceHoldingRules(NewYorkCalendar(off), s);
            var weekend := Sweepable(s) && WeekendBinds(off, s) && !SweptFor(s, Weekend, WeekendCutoff(off, s.now));
            var rollover := Sweepable(s) && !WeekendBinds(off, s) && RolloverBinds(off, s)
                            && !SweptFor(s, Overnight, DailyRolloverCutoff(off, s.now));
            && t.queue == s.queue + (if weekend then [Queued(Sweep(Weekend), s.now)] else if rollover then [Queued(Sweep(Overnight), s.now)] else [])
            && t.sweeps == (if weekend then s.sweeps[Weekend := WeekendCutoff(off, s.now)]
                            else if rollover then s.sweeps[Overnight := DailyRolloverCutoff(off, s.now)] else s.sweeps)
            && t == s.(queue := t.queue, sweeps := t.sweeps)
  {
  }

  lemma SweepJoins(cal: Calendar, s: Account)
    ensures var t := EnforceHoldingRules(cal, s);
            || t == s
            || (DueRule(cal, s).Some?
                && t == s.(sweeps := s.sweeps[DueRule(cal, s).value := cal.cutoff(DueRule(cal, s).value, s.now)],
                           queue := s.queue + [Queued(Sweep(DueRule(cal, s).value), s.now)]))
  {
  }

  // ----- a sweep that failed is made again -----

  /** A sweep with failures forgets its cutoff and waits a minute; then a second of the same weekend queues it again. */
  lemma FailedSweepRetries(off: Zone, s: Account, at: int, failures: nat, later: int)
    requires NewYork(off) && failures > 0 && !s.breaching && !s.book.untracked && WeekendBinds(off, s)
    requires s.now + 60_000 <= later < WeekendReopen(off, s.now)
    ensures var t := SweepFinish(s, Weekend, at, failures);
            && !Sweepable(t.(now := s.now + 59_999)) && t.done == s.done
            && SweepQueued(OnEvent(NewYorkCalendar(off), t.(now := later), SecondPassed).queue, |t.queue|, Weekend)
  {
    CutoffConstantOnWindow(off, s.now, later);
    SecondSweepsIff(off, SweepFinish(s, Weekend, at, failures).(now := later));
  }

  /** And so for the rollover, outside the weekend. */
  lemma FailedRolloverRetries(off: Zone, s: Account, at: int, failures: nat, later: int)
    requires NewYork(off) && failures > 0 && !s.breaching && !s.book.untracked && RolloverBinds(off, s)
    requires s.now + 60_000 <= later < DailyRollover(off, s.now) && !WeekendBinds(off, s.(now := later))
    ensures var t := SweepFinish(s, Overnight, at, failures);
            && !Sweepable(t.(now := s.now + 59_999)) && t.done == s.done
            && SweepQueued(OnEvent(NewYorkCalendar(off), t.(now := later), SecondPassed).queue, |t.queue|, Overnight)
  {
    RolloverWindow(off, s.now);
    RolloverConstantOnWindow(off, s.now, later);
    SecondSweepsIff(off, SweepFinish(s, Overnight, at, failures).(now := later));
  }

  // ----- a noted sweep is made -----

  /** The account is flagged, off, or on its way off. */
  predicate Off(s: Account) { s.breaching || s.book.untracked || Leaving(s.run) }

  /** When the last queued sweep of the rule was submitted. */
  function LastQueued(queue: seq<Queued>, rule: HoldingRule): Option<int> {
    if queue == [] then None
    else if queue[|queue| - 1].op == Sweep(rule) then Some(queue[|queue| - 1].at)
    else LastQueued(queue[..|queue| - 1], rule)
  }

  function InFlight(run: Running, rule: HoldingRule): Option<int> {
    match run
    case Closing(_, _, SweepMore(r, at, _, _)) => if r == rule then Some(at) else None
    case Cancelling(_, SweepCancelled(r, at, _)) => if r == rule then Some(at) else None
    case _ => None
  }

  /** The latest sweep of the rule there is: queued, else in flight, else finished without a failure. */
  function Latest(s: Account, rule: HoldingRule): Option<int> {
    if LastQueued(s.queue, rule).Some? then LastQueued(s.queue, rule)
    else if InFlight(s.run, rule).Some? then InFlight(s.run, rule)
    else if rule in s.done then Some(s.done[rule])
    else None
  }

  /** The latest sweep is of the cutoff that is noted. */
  ghost predicate Follows(cal: Calendar, s: Account, rule: HoldingRule) {
    rule in s.sweeps && !Off(s) ==> Latest(s, rule).Some? && cal.cutoff(rule, Latest(s, rule).value) == s.sweeps[rule]
  }

  predicate NoSweep(queue: seq<Queued>, from: nat) {
    forall i :: from <= i < |queue| ==> !queue[i].op.Sweep?
  }

  lemma {:induction false} QueuedSame(queue: seq<Queued>, longer: seq<Queued>, rule: HoldingRule)
    requires queue <= longer && NoSweep(longer, |queue|)
    ensures LastQueued(longer, rule) == LastQueued(queue, rule)
    decreases |longer|
  {
    if |longer| > |queue| {
      QueuedSame(queue, longer[..|longer| - 1], rule);
    } else {
      assert longer == queue;
    }
  }

  lemma {:induction false} QueuedTail(queue: seq<Queued>, rule: HoldingRule)
    requires queue != []
    ensures LastQueued(queue, rule)
            == if LastQueued(queue[1..], rule).Some? then LastQueued(queue[1..], rule)
               else if queue[0].op == Sweep(rule) then Some(queue[0].at) else None
  {
    if |queue| > 1 {
      var n := |queue| - 1;
      QueuedTail(queue[..n], rule);
      assert queue[1..][..n - 1] == queue[..n][1..];
    }
  }

  /** Steps that neither sweep nor touch what sweeps leave behind. */
  ghost predicate NoSweeping(s: Account, t: Account) {
    && s.queue <= t.queue && NoSweep(t.queue, |s.queue|) && t.sweeps == s.sweeps && t.done == s.done
    && (forall rule :: InFlight(t.run, rule) == InFlight(s.run, rule)) && (Off(s) ==> Off(t))
  }

  lemma NoSweepingFollows(cal: Calendar, s: Account, t: Account, rule: HoldingRule)
    requires NoSweeping(s, t) && Follows(cal, s, rule)
    ensures Follows(cal, t, rule)
  {
    QueuedSame(s.queue, t.queue, rule);
  }

  lemma NoSweepingTrans(s: Account, t: Account, u: Account)
    requires NoSweeping(s, t) && NoSweeping(t, u)
    ensures NoSweeping(s, u)
  {
    assert forall i :: 0 <= i < |t.queue| ==> u.queue[i] == t.queue[i];
  }

  lemma {:induction false} TickPositionsSweepNone(s: Account, symbol: string, q: Quote, ids: seq<nat>)
    ensures NoSweeping(s, TickPositions(s, symbol, q, ids))
    decreases |ids|
  {
    if ids != [] {
      var t := TickPosition(s, symbol, q, ids[0]);
      TickPositionsSweepNone(t, symbol, q, ids[1..]);
      NoSweepingTrans(s, t, TickPositions(t, symbol, q, ids[1..]));
    }
  }

  lemma {:induction false} TickOrdersSweepNone(cal: Calendar, s: Account, symbol: string, q: Quote, ids: seq<string>)
    ensures NoSweeping(s, TickOrders(cal, s, symbol, q, ids))
    decreases |ids|
  {
    if ids != [] {
      var t := TickOrder(cal, s, symbol, q, ids[0]);
      TickOrdersSweepNone(cal, t, symbol, q, ids[1..]);
      NoSweepingTrans(s, t, TickOrders(cal, t, symbol, q, ids[1..]));
    }
  }

  lemma TickSweepsNone(cal: Calendar, s: Account, symbol: string, q: Quote, w: World)
    ensures NoSweeping(s, Tick(cal, s, symbol, q, w))
  {
    if symbol in s.w.instruments {
      var s1 := s.(w := Quoted(s.w, symbol, q, w));
      TickPositionsSweepNone(s1, symbol, q, s1.book.posOrder);
      var s2 := TickPositions(s1, symbol, q, s1.book.posOrder);
      TickOrdersSweepNone(cal, s2, symbol, q, s2.book.ordOrder);
      var s3 := TickOrders(cal, s2, symbol, q, s2.book.ordOrder);
      NoSweepingTrans(s1, s2, s3);
      NoSweepingTrans(s1, s3, TickDone(s3, Holds(s1, symbol)));
    }
  }

  lemma EventFollows(cal: Calendar, s: Account, e: Event, rule: HoldingRule)
    requires Books(s) && Follows(cal, s, rule)
    ensures Follows(cal, OnEvent(cal, s, e), rule)
  {
    var t := OnEvent(cal, s, e);
    match e
    case Ticked(symbol, q, w) =>
      TickSweepsNone(cal, s, symbol, q, w);
      NoSweepingFollows(cal, s, t, rule);
    case SecondPassed => SecondFollows(cal, s, rule);
    case RowReloaded(row, rows) =>
      MergeRowThins(s, row, rows);
      assert NoSweeping(s, t);
      NoSweepingFollows(cal, s, t, rule);
    case _ =>
      assert NoSweeping(s, t);
      NoSweepingFollows(cal, s, t, rule);
  }

  lemma SecondFollows(cal: Calendar, s: Account, rule: HoldingRule)
    requires Follows(cal, s, rule)
    ensures Follows(cal, OnEvent(cal, s, SecondPassed), rule)
  {
    var a := Live.AnchorTimer(s);
    TimerQueues(s);
    assert NoSweeping(s, a);
    NoSweepingFollows(cal, s, a, rule);
    EnforceFollows(cal, a, rule);
  }

  lemma EnforceFollows(cal: Calendar, s: Account, rule: HoldingRule)
    requires Follows(cal, s, rule)
    ensures Follows(cal, EnforceHoldingRules(cal, s), rule)
  {
    var t := EnforceHoldingRules(cal, s);
    SweepJoins(cal, s);
    if t.queue != s.queue {
      assert t.queue[..|s.queue|] == s.queue;
    }
  }

  // ----- operations -----

  /** The loop of a sweep is still at it, or finished: without a failure it is done, with one its cutoff is forgotten. */
  ghost predicate SweepGoesOn(s: Account, t: Account, rule: HoldingRule, at: int) {
    && t.queue == s.queue && t.breaching == s.breaching && t.book.untracked == s.book.untracked
    && (forall other :: other != rule ==> InFlight(t.run, other).None?)
    && (|| (InFlight(t.run, rule) == Some(at) && t.sweeps == s.sweeps && t.done == s.done)
        || (InFlight(t.run, rule).None? && t.sweeps == s.sweeps && t.done == s.done[rule := at])
        || (InFlight(t.run, rule).None? && t.sweeps == s.sweeps - {rule} && t.done == s.done))
  }

  lemma {:induction false} SweepLoopGoesOn(s: Account, rule: HoldingRule, at: int, todo: seq<nat>, failures: nat)
    ensures SweepGoesOn(s, SweepLoop(s, rule, at, todo, failures), rule, at)
    decreases |todo|
  {
    if todo == [] {
      SweepEnds(s, rule, at, failures);
    } else {
      SweepLoopGoesOn(s, rule, at, todo[1..], failures);
      SweepLoopGoesOn(s, rule, at, todo[1..], failures + 1);
    }
  }

  lemma SweepEnds(s: Account, rule: HoldingRule, at: int, failures: nat)
    ensures SweepGoesOn(s, SweepLoop(s, rule, at, [], failures), rule, at)
    ensures SweepGoesOn(s, SweepFinish(s, rule, at, failures), rule, at)
  {
  }

  lemma {:induction false} EmptyingSweepsNone(s: Account, reason: Option<FailureReason>, todo: seq<nat>)
    ensures var t := CloseAllLoop(s, reason, todo);
            && t.queue == s.queue && t.sweeps == s.sweeps && t.done == s.done && t.breaching == s.breaching
            && (s.book.untracked ==> t.book.untracked) && (forall rule :: InFlight(t.run, rule).None?)
    decreases |todo|
  {
    if todo != [] {
      EmptyingSweepsNone(s, reason, todo[1..]);
      EmptyingSweepsNone(s.(book := SetClosing(s.book, todo[0], false)), reason, todo[1..]);
    }
  }

  lemma PerformSweepsNone(cal: Calendar, s: Account, q: Queued)
    requires s.run.Idle? && !q.op.Sweep?
    ensures NoSweeping(s, Perform(cal, s, q))
  {
    match q.op
    case CloseAll => EmptyingSweepsNone(s, None, s.book.posOrder);
    case Client(command) => ClientSweepsNone(cal, s, q);
    case _ =>
  }

  lemma ClientSweepsNone(cal: Calendar, s: Account, q: Queued)
    requires s.run.Idle? && q.op.Client?
    ensures NoSweeping(s, Perform(cal, s, q))
  {
  }

  lemma BeginFollows(cal: Calendar, s: Account, rule: HoldingRule)
    requires Follows(cal, s, rule)
    ensures Follows(cal, Begin(cal, s), rule)
  {
    if s.run.Idle? && s.queue != [] {
      var q, rest := s.queue[0], s.(queue := s.queue[1..]);
      QueuedTail(s.queue, rule);
      if q.op.Sweep? {
        SweepLoopGoesOn(rest, q.op.rule, q.at, s.book.posOrder, 0);
      } else {
        PerformSweepsNone(cal, rest, q);
        NoSweepingFollows(cal, rest, Perform(cal, rest, q), rule);
      }
    }
  }

  /** A sweep in flight goes on from `s`, which differs from what it was only in what the close changed. */
  lemma GoneOnFollows(cal: Calendar, was: Account, s: Account, t: Account, r: HoldingRule, at: int, rule: HoldingRule)
    requires Follows(cal, was, rule) && InFlight(was.run, r) == Some(at) && SweepGoesOn(s, t, r, at)
    requires s.queue == was.queue && s.sweeps == was.sweeps && s.done == was.done && s.breaching == was.breaching
    requires s.book.untracked == was.book.untracked && !Leaving(was.run)
    ensures Follows(cal, t, rule)
  {
    assert rule != r ==> InFlight(was.run, rule).None?;
  }

  lemma ResumeSweepFollows(cal: Calendar, s: Account, reply: Reply, rule: HoldingRule)
    requires Follows(cal, s, rule) && s.run.Closing? && s.run.after.SweepMore?
    ensures Follows(cal, Resume(s, reply), rule)
  {
    var id, plan, a := s.run.pos, s.run.plan, s.run.after;
    if reply.ok {
      var u := ApplyClose(s, id, plan, reply);
      SweepLoopGoesOn(u, a.rule, a.at, a.todo, a.failures);
      if CanAutoEvaluate(reply.status) {
        GoneOnFollows(cal, s, u, Resume(s, reply), a.rule, a.at, rule);
      }
    } else {
      var u := s.(book := SetClosing(s.book, id, false));
      SweepLoopGoesOn(u, a.rule, a.at, a.todo, a.failures + 1);
      GoneOnFollows(cal, s, u, Resume(s, reply), a.rule, a.at, rule);
    }
  }

  lemma ResumeCancelFollows(cal: Calendar, s: Account, reply: Reply, rule: HoldingRule)
    requires Follows(cal, s, rule) && s.run.Cancelling? && s.run.next.SweepCancelled?
    ensures Follows(cal, Resume(s, reply), rule)
  {
    var next, u := s.run.next, s.(book := CancelEach(s.book, s.run.orders));
    CancelsOnly(s.book, s.run.orders);
    SweepEnds(u, next.rule, next.at, next.failures);
    GoneOnFollows(cal, s, u, Resume(s, reply), next.rule, next.at, rule);
  }

  lemma {:induction false} CancelsOnly(b: Book, ids: seq<string>)
    ensures CancelEach(b, ids).untracked == b.untracked
    decreases |ids|
  {
    if ids != [] {
      CancelsOnly(CancelOne(b, ids[0]), ids[1..]);
    }
  }

  /** A close that is not part of a sweep. */
  lemma ResumeCloseSweepsNone(s: Account, reply: Reply)
    requires s.run.Closing? && !s.run.after.SweepMore?
    ensures NoSweeping(s, Resume(s, reply))
  {
    if reply.ok {
      ClosedSweepsNone(s, ApplyClose(s, s.run.pos, s.run.plan, reply), reply);
    } else {
      FailedSweepsNone(s, s.(book := SetClosing(s.book, s.run.pos, false)), reply);
    }
  }

  lemma ClosedSweepsNone(s: Account, t: Account, reply: Reply)
    requires s.run.Closing? && !s.run.after.SweepMore? && reply.ok && t == ApplyClose(s, s.run.pos, s.run.plan, reply)
    ensures NoSweeping(s, Resume(s, reply))
  {
    match s.run.after
    case BreachMore(reason, todo) => EmptyingSweepsNone(t, Some(reason), todo);
    case AdminMore(todo) => EmptyingSweepsNone(t, None, todo);
    case _ =>
  }

  lemma FailedSweepsNone(s: Account, t: Account, reply: Reply)
    requires s.run.Closing? && !s.run.after.SweepMore? && !reply.ok && t == s.(book := SetClosing(s.book, s.run.pos, false))
    ensures NoSweeping(s, Resume(s, reply))
  {
    match s.run.after
    case BreachMore(reason, todo) => EmptyingSweepsNone(t, Some(reason), todo);
    case AdminMore(todo) => EmptyingSweepsNone(t, None, todo);
    case _ =>
  }

  lemma ResumeSweepsNone(s: Account, reply: Reply)
    requires !s.run.Closing? && !(s.run.Cancelling? && s.run.next.SweepCancelled?)
    ensures NoSweeping(s, Resume(s, reply))
  {
    match s.run
    case Flushing(reason) => EmptyingSweepsNone(s, Some(reason), s.book.posOrder);
    case Cancelling(ids, next) => CancelSweepsNone(s, reply);
    case Opening(m, volume, price, margin) =>
      OpeningAdmits(s, m, volume, price, margin, reply.ok);
      OpeningSweepsNone(s, reply);
    case Filling(o, price, margin) =>
      FillingAdmits(s, o, price, margin, reply.ok);
      OpeningSweepsNone(s, reply);
    case _ => RestSweepsNone(s, reply);
  }

  lemma CancelSweepsNone(s: Account, reply: Reply)
    requires s.run.Cancelling? && !s.run.next.SweepCancelled?
    ensures NoSweeping(s, Resume(s, reply))
  {
    CancelsOnly(s.book, s.run.orders);
  }

  lemma OpeningSweepsNone(s: Account, reply: Reply)
    requires s.run.Opening? || s.run.Filling?
    ensures var t := Resume(s, reply); t.queue == s.queue && t.sweeps == s.sweeps && t.done == s.done && t.breaching == s.breaching
  {
  }

  lemma RestSweepsNone(s: Account, reply: Reply)
    requires s.run.Idle? || s.run.Resting? || s.run.Failing? || s.run.Anchoring? || s.run.Modifying?
    ensures NoSweeping(s, Resume(s, reply))
  {
  }

  lemma ResumeFollows(cal: Calendar, s: Account, reply: Reply, rule: HoldingRule)
    requires Books(s) && Follows(cal, s, rule)
    ensures Follows(cal, Resume(s, reply), rule)
  {
    if s.run.Closing? && s.run.after.SweepMore? {
      ResumeSweepFollows(cal, s, reply, rule);
    } else if s.run.Cancelling? && s.run.next.SweepCancelled? {
      ResumeCancelFollows(cal, s, reply, rule);
    } else {
      if s.run.Closing? {
        ResumeCloseSweepsNone(s, reply);
      } else {
        ResumeSweepsNone(s, reply);
      }
      NoSweepingFollows(cal, s, Resume(s, reply), rule);
    }
  }

  lemma {:induction false} RunFollows(cal: Calendar, s: Account, steps: seq<Step>, rule: HoldingRule)
    requires Books(s) && s.sweeps == map[]
    ensures Follows(cal, Run(cal, s, steps), rule)
  {
    if steps != [] {
      var front, step := steps[..|steps| - 1], steps[|steps| - 1];
      var t := Run(cal, s, front);
      RunFollows(cal, s, front, rule);
      RunKeepsBooks(cal, s, front);
      match step
      case Happened(e) => EventFollows(cal, t, e, rule);
      case Began => BeginFollows(cal, t, rule);
      case Resumed(reply) => ResumeFollows(cal, t, reply, rule);
    }
  }

  // ----- from the first second of a window on -----

  /** The rule that holds for the account now: the weekend's before the rollover's. */
  predicate Binds(off: Zone, s: Account, rule: HoldingRule)
    requires NewYork(off)
  {
    if rule.Weekend? then WeekendBinds(off, s) else RolloverBinds(off, s) && !WeekendBinds(off, s)
  }

  /** A sweep of the window the account is in now is queued or in flight. */
  ghost predicate Underway(cal: Calendar, s: Account, rule: HoldingRule) {
    || (LastQueued(s.queue, rule).Some? && cal.cutoff(rule, LastQueued(s.queue, rule).value) == cal.cutoff(rule, s.now))
    || (InFlight(s.run, rule).Some? && cal.cutoff(rule, InFlight(s.run, rule).value) == cal.cutoff(rule, s.now))
  }

  /**
   * From the first second of its window on a holding rule is enforced: after any second of a run in
   * New York, for any rule that holds for a loaded account, a sweep of this window is queued or in
   * flight, or is done and binds - unless the account is flagged or on its way off, or a sweep failed
   * less than a minute ago.
   */
  lemma RuleIsEnforced(off: Zone, s: Account, steps: seq<Step>, rule: HoldingRule)
    requires NewYork(off) && Fresh(s) && s.sweeps == map[]
    requires TameRun(NewYorkCalendar(off), s, steps + [Happened(SecondPassed)])
    requires var t := Run(NewYorkCalendar(off), s, steps); Binds(off, t, rule) && t.now >= t.retryAt
    ensures var cal, t := NewYorkCalendar(off), Run(NewYorkCalendar(off), s, steps + [Happened(SecondPassed)]);
            Off(t) || Underway(cal, t, rule) || (OpenRule(cal, t, rule) && Bound(t, rule))
  {
    var cal, more := NewYorkCalendar(off), steps + [Happened(SecondPassed)];
    assert more[..|more| - 1] == steps;
    FreshHolds(cal, s);
    var before, t := Run(cal, s, steps), Run(cal, s, more);
    RunFollows(cal, s, more, rule);
    if !Off(t) {
      SecondNotes(off, before, rule);
      if !Underway(cal, t, rule) {
        NewYorkStays(off);
        RunHoldsIff(cal, s, more);
        DoneIsOpen(off, t, rule);
        HoldingRuleBinds(off, s, more, rule);
      }
    }
  }

  /** A second leaves the window's cutoff noted, by this sweep or an earlier one. */
  lemma SecondNotes(off: Zone, s: Account, rule: HoldingRule)
    requires NewYork(off) && Binds(off, s, rule) && Sweepable(s)
    ensures var cal, t := NewYorkCalendar(off), OnEvent(NewYorkCalendar(off), s, SecondPassed);
            t.now == s.now && t.rules == s.rules && SweptFor(t, rule, cal.cutoff(rule, t.now))
  {
    SecondSweepsIff(off, s);
  }

  lemma DoneIsOpen(off: Zone, t: Account, rule: HoldingRule)
    requires NewYork(off) && Binds(off, t, rule) && DoneSwept(NewYorkCalendar(off), t)
    requires rule in t.done && NewYorkCalendar(off).cutoff(rule, t.done[rule]) == NewYorkCalendar(off).cutoff(rule, t.now)
    ensures OpenRule(NewYorkCalendar(off), t, rule)
  {
    var cal := NewYorkCalendar(off);
    assert LiveHolding.Swept(cal, t.rules, rule, t.done[rule], t.now);
    SameEnd(off, rule, t.done[rule], t.now);
    BoundNow(off, t, rule);
  }

  lemma SameEnd(off: Zone, rule: HoldingRule, a: int, b: int)
    requires NewYork(off) && NewYorkCalendar(off).cutoff(rule, a) == NewYorkCalendar(off).cutoff(rule, b)
    ensures NewYorkCalendar(off).end(rule, a) == NewYorkCalendar(off).end(rule, b)
  {
    if rule.Weekend? {
      SameReopen(off, a, b);
    } else {
      assert NewYorkCalendar(off).cutoff(rule, a) == DailyRolloverCutoff(off, a) && NewYorkCalendar(off).end(rule, a) == DailyRollover(off, a);
      assert NewYorkCalendar(off).cutoff(rule, b) == DailyRolloverCutoff(off, b) && NewYorkCalendar(off).end(rule, b) == DailyRollover(off, b);
    }
  }

  lemma SameReopen(off: Zone, a: int, b: int)
    requires NewYork(off) && WeekendCutoff(off, a) == WeekendCutoff(off, b)
    ensures WeekendReopen(off, a) == WeekendReopen(off, b)
  {
    FxWeek(off, a);
    FxWeek(off, b);
    CutoffConstantOnWindow(off, a, WeekendCutoff(off, a));
    CutoffConstantOnWindow(off, b, WeekendCutoff(off, a));
  }

  lemma BoundNow(off: Zone, t: Account, rule: HoldingRule)
    requires NewYork(off) && Binds(off, t, rule)
    ensures t.now < NewYorkCalendar(off).end(rule, t.now)
  {
    if rule.Overnight? {
      RolloverWindow(off, t.now);
    }
  }
}
