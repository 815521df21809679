/**
 * Holding rules over whole runs: once a sweep has finished without a failure, and until its window
 * ends, the account opens nothing on session instruments and everything it still holds there is
 * already on its way out - for every interleaving of ticks, orders, triggers, reloads and timers.
 */
module LiveHolding {
  import opened Options
  import opened Money
  import opened TradingMath
  import opened ChallengeRules
  import opened Sessions
  import opened DailyReset
  import opened Live
  import opened LiveBooks

  // ----- windows -----

  /** A window, once open, stays the same window until its end. */
  ghost predicate Stays(cal: Calendar) {
    forall rule, t, u :: cal.inWindow(rule, t) && t <= u < cal.end(rule, t)
                         ==> cal.inWindow(rule, u) && cal.end(rule, u) == cal.end(rule, t)
  }

  lemma NewYorkStays(off: Zone)
    requires NewYork(off)
    ensures Stays(NewYorkCalendar(off))
  {
    var cal := NewYorkCalendar(off);
    forall rule, t, u | cal.inWindow(rule, t) && t <= u < cal.end(rule, t)
      ensures cal.inWindow(rule, u) && cal.end(rule, u) == cal.end(rule, t)
    {
      WindowStays(off, rule, t, u);
    }
  }

  lemma WindowStays(off: Zone, rule: HoldingRule, t: int, u: int)
    requires NewYork(off)
    requires var cal := NewYorkCalendar(off); cal.inWindow(rule, t) && t <= u < cal.end(rule, t)
    ensures var cal := NewYorkCalendar(off); cal.inWindow(rule, u) && cal.end(rule, u) == cal.end(rule, t)
  {
    if rule.Weekend? {
      WeekendStays(off, t, u);
    } else {
      OvernightStays(off, t, u);
    }
  }

  lemma WeekendStays(off: Zone, t: int, u: int)
    requires NewYork(off) && IsWeekendRestricted(off, t) && t <= u < WeekendReopen(off, t)
    ensures IsWeekendRestricted(off, u) && WeekendReopen(off, u) == WeekendReopen(off, t)
  {
    CutoffConstantOnWindow(off, t, u);
  }

  lemma OvernightStays(off: Zone, t: int, u: int)
    requires NewYork(off) && IsRolloverWindow(off, t) && t <= u < DailyRollover(off, t)
    ensures IsRolloverWindow(off, u) && DailyRollover(off, u) == DailyRollover(off, t)
  {
    RolloverWindow(off, t);
    RolloverConstantOnWindow(off, t, u);
  }

  /** `at` lies in a window of `rule` that is still open at `now`. */
  ghost predicate StillOpen(cal: Calendar, rule: HoldingRule, at: int, now: int) {
    cal.inWindow(rule, at) && at <= now < cal.end(rule, at)
  }

  lemma OpenNow(cal: Calendar, rule: HoldingRule, at: int, now: int)
    requires Stays(cal) && StillOpen(cal, rule, at, now)
    ensures cal.inWindow(rule, now) && cal.end(rule, now) == cal.end(rule, at)
  {
  }

  ghost predicate Restrained(cal: Calendar, s: Account) {
    exists rule :: Forbids(s.rules, rule) && cal.inWindow(rule, s.now)
  }

  // ----- the queue -----

  ghost predicate QueueInOrder(cal: Calendar, s: Account) {
    && (forall i, j :: 0 <= i <= j < |s.queue| ==> s.queue[i].at <= s.queue[j].at)
    && (forall i :: 0 <= i < |s.queue| ==> s.queue[i].at <= s.now)
    && (forall i :: 0 <= i < |s.queue| && s.queue[i].op.Sweep? ==> Forbids(s.rules, s.queue[i].op.rule) && cal.inWindow(s.queue[i].op.rule, s.queue[i].at))
  }

  /** A trigger queued inside a window that is still open is on no session instrument. */
  ghost predicate TriggersChecked(cal: Calendar, s: Account) {
    forall rule, i :: 0 <= i < |s.queue| && s.queue[i].op.TriggerOrder? && Forbids(s.rules, rule)
                      && StillOpen(cal, rule, s.queue[i].at, s.now)
                      ==> !IsSession(s.w, s.queue[i].op.order.symbol)
  }

  ghost predicate QueueHolding(cal: Calendar, s: Account) {
    QueueInOrder(cal, s) && TriggersChecked(cal, s)
  }

  // ----- closing flags -----

  ghost predicate CloseQueued(queue: seq<Queued>, id: nat) {
    exists i :: 0 <= i < |queue| && queue[i].op.StopClose? && queue[i].op.pos == id
  }

  /** A position marked closing has its close queued, in flight, or failed. */
  ghost predicate ClosingTraced(s: Account) {
    && (forall id :: id in s.book.positions && s.book.positions[id].closing
                     ==> CloseQueued(s.queue, id) || id in s.stuck || (s.run.Closing? && s.run.pos == id))
    && (s.run.Closing? && !s.run.after.ManualDone? && s.run.pos in s.book.positions
        ==> s.run.plan.volume == s.book.positions[s.run.pos].volume)
  }

  // ----- sweeps -----

  /** The account is being emptied for good: every way on ends with it untracked. */
  predicate Winding(run: Running) {
    match run
    case Closing(_, _, after) => after.BreachMore? || after.AdminMore?
    case Cancelling(_, next) => next.ThenUntrack?
    case Flushing(_) => true
    case Failing(_) => true
    case _ => false
  }

  ghost predicate NoSessionTriggers(s: Account) {
    forall i :: 0 <= i < |s.queue| && s.queue[i].op.TriggerOrder? ==> !IsSession(s.w, s.queue[i].op.order.symbol)
  }

  ghost predicate Covered(w: World, positions: map<nat, Position>, todo: seq<nat>) {
    forall id :: id in positions && IsSession(w, positions[id].symbol) ==> positions[id].closing || id in todo
  }

  ghost predicate NoSessionOrders(s: Account, but: seq<string>) {
    forall id :: id in s.book.pending && IsSession(s.w, s.book.pending[id].symbol) ==> id in but
  }

  ghost predicate RunSpares(s: Account) {
    match s.run
    case Opening(m, _, _, _) => !IsSession(s.w, m.symbol)
    case Resting(o) => !IsSession(s.w, o.symbol)
    case Filling(o, _, _) => !IsSession(s.w, o.symbol)
    case Closing(id, _, after) =>
      id in s.book.positions && (after.ManualDone? || after.SweepMore?) ==> !IsSession(s.w, s.book.positions[id].symbol)
    case _ => true
  }

  /** Nothing opens on session instruments, and what is held there is marked closing. */
  ghost predicate Quiet(s: Account, rule: HoldingRule) {
    && NoSessionTriggers(s)
    && (Winding(s.run) || Covered(s.w, s.book.positions, []))
    && (rule.Weekend? ==> NoSessionOrders(s, []))
    && RunSpares(s)
  }

  ghost predicate Swept(cal: Calendar, rules: Rules, rule: HoldingRule, at: int, now: int) {
    Forbids(rules, rule) && cal.inWindow(rule, at) && at <= now
  }

  /** A sweep in flight that has not failed so far covers what it has not reached. */
  ghost predicate SweepTraced(cal: Calendar, s: Account) {
    match s.run
    case Closing(id, _, SweepMore(rule, at, todo, failures)) =>
      && Swept(cal, s.rules, rule, at, s.now)
      && (StillOpen(cal, rule, at, s.now) && failures == 0 ==> NoSessionTriggers(s) && Covered(s.w, s.book.positions, todo))
    case Cancelling(ids, SweepCancelled(rule, at, failures)) =>
      && Swept(cal, s.rules, rule, at, s.now)
      && (StillOpen(cal, rule, at, s.now) && failures == 0
          ==> NoSessionTriggers(s) && Covered(s.w, s.book.positions, []) && NoSessionOrders(s, ids))
    case _ => true
  }

  ghost predicate OpenRule(cal: Calendar, s: Account, rule: HoldingRule) {
    rule in s.done && StillOpen(cal, rule, s.done[rule], s.now)
  }

  ghost predicate DoneSwept(cal: Calendar, s: Account) {
    forall rule :: rule in s.done ==> Swept(cal, s.rules, rule, s.done[rule], s.now)
  }

  /** The main invariant: a finished sweep keeps the account quiet until its window ends. */
  ghost predicate QuietAfterSweep(cal: Calendar, s: Account) {
    DoneSwept(cal, s) && forall rule :: OpenRule(cal, s, rule) ==> Quiet(s, rule)
  }

  ghost predicate Holding(cal: Calendar, s: Account) {
    QueueHolding(cal, s) && ClosingTraced(s) && SweepTraced(cal, s) && QuietAfterSweep(cal, s)
  }

  // ----- the catalogue -----

  /** The symbol becomes a session instrument: loaded, or loaded as one where it was crypto. */
  predicate Turns(v: World, w: World, symbol: string) { IsSession(w, symbol) && !IsSession(v, symbol) }

  ghost predicate TriggerOn(queue: seq<Queued>, symbol: string) {
    exists i :: 0 <= i < |queue| && queue[i].op.TriggerOrder? && queue[i].op.order.symbol == symbol
  }

  ghost predicate HeldOn(positions: map<nat, Position>, symbol: string, todo: seq<nat>) {
    exists id :: id in positions && positions[id].symbol == symbol && !positions[id].closing && id !in todo
  }

  ghost predicate RestsOn(pending: map<string, Pending>, symbol: string, but: seq<string>) {
    exists id :: id in pending && pending[id].symbol == symbol && id !in but
  }

  ghost predicate InFlightOn(s: Account, symbol: string) {
    match s.run
    case Opening(m, _, _, _) => m.symbol == symbol
    case Resting(o) => o.symbol == symbol
    case Filling(o, _, _) => o.symbol == symbol
    case Closing(id, _, after) => id in s.book.positions && (after.ManualDone? || after.SweepMore?) && s.book.positions[id].symbol == symbol
    case _ => false
  }

  /** A sweep skipped `symbol`: the account has something on it that `rule` would not let it have on a session instrument. */
  ghost predicate Exposed(s: Account, rule: HoldingRule, symbol: string) {
    || TriggerOn(s.queue, symbol)
    || (!Winding(s.run) && HeldOn(s.book.positions, symbol, []))
    || (rule.Weekend? && RestsOn(s.book.pending, symbol, []))
    || InFlightOn(s, symbol)
  }

  /** A sweep in flight has already passed something on `symbol`. */
  ghost predicate Passed(cal: Calendar, s: Account, symbol: string) {
    match s.run
    case Closing(id, _, SweepMore(rule, at, todo, failures)) =>
      StillOpen(cal, rule, at, s.now) && failures == 0 && (TriggerOn(s.queue, symbol) || HeldOn(s.book.positions, symbol, todo))
    case Cancelling(ids, SweepCancelled(rule, at, failures)) =>
      StillOpen(cal, rule, at, s.now) && failures == 0
      && (TriggerOn(s.queue, symbol) || HeldOn(s.book.positions, symbol, []) || RestsOn(s.book.pending, symbol, ids))
    case _ => false
  }

  /** A trigger was let through in a window that is still open. */
  ghost predicate LetThrough(cal: Calendar, s: Account, symbol: string) {
    exists rule, i :: 0 <= i < |s.queue| && s.queue[i].op.TriggerOrder? && s.queue[i].op.order.symbol == symbol
                      && Forbids(s.rules, rule) && StillOpen(cal, rule, s.queue[i].at, s.now)
  }

  /** The account got by a rule in force because `symbol` is no session instrument. */
  ghost predicate Skipped(cal: Calendar, s: Account, symbol: string) {
    || (exists rule :: OpenRule(cal, s, rule) && Exposed(s, rule, symbol))
    || Passed(cal, s, symbol)
    || LetThrough(cal, s, symbol)
  }

  /** A new catalogue turns nothing into a session instrument that a rule in force has skipped. */
  ghost predicate TameStep(cal: Calendar, s: Account, t: Account) {
    forall symbol :: Turns(s.w, t.w, symbol) ==> !Skipped(cal, s, symbol)
  }

  ghost predicate TameRun(cal: Calendar, s: Account, steps: seq<Step>) {
    steps == []
    || (TameRun(cal, s, steps[..|steps| - 1]) && TameStep(cal, Run(cal, s, steps[..|steps| - 1]), Run(cal, s, steps)))
  }

  lemma TriggersTurn(s: Account, w: World)
    requires NoSessionTriggers(s)
    ensures NoSessionTriggers(s.(w := w)) <==> forall symbol :: Turns(s.w, w, symbol) ==> !TriggerOn(s.queue, symbol)
  {
    var t := s.(w := w);
    if forall symbol :: Turns(s.w, w, symbol) ==> !TriggerOn(s.queue, symbol) {
      forall i | 0 <= i < |t.queue| && t.queue[i].op.TriggerOrder? ensures !IsSession(w, t.queue[i].op.order.symbol) {
        assert TriggerOn(s.queue, s.queue[i].op.order.symbol);
      }
    }
  }

  lemma CoverTurns(s: Account, w: World, todo: seq<nat>)
    requires Covered(s.w, s.book.positions, todo)
    ensures Covered(w, s.book.positions, todo) <==> forall symbol :: Turns(s.w, w, symbol) ==> !HeldOn(s.book.positions, symbol, todo)
  {
    var positions := s.book.positions;
    if forall symbol :: Turns(s.w, w, symbol) ==> !HeldOn(positions, symbol, todo) {
      forall id | id in positions && IsSession(w, positions[id].symbol) ensures positions[id].closing || id in todo {
        assert !positions[id].closing && id !in todo ==> HeldOn(positions, positions[id].symbol, todo);
      }
    }
  }

  lemma OrdersTurn(s: Account, w: World, but: seq<string>)
    requires NoSessionOrders(s, but)
    ensures NoSessionOrders(s.(w := w), but) <==> forall symbol :: Turns(s.w, w, symbol) ==> !RestsOn(s.book.pending, symbol, but)
  {
    var pending := s.book.pending;
    if forall symbol :: Turns(s.w, w, symbol) ==> !RestsOn(pending, symbol, but) {
      forall id | id in pending && IsSession(w, pending[id].symbol) ensures id in but {
        assert id !in but ==> RestsOn(pending, pending[id].symbol, but);
      }
    }
  }

  lemma InFlightTurns(s: Account, w: World)
    requires RunSpares(s)
    ensures RunSpares(s.(w := w)) <==> forall symbol :: Turns(s.w, w, symbol) ==> !InFlightOn(s, symbol)
  {
    match s.run
    case Opening(m, _, _, _) => assert InFlightOn(s, m.symbol);
    case Resting(o) => assert InFlightOn(s, o.symbol);
    case Filling(o, _, _) => assert InFlightOn(s, o.symbol);
    case Closing(id, _, after) => assert id in s.book.positions && (after.ManualDone? || after.SweepMore?) ==> InFlightOn(s, s.book.positions[id].symbol);
    case _ =>
  }

  /**
   * Under a finished sweep, a new catalogue leaves the account bound exactly when it turns no symbol
   * into a session instrument that the account still has an unmarked position, a resting order, a
   * queued trigger or an operation in flight on.
   */
  lemma CatalogueBindsIff(s: Account, w: World, rule: HoldingRule)
    requires Quiet(s, rule)
    ensures Quiet(s.(w := w), rule) <==> forall symbol :: Turns(s.w, w, symbol) ==> !Exposed(s, rule, symbol)
  {
    TriggersTurn(s, w);
    if !Winding(s.run) {
      CoverTurns(s, w, []);
    }
    if rule.Weekend? {
      OrdersTurn(s, w, []);
    }
    InFlightTurns(s, w);
  }

  /** No crypto instrument is made a session one. */
  ghost predicate KeepsCrypto(v: World, w: World) {
    forall symbol :: IsCrypto(v, symbol) ==> !IsSession(w, symbol)
  }

  /**
   * A finished sweep binds through every later catalogue exactly when nothing it skipped is on a
   * symbol that is not loaded.
   */
  lemma EveryCatalogueBindsIff(s: Account, rule: HoldingRule)
    requires Quiet(s, rule)
    ensures (forall w :: KeepsCrypto(s.w, w) ==> Quiet(s.(w := w), rule))
            <==> forall symbol :: Exposed(s, rule, symbol) ==> symbol in s.w.instruments
  {
    forall w | KeepsCrypto(s.w, w)
      ensures Quiet(s.(w := w), rule) <==> forall symbol :: Turns(s.w, w, symbol) ==> !Exposed(s, rule, symbol)
    {
      CatalogueBindsIff(s, w, rule);
    }
    forall symbol | Exposed(s, rule, symbol) && symbol !in s.w.instruments
      ensures exists w :: KeepsCrypto(s.w, w) && !Quiet(s.(w := w), rule)
    {
      var inst := Instrument(true, Forex, 0, 1.0, VolumeRule(0.0, 0.0, 0.0), 0.0, "");
      var w := s.w.(instruments := s.w.instruments[symbol := inst]);
      assert Turns(s.w, w, symbol) && KeepsCrypto(s.w, w);
    }
  }

  // ----- events: what a synchronous piece may change -----

  ghost predicate MayQueue(cal: Calendar, s: Account, q: Queued) {
    && q.at == s.now
    && (q.op.Sweep? ==> Forbids(s.rules, q.op.rule) && cal.inWindow(q.op.rule, s.now))
    && (q.op.TriggerOrder? ==> Restrained(cal, s) ==> !IsSession(s.w, q.op.order.symbol))
  }

  /** Operations join the queue at its end; a position starts closing only together with its queued close. */
  ghost predicate Piece(cal: Calendar, s: Account, t: Account) {
    && t.w == s.w && t.now == s.now && t.rules == s.rules && t.stuck == s.stuck && t.done == s.done && t.run == s.run
    && SameBook(s.book, t.book) && StaysClosing(s.book, t.book)
    && s.queue <= t.queue
    && (forall i :: |s.queue| <= i < |t.queue| ==> MayQueue(cal, s, t.queue[i]))
    && (forall id :: id in t.book.positions && t.book.positions[id].closing
                     ==> s.book.positions[id].closing || CloseQueued(t.queue, id))
  }

  lemma QueuedLater(queue: seq<Queued>, longer: seq<Queued>, id: nat)
    requires CloseQueued(queue, id) && queue <= longer
    ensures CloseQueued(longer, id)
  {
    var i :| 0 <= i < |queue| && queue[i].op.StopClose? && queue[i].op.pos == id;
    assert longer[i] == queue[i];
  }

  lemma PieceTrans(cal: Calendar, s: Account, t: Account, u: Account)
    requires Piece(cal, s, t) && Piece(cal, t, u)
    ensures Piece(cal, s, u)
  {
    SameBookTrans(s.book, t.book, u.book);
    forall i | |s.queue| <= i < |u.queue| ensures MayQueue(cal, s, u.queue[i]) {
      assert MayQueue(cal, t, u.queue[i]) || u.queue[i] == t.queue[i];
    }
    forall id | id in u.book.positions && u.book.positions[id].closing
      ensures s.book.positions[id].closing || CloseQueued(u.queue, id)
    {
      if CloseQueued(t.queue, id) {
        QueuedLater(t.queue, u.queue, id);
      }
    }
  }

  lemma PieceQueueKeeps(cal: Calendar, s: Account, t: Account)
    requires QueueHolding(cal, s) && Stays(cal) && Piece(cal, s, t)
    ensures QueueHolding(cal, t)
  {
    forall i | 0 <= i < |t.queue| ensures (i < |s.queue| && t.queue[i] == s.queue[i]) || MayQueue(cal, s, t.queue[i]) {
    }
    forall rule, i | 0 <= i < |t.queue| && t.queue[i].op.TriggerOrder? && Forbids(t.rules, rule)
                     && StillOpen(cal, rule, t.queue[i].at, t.now)
      ensures !IsSession(t.w, t.queue[i].op.order.symbol)
    {
      if i >= |s.queue| {
        assert Restrained(cal, s);
      }
    }
  }

  lemma PieceClosingKeeps(cal: Calendar, s: Account, t: Account)
    requires ClosingTraced(s) && Piece(cal, s, t)
    ensures ClosingTraced(t)
  {
    forall id | id in t.book.positions && t.book.positions[id].closing
      ensures CloseQueued(t.queue, id) || id in t.stuck || (t.run.Closing? && t.run.pos == id)
    {
      if s.book.positions[id].closing && CloseQueued(s.queue, id) {
        QueuedLater(s.queue, t.queue, id);
      }
    }
  }

  lemma PieceNoTriggers(cal: Calendar, s: Account, t: Account)
    requires NoSessionTriggers(s) && Piece(cal, s, t) && Restrained(cal, s)
    ensures NoSessionTriggers(t)
  {
    forall i | 0 <= i < |t.queue| && t.queue[i].op.TriggerOrder? ensures !IsSession(t.w, t.queue[i].op.order.symbol) {
      assert (i < |s.queue| && t.queue[i] == s.queue[i]) || MayQueue(cal, s, t.queue[i]);
    }
  }

  lemma SameCover(cal: Calendar, s: Account, t: Account, todo: seq<nat>, but: seq<string>)
    requires Piece(cal, s, t)
    ensures Covered(s.w, s.book.positions, todo) ==> Covered(t.w, t.book.positions, todo)
    ensures NoSessionOrders(s, but) ==> NoSessionOrders(t, but)
    ensures RunSpares(s) ==> RunSpares(t)
  {
  }

  lemma RestrainedNow(cal: Calendar, s: Account, rule: HoldingRule, at: int)
    requires Stays(cal) && Swept(cal, s.rules, rule, at, s.now) && StillOpen(cal, rule, at, s.now)
    ensures Restrained(cal, s)
  {
    OpenNow(cal, rule, at, s.now);
  }

  lemma PieceSweepKeeps(cal: Calendar, s: Account, t: Account)
    requires SweepTraced(cal, s) && Stays(cal) && Piece(cal, s, t)
    ensures SweepTraced(cal, t)
  {
    match s.run
    case Closing(id, _, SweepMore(rule, at, todo, failures)) =>
      if StillOpen(cal, rule, at, s.now) && failures == 0 {
        RestrainedNow(cal, s, rule, at);
        PieceNoTriggers(cal, s, t);
        SameCover(cal, s, t, todo, []);
      }
    case Cancelling(ids, SweepCancelled(rule, at, failures)) =>
      if StillOpen(cal, rule, at, s.now) && failures == 0 {
        RestrainedNow(cal, s, rule, at);
        PieceNoTriggers(cal, s, t);
        SameCover(cal, s, t, [], ids);
      }
    case _ =>
  }

  lemma PieceQuietKeeps(cal: Calendar, s: Account, t: Account)
    requires QuietAfterSweep(cal, s) && Stays(cal) && Piece(cal, s, t)
    ensures QuietAfterSweep(cal, t)
  {
    forall rule | OpenRule(cal, t, rule) ensures Quiet(t, rule) {
      assert OpenRule(cal, s, rule);
      RestrainedNow(cal, s, rule, s.done[rule]);
      PieceNoTriggers(cal, s, t);
      SameCover(cal, s, t, [], []);
    }
  }

  lemma PieceKeeps(cal: Calendar, s: Account, t: Account)
    requires Holding(cal, s) && Stays(cal) && Piece(cal, s, t)
    ensures Holding(cal, t)
  {
    PieceQueueKeeps(cal, s, t);
    PieceClosingKeeps(cal, s, t);
    PieceSweepKeeps(cal, s, t);
    PieceQuietKeeps(cal, s, t);
  }

  // ----- the pieces of each event -----

  lemma QueuePiece(cal: Calendar, s: Account, t: Account, op: Op)
    requires t.w == s.w && t.now == s.now && t.rules == s.rules && t.stuck == s.stuck && t.done == s.done && t.run == s.run
    requires t.book == s.book && MayQueue(cal, s, Queued(op, s.now))
    requires t.queue == s.queue || t.queue == s.queue + [Queued(op, s.now)]
    ensures Piece(cal, s, t)
  {
    SameBookRefl(s.book);
  }

  lemma TickPositionPiece(cal: Calendar, s: Account, symbol: string, q: Quote, id: nat)
    ensures Piece(cal, s, TickPosition(s, symbol, q, id))
  {
    SameBookRefl(s.book);
    if id in s.book.positions && s.book.positions[id].symbol == symbol {
      var p := Marked(s.w, s.book.positions[id], q);
      MarkedSame(s.w, s.book.positions[id], q);
      MarkPiece(cal, s, id, p);
      forall price {
        StopPiece(cal, s, id, p, price);
      }
    }
  }

  lemma MarkPiece(cal: Calendar, s: Account, id: nat, p: Position)
    requires id in s.book.positions && SamePosition(s.book.positions[id], p) && p.closing == s.book.positions[id].closing
    ensures Piece(cal, s, s.(book := PutPosition(s.book, id, p)))
  {
    PutSame(s.book, id, p);
  }

  lemma StopPiece(cal: Calendar, s: Account, id: nat, p: Position, price: real)
    requires id in s.book.positions && SamePosition(s.book.positions[id], p)
    ensures Piece(cal, s, Enqueue(s.(book := PutPosition(s.book, id, p.(closing := true))), StopClose(id, price)))
  {
    PutSame(s.book, id, p.(closing := true));
    var t := Enqueue(s.(book := PutPosition(s.book, id, p.(closing := true))), StopClose(id, price));
    assert t.queue[|s.queue|].op.StopClose? && t.queue[|s.queue|].op.pos == id;
    assert CloseQueued(t.queue, id);
    assert forall k :: k in s.book.positions && k != id ==> t.book.positions[k] == s.book.positions[k];
  }

  lemma {:induction false} TickPositionsPiece(cal: Calendar, s: Account, symbol: string, q: Quote, ids: seq<nat>)
    ensures Piece(cal, s, TickPositions(s, symbol, q, ids))
    decreases |ids|
  {
    if ids == [] {
      SameBookRefl(s.book);
    } else {
      var s1 := TickPosition(s, symbol, q, ids[0]);
      TickPositionPiece(cal, s, symbol, q, ids[0]);
      TickPositionsPiece(cal, s1, symbol, q, ids[1..]);
      PieceTrans(cal, s, s1, TickPositions(s1, symbol, q, ids[1..]));
    }
  }

  lemma TickOrderPiece(cal: Calendar, s: Account, symbol: string, q: Quote, id: string)
    requires symbol in s.w.instruments
    ensures Piece(cal, s, TickOrder(cal, s, symbol, q, id))
  {
    SameBookRefl(s.book);
    SetTriggeringSame(s.book, id, true);
    if Restrained(cal, s) && RuleRestriction(cal, s.rules, s.w, symbol, s.now).None? {
      Unrestricted(cal, s, symbol);
    }
  }

  /** With a rule in force, only crypto instruments escape the restriction. */
  lemma Unrestricted(cal: Calendar, s: Account, symbol: string)
    requires Restrained(cal, s) && symbol in s.w.instruments
    requires RuleRestriction(cal, s.rules, s.w, symbol, s.now).None?
    ensures IsCrypto(s.w, symbol)
  {
    var rule :| Forbids(s.rules, rule) && cal.inWindow(rule, s.now);
    assert rule == Weekend || rule == Overnight;
  }

  lemma {:induction false} TickOrdersPiece(cal: Calendar, s: Account, symbol: string, q: Quote, ids: seq<string>)
    requires symbol in s.w.instruments
    ensures Piece(cal, s, TickOrders(cal, s, symbol, q, ids))
    decreases |ids|
  {
    if ids == [] {
      SameBookRefl(s.book);
    } else {
      var s1 := TickOrder(cal, s, symbol, q, ids[0]);
      TickOrderPiece(cal, s, symbol, q, ids[0]);
      TickOrdersPiece(cal, s1, symbol, q, ids[1..]);
      PieceTrans(cal, s, s1, TickOrders(cal, s1, symbol, q, ids[1..]));
    }
  }

  lemma TickDonePiece(cal: Calendar, s: Account, touched: bool)
    ensures Piece(cal, s, TickDone(s, touched))
  {
    var r := Recompute(s);
    var reason := CheckBreach(r.fig.equity, DrawdownFloor(r), LossFloor(r));
    var op := ExecuteBreach(if reason.Some? then reason.value else MaxDrawdown);
    QueuePiece(cal, s, s, op);
    QueuePiece(cal, s, r, op);
    QueuePiece(cal, s, CheckForBreach(r), op);
  }

  lemma TickPiece(cal: Calendar, s: Account, symbol: string, q: Quote)
    requires symbol in s.w.instruments
    ensures var s2 := TickPositions(s, symbol, q, s.book.posOrder);
            Piece(cal, s, TickDone(TickOrders(cal, s2, symbol, q, s2.book.ordOrder), Holds(s, symbol)))
  {
    var s2 := TickPositions(s, symbol, q, s.book.posOrder);
    TickPositionsPiece(cal, s, symbol, q, s.book.posOrder);
    var s3 := TickOrders(cal, s2, symbol, q, s2.book.ordOrder);
    TickOrdersPiece(cal, s2, symbol, q, s2.book.ordOrder);
    PieceTrans(cal, s, s2, s3);
    TickDonePiece(cal, s3, Holds(s, symbol));
    PieceTrans(cal, s, s3, TickDone(s3, Holds(s, symbol)));
  }

  lemma TimerPiece(cal: Calendar, s: Account)
    ensures Piece(cal, s, EnforceHoldingRules(cal, Live.AnchorTimer(s)))
  {
    var t := Live.AnchorTimer(s);
    QueuePiece(cal, s, t, CaptureAnchor(CurrentDayStart(s.resetTime, s.now)));
    var u := EnforceHoldingRules(cal, t);
    var due := DueRule(cal, t);
    QueuePiece(cal, t, u, if due.Some? then Sweep(due.value) else CloseAll);
    PieceTrans(cal, s, t, u);
  }

  // ----- reloads, rows closed elsewhere, market and clock -----

  lemma ThinnedHolds(cal: Calendar, s: Account, c: Book)
    requires Holding(cal, s) && Thinned(s.book, c)
    ensures Holding(cal, s.(book := c))
  {
    var t := s.(book := c);
    assert SweepTraced(cal, t);
    forall rule | OpenRule(cal, t, rule) ensures Quiet(t, rule) {
      assert OpenRule(cal, s, rule);
    }
  }

  lemma MergeRowHolds(cal: Calendar, s: Account, row: Reply, rows: seq<nat>)
    requires Holding(cal, s) && Stays(cal) && Stock(s.book)
    ensures Holding(cal, MergeRow(s, row, rows))
  {
    var t := MergeRow(s, row, rows);
    MergeRowThins(s, row, rows);
    ThinnedHolds(cal, s, t.book);
    QueuePiece(cal, s.(book := t.book), t, CloseAll);
    PieceKeeps(cal, s.(book := t.book), t);
  }

  /** A change of rows that memory does not see yet changes nothing the rules look at. */
  lemma RowsHold(cal: Calendar, s: Account, db: Ledger)
    requires Holding(cal, s)
    ensures Holding(cal, s.(book := s.book.(db := db)))
  {
    var t := s.(book := s.book.(db := db));
    forall rule | OpenRule(cal, t, rule) ensures Quiet(t, rule) {
      assert OpenRule(cal, s, rule);
    }
  }

  lemma TriggersCheckedIff(cal: Calendar, s: Account, w: World)
    requires TriggersChecked(cal, s)
    ensures TriggersChecked(cal, s.(w := w)) <==> forall symbol :: Turns(s.w, w, symbol) ==> !LetThrough(cal, s, symbol)
  {
    var t := s.(w := w);
    if forall symbol :: Turns(s.w, w, symbol) ==> !LetThrough(cal, s, symbol) {
      forall rule, i | 0 <= i < |t.queue| && t.queue[i].op.TriggerOrder? && Forbids(t.rules, rule)
                       && StillOpen(cal, rule, t.queue[i].at, t.now)
        ensures !IsSession(w, t.queue[i].op.order.symbol)
      {
        assert LetThrough(cal, s, s.queue[i].op.order.symbol);
      }
    }
  }

  lemma SweepTracedIff(cal: Calendar, s: Account, w: World)
    requires SweepTraced(cal, s)
    ensures SweepTraced(cal, s.(w := w)) <==> forall symbol :: Turns(s.w, w, symbol) ==> !Passed(cal, s, symbol)
  {
    match s.run
    case Closing(id, _, SweepMore(rule, at, todo, failures)) =>
      if StillOpen(cal, rule, at, s.now) && failures == 0 {
        TriggersTurn(s, w);
        CoverTurns(s, w, todo);
      }
    case Cancelling(ids, SweepCancelled(rule, at, failures)) =>
      if StillOpen(cal, rule, at, s.now) && failures == 0 {
        TriggersTurn(s, w);
        CoverTurns(s, w, []);
        OrdersTurn(s, w, ids);
      }
    case _ =>
  }

  /** A new catalogue keeps the holding invariant exactly when no symbol turns that a rule in force has skipped. */
  lemma CatalogueHoldsIff(cal: Calendar, s: Account, w: World)
    requires Holding(cal, s)
    ensures Holding(cal, s.(w := w)) <==> TameStep(cal, s, s.(w := w))
  {
    var t := s.(w := w);
    TriggersCheckedIff(cal, s, w);
    SweepTracedIff(cal, s, w);
    assert DoneSwept(cal, t) && QueueInOrder(cal, t) && ClosingTraced(t);
    forall rule ensures OpenRule(cal, t, rule) <==> OpenRule(cal, s, rule) {
    }
    forall rule | OpenRule(cal, s, rule)
      ensures Quiet(t, rule) <==> forall symbol :: Turns(s.w, w, symbol) ==> !Exposed(s, rule, symbol)
    {
      CatalogueBindsIff(s, w, rule);
    }
  }

  lemma ClockKeeps(cal: Calendar, s: Account, ms: nat)
    requires Holding(cal, s)
    ensures Holding(cal, s.(now := s.now + ms))
  {
    var t := s.(now := s.now + ms);
    forall rule, at | at <= s.now && StillOpen(cal, rule, at, t.now) ensures StillOpen(cal, rule, at, s.now) {
    }
    assert SweepTraced(cal, t);
    forall rule | OpenRule(cal, t, rule) ensures Quiet(t, rule) {
      assert OpenRule(cal, s, rule);
    }
  }

  lemma EventKeepsHolding(cal: Calendar, s: Account, e: Event)
    requires Holding(cal, s) && Stays(cal) && Stock(s.book) && !e.MarketChanged?
    ensures Holding(cal, OnEvent(cal, s, e))
  {
    match e
    case Ticked(symbol, q, w) => TickKeepsHolding(cal, s, symbol, q, w);
    case SecondPassed =>
      TimerPiece(cal, s);
      PieceKeeps(cal, s, OnEvent(cal, s, e));
    case Submitted(c) =>
      QueuePiece(cal, s, Enqueue(s, Client(c)), Client(c));
      PieceKeeps(cal, s, OnEvent(cal, s, e));
    case ClockAdvanced(ms) => ClockKeeps(cal, s, ms);
    case RowReloaded(row, rows) => MergeRowHolds(cal, s, row, rows);
    case ChangedElsewhere(closed, credit) => RowsHold(cal, s, CloseElsewhere(s.book.db, closed, credit));
  }

  /** A tick leaves the catalogue as it is. */
  lemma TickKeepsHolding(cal: Calendar, s: Account, symbol: string, q: Quote, w: World)
    requires Holding(cal, s) && Stays(cal)
    ensures Holding(cal, Tick(cal, s, symbol, q, w))
  {
    var s1 := s.(w := Quoted(s.w, symbol, q, w));
    if symbol in s.w.instruments {
      TickPiece(cal, s1, symbol, q);
      CatalogueHoldsIff(cal, s, s1.w);
      PieceKeeps(cal, s1, Tick(cal, s, symbol, q, w));
    }
  }

  // ----- pieces of operations -----

  /** Only the operation in flight, the books and the figures may differ. */
  ghost predicate Framed(s: Account, t: Account) {
    t.w == s.w && t.now == s.now && t.rules == s.rules && t.queue == s.queue
  }

  ghost predicate TracedBut(s: Account, but: set<nat>) {
    forall id :: id in s.book.positions && s.book.positions[id].closing
                 ==> CloseQueued(s.queue, id) || id in s.stuck || id in but
  }

  ghost predicate QuietBook(s: Account, rule: HoldingRule) {
    && NoSessionTriggers(s)
    && Covered(s.w, s.book.positions, [])
    && (rule.Weekend? ==> NoSessionOrders(s, []))
  }

  /** What holds between two pieces of an operation that is not emptying the account. */
  ghost predicate Calm(cal: Calendar, s: Account) {
    QueueHolding(cal, s) && DoneSwept(cal, s) && forall rule :: OpenRule(cal, s, rule) ==> QuietBook(s, rule)
  }

  ghost predicate CalmQueue(s: Account, rule: HoldingRule) {
    NoSessionTriggers(s) && (rule.Weekend? ==> NoSessionOrders(s, []))
  }

  /** What holds between two pieces of an operation that is. */
  ghost predicate Emptying(cal: Calendar, s: Account) {
    QueueHolding(cal, s) && DoneSwept(cal, s) && forall rule :: OpenRule(cal, s, rule) ==> CalmQueue(s, rule)
  }

  predicate Plain(run: Running) {
    !run.Closing? && !(run.Cancelling? && run.next.SweepCancelled?)
  }

  lemma PlainHolds(cal: Calendar, t: Account)
    requires Calm(cal, t) && TracedBut(t, {}) && Plain(t.run)
    requires (exists rule :: OpenRule(cal, t, rule)) ==> RunSpares(t)
    ensures Holding(cal, t)
  {
  }

  lemma WindingHolds(cal: Calendar, t: Account)
    requires Emptying(cal, t) && Plain(t.run) && TracedBut(t, {}) && (Winding(t.run) || t.book.positions == map[])
    requires Winding(t.run) || t.run.Idle?
    ensures Holding(cal, t)
  {
  }

  lemma CalmIsEmptying(cal: Calendar, s: Account)
    requires Calm(cal, s)
    ensures Emptying(cal, s)
  {
  }

  /** Between operations: what an idle account can rely on, minus the close whose turn has come. */
  lemma HoldingIsCalm(cal: Calendar, s: Account)
    requires Holding(cal, s) && s.run.Idle? && s.queue != []
    ensures var t := s.(queue := s.queue[1..]);
            && Calm(cal, t) && TracedBut(t, if s.queue[0].op.StopClose? then {s.queue[0].op.pos} else {})
            && (s.queue[0].op.TriggerOrder? && (exists rule :: OpenRule(cal, t, rule)) ==> !IsSession(s.w, s.queue[0].op.order.symbol))
  {
    var t := s.(queue := s.queue[1..]);
    assert forall i :: 0 <= i < |t.queue| ==> t.queue[i] == s.queue[i + 1];
    TailTraced(s);
    forall rule | OpenRule(cal, t, rule)
      ensures QuietBook(t, rule) && (s.queue[0].op.TriggerOrder? ==> !IsSession(s.w, s.queue[0].op.order.symbol))
    {
      assert OpenRule(cal, s, rule);
      assert Quiet(s, rule);
    }
  }

  lemma TailTraced(s: Account)
    requires ClosingTraced(s) && s.run.Idle? && s.queue != []
    ensures TracedBut(s.(queue := s.queue[1..]), if s.queue[0].op.StopClose? then {s.queue[0].op.pos} else {})
  {
    var tail := s.queue[1..];
    forall id | id in s.book.positions && s.book.positions[id].closing && CloseQueued(s.queue, id)
      ensures CloseQueued(tail, id) || (s.queue[0].op.StopClose? && s.queue[0].op.pos == id)
    {
      var i :| 0 <= i < |s.queue| && s.queue[i].op.StopClose? && s.queue[i].op.pos == id;
      if i > 0 {
        assert tail[i - 1] == s.queue[i];
      }
    }
  }

  lemma OpenRestrains(cal: Calendar, s: Account, rule: HoldingRule)
    requires Stays(cal) && DoneSwept(cal, s) && OpenRule(cal, s, rule)
    ensures Restrained(cal, s)
  {
    RestrainedNow(cal, s, rule, s.done[rule]);
  }

  /** The triggers behind a sweep were queued in its window, so they are on crypto instruments. */
  lemma SweepSeesNoTriggers(cal: Calendar, s: Account)
    requires QueueHolding(cal, s) && Stays(cal) && s.queue != [] && s.queue[0].op.Sweep?
    requires StillOpen(cal, s.queue[0].op.rule, s.queue[0].at, s.now)
    ensures NoSessionTriggers(s.(queue := s.queue[1..]))
  {
    var rule, at, tail := s.queue[0].op.rule, s.queue[0].at, s.queue[1..];
    forall i | 0 <= i < |tail| && tail[i].op.TriggerOrder? ensures !IsSession(s.w, tail[i].op.order.symbol) {
      assert tail[i] == s.queue[i + 1];
      assert at <= s.queue[i + 1].at <= s.now;
      assert cal.inWindow(rule, tail[i].at) && cal.end(rule, tail[i].at) == cal.end(rule, at);
    }
  }

  lemma StartCloseTraced(s: Account, id: nat, plan: ClosePlan, after: After)
    requires TracedBut(s, {}) || TracedBut(s, {id})
    requires after.ManualDone? || (id in s.book.positions ==> plan.volume == s.book.positions[id].volume)
    ensures ClosingTraced(StartClose(s, id, plan, after))
  {
  }

  /** Marking one more position as closing keeps what was covered covered. */
  lemma StartCloseCovers(s: Account, id: nat, plan: ClosePlan, after: After, todo: seq<nat>, rest: seq<nat>)
    requires id in s.book.positions && Covered(s.w, s.book.positions, todo)
    requires forall k :: k in todo ==> k == id || k in rest
    ensures Covered(s.w, StartClose(s, id, plan, after).book.positions, rest)
  {
  }

  // ----- the sweep -----

  ghost predicate SweepReady(cal: Calendar, s: Account, rule: HoldingRule, at: int, todo: seq<nat>, failures: nat) {
    && Calm(cal, s) && TracedBut(s, {}) && KeysOk(s.book) && Swept(cal, s.rules, rule, at, s.now)
    && (failures == 0 && StillOpen(cal, rule, at, s.now) ==> NoSessionTriggers(s) && Covered(s.w, s.book.positions, todo))
  }

  lemma {:induction false} SweepLoopHolds(cal: Calendar, s: Account, rule: HoldingRule, at: int, todo: seq<nat>, failures: nat)
    requires SweepReady(cal, s, rule, at, todo, failures)
    ensures Holding(cal, SweepLoop(s, rule, at, todo, failures))
    decreases |todo|
  {
    if todo == [] {
      SweepEndHolds(cal, s, rule, at, failures);
    } else {
      var id, rest := todo[0], todo[1..];
      if id !in s.book.positions || !IsSession(s.w, s.book.positions[id].symbol) || s.book.positions[id].closing {
        SweepLoopHolds(cal, s, rule, at, rest, failures);
      } else {
        SweepLoopHolds(cal, s, rule, at, rest, failures + 1);
        SweepStartHolds(cal, s, rule, at, todo, failures);
      }
    }
  }

  lemma QuietMarksClosing(cal: Calendar, s: Account, rule: HoldingRule, id: nat)
    requires Calm(cal, s) && id in s.book.positions && IsSession(s.w, s.book.positions[id].symbol)
    ensures OpenRule(cal, s, rule) ==> s.book.positions[id].closing
  {
    assert OpenRule(cal, s, rule) ==> QuietBook(s, rule);
  }

  lemma SweepStartHolds(cal: Calendar, s: Account, rule: HoldingRule, at: int, todo: seq<nat>, failures: nat)
    requires SweepReady(cal, s, rule, at, todo, failures) && todo != []
    requires var id := todo[0]; id in s.book.positions && IsSession(s.w, s.book.positions[id].symbol) && !s.book.positions[id].closing
    ensures forall plan: ClosePlan :: plan.volume == s.book.positions[todo[0]].volume
                                      ==> Holding(cal, StartClose(s, todo[0], plan, SweepMore(rule, at, todo[1..], failures)))
  {
    var id, rest := todo[0], todo[1..];
    forall rule ensures !OpenRule(cal, s, rule) {
      QuietMarksClosing(cal, s, rule, id);
    }
    forall plan: ClosePlan | plan.volume == s.book.positions[id].volume
      ensures Holding(cal, StartClose(s, id, plan, SweepMore(rule, at, rest, failures)))
    {
      var after := SweepMore(rule, at, rest, failures);
      var t := StartClose(s, id, plan, after);
      StartCloseTraced(s, id, plan, after);
      if Covered(s.w, s.book.positions, todo) {
        StartCloseCovers(s, id, plan, after, todo, rest);
      }
      assert QueueHolding(cal, t) && NoSessionTriggers(s) == NoSessionTriggers(t);
      assert forall r :: OpenRule(cal, t, r) <==> OpenRule(cal, s, r);
    }
  }

  lemma SweepEndHolds(cal: Calendar, s: Account, rule: HoldingRule, at: int, failures: nat)
    requires SweepReady(cal, s, rule, at, [], failures)
    ensures Holding(cal, SweepLoop(s, rule, at, [], failures))
  {
    var ids := SessionOrders(s.w, s.book.pending, s.book.ordOrder);
    if rule.Weekend? && ids != [] {
      var t := s.(run := Cancelling(ids, SweepCancelled(rule, at, failures)));
      assert NoSessionOrders(s, ids);
      assert forall r :: OpenRule(cal, t, r) <==> OpenRule(cal, s, r);
    } else {
      assert rule.Weekend? ==> NoSessionOrders(s, []);
      SweepFinishHolds(cal, s, rule, at, failures);
    }
  }

  /** A sweep that ends without a failure leaves the account quiet. */
  lemma SweepFinishHolds(cal: Calendar, s: Account, rule: HoldingRule, at: int, failures: nat)
    requires SweepReady(cal, s, rule, at, [], failures)
    requires failures == 0 && StillOpen(cal, rule, at, s.now) && rule.Weekend? ==> NoSessionOrders(s, [])
    ensures Holding(cal, SweepFinish(s, rule, at, failures))
  {
    var t := SweepFinish(s, rule, at, failures);
    forall r | OpenRule(cal, t, r) ensures QuietBook(t, r) {
      if r != rule || failures > 0 {
        assert OpenRule(cal, s, r);
      }
    }
    assert Calm(cal, t);
    PlainHolds(cal, t);
  }

  // ----- emptying the account -----

  lemma EmptyingFlag(cal: Calendar, s: Account, id: nat)
    requires Emptying(cal, s) && TracedBut(s, {})
    ensures var t := s.(book := SetClosing(s.book, id, false)); Emptying(cal, t) && TracedBut(t, {})
  {
    var t := s.(book := SetClosing(s.book, id, false));
    assert forall r :: OpenRule(cal, t, r) <==> OpenRule(cal, s, r);
  }

  lemma CancelAllHolds(cal: Calendar, s: Account)
    requires Emptying(cal, s) && TracedBut(s, {})
    ensures Holding(cal, CancelThen(s, s.book.ordOrder, ThenUntrack))
  {
    var t := CancelThen(s, s.book.ordOrder, ThenUntrack);
    EmptyingStays(cal, s, t);
    WindingHolds(cal, t);
  }

  lemma EmptyingStays(cal: Calendar, s: Account, t: Account)
    requires Emptying(cal, s) && t.queue == s.queue && t.done == s.done && t.now == s.now && t.rules == s.rules && t.w == s.w
    requires forall id :: id in t.book.pending ==> id in s.book.pending && t.book.pending[id] == s.book.pending[id]
    ensures Emptying(cal, t)
  {
    assert forall r :: OpenRule(cal, t, r) <==> OpenRule(cal, s, r);
  }

  lemma {:induction false} CloseAllLoopHolds(cal: Calendar, s: Account, reason: Option<FailureReason>, todo: seq<nat>)
    requires Emptying(cal, s) && TracedBut(s, {})
    ensures Holding(cal, CloseAllLoop(s, reason, todo))
    decreases |todo|
  {
    if todo == [] {
      if reason.Some? {
        var t := s.(run := Failing(reason.value));
        assert forall r :: OpenRule(cal, t, r) <==> OpenRule(cal, s, r);
        WindingHolds(cal, t);
      } else {
        CancelAllHolds(cal, s);
      }
    } else {
      var id, rest := todo[0], todo[1..];
      CloseAllLoopHolds(cal, s, reason, rest);
      EmptyingFlag(cal, s, id);
      CloseAllLoopHolds(cal, s.(book := SetClosing(s.book, id, false)), reason, rest);
      if id in s.book.positions && s.book.positions[id].symbol in s.w.quotes {
        var p := s.book.positions[id];
        var q := s.w.quotes[p.symbol];
        PlannedVolume(s, p, MarkPrice(p.side, q), p.volume, Some(q));
        var plan := PlanClose(s, p, MarkPrice(p.side, q), p.volume, Some(q));
        if plan.Some? {
          EmptyingStart(cal, s, id, plan.value, if reason.Some? then BreachMore(reason.value, rest) else AdminMore(rest));
        }
      }
    }
  }

  lemma EmptyingStart(cal: Calendar, s: Account, id: nat, plan: ClosePlan, after: After)
    requires Emptying(cal, s) && TracedBut(s, {}) && id in s.book.positions && plan.volume == s.book.positions[id].volume
    requires KeepsTracked(after)
    ensures Holding(cal, StartClose(s, id, plan, after))
  {
    var t := StartClose(s, id, plan, after);
    StartCloseTraced(s, id, plan, after);
    assert forall r :: OpenRule(cal, t, r) <==> OpenRule(cal, s, r);
    assert QueueHolding(cal, t) && NoSessionTriggers(s) == NoSessionTriggers(t);
  }

  // ----- starting an operation -----

  lemma BeginPlaceHolds(cal: Calendar, s: Account, m: OrderMsg)
    requires Calm(cal, s) && Stays(cal) && TracedBut(s, {}) && s.run.Idle?
    ensures Holding(cal, BeginPlace(cal, s, m))
  {
    BeginPlaceShape(cal, s, m);
    if exists rule :: OpenRule(cal, s, rule) {
      var rule :| OpenRule(cal, s, rule);
      OpenRestrains(cal, s, rule);
      AcceptedSpares(cal, s, m);
    }
    PlainStartHolds(cal, s, BeginPlace(cal, s, m));
  }

  lemma AcceptedSpares(cal: Calendar, s: Account, m: OrderMsg)
    requires Restrained(cal, s)
    ensures !CheckOrder(cal, s, m).Refused? ==> !IsSession(s.w, m.symbol)
  {
    var v := CheckOrder(cal, s, m);
    if !v.Refused? {
      assert AcceptedOrder(cal, s, m, v);
      Unrestricted(cal, s, m.symbol);
    }
  }

  lemma BeginPlaceShape(cal: Calendar, s: Account, m: OrderMsg)
    requires s.run.Idle?
    ensures var t := BeginPlace(cal, s, m);
            && SameHeld(s, t)
            && (t.run.Idle? || (!CheckOrder(cal, s, m).Refused? && t.run.Opening? && t.run.msg == m)
                || (!CheckOrder(cal, s, m).Refused? && t.run.Resting? && t.run.order.symbol == m.symbol))
  {
  }

  /** Only rows, figures and the operation in flight may differ. */
  ghost predicate SameHeld(s: Account, t: Account) {
    && Framed(s, t) && t.done == s.done && t.stuck == s.stuck
    && t.book.positions == s.book.positions && t.book.pending == s.book.pending
  }

  lemma PlainStartHolds(cal: Calendar, s: Account, t: Account)
    requires Calm(cal, s) && TracedBut(s, {}) && SameHeld(s, t) && Plain(t.run)
    requires (exists rule :: OpenRule(cal, s, rule)) ==> RunSpares(t)
    ensures Holding(cal, t)
  {
    assert forall r :: OpenRule(cal, t, r) <==> OpenRule(cal, s, r);
    forall rule | OpenRule(cal, t, rule) ensures QuietBook(t, rule) {
      assert QuietBook(s, rule);
    }
    PlainHolds(cal, t);
  }

  lemma BeginCloseHolds(cal: Calendar, s: Account, id: nat, requested: Option<real>)
    requires Calm(cal, s) && TracedBut(s, {}) && s.run.Idle?
    ensures Holding(cal, BeginClose(s, id, requested))
  {
    var t := BeginClose(s, id, requested);
    if t.run.Closing? {
      ManualStartHolds(cal, s, id, t.run.plan);
    } else {
      PlainHolds(cal, s);
    }
  }

  lemma ManualStartHolds(cal: Calendar, s: Account, id: nat, plan: ClosePlan)
    requires Calm(cal, s) && TracedBut(s, {}) && id in s.book.positions && !s.book.positions[id].closing
    ensures Holding(cal, StartClose(s, id, plan, ManualDone))
  {
    var t := StartClose(s, id, plan, ManualDone);
    StartCloseTraced(s, id, plan, ManualDone);
    StartHolds(cal, s, id, plan, ManualDone);
  }

  lemma StartHolds(cal: Calendar, s: Account, id: nat, plan: ClosePlan, after: After)
    requires Calm(cal, s) && id in s.book.positions && !after.SweepMore?
    requires ClosingTraced(StartClose(s, id, plan, after))
    requires after.ManualDone? ==> !s.book.positions[id].closing
    ensures Holding(cal, StartClose(s, id, plan, after))
  {
    var t := StartClose(s, id, plan, after);
    forall rule | OpenRule(cal, t, rule) ensures Quiet(t, rule) {
      assert OpenRule(cal, s, rule);
      if IsSession(s.w, s.book.positions[id].symbol) {
        QuietMarksClosing(cal, s, rule, id);
      }
      StartCloseCovers(s, id, plan, after, [], []);
    }
  }

  lemma BeginStopHolds(cal: Calendar, s: Account, id: nat, price: real)
    requires Calm(cal, s) && TracedBut(s, {id}) && s.run.Idle?
    ensures Holding(cal, BeginStop(s, id, price))
  {
    var t := BeginStop(s, id, price);
    if t.run.Closing? {
      var p := s.book.positions[id];
      PlannedVolume(s, p, price, p.volume, LookupQuote(s.w, p.symbol));
      StartCloseTraced(s, id, t.run.plan, StopDone);
      StartHolds(cal, s, id, t.run.plan, StopDone);
    } else {
      assert forall r :: OpenRule(cal, t, r) <==> OpenRule(cal, s, r);
      PlainHolds(cal, t);
    }
  }

  lemma BeginTriggerHolds(cal: Calendar, s: Account, o: Pending, q: Quote)
    requires Calm(cal, s) && TracedBut(s, {}) && s.run.Idle?
    requires (exists rule :: OpenRule(cal, s, rule)) ==> !IsSession(s.w, o.symbol)
    ensures Holding(cal, BeginTrigger(s, o, q))
  {
    BeginTriggerShape(s, o, q);
    PlainStartHolds(cal, s, BeginTrigger(s, o, q));
  }

  lemma BeginTriggerShape(s: Account, o: Pending, q: Quote)
    requires s.run.Idle?
    ensures var t := BeginTrigger(s, o, q);
            && SameHeld(s, t)
            && (t.run.Idle? || t.run == Cancelling([o.id], CancelDone) || (t.run.Filling? && t.run.order == o))
  {
  }

  lemma IdleStepHolds(cal: Calendar, s: Account, t: Account)
    requires Calm(cal, s) && TracedBut(s, {}) && SameHeld(s, t)
    requires t.run.Idle? || t.run.Anchoring? || t.run.Modifying? || t.run.Flushing?
    ensures Holding(cal, t)
  {
    PlainStartHolds(cal, s, t);
  }

  lemma BeginSweepHolds(cal: Calendar, s: Account)
    requires Holding(cal, s) && Stays(cal) && KeysOk(s.book) && s.run.Idle? && s.queue != [] && s.queue[0].op.Sweep?
    ensures Holding(cal, Perform(cal, s.(queue := s.queue[1..]), s.queue[0]))
  {
    HoldingIsCalm(cal, s);
    var t := s.(queue := s.queue[1..]);
    if t.book.untracked || t.breaching {
      IdleStepHolds(cal, t, t);
    } else {
      if StillOpen(cal, s.queue[0].op.rule, s.queue[0].at, s.now) {
        SweepSeesNoTriggers(cal, s);
      }
      SweepLoopHolds(cal, t, s.queue[0].op.rule, s.queue[0].at, t.book.posOrder, 0);
    }
  }

  lemma PerformHolds(cal: Calendar, s: Account, q: Queued)
    requires Calm(cal, s) && Stays(cal) && s.run.Idle? && !q.op.Sweep?
    requires TracedBut(s, if q.op.StopClose? then {q.op.pos} else {})
    requires q.op.TriggerOrder? && (exists rule :: OpenRule(cal, s, rule)) ==> !IsSession(s.w, q.op.order.symbol)
    ensures Holding(cal, Perform(cal, s, q))
  {
    match q.op
    case Client(PlaceOrder(m)) => BeginPlaceHolds(cal, s, m);
    case Client(ClosePosition(id, volume)) => BeginCloseHolds(cal, s, id, volume);
    case Client(ModifyPosition(id, sl, tp)) => IdleStepHolds(cal, s, Perform(cal, s, q));
    case StopClose(id, price) => BeginStopHolds(cal, s, id, price);
    case TriggerOrder(o, quote) => BeginTriggerHolds(cal, s, o, quote);
    case ExecuteBreach(reason) => IdleStepHolds(cal, s, Perform(cal, s, q));
    case CloseAll =>
      CalmIsEmptying(cal, s);
      CloseAllLoopHolds(cal, s, None, s.book.posOrder);
    case CaptureAnchor(boundary) => IdleStepHolds(cal, s, Perform(cal, s, q));
  }

  lemma BeginKeepsHolding(cal: Calendar, s: Account)
    requires Holding(cal, s) && Stays(cal) && KeysOk(s.book)
    ensures Holding(cal, Begin(cal, s))
  {
    if s.run.Idle? && s.queue != [] {
      if s.queue[0].op.Sweep? {
        BeginSweepHolds(cal, s);
      } else {
        HoldingIsCalm(cal, s);
        PerformHolds(cal, s.(queue := s.queue[1..]), s.queue[0]);
      }
    }
  }

  // ----- resuming -----

  /** What an account with an operation in flight offers the code that follows the await. */
  lemma HoldingMidway(cal: Calendar, s: Account)
    requires Holding(cal, s)
    ensures !Winding(s.run) ==> Calm(cal, s)
    ensures Emptying(cal, s)
    ensures TracedBut(s, if s.run.Closing? then {s.run.pos} else {})
    ensures (exists rule :: OpenRule(cal, s, rule)) ==> RunSpares(s)
  {
    forall rule | OpenRule(cal, s, rule) ensures RunSpares(s) && CalmQueue(s, rule) && (!Winding(s.run) ==> QuietBook(s, rule)) {
      assert Quiet(s, rule);
    }
  }

  /** Positions may go, stop closing or be joined by one that is not on a session instrument while a rule is open. */
  ghost predicate OnlyMilder(cal: Calendar, s: Account, t: Account) {
    && Framed(s, t) && t.done == s.done && s.stuck <= t.stuck
    && (forall id :: id in t.book.positions && t.book.positions[id].closing
                     ==> id in s.book.positions && s.book.positions[id].closing)
    && ((exists rule :: OpenRule(cal, s, rule))
        ==> (forall id :: id in t.book.positions && IsSession(t.w, t.book.positions[id].symbol)
                          ==> id in s.book.positions && IsSession(t.w, s.book.positions[id].symbol)
                              && (s.book.positions[id].closing ==> t.book.positions[id].closing))
            && (forall id :: id in t.book.pending && IsSession(t.w, t.book.pending[id].symbol)
                             ==> id in s.book.pending && IsSession(t.w, s.book.pending[id].symbol)))
  }

  lemma MilderIsCalm(cal: Calendar, s: Account, t: Account, but: set<nat>)
    requires Calm(cal, s) && OnlyMilder(cal, s, t) && TracedBut(s, but)
    requires forall id :: id in but && id in t.book.positions ==> !t.book.positions[id].closing || id in t.stuck
    ensures Calm(cal, t) && TracedBut(t, {})
  {
    assert forall r :: OpenRule(cal, t, r) <==> OpenRule(cal, s, r);
    forall rule | OpenRule(cal, t, rule) ensures QuietBook(t, rule) {
      assert QuietBook(s, rule);
    }
  }

  /** With nothing left to run but idling, a milder account is still quiet. */
  lemma MilderHolds(cal: Calendar, s: Account, t: Account)
    requires Holding(cal, s) && !Winding(s.run) && OnlyMilder(cal, s, t) && t.run.Idle?
    requires s.run.Closing? && s.run.pos in t.book.positions ==> !t.book.positions[s.run.pos].closing || s.run.pos in t.stuck
    ensures Holding(cal, t)
  {
    HoldingMidway(cal, s);
    MilderIsCalm(cal, s, t, if s.run.Closing? then {s.run.pos} else {});
    PlainHolds(cal, t);
  }

  lemma OpenedIsMilder(cal: Calendar, s: Account, t: Account, p: Position)
    requires Framed(s, t) && t.done == s.done && s.stuck <= t.stuck
    requires p.id in t.book.positions && t.book.positions == s.book.positions[p.id := t.book.positions[p.id]]
    requires t.book.positions[p.id].symbol == p.symbol && !t.book.positions[p.id].closing
    requires (exists rule :: OpenRule(cal, s, rule)) ==> !IsSession(s.w, p.symbol)
    requires forall id :: id in t.book.pending ==> id in s.book.pending && t.book.pending[id].symbol == s.book.pending[id].symbol
    ensures OnlyMilder(cal, s, t)
  {
  }

  lemma ResumeOpeningHolds(cal: Calendar, s: Account, m: OrderMsg, volume: int, price: real, margin: int, ok: bool)
    requires Holding(cal, s) && Books(s) && s.run == Opening(m, volume, price, margin)
    ensures Holding(cal, ResumeOpening(s, m, volume, price, margin, ok))
  {
    var t := ResumeOpening(s, m, volume, price, margin, ok);
    HoldingMidway(cal, s);
    if m.id !in s.book.db.orders && ok {
      var p := NewPosition(s.book.db.nextId, m.symbol, m.side, volume, price, m.stopLoss, m.takeProfit, margin);
      NewIdIsFresh(s.book);
      OpenedAdds(s.w, s.book, p, m.id);
      OpenedOpen(s.w, s.book.(db := RecordOpen(s.book.db, p, m.id)), p);
      OpenedIsMilder(cal, s, t, p);
    } else {
      assert t.book == s.book;
      assert OnlyMilder(cal, s, t);
    }
    MilderHolds(cal, s, t);
  }

  lemma OpenedOpen(w: World, b: Book, p: Position)
    ensures var c := Opened(w, b, p);
            p.id in c.positions && c.positions == b.positions[p.id := c.positions[p.id]]
            && (c.positions[p.id].closing ==> p.closing) && c.positions[p.id].symbol == p.symbol
            && c.pending == b.pending
  {
    if p.symbol in w.quotes {
      MarkedSame(w, p, w.quotes[p.symbol]);
    }
  }

  lemma ResumeRestingHolds(cal: Calendar, s: Account, o: Pending, ok: bool)
    requires Holding(cal, s) && s.run == Resting(o)
    ensures Holding(cal, ResumeResting(s, o, ok))
  {
    var t := ResumeResting(s, o, ok);
    HoldingMidway(cal, s);
    assert OnlyMilder(cal, s, t);
    MilderHolds(cal, s, t);
  }

  lemma ResumeFillingHolds(cal: Calendar, s: Account, o: Pending, price: real, margin: int, ok: bool)
    requires Holding(cal, s) && Books(s) && s.run == Filling(o, price, margin)
    ensures Holding(cal, ResumeFilling(s, o, price, margin, ok))
  {
    var t := ResumeFilling(s, o, price, margin, ok);
    HoldingMidway(cal, s);
    if ok {
      var p := NewPosition(s.book.db.nextId, o.symbol, o.side, o.volume, price, o.stopLoss, o.takeProfit, margin);
      var b := FillOrder(s.book, o.id, p);
      OpenedOpen(s.w, b, p);
      OpenedIsMilder(cal, s, t, p);
    } else {
      assert OnlyMilder(cal, s, t);
    }
    MilderHolds(cal, s, t);
  }

  lemma {:induction false} CancelEachBook(b: Book, ids: seq<string>)
    ensures var c := CancelEach(b, ids);
            && c.positions == b.positions && c.posOrder == b.posOrder && c.untracked == b.untracked
            && c.db == b.db.(orders := c.db.orders)
            && (forall id :: id in c.pending <==> id in b.pending && id !in ids)
            && (forall id :: id in c.pending ==> c.pending[id] == b.pending[id])
    decreases |ids|
  {
    if ids != [] {
      CancelEachBook(CancelOne(b, ids[0]), ids[1..]);
    }
  }

  lemma ResumeCancellingHolds(cal: Calendar, s: Account, ids: seq<string>, next: AfterCancel)
    requires Holding(cal, s) && Books(s) && s.run == Cancelling(ids, next)
    ensures Holding(cal, Settle(s.(book := CancelEach(s.book, ids)), next))
  {
    CancelEachBook(s.book, ids);
    match next
    case CancelDone => CancelDoneHolds(cal, s, ids);
    case SweepCancelled(rule, at, failures) => SweepCancelledHolds(cal, s, ids, rule, at, failures);
    case ThenUntrack => UntrackHolds(cal, s, s.(book := CancelEach(s.book, ids)));
  }

  lemma CancelDoneHolds(cal: Calendar, s: Account, ids: seq<string>)
    requires Holding(cal, s) && s.run == Cancelling(ids, CancelDone)
    ensures Holding(cal, s.(book := CancelEach(s.book, ids), run := Idle))
  {
    CancelledMilder(cal, s, ids);
    MilderHolds(cal, s, s.(book := CancelEach(s.book, ids), run := Idle));
  }

  lemma SweepCancelledHolds(cal: Calendar, s: Account, ids: seq<string>, rule: HoldingRule, at: int, failures: nat)
    requires Holding(cal, s) && Books(s) && s.run == Cancelling(ids, SweepCancelled(rule, at, failures))
    ensures Holding(cal, SweepFinish(s.(book := CancelEach(s.book, ids)), rule, at, failures))
  {
    var t := s.(book := CancelEach(s.book, ids));
    CancelEachKeeps(s.book, ids);
    SweepCancelledReady(cal, s, ids, rule, at, failures);
    SweepFinishHolds(cal, t, rule, at, failures);
  }

  lemma CancelledMilder(cal: Calendar, s: Account, ids: seq<string>)
    ensures OnlyMilder(cal, s, s.(book := CancelEach(s.book, ids)))
  {
    CancelEachBook(s.book, ids);
  }

  lemma SweepCancelledReady(cal: Calendar, s: Account, ids: seq<string>, rule: HoldingRule, at: int, failures: nat)
    requires Holding(cal, s) && s.run == Cancelling(ids, SweepCancelled(rule, at, failures))
    requires KeysOk(CancelEach(s.book, ids))
    ensures var t := s.(book := CancelEach(s.book, ids));
            && SweepReady(cal, t, rule, at, [], failures)
            && (failures == 0 && StillOpen(cal, rule, at, s.now) ==> NoSessionOrders(t, []))
  {
    var t := s.(book := CancelEach(s.book, ids));
    CancelEachBook(s.book, ids);
    HoldingMidway(cal, s);
    CancelledMilder(cal, s, ids);
    MilderIsCalm(cal, s, t, {});
  }

  lemma UntrackHolds(cal: Calendar, s: Account, t: Account)
    requires Holding(cal, s) && Framed(s, t) && t.done == s.done
    ensures Holding(cal, Settle(t, ThenUntrack))
  {
    HoldingMidway(cal, s);
    var u := Settle(t, ThenUntrack);
    EmptyingAfter(cal, s, u);
    WindingHolds(cal, u);
  }

  lemma FailingHolds(cal: Calendar, s: Account, reply: Reply)
    requires Holding(cal, s) && s.run.Failing?
    ensures Holding(cal, Resume(s, reply))
  {
    HoldingMidway(cal, s);
    var t := if reply.ok then s.(fig := s.fig.(status := reply.status, balance := s.book.db.balance)) else s;
    assert forall r :: OpenRule(cal, t, r) <==> OpenRule(cal, s, r);
    CancelAllHolds(cal, t);
  }

  // ----- resuming a close -----

  /** After the ledger call: the position is gone, or (only after a manual close) smaller and no longer closing. */
  lemma ApplyCloseEffect(s: Account, id: nat, plan: ClosePlan, reply: Reply)
    requires Stock(s.book) && !s.book.untracked && id in s.book.positions
    ensures var t := ApplyClose(s, id, plan, reply);
            && Framed(s, t) && t.done == s.done && t.stuck == s.stuck && t.book.pending == s.book.pending
            && KeysOk(t.book)
            && (id in t.book.positions ==> plan.volume < s.book.positions[id].volume && !t.book.positions[id].closing
                                           && t.book.positions[id].symbol == s.book.positions[id].symbol)
            && (forall k :: k in t.book.positions && k != id ==> k in s.book.positions && t.book.positions[k] == s.book.positions[k])
  {
    ApplyCloseRow(s, id, plan, reply);
    ApplyCloseFramed(s, id, plan, reply);
    var b := s.book.(db := RecordClose(s.book.db, id, plan));
    if id in b.db.open && plan.quote.Some? {
      MarkedSame(s.w, b.positions[id].(volume := b.db.open[id].volume, margin := b.db.open[id].margin, closing := false), plan.quote.value);
    }
    if id in s.book.db.open {
      RecordCloseShrinks(s.book.db, id, plan);
    }
  }

  lemma ApplyCloseFramed(s: Account, id: nat, plan: ClosePlan, reply: Reply)
    ensures var t := ApplyClose(s, id, plan, reply);
            Framed(s, t) && t.done == s.done && t.stuck == s.stuck && t.book.pending == s.book.pending
  {
  }

  lemma RecordCloseShrinks(db: Ledger, id: nat, plan: ClosePlan)
    requires id in db.open
    ensures id in RecordClose(db, id, plan).open ==> plan.volume < db.open[id].volume
  {
  }

  lemma EmptyingAfter(cal: Calendar, s: Account, t: Account)
    requires Emptying(cal, s) && Framed(s, t) && t.done == s.done
    requires forall k :: k in t.book.pending ==> k in s.book.pending && t.book.pending[k].symbol == s.book.pending[k].symbol
    ensures Emptying(cal, t)
  {
    assert forall r :: OpenRule(cal, t, r) <==> OpenRule(cal, s, r);
    forall rule | OpenRule(cal, t, rule) ensures CalmQueue(t, rule) {
      assert CalmQueue(s, rule);
    }
  }

  lemma ClosedIsMilder(cal: Calendar, s: Account, t: Account, id: nat)
    requires s.run.Closing? && s.run.pos == id && id in s.book.positions
    requires Framed(s, t) && t.done == s.done && s.stuck <= t.stuck && t.book.pending == s.book.pending
    requires forall k :: k in t.book.positions && k != id ==> k in s.book.positions && t.book.positions[k] == s.book.positions[k]
    requires id in t.book.positions
             ==> t.book.positions[id].symbol == s.book.positions[id].symbol
                 && (t.book.positions[id].closing ==> s.book.positions[id].closing)
                 && (t.book.positions[id].closing || ((exists rule :: OpenRule(cal, s, rule)) ==> !IsSession(s.w, s.book.positions[id].symbol)))
    ensures OnlyMilder(cal, s, t)
  {
  }

  /** Where the sweep goes on: what it had covered stays covered. */
  lemma SweepGoesOn(cal: Calendar, s: Account, t: Account, id: nat, failures: nat)
    requires Holding(cal, s) && s.run.Closing? && s.run.after.SweepMore? && s.run.pos == id && id in s.book.positions
    requires OnlyMilder(cal, s, t) && KeysOk(t.book)
    requires forall k :: k in t.book.positions && k != id ==> k in s.book.positions && t.book.positions[k] == s.book.positions[k]
    requires id in t.book.positions ==> !t.book.positions[id].closing
    requires failures == 0 ==> s.run.after.failures == 0 && id !in t.book.positions
    ensures SweepReady(cal, t, s.run.after.rule, s.run.after.at, s.run.after.todo, failures)
  {
    HoldingMidway(cal, s);
    MilderIsCalm(cal, s, t, {id});
  }

  /** What the piece after a close can rely on; `t` is the account once the close is recorded or given up. */
  ghost predicate AfterOneClose(cal: Calendar, s: Account, t: Account, id: nat) {
    && Emptying(cal, t) && TracedBut(t, {}) && KeysOk(t.book) && (!Winding(s.run) ==> OnlyMilder(cal, s, t))
    && (id in t.book.positions ==> !t.book.positions[id].closing)
    && (forall k :: k in t.book.positions && k != id ==> k in s.book.positions && t.book.positions[k] == s.book.positions[k])
  }

  lemma AfterCloseHolds(cal: Calendar, s: Account, t: Account, id: nat, plan: ClosePlan, after: After, failures: nat)
    requires Holding(cal, s) && s.run == Closing(id, plan, after) && id in s.book.positions
    requires AfterOneClose(cal, s, t, id)
    requires after.SweepMore? ==> failures == after.failures + 1 || (failures == after.failures && id !in t.book.positions)
    ensures after.BreachMore? ==> Holding(cal, CloseAllLoop(t, Some(after.reason), after.todo))
    ensures after.AdminMore? ==> Holding(cal, CloseAllLoop(t, None, after.todo))
    ensures after.SweepMore? ==> Holding(cal, SweepLoop(t, after.rule, after.at, after.todo, failures))
    ensures after.ManualDone? || after.StopDone? ==> Holding(cal, t.(run := Idle))
  {
    match after
    case BreachMore(reason, todo) => CloseAllLoopHolds(cal, t, Some(reason), todo);
    case AdminMore(todo) => CloseAllLoopHolds(cal, t, None, todo);
    case SweepMore(rule, at, todo, _) =>
      SweepGoesOn(cal, s, t, id, failures);
      SweepLoopHolds(cal, t, rule, at, todo, failures);
    case _ => IdleAfterClose(cal, s, t, id);
  }

  lemma IdleAfterClose(cal: Calendar, s: Account, t: Account, id: nat)
    requires Holding(cal, s) && s.run.Closing? && s.run.pos == id && !Winding(s.run) && AfterOneClose(cal, s, t, id)
    ensures Holding(cal, t.(run := Idle))
  {
    MilderHolds(cal, s, t.(run := Idle));
  }

  lemma ClosedTraced(cal: Calendar, s: Account, plan: ClosePlan, reply: Reply)
    requires Holding(cal, s) && Books(s) && s.run.Closing? && plan == s.run.plan
    ensures AfterOneClose(cal, s, ApplyClose(s, s.run.pos, plan, reply), s.run.pos)
    ensures !s.run.after.ManualDone? ==> s.run.pos !in ApplyClose(s, s.run.pos, plan, reply).book.positions
  {
    var id := s.run.pos;
    var t := ApplyClose(s, id, plan, reply);
    ApplyCloseEffect(s, id, plan, reply);
    HoldingMidway(cal, s);
    EmptyingAfter(cal, s, t);
    assert TracedBut(t, {});
    if !Winding(s.run) {
      ClosedIsMilder(cal, s, t, id);
    }
  }

  lemma CloseDoneHolds(cal: Calendar, s: Account, id: nat, plan: ClosePlan, after: After, reply: Reply)
    requires Holding(cal, s) && Books(s) && s.run == Closing(id, plan, after) && reply.ok
    ensures Holding(cal, ResumeClosing(s, id, plan, after, reply))
  {
    var t := ApplyClose(s, id, plan, reply);
    ClosedTraced(cal, s, plan, reply);
    if !CanAutoEvaluate(reply.status) && !KeepsTracked(after) {
      CancelAllHolds(cal, t);
    } else {
      AfterCloseHolds(cal, s, t, id, plan, after, if after.SweepMore? then after.failures else 0);
    }
  }

  lemma ReopenedTraced(cal: Calendar, s: Account)
    requires Holding(cal, s) && Books(s) && s.run.Closing?
    ensures AfterOneClose(cal, s, s.(book := SetClosing(s.book, s.run.pos, false)), s.run.pos) || s.run.after.StopDone?
  {
    var id := s.run.pos;
    var t := s.(book := SetClosing(s.book, id, false));
    HoldingMidway(cal, s);
    ReopenedUntraced(s, id);
    assert KeysOk(t.book) && id in s.book.positions;
    EmptyingAfter(cal, s, t);
    if !Winding(s.run) && !s.run.after.StopDone? {
      ClosedIsMilder(cal, s, t, id);
    }
  }

  lemma ReopenedUntraced(s: Account, id: nat)
    requires TracedBut(s, {id})
    ensures TracedBut(s.(book := SetClosing(s.book, id, false)), {})
  {
  }

  lemma StopFailedHolds(cal: Calendar, s: Account)
    requires Holding(cal, s) && s.run.Closing? && s.run.after.StopDone? && s.run.pos in s.book.positions
    ensures Holding(cal, s.(run := Idle, stuck := s.stuck + {s.run.pos}))
  {
    var u := s.(run := Idle, stuck := s.stuck + {s.run.pos});
    ClosedIsMilder(cal, s, u, s.run.pos);
    MilderHolds(cal, s, u);
  }

  lemma CloseFailedHolds(cal: Calendar, s: Account, id: nat, plan: ClosePlan, after: After)
    requires Holding(cal, s) && Books(s) && s.run == Closing(id, plan, after)
    ensures Holding(cal, CloseFailed(s, id, after))
  {
    if after.StopDone? {
      StopFailedHolds(cal, s);
    } else {
      var t := s.(book := SetClosing(s.book, id, false));
      ReopenedTraced(cal, s);
      AfterCloseHolds(cal, s, t, id, plan, after, if after.SweepMore? then after.failures + 1 else 0);
      CloseFailedShape(s, id, after);
    }
  }

  lemma CloseFailedShape(s: Account, id: nat, after: After)
    ensures var t, u := s.(book := SetClosing(s.book, id, false)), CloseFailed(s, id, after);
            && (after.BreachMore? ==> u == CloseAllLoop(t, Some(after.reason), after.todo))
            && (after.AdminMore? ==> u == CloseAllLoop(t, None, after.todo))
            && (after.SweepMore? ==> u == SweepLoop(t, after.rule, after.at, after.todo, after.failures + 1))
            && (after.ManualDone? ==> u == t.(run := Idle))
  {
  }

  lemma ResumeKeepsHolding(cal: Calendar, s: Account, reply: Reply)
    requires Holding(cal, s) && Books(s)
    ensures Holding(cal, Resume(s, reply))
  {
    match s.run
    case Idle =>
    case Opening(m, volume, price, margin) => ResumeOpeningHolds(cal, s, m, volume, price, margin, reply.ok);
    case Resting(o) => ResumeRestingHolds(cal, s, o, reply.ok);
    case Filling(o, price, margin) => ResumeFillingHolds(cal, s, o, price, margin, reply.ok);
    case Closing(id, plan, after) =>
      if reply.ok {
        CloseDoneHolds(cal, s, id, plan, after, reply);
      } else {
        CloseFailedHolds(cal, s, id, plan, after);
      }
    case Cancelling(ids, next) => ResumeCancellingHolds(cal, s, ids, next);
    case Flushing(reason) =>
      HoldingMidway(cal, s);
      CloseAllLoopHolds(cal, s, Some(reason), s.book.posOrder);
    case Failing(reason) => FailingHolds(cal, s, reply);
    case Anchoring =>
      HoldingMidway(cal, s);
      IdleStepHolds(cal, s, Resume(s, reply));
    case Modifying(id, sl, tp) => ModifyHolds(cal, s, reply);
  }

  lemma ModifyHolds(cal: Calendar, s: Account, reply: Reply)
    requires Holding(cal, s) && s.run.Modifying?
    ensures Holding(cal, Resume(s, reply))
  {
    ModifyMilder(cal, s, reply);
    MilderHolds(cal, s, Resume(s, reply));
  }

  lemma ModifyMilder(cal: Calendar, s: Account, reply: Reply)
    requires s.run.Modifying?
    ensures OnlyMilder(cal, s, Resume(s, reply))
  {
  }

  // ----- whole runs -----

  lemma EventKeepsCatalogue(cal: Calendar, s: Account, e: Event)
    requires !e.MarketChanged?
    ensures OnEvent(cal, s, e).w.instruments == s.w.instruments
  {
  }

  lemma BeginKeepsCatalogue(cal: Calendar, s: Account)
    ensures Begin(cal, s).w == s.w
  {
  }

  lemma ResumeKeepsCatalogue(s: Account, reply: Reply)
    ensures Resume(s, reply).w == s.w
  {
  }

  lemma StepKeepsCatalogue(cal: Calendar, s: Account, step: Step)
    requires step.Happened? ==> !step.event.MarketChanged?
    ensures Next(cal, s, step).w.instruments == s.w.instruments
  {
    match step
    case Happened(e) => EventKeepsCatalogue(cal, s, e);
    case Began => BeginKeepsCatalogue(cal, s);
    case Resumed(reply) => ResumeKeepsCatalogue(s, reply);
  }

  /** A catalogue change keeps the holding invariant exactly when it is tame; every other step always does. */
  lemma StepHoldsIff(cal: Calendar, s: Account, step: Step)
    requires Holding(cal, s) && Books(s) && Stays(cal)
    ensures Holding(cal, Next(cal, s, step)) <==> TameStep(cal, s, Next(cal, s, step))
  {
    match step
    case Happened(e) =>
      if e.MarketChanged? {
        CatalogueHoldsIff(cal, s, e.w);
      } else {
        EventKeepsHolding(cal, s, e);
        StepKeepsCatalogue(cal, s, step);
      }
    case Began =>
      BeginKeepsHolding(cal, s);
      StepKeepsCatalogue(cal, s, step);
    case Resumed(reply) =>
      ResumeKeepsHolding(cal, s, reply);
      StepKeepsCatalogue(cal, s, step);
  }

  ghost predicate HoldsThroughout(cal: Calendar, s: Account, steps: seq<Step>) {
    Holding(cal, Run(cal, s, steps)) && (steps != [] ==> HoldsThroughout(cal, s, steps[..|steps| - 1]))
  }

  /** Over any run the holding invariant holds at every moment exactly when every catalogue change is tame. */
  lemma {:induction false} RunHoldsIff(cal: Calendar, s: Account, steps: seq<Step>)
    requires Holding(cal, s) && Books(s) && Stays(cal)
    ensures HoldsThroughout(cal, s, steps) <==> TameRun(cal, s, steps)
  {
    if steps != [] {
      var front := steps[..|steps| - 1];
      RunHoldsIff(cal, s, front);
      RunKeepsBooks(cal, s, front);
      if HoldsThroughout(cal, s, front) {
        StepHoldsIff(cal, Run(cal, s, front), steps[|steps| - 1]);
      }
    }
  }
}
