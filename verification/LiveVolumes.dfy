/**
 * Volumes over whole runs: with steps of whole hundredths, every open position and every resting
 * order keeps a volume its instrument accepts, however it is closed in parts.
 */
module LiveVolumes {
  import opened Options
  import opened TradingMath
  import opened ChallengeRules
  import opened Live
  import opened LiveBooks
  import opened LiveHolding
  import opened LiveFrames
  import opened LiveSafety

  type Catalogue = map<string, VolumeRule>

  predicate Conforming(cat: Catalogue) {
    forall symbol :: symbol in cat ==> WholeHundredths(TradingMath.Step(cat[symbol]))
  }

  /** Loaded instruments have the volume rules of the catalogue. */
  predicate Lists(cat: Catalogue, w: World) {
    forall symbol :: symbol in w.instruments ==> symbol in cat && w.instruments[symbol].volume == cat[symbol]
  }

  ghost predicate ListedRun(cat: Catalogue, cal: Calendar, s: Account, steps: seq<Step>) {
    && Lists(cat, Run(cal, s, steps).w)
    && (steps == [] || ListedRun(cat, cal, s, steps[..|steps| - 1]))
  }

  predicate Valid(cat: Catalogue, symbol: string, volume: int) {
    symbol in cat && ValidateVolume(Lots(volume), cat[symbol]).None?
  }

  // ----- accepted volumes -----

  /** An accepted request is stored unrounded. */
  lemma AcceptedIsValid(cat: Catalogue, symbol: string, requested: real)
    requires Conforming(cat) && symbol in cat && ValidateVolume(requested, cat[symbol]).None?
    ensures Lots(RoundVolume(requested)) == requested && Valid(cat, symbol, RoundVolume(requested))
  {
    RoundVolumeExact(requested, TradingMath.Step(cat[symbol]));
  }

  lemma LotsMinus(a: int, b: int)
    ensures Lots(a) - Lots(b) == Lots(a - b)
  {
  }

  // ----- the invariant -----

  ghost predicate HeldValid(cat: Catalogue, b: Book) {
    && (forall id :: id in b.positions ==> Valid(cat, b.positions[id].symbol, b.positions[id].volume))
    && (forall id :: id in b.pending ==> Valid(cat, b.pending[id].symbol, b.pending[id].volume))
  }

  ghost predicate QueueValid(cat: Catalogue, queue: seq<Queued>) {
    forall i :: 0 <= i < |queue| && queue[i].op.TriggerOrder? ==> Valid(cat, queue[i].op.order.symbol, queue[i].op.order.volume)
  }

  /** A close in flight takes the whole position, or leaves a volume that stands on its own. */
  ghost predicate PlanValid(cat: Catalogue, p: Position, plan: ClosePlan) {
    plan.volume == p.volume || (0 < plan.volume < p.volume && Valid(cat, p.symbol, plan.volume) && Valid(cat, p.symbol, p.volume - plan.volume))
  }

  ghost predicate RunValid(cat: Catalogue, b: Book, run: Running) {
    match run
    case Opening(m, volume, _, _) => Valid(cat, m.symbol, volume)
    case Resting(o) => Valid(cat, o.symbol, o.volume)
    case Filling(o, _, _) => Valid(cat, o.symbol, o.volume)
    case Closing(id, plan, _) => id in b.positions ==> PlanValid(cat, b.positions[id], plan)
    case _ => true
  }

  ghost predicate Volumes(cat: Catalogue, s: Account) {
    HeldValid(cat, s.book) && QueueValid(cat, s.queue) && RunValid(cat, s.book, s.run)
  }

  // ----- events -----

  lemma SameBookValid(cat: Catalogue, b: Book, c: Book, run: Running)
    requires SameBook(b, c) && HeldValid(cat, b)
    ensures HeldValid(cat, c)
    ensures RunValid(cat, b, run) ==> RunValid(cat, c, run)
  {
  }

  lemma {:induction false} TickPositionsQueue(cat: Catalogue, s: Account, symbol: string, q: Quote, ids: seq<nat>)
    requires QueueValid(cat, s.queue)
    ensures QueueValid(cat, TickPositions(s, symbol, q, ids).queue)
    decreases |ids|
  {
    if ids != [] {
      TickPositionsQueue(cat, TickPosition(s, symbol, q, ids[0]), symbol, q, ids[1..]);
    }
  }

  lemma {:induction false} TickOrdersQueue(cat: Catalogue, cal: Calendar, s: Account, symbol: string, q: Quote, ids: seq<string>)
    requires QueueValid(cat, s.queue) && HeldValid(cat, s.book)
    ensures QueueValid(cat, TickOrders(cal, s, symbol, q, ids).queue)
    decreases |ids|
  {
    if ids != [] {
      SetTriggeringSame(s.book, ids[0], true);
      TickOrdersQueue(cat, cal, TickOrder(cal, s, symbol, q, ids[0]), symbol, q, ids[1..]);
    }
  }

  lemma TickQueue(cat: Catalogue, cal: Calendar, s: Account, symbol: string, q: Quote, w: World)
    requires QueueValid(cat, s.queue) && HeldValid(cat, s.book)
    ensures QueueValid(cat, Tick(cal, s, symbol, q, w).queue)
  {
    var s1 := s.(w := Quoted(s.w, symbol, q, w));
    TickPositionsQueue(cat, s1, symbol, q, s1.book.posOrder);
    TickPositionsQuiet(s1, symbol, q, s1.book.posOrder);
    var s2 := TickPositions(s1, symbol, q, s1.book.posOrder);
    SameBookValid(cat, s1.book, s2.book, s.run);
    TickOrdersQueue(cat, cal, s2, symbol, q, s2.book.ordOrder);
  }

  lemma EventKeepsVolumes(cat: Catalogue, cal: Calendar, s: Account, e: Event)
    requires Volumes(cat, s) && Books(s)
    ensures Volumes(cat, OnEvent(cal, s, e))
  {
    match e
    case Ticked(symbol, q, w) =>
      EventQuiet(cal, s, e);
      SameBookValid(cat, s.book, OnEvent(cal, s, e).book, s.run);
      TickQueue(cat, cal, s, symbol, q, w);
    case RowReloaded(row, rows) => MergeRowThins(s, row, rows);
    case _ =>
  }

  // ----- operations -----

  lemma {:induction false} SweepLoopValid(cat: Catalogue, s: Account, rule: HoldingRule, at: int, todo: seq<nat>, failures: nat)
    requires HeldValid(cat, s.book)
    ensures var t := SweepLoop(s, rule, at, todo, failures); HeldValid(cat, t.book) && RunValid(cat, t.book, t.run)
    decreases |todo|
  {
    if todo != [] {
      SweepLoopValid(cat, s, rule, at, todo[1..], failures);
      SweepLoopValid(cat, s, rule, at, todo[1..], failures + 1);
    }
  }

  lemma {:induction false} CloseAllLoopValid(cat: Catalogue, s: Account, reason: Option<FailureReason>, todo: seq<nat>)
    requires HeldValid(cat, s.book)
    ensures var t := CloseAllLoop(s, reason, todo); HeldValid(cat, t.book) && RunValid(cat, t.book, t.run)
    decreases |todo|
  {
    if todo != [] {
      CloseAllLoopValid(cat, s, reason, todo[1..]);
      CloseAllLoopValid(cat, s.(book := SetClosing(s.book, todo[0], false)), reason, todo[1..]);
    }
  }

  lemma BeginPlaceValid(cat: Catalogue, cal: Calendar, s: Account, m: OrderMsg)
    requires HeldValid(cat, s.book) && Conforming(cat) && Lists(cat, s.w) && s.run.Idle?
    ensures var t := BeginPlace(cal, s, m); HeldValid(cat, t.book) && RunValid(cat, t.book, t.run)
  {
    var v := CheckOrder(cal, s, m);
    if !v.Refused? {
      assert AcceptedOrder(cal, s, m, v);
      AcceptedIsValid(cat, m.symbol, m.volume);
    }
  }

  lemma PartialValid(cat: Catalogue, s: Account, p: Position, requested: Option<real>)
    requires Conforming(cat) && Lists(cat, s.w) && p.symbol in s.w.instruments && Valid(cat, p.symbol, p.volume)
    ensures var v := CloseVolume(s, p, requested);
            v.Some? ==> v.value == p.volume
                        || (0 < v.value < p.volume && Valid(cat, p.symbol, v.value) && Valid(cat, p.symbol, p.volume - v.value))
  {
    var v := CloseVolume(s, p, requested);
    if v.Some? && v.value != p.volume {
      assert AcceptedPartial(s, p, requested, v.value);
      AcceptedIsValid(cat, p.symbol, requested.value);
      LotsMinus(p.volume, v.value);
    }
  }

  lemma BeginCloseValid(cat: Catalogue, s: Account, id: nat, requested: Option<real>)
    requires HeldValid(cat, s.book) && Conforming(cat) && Lists(cat, s.w) && s.run.Idle?
    ensures var t := BeginClose(s, id, requested); HeldValid(cat, t.book) && RunValid(cat, t.book, t.run)
  {
    if id in s.book.positions && s.book.positions[id].symbol in s.w.instruments {
      PartialValid(cat, s, s.book.positions[id], requested);
    }
  }

  lemma PerformValid(cat: Catalogue, cal: Calendar, s: Account, q: Queued)
    requires HeldValid(cat, s.book) && Conforming(cat) && Lists(cat, s.w) && s.run.Idle? && QueueValid(cat, [q])
    ensures var t := Perform(cal, s, q); HeldValid(cat, t.book) && RunValid(cat, t.book, t.run)
  {
    match q.op
    case Client(command) => ClientValid(cat, cal, s, command, q.at);
    case TriggerOrder(o, quote) =>
      assert [q][0] == q;
      BeginTriggerShape(s, o, quote);
    case Sweep(rule) => SweepLoopValid(cat, s, rule, q.at, s.book.posOrder, 0);
    case CloseAll => CloseAllLoopValid(cat, s, None, s.book.posOrder);
    case StopClose(id, price) => BeginStopValid(cat, s, id, price);
    case _ =>
  }

  lemma BeginStopValid(cat: Catalogue, s: Account, id: nat, price: real)
    requires HeldValid(cat, s.book) && s.run.Idle?
    ensures var t := BeginStop(s, id, price); HeldValid(cat, t.book) && RunValid(cat, t.book, t.run)
  {
  }

  lemma ClientValid(cat: Catalogue, cal: Calendar, s: Account, command: Command, at: int)
    requires HeldValid(cat, s.book) && Conforming(cat) && Lists(cat, s.w) && s.run.Idle?
    ensures var t := Perform(cal, s, Queued(Client(command), at)); HeldValid(cat, t.book) && RunValid(cat, t.book, t.run)
  {
    match command
    case PlaceOrder(m) => BeginPlaceValid(cat, cal, s, m);
    case ClosePosition(id, volume) => BeginCloseValid(cat, s, id, volume);
    case ModifyPosition(id, sl, tp) =>
  }

  lemma BeginKeepsVolumes(cat: Catalogue, cal: Calendar, s: Account)
    requires Volumes(cat, s) && Conforming(cat) && Lists(cat, s.w)
    ensures Volumes(cat, Begin(cal, s))
  {
    if s.run.Idle? && s.queue != [] {
      var t := s.(queue := s.queue[1..]);
      assert forall i :: 0 <= i < |t.queue| ==> t.queue[i] == s.queue[i + 1];
      PerformConfined(cal, t, s.queue[0]);
      PerformValid(cat, cal, t, s.queue[0]);
    }
  }

  // ----- resuming -----

  lemma FilledValid(cat: Catalogue, w: World, b: Book, p: Position)
    requires HeldValid(cat, b) && Valid(cat, p.symbol, p.volume)
    ensures HeldValid(cat, Opened(w, b, p))
  {
    if p.symbol in w.quotes {
      MarkedSame(w, p, w.quotes[p.symbol]);
    }
  }

  lemma OpeningValid(cat: Catalogue, s: Account, m: OrderMsg, volume: int, price: real, margin: int, ok: bool)
    requires HeldValid(cat, s.book) && Valid(cat, m.symbol, volume)
    ensures HeldValid(cat, ResumeOpening(s, m, volume, price, margin, ok).book)
  {
    var p := NewPosition(s.book.db.nextId, m.symbol, m.side, volume, price, m.stopLoss, m.takeProfit, margin);
    FilledValid(cat, s.w, s.book.(db := RecordOpen(s.book.db, p, m.id)), p);
  }

  lemma FillingValid(cat: Catalogue, s: Account, o: Pending, price: real, margin: int, ok: bool)
    requires HeldValid(cat, s.book) && Valid(cat, o.symbol, o.volume)
    ensures HeldValid(cat, ResumeFilling(s, o, price, margin, ok).book)
  {
    var p := NewPosition(s.book.db.nextId, o.symbol, o.side, o.volume, price, o.stopLoss, o.takeProfit, margin);
    FilledValid(cat, s.w, FillOrder(s.book, o.id, p), p);
  }

  /** What a partial close leaves behind was checked when it was accepted. */
  lemma ClosedValid(cat: Catalogue, s: Account, id: nat, plan: ClosePlan, reply: Reply)
    requires HeldValid(cat, s.book) && Stock(s.book) && !s.book.untracked && id in s.book.positions
    requires PlanValid(cat, s.book.positions[id], plan)
    ensures HeldValid(cat, ApplyClose(s, id, plan, reply).book)
  {
    ApplyCloseRow(s, id, plan, reply);
    if id in s.book.db.open {
      RecordCloseLeaves(s.book.db, id, plan);
    }
  }

  lemma RecordCloseLeaves(db: Ledger, id: nat, plan: ClosePlan)
    requires id in db.open && plan.volume >= 0
    ensures var c := RecordClose(db, id, plan).open;
            id in c ==> c[id].volume == db.open[id].volume - plan.volume && plan.volume < db.open[id].volume
                        && c[id].symbol == db.open[id].symbol
  {
  }

  lemma AfterCloseValid(cat: Catalogue, s: Account, after: After)
    requires HeldValid(cat, s.book)
    ensures var t := AfterClose(s, after); HeldValid(cat, t.book) && RunValid(cat, t.book, t.run)
  {
    match after
    case SweepMore(rule, at, todo, failures) => SweepLoopValid(cat, s, rule, at, todo, failures);
    case BreachMore(reason, todo) => CloseAllLoopValid(cat, s, Some(reason), todo);
    case AdminMore(todo) => CloseAllLoopValid(cat, s, None, todo);
    case _ =>
  }

  lemma CancelAllValid(cat: Catalogue, s: Account)
    requires HeldValid(cat, s.book)
    ensures var t := CancelThen(s, s.book.ordOrder, ThenUntrack); HeldValid(cat, t.book) && RunValid(cat, t.book, t.run)
  {
  }

  lemma CloseFailedValid(cat: Catalogue, s: Account, id: nat, after: After)
    requires HeldValid(cat, s.book)
    ensures var t := CloseFailed(s, id, after); HeldValid(cat, t.book) && RunValid(cat, t.book, t.run)
  {
    var t := s.(book := SetClosing(s.book, id, false));
    CloseFailedShape(s, id, after);
    match after
    case SweepMore(rule, at, todo, failures) => SweepLoopValid(cat, t, rule, at, todo, failures + 1);
    case BreachMore(reason, todo) => CloseAllLoopValid(cat, t, Some(reason), todo);
    case AdminMore(todo) => CloseAllLoopValid(cat, t, None, todo);
    case _ =>
  }

  lemma ClosingValid(cat: Catalogue, s: Account, id: nat, plan: ClosePlan, after: After, reply: Reply)
    requires Volumes(cat, s) && Books(s) && s.run == Closing(id, plan, after)
    ensures var t := ResumeClosing(s, id, plan, after, reply); HeldValid(cat, t.book) && RunValid(cat, t.book, t.run)
  {
    if reply.ok {
      ClosedValid(cat, s, id, plan, reply);
      var d := ApplyClose(s, id, plan, reply);
      AfterCloseValid(cat, d, after);
      CancelAllValid(cat, d);
    } else {
      CloseFailedValid(cat, s, id, after);
    }
  }

  lemma CancellingValid(cat: Catalogue, s: Account, ids: seq<string>, next: AfterCancel)
    requires HeldValid(cat, s.book)
    ensures var t := Settle(s.(book := CancelEach(s.book, ids)), next); HeldValid(cat, t.book) && RunValid(cat, t.book, t.run)
  {
    CancelEachBook(s.book, ids);
  }

  lemma ResumeKeepsVolumes(cat: Catalogue, s: Account, reply: Reply)
    requires Volumes(cat, s) && Books(s)
    ensures Volumes(cat, Resume(s, reply))
  {
    ResumeAdmits(s, reply);
    ResumeValid(cat, s, reply);
  }

  lemma ResumeValid(cat: Catalogue, s: Account, reply: Reply)
    requires Volumes(cat, s) && Books(s)
    ensures var t := Resume(s, reply); HeldValid(cat, t.book) && RunValid(cat, t.book, t.run)
  {
    match s.run
    case Opening(m, volume, price, margin) =>
      OpeningValid(cat, s, m, volume, price, margin, reply.ok);
      OpeningAdmits(s, m, volume, price, margin, reply.ok);
    case Filling(o, price, margin) =>
      FillingValid(cat, s, o, price, margin, reply.ok);
      FillingAdmits(s, o, price, margin, reply.ok);
    case Closing(id, plan, after) => ClosingValid(cat, s, id, plan, after, reply);
    case Flushing(reason) => CloseAllLoopValid(cat, s, Some(reason), s.book.posOrder);
    case Cancelling(ids, next) => CancellingValid(cat, s, ids, next);
    case _ => RestValid(cat, s, reply);
  }

  lemma RestValid(cat: Catalogue, s: Account, reply: Reply)
    requires Volumes(cat, s) && Books(s)
    requires s.run.Idle? || s.run.Resting? || s.run.Failing? || s.run.Anchoring? || s.run.Modifying?
    ensures var t := Resume(s, reply); HeldValid(cat, t.book) && RunValid(cat, t.book, t.run)
  {
  }

  // ----- whole runs -----

  lemma {:induction false} RunKeepsVolumes(cat: Catalogue, cal: Calendar, s: Account, steps: seq<Step>)
    requires Conforming(cat) && ListedRun(cat, cal, s, steps) && Volumes(cat, s) && Books(s)
    ensures Volumes(cat, Run(cal, s, steps))
  {
    if steps != [] {
      var front := steps[..|steps| - 1];
      RunKeepsVolumes(cat, cal, s, front);
      RunKeepsBooks(cal, s, front);
      var t := Run(cal, s, front);
      assert Lists(cat, t.w);
      match steps[|steps| - 1]
      case Happened(e) => EventKeepsVolumes(cat, cal, t, e);
      case Began => BeginKeepsVolumes(cat, cal, t);
      case Resumed(reply) => ResumeKeepsVolumes(cat, t, reply);
    }
  }

  /** From a load on, every held volume stays one that its instrument accepts. */
  lemma VolumesStayValid(cat: Catalogue, cal: Calendar, s: Account, steps: seq<Step>)
    requires Conforming(cat) && ListedRun(cat, cal, s, steps) && Fresh(s) && HeldValid(cat, s.book)
    ensures HeldValid(cat, Run(cal, s, steps).book)
  {
    FreshHolds(cal, s);
    RunKeepsVolumes(cat, cal, s, steps);
  }
}
