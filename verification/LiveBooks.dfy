/**
 * What every step keeps about the books of an account: memory holds every OPEN row and otherwise
 * only rows closed elsewhere, volumes are conserved, no position is closed twice, the position
 * limit holds, and no order has two outcomes.
 */
module LiveBooks {
  import opened Options
  import opened Money
  import opened TradingMath
  import opened ChallengeRules
  import opened Sessions
  import opened DailyReset
  import opened Live

  // ----- the ledger -----

  function ClosedVolume(trades: seq<Trade>, id: nat): int {
    if trades == [] then 0
    else
      var t := trades[|trades| - 1];
      ClosedVolume(trades[..|trades| - 1], id) + if t.pos == id then t.volume else 0
  }

  function FullCloses(trades: seq<Trade>, id: nat): nat {
    if trades == [] then 0
    else
      var t := trades[|trades| - 1];
      FullCloses(trades[..|trades| - 1], id) + if t.pos == id && t.full then 1 else 0
  }

  function OpenVolume(db: Ledger, id: nat): int { if id in db.open then db.open[id].volume else 0 }

  function VoidedVolume(db: Ledger, id: nat): int { if id in db.voided then db.voided[id] else 0 }

  /** A position ends in one way: by a full close, or elsewhere. */
  ghost predicate Conserved(db: Ledger, id: nat)
    requires id in db.lots
  {
    && ClosedVolume(db.trades, id) + OpenVolume(db, id) + VoidedVolume(db, id) == db.lots[id]
    && FullCloses(db.trades, id) == if id in db.open || id in db.voided then 0 else 1
  }

  ghost predicate LedgerOk(db: Ledger) {
    && (forall id :: id in db.open ==> id in db.lots && id !in db.voided && db.open[id].id == id && db.open[id].volume >= 0)
    && (forall id :: id in db.voided ==> id in db.lots)
    && (forall id :: id in db.lots ==> id < db.nextId && Conserved(db, id))
    && (forall t :: t in db.trades ==> t.pos in db.lots)
  }

  lemma AppendTrade(trades: seq<Trade>, t: Trade, id: nat)
    ensures ClosedVolume(trades + [t], id) == ClosedVolume(trades, id) + (if t.pos == id then t.volume else 0)
    ensures FullCloses(trades + [t], id) == FullCloses(trades, id) + (if t.pos == id && t.full then 1 else 0)
  {
    assert (trades + [t])[..|trades|] == trades;
  }

  lemma NoTradesYet(trades: seq<Trade>, id: nat)
    requires forall t :: t in trades ==> t.pos != id
    ensures ClosedVolume(trades, id) == 0 && FullCloses(trades, id) == 0
  {
  }

  lemma RecordCloseKeepsLedger(db: Ledger, id: nat, plan: ClosePlan)
    requires LedgerOk(db) && plan.volume >= 0
    ensures LedgerOk(RecordClose(db, id, plan))
  {
    if id in db.open {
      var db2 := RecordClose(db, id, plan);
      var t := db2.trades[|db2.trades| - 1];
      forall k | k in db2.lots ensures k < db2.nextId && Conserved(db2, k) {
        assert Conserved(db, k);
        AppendTrade(db.trades, t, k);
      }
    }
  }

  lemma RecordOpenKeepsLedger(db: Ledger, p: Position, order: string)
    requires LedgerOk(db) && p.id == db.nextId && p.volume >= 0
    ensures LedgerOk(RecordOpen(db, p, order))
  {
    var db2 := RecordOpen(db, p, order);
    NoTradesYet(db.trades, p.id);
    forall k | k in db2.lots ensures k < db2.nextId && Conserved(db2, k) {
      if k != p.id {
        assert Conserved(db, k);
      }
    }
  }

  /** Rows closed elsewhere take their volume with them, and a balance may move. */
  lemma CloseElsewhereKeepsLedger(db: Ledger, closed: set<nat>, credit: int)
    requires LedgerOk(db)
    ensures LedgerOk(CloseElsewhere(db, closed, credit))
  {
    var db2 := CloseElsewhere(db, closed, credit);
    forall k | k in db2.lots ensures k < db2.nextId && Conserved(db2, k) {
      assert Conserved(db, k);
    }
  }

  // ----- memory -----

  ghost predicate KeysOk(b: Book) {
    && (forall id :: id in b.positions ==> b.positions[id].id == id && id in b.posOrder && b.positions[id].volume >= 0)
    && (forall id :: id in b.posOrder ==> id in b.positions)
    && (forall id :: id in b.pending ==> b.pending[id].id == id && id in b.ordOrder && b.pending[id].volume >= 0)
    && (forall id :: id in b.ordOrder ==> id in b.pending)
    && NoRepeats(b.ordOrder) && NoRepeats(b.posOrder)
  }

  /** Memory holds every OPEN row; whatever else it holds was closed elsewhere. */
  ghost predicate Mirrors(b: Book) {
    && (forall id :: id in b.db.open ==> id in b.positions && SamePosition(b.db.open[id], b.positions[id]))
    && (forall id :: id in b.positions ==> id in b.db.open || id in b.db.voided)
  }

  function StatusOf(f: Final): OrderStatus { if f.Filled? then OrderFilled else OrderCancelled }

  /** An order that was reported is settled for good; one that rests is PENDING and unreported. */
  ghost predicate OrdersOk(b: Book) {
    && (forall id :: id in b.pending ==> id in b.db.orders && b.db.orders[id].OrderPending?)
    && (forall i :: 0 <= i < |b.results|
                    ==> b.results[i].0 in b.db.orders && b.db.orders[b.results[i].0] == StatusOf(b.results[i].1))
    && (forall i, j :: 0 <= i < j < |b.results| ==> b.results[i].0 != b.results[j].0)
  }

  /** While the account is tracked its memory mirrors the rows; afterwards it is empty. */
  ghost predicate Stock(b: Book) {
    && KeysOk(b) && LedgerOk(b.db) && OrdersOk(b)
    && if b.untracked then b.positions == map[] && b.pending == map[] else Mirrors(b)
  }

  function Held(b: Book): int { |b.positions| + |b.pending| }

  function InFlight(run: Running): int { if run.Opening? || run.Resting? then 1 else 0 }

  ghost predicate WithinLimit(rules: Rules, b: Book, more: int) {
    rules.maxPositions.Some? && rules.maxPositions.value > 0 ==> Held(b) + more <= rules.maxPositions.value
  }

  ghost predicate RunOk(b: Book, run: Running) {
    match run
    case Opening(m, volume, price, margin) => volume >= 0 && !b.untracked
    case Resting(o) => o.volume >= 0 && !b.untracked
    case Filling(o, price, margin) => !b.untracked && o.id in b.pending && o.volume >= 0
    case Closing(id, plan, after) => !b.untracked && id in b.positions && b.positions[id].closing && plan.volume >= 0
    case Cancelling(ids, next) => NoRepeats(ids) && forall id :: id in ids ==> id in b.pending
    case _ => true
  }

  ghost predicate QueueOk(queue: seq<Queued>) {
    forall i :: 0 <= i < |queue| && queue[i].op.TriggerOrder? ==> queue[i].op.order.volume >= 0
  }

  ghost predicate Books(s: Account) {
    Stock(s.book) && RunOk(s.book, s.run) && QueueOk(s.queue) && WithinLimit(s.rules, s.book, InFlight(s.run))
  }

  /** The books between two pieces of an operation. */
  ghost predicate Between(s: Account) {
    Stock(s.book) && QueueOk(s.queue) && WithinLimit(s.rules, s.book, 0)
  }

  // ----- changes of flags and marks only -----

  ghost predicate SamePosition(p: Position, q: Position) {
    q.id == p.id && q.volume == p.volume && q.symbol == p.symbol
  }

  /** Only marks, stops and flags may differ. */
  ghost predicate SameBook(b: Book, c: Book) {
    && c.db == b.db && c.results == b.results && c.untracked == b.untracked
    && c.posOrder == b.posOrder && c.ordOrder == b.ordOrder
    && c.positions.Keys == b.positions.Keys && c.pending.Keys == b.pending.Keys
    && (forall id :: id in b.positions ==> SamePosition(b.positions[id], c.positions[id]))
    && (forall id :: id in b.pending ==> c.pending[id] == b.pending[id].(triggering := c.pending[id].triggering))
  }

  ghost predicate StaysClosing(b: Book, c: Book) {
    forall id :: id in b.positions && id in c.positions && b.positions[id].closing ==> c.positions[id].closing
  }

  lemma SameBookTrans(b: Book, c: Book, d: Book)
    requires SameBook(b, c) && SameBook(c, d)
    ensures SameBook(b, d)
    ensures StaysClosing(b, c) && StaysClosing(c, d) ==> StaysClosing(b, d)
  {
    if StaysClosing(b, c) && StaysClosing(c, d) {
      forall id | id in b.positions && id in d.positions && b.positions[id].closing ensures d.positions[id].closing {
        assert c.positions[id].closing;
      }
    }
  }

  lemma KeysSameSize<K, V>(m: map<K, V>, n: map<K, V>)
    requires m.Keys == n.Keys
    ensures |m| == |n|
  {
    assert |m| == |m.Keys| && |n| == |n.Keys|;
  }

  lemma SameBookKeeps(b: Book, c: Book)
    requires Stock(b) && SameBook(b, c)
    ensures Stock(c) && Held(c) == Held(b)
  {
    KeysSameSize(b.positions, c.positions);
    KeysSameSize(b.pending, c.pending);
  }

  lemma SameBookRun(b: Book, c: Book, run: Running)
    requires SameBook(b, c) && StaysClosing(b, c) && RunOk(b, run)
    ensures RunOk(c, run)
  {
  }

  lemma PutSame(b: Book, id: nat, p: Position)
    requires id in b.positions && SamePosition(b.positions[id], p)
    ensures SameBook(b, PutPosition(b, id, p))
    ensures (b.positions[id].closing ==> p.closing) ==> StaysClosing(b, PutPosition(b, id, p))
  {
  }

  lemma SetTriggeringSame(b: Book, id: string, triggering: bool)
    ensures SameBook(b, SetTriggering(b, id, triggering)) && StaysClosing(b, SetTriggering(b, id, triggering))
  {
  }

  /** An event may change flags, marks, figures and the tail of the queue. */
  ghost predicate Quietly(s: Account, t: Account) {
    && SameBook(s.book, t.book) && StaysClosing(s.book, t.book)
    && t.rules == s.rules && t.run == s.run && (QueueOk(s.queue) ==> QueueOk(t.queue))
  }

  lemma QuietlyKeeps(s: Account, t: Account)
    requires Books(s) && Quietly(s, t)
    ensures Books(t)
  {
    SameBookKeeps(s.book, t.book);
    SameBookRun(s.book, t.book, s.run);
  }

  lemma QuietlyTrans(s: Account, t: Account, u: Account)
    requires Quietly(s, t) && Quietly(t, u)
    ensures Quietly(s, u)
  {
    SameBookTrans(s.book, t.book, u.book);
  }

  // ----- events -----

  lemma TickPositionQuiet(s: Account, symbol: string, q: Quote, id: nat)
    ensures Quietly(s, TickPosition(s, symbol, q, id))
  {
    if id in s.book.positions && s.book.positions[id].symbol == symbol {
      var p := Marked(s.w, s.book.positions[id], q);
      PutSame(s.book, id, p);
      PutSame(s.book, id, p.(closing := true));
    }
  }

  lemma {:induction false} TickPositionsQuiet(s: Account, symbol: string, q: Quote, ids: seq<nat>)
    ensures Quietly(s, TickPositions(s, symbol, q, ids))
    decreases |ids|
  {
    if ids != [] {
      var s1 := TickPosition(s, symbol, q, ids[0]);
      TickPositionQuiet(s, symbol, q, ids[0]);
      TickPositionsQuiet(s1, symbol, q, ids[1..]);
      QuietlyTrans(s, s1, TickPositions(s1, symbol, q, ids[1..]));
    }
  }

  lemma TickOrderQuiet(cal: Calendar, s: Account, symbol: string, q: Quote, id: string)
    requires KeysOk(s.book)
    ensures Quietly(s, TickOrder(cal, s, symbol, q, id))
    ensures KeysOk(TickOrder(cal, s, symbol, q, id).book)
  {
    SetTriggeringSame(s.book, id, true);
  }

  lemma {:induction false} TickOrdersQuiet(cal: Calendar, s: Account, symbol: string, q: Quote, ids: seq<string>)
    requires KeysOk(s.book)
    ensures Quietly(s, TickOrders(cal, s, symbol, q, ids))
    decreases |ids|
  {
    if ids != [] {
      var s1 := TickOrder(cal, s, symbol, q, ids[0]);
      TickOrderQuiet(cal, s, symbol, q, ids[0]);
      TickOrdersQuiet(cal, s1, symbol, q, ids[1..]);
      QuietlyTrans(s, s1, TickOrders(cal, s1, symbol, q, ids[1..]));
    }
  }

  lemma SameBookRefl(b: Book)
    ensures SameBook(b, b) && StaysClosing(b, b)
  {
  }

  lemma EnqueueQuiet(s: Account, t: Account)
    requires t.book == s.book && t.rules == s.rules && t.run == s.run
    requires t.queue == s.queue || exists op: Op, at :: !op.TriggerOrder? && t.queue == s.queue + [Queued(op, at)]
    ensures Quietly(s, t)
  {
    SameBookRefl(s.book);
  }

  lemma TickDoneQuiet(s: Account, touched: bool)
    ensures Quietly(s, TickDone(s, touched))
    ensures TickDone(s, touched).book == s.book
  {
    var r := Recompute(s);
    var t := CheckForBreach(r);
    if t.queue != r.queue {
      assert t.queue == r.queue + [Queued(ExecuteBreach(CheckBreach(r.fig.equity, DrawdownFloor(r), LossFloor(r)).value), r.now)];
    }
    EnqueueQuiet(s, r);
    EnqueueQuiet(s, t);
    EnqueueQuiet(s, s);
  }

  lemma TickQuiet(cal: Calendar, s: Account, symbol: string, q: Quote, w: World)
    requires Books(s)
    ensures Quietly(s, Tick(cal, s, symbol, q, w))
  {
    var s1 := s.(w := Quoted(s.w, symbol, q, w));
    EnqueueQuiet(s, s1);
    if symbol in s.w.instruments {
      TickLoopsQuiet(cal, s1, symbol, q);
      QuietlyTrans(s, s1, Tick(cal, s, symbol, q, w));
    }
  }

  lemma TickLoopsQuiet(cal: Calendar, s1: Account, symbol: string, q: Quote)
    requires Stock(s1.book)
    ensures var s2 := TickPositions(s1, symbol, q, s1.book.posOrder);
            Quietly(s1, TickDone(TickOrders(cal, s2, symbol, q, s2.book.ordOrder), Holds(s1, symbol)))
  {
    TickPositionsQuiet(s1, symbol, q, s1.book.posOrder);
    var s2 := TickPositions(s1, symbol, q, s1.book.posOrder);
    SameBookKeeps(s1.book, s2.book);
    TickOrdersQuiet(cal, s2, symbol, q, s2.book.ordOrder);
    var s3 := TickOrders(cal, s2, symbol, q, s2.book.ordOrder);
    QuietlyTrans(s1, s2, s3);
    TickDoneQuiet(s3, Holds(s1, symbol));
    QuietlyTrans(s1, s3, TickDone(s3, Holds(s1, symbol)));
  }

  /** With every OPEN row in memory a reload has nothing to add. */
  lemma {:induction false} AddMissingNothing(w: World, b: Book, ids: seq<nat>)
    requires Mirrors(b)
    ensures AddMissing(w, b, ids) == b
    decreases |ids|
  {
    if ids != [] {
      AddMissingNothing(w, b, ids[1..]);
    }
  }

  /** What the dropping loop leaves: rows that are OPEN or closing, and those not on its list. */
  lemma {:induction false} DropClosedLeaves(b: Book, ids: seq<nat>)
    ensures var c := DropClosed(b, ids);
            && c == b.(positions := c.positions, posOrder := c.posOrder)
            && (forall id :: id in c.positions <==> id in b.positions && (id !in ids || id in b.db.open || b.positions[id].closing))
            && (forall id :: id in c.positions ==> c.positions[id] == b.positions[id])
            && (forall id :: id in c.posOrder <==> id in b.posOrder && (id in c.positions || id !in b.positions))
            && (NoRepeats(b.posOrder) ==> NoRepeats(c.posOrder))
    decreases |ids|
  {
    if ids != [] {
      var id := ids[0];
      var b1 := if id in b.positions && id !in b.db.open && !b.positions[id].closing then RemovePosition(b, id) else b;
      DropClosedLeaves(b1, ids[1..]);
      assert forall k :: k in ids <==> k == id || k in ids[1..];
    }
  }

  /** Positions without an OPEN row are gone, except those on their way out. */
  ghost predicate Thinned(b: Book, c: Book) {
    && c == b.(positions := c.positions, posOrder := c.posOrder)
    && (forall id :: id in c.positions ==> id in b.positions && c.positions[id] == b.positions[id])
    && (forall id :: id in b.positions && (id in b.db.open || b.positions[id].closing) ==> id in c.positions)
    && (forall id :: id in c.posOrder <==> id in c.positions) && (NoRepeats(b.posOrder) ==> NoRepeats(c.posOrder))
  }

  lemma FewerKeys<K, V>(m: map<K, V>, n: map<K, V>)
    requires forall k :: k in n ==> k in m
    ensures |n| <= |m|
  {
    assert n.Keys <= m.Keys;
    SubsetSize(n.Keys, m.Keys);
    assert |m| == |m.Keys| && |n| == |n.Keys|;
  }

  lemma {:induction false} SubsetSize<T>(a: set<T>, b: set<T>)
    requires a <= b
    ensures |a| <= |b|
  {
    if a != {} {
      var x :| x in a;
      SubsetSize(a - {x}, b - {x});
    }
  }

  lemma ThinnedKeeps(b: Book, c: Book, run: Running)
    requires Stock(b) && Thinned(b, c)
    ensures Stock(c) && Held(c) <= Held(b)
    ensures RunOk(b, run) ==> RunOk(c, run)
  {
    FewerKeys(b.positions, c.positions);
  }

  /** A merge drops what was closed elsewhere, unless it is already closing, and adds nothing. */
  lemma MergeRowThins(s: Account, row: Reply, rows: seq<nat>)
    requires Stock(s.book)
    ensures var t := MergeRow(s, row, rows);
            && t == s.(book := t.book, fig := t.fig, queue := t.queue)
            && (t.queue == s.queue || t.queue == s.queue + [Queued(CloseAll, s.now)])
            && Thinned(s.book, t.book)
            && (!s.book.untracked && CanAutoEvaluate(row.status)
                ==> forall id :: id in t.book.positions ==> id in t.book.db.open || t.book.positions[id].closing)
  {
    if !s.book.untracked {
      AddMissingNothing(s.w, s.book, rows);
      DropClosedLeaves(s.book, s.book.posOrder);
    }
  }

  lemma MergeRowKeeps(s: Account, row: Reply, rows: seq<nat>)
    requires Books(s)
    ensures Books(MergeRow(s, row, rows))
  {
    MergeRowThins(s, row, rows);
    ThinnedKeeps(s.book, MergeRow(s, row, rows).book, s.run);
  }

  lemma ElsewhereKeeps(s: Account, closed: set<nat>, credit: int)
    requires Books(s)
    ensures Books(s.(book := s.book.(db := CloseElsewhere(s.book.db, closed, credit))))
  {
    CloseElsewhereKeepsLedger(s.book.db, closed, credit);
  }

  lemma TimerQuiet(cal: Calendar, s: Account)
    ensures Quietly(s, EnforceHoldingRules(cal, Live.AnchorTimer(s)))
    ensures EnforceHoldingRules(cal, Live.AnchorTimer(s)).book == s.book
  {
    var t := Live.AnchorTimer(s);
    if t.queue != s.queue {
      assert t.queue == s.queue + [Queued(CaptureAnchor(CurrentDayStart(s.resetTime, s.now)), s.now)];
    }
    EnqueueQuiet(s, t);
    var u := EnforceHoldingRules(cal, t);
    if u.queue != t.queue {
      assert u.queue == t.queue + [Queued(Sweep(DueRule(cal, t).value), t.now)];
    }
    EnqueueQuiet(t, u);
    QuietlyTrans(s, t, u);
  }

  /** What comes from the database. */
  predicate FromRows(e: Event) { e.RowReloaded? || e.ChangedElsewhere? }

  lemma EventQuiet(cal: Calendar, s: Account, e: Event)
    requires Books(s) && !FromRows(e)
    ensures Quietly(s, OnEvent(cal, s, e))
  {
    match e
    case Ticked(symbol, q, w) => TickQuiet(cal, s, symbol, q, w);
    case SecondPassed => TimerQuiet(cal, s);
    case Submitted(c) => EnqueueQuiet(s, Enqueue(s, Client(c)));
    case MarketChanged(w) => EnqueueQuiet(s, s.(w := w));
    case ClockAdvanced(ms) => EnqueueQuiet(s, s.(now := s.now + ms));
  }

  lemma EventKeepsBooks(cal: Calendar, s: Account, e: Event)
    requires Books(s)
    ensures Books(OnEvent(cal, s, e))
  {
    match e
    case RowReloaded(row, rows) => MergeRowKeeps(s, row, rows);
    case ChangedElsewhere(closed, credit) => ElsewhereKeeps(s, closed, credit);
    case _ =>
      EventQuiet(cal, s, e);
      QuietlyKeeps(s, OnEvent(cal, s, e));
  }

  // ----- pieces of operations -----

  lemma SetClosingSame(b: Book, id: nat, closing: bool)
    ensures SameBook(b, SetClosing(b, id, closing))
  {
  }

  lemma UntrackKeeps(b: Book)
    requires Stock(b)
    ensures Stock(Untrack(b)) && Held(Untrack(b)) <= Held(b)
  {
  }

  lemma IdleKeeps(t: Account, b: Book)
    requires t.book == b && Stock(b) && QueueOk(t.queue) && WithinLimit(t.rules, b, 0) && t.run.Idle?
    ensures Books(t)
  {
  }

  lemma CancelledKeeps(s: Account, next: AfterCancel)
    requires Between(s)
    ensures Books(Settle(s, next))
  {
    var t := Settle(s, next);
    if next.ThenUntrack? {
      UntrackKeeps(s.book);
      IdleKeeps(t, Untrack(s.book));
    } else {
      IdleKeeps(t, s.book);
    }
  }

  lemma CancelThenKeeps(s: Account, ids: seq<string>, next: AfterCancel)
    requires Between(s) && NoRepeats(ids) && forall id :: id in ids ==> id in s.book.pending
    ensures Books(CancelThen(s, ids, next))
  {
    if ids == [] {
      CancelledKeeps(s, next);
    }
  }

  lemma StartCloseKeeps(s: Account, id: nat, plan: ClosePlan, after: After)
    requires Between(s) && !s.book.untracked && id in s.book.positions && plan.volume >= 0
    ensures Books(StartClose(s, id, plan, after))
  {
    SetClosingSame(s.book, id, true);
    SameBookKeeps(s.book, SetClosing(s.book, id, true));
  }


  lemma PlannedVolume(s: Account, p: Position, price: real, volume: int, q: Option<Quote>)
    ensures var plan := PlanClose(s, p, price, volume, q);
            plan.Some? ==> plan.value.volume == volume
  {
  }

  lemma HeldTracked(s: Account, id: nat)
    requires Stock(s.book) && id in s.book.positions
    ensures !s.book.untracked && s.book.positions[id].volume >= 0
  {
  }

  lemma {:induction false} SweepLoopKeeps(s: Account, rule: HoldingRule, at: int, todo: seq<nat>, failures: nat)
    requires Between(s)
    ensures Books(SweepLoop(s, rule, at, todo, failures))
    decreases |todo|
  {
    if todo == [] {
      SweepEndKeeps(s, rule, at, failures);
    } else {
      var id, rest := todo[0], todo[1..];
      SweepLoopKeeps(s, rule, at, rest, failures);
      SweepLoopKeeps(s, rule, at, rest, failures + 1);
      if id in s.book.positions {
        SweepStartKeeps(s, rule, at, id, rest, failures);
      }
    }
  }

  lemma SweepEndKeeps(s: Account, rule: HoldingRule, at: int, failures: nat)
    requires Between(s)
    ensures Books(SweepLoop(s, rule, at, [], failures))
  {
    CancelThenKeeps(s, SessionOrders(s.w, s.book.pending, s.book.ordOrder), SweepCancelled(rule, at, failures));
    CancelledKeeps(s, SweepCancelled(rule, at, failures));
  }

  lemma SweepStartKeeps(s: Account, rule: HoldingRule, at: int, id: nat, rest: seq<nat>, failures: nat)
    requires Between(s) && id in s.book.positions
    ensures forall price, q :: var plan := PlanClose(s, s.book.positions[id], price, s.book.positions[id].volume, q);
                               plan.Some? ==> Books(StartClose(s, id, plan.value, SweepMore(rule, at, rest, failures)))
  {
    HeldTracked(s, id);
    var p := s.book.positions[id];
    forall price, q ensures var plan := PlanClose(s, p, price, p.volume, q);
                            plan.Some? ==> Books(StartClose(s, id, plan.value, SweepMore(rule, at, rest, failures)))
    {
      var plan := PlanClose(s, p, price, p.volume, q);
      PlannedVolume(s, p, price, p.volume, q);
      if plan.Some? {
        StartCloseKeeps(s, id, plan.value, SweepMore(rule, at, rest, failures));
      }
    }
  }

  lemma ReopenKeeps(s: Account, id: nat, closing: bool)
    requires Between(s)
    ensures Between(s.(book := SetClosing(s.book, id, closing)))
  {
    SetClosingSame(s.book, id, closing);
    SameBookKeeps(s.book, SetClosing(s.book, id, closing));
  }

  lemma {:induction false} CloseAllLoopKeeps(s: Account, reason: Option<FailureReason>, todo: seq<nat>)
    requires Between(s)
    ensures Books(CloseAllLoop(s, reason, todo))
    decreases |todo|
  {
    if todo == [] {
      CancelThenKeeps(s, s.book.ordOrder, ThenUntrack);
    } else {
      var id, rest := todo[0], todo[1..];
      if id in s.book.positions && s.book.positions[id].symbol in s.w.quotes {
        var p := s.book.positions[id];
        var q := s.w.quotes[p.symbol];
        HeldTracked(s, id);
        PlannedVolume(s, p, MarkPrice(p.side, q), p.volume, Some(q));
        var plan := PlanClose(s, p, MarkPrice(p.side, q), p.volume, Some(q));
        if plan.Some? {
          StartCloseKeeps(s, id, plan.value, if reason.Some? then BreachMore(reason.value, rest) else AdminMore(rest));
        } else {
          ReopenKeeps(s, id, false);
          CloseAllLoopKeeps(s.(book := SetClosing(s.book, id, false)), reason, rest);
        }
      } else {
        CloseAllLoopKeeps(s, reason, rest);
      }
    }
  }

  // ----- starting an operation -----

  lemma BeginPlaceKeeps(cal: Calendar, s: Account, m: OrderMsg)
    requires Between(s) && s.run.Idle?
    ensures Books(BeginPlace(cal, s, m))
  {
    var v := CheckOrder(cal, s, m);
    match v
    case Refused(code, record) =>
      if record && m.id !in s.book.db.orders {
        RejectKeeps(s.book, m.id);
      }
    case _ => ValidIsPositive(m.volume, s.w.instruments[m.symbol].volume);
  }

  lemma RejectKeeps(b: Book, id: string)
    requires Stock(b) && id !in b.db.orders
    ensures Stock(b.(db := b.db.(orders := b.db.orders[id := OrderRejected])))
  {
    var c := b.(db := b.db.(orders := b.db.orders[id := OrderRejected]));
    assert LedgerOk(c.db) by {
      forall k | k in c.db.lots ensures Conserved(c.db, k) {
        assert Conserved(b.db, k);
      }
    }
  }

  lemma ValidIsPositive(volume: real, rule: VolumeRule)
    requires ValidateVolume(volume, rule).None?
    ensures RoundVolume(volume) >= 0
  {
  }

  lemma CloseVolumeNonNegative(s: Account, p: Position, requested: Option<real>)
    requires p.volume >= 0
    ensures var v := CloseVolume(s, p, requested);
            v.Some? ==> v.value >= 0
  {
  }

  lemma BeginCloseKeeps(s: Account, id: nat, requested: Option<real>)
    requires Between(s) && s.run.Idle?
    ensures Books(BeginClose(s, id, requested))
  {
    if id in s.book.positions {
      HeldTracked(s, id);
      var p := s.book.positions[id];
      CloseVolumeNonNegative(s, p, requested);
      var q := FreshQuote(s.w, p.symbol);
      var volume := CloseVolume(s, p, requested);
      if q.Some? && volume.Some? {
        PlannedVolume(s, p, MarkPrice(p.side, q.value), volume.value, q);
        var plan := PlanClose(s, p, MarkPrice(p.side, q.value), volume.value, q);
        if plan.Some? {
          StartCloseKeeps(s, id, plan.value, ManualDone);
        }
      }
    }
  }

  lemma BeginStopKeeps(s: Account, id: nat, price: real)
    requires Between(s) && s.run.Idle?
    ensures Books(BeginStop(s, id, price))
  {
    if id in s.book.positions {
      HeldTracked(s, id);
      var p := s.book.positions[id];
      PlannedVolume(s, p, price, p.volume, LookupQuote(s.w, p.symbol));
      var plan := PlanClose(s, p, price, p.volume, LookupQuote(s.w, p.symbol));
      if plan.Some? {
        StartCloseKeeps(s, id, plan.value, StopDone);
      }
    }
  }

  lemma BeginTriggerKeeps(s: Account, o: Pending, q: Quote)
    requires Between(s) && s.run.Idle? && o.volume >= 0
    ensures Books(BeginTrigger(s, o, q))
  {
    if o.id in s.book.pending {
      CancelThenKeeps(s, [o.id], CancelDone);
    }
  }

  lemma PerformKeeps(cal: Calendar, s: Account, q: Queued)
    requires Between(s) && s.run.Idle? && QueueOk([q])
    ensures Books(Perform(cal, s, q))
  {
    match q.op
    case Client(command) => ClientKeeps(cal, s, command, q.at);
    case StopClose(id, price) => BeginStopKeeps(s, id, price);
    case TriggerOrder(o, quote) =>
      assert [q][0].op.order == o;
      BeginTriggerKeeps(s, o, quote);
    case Sweep(rule) => if !s.book.untracked && !s.breaching { SweepLoopKeeps(s, rule, q.at, s.book.posOrder, 0); }
    case CloseAll => CloseAllLoopKeeps(s, None, s.book.posOrder);
    case _ => PlainPerformKeeps(cal, s, q);
  }

  lemma PlainPerformKeeps(cal: Calendar, s: Account, q: Queued)
    requires Between(s) && s.run.Idle? && (q.op.ExecuteBreach? || q.op.CaptureAnchor?)
    ensures Books(Perform(cal, s, q))
  {
    PlainKeeps(s, Perform(cal, s, q));
  }

  lemma ClientKeeps(cal: Calendar, s: Account, command: Command, at: int)
    requires Between(s) && s.run.Idle?
    ensures Books(Perform(cal, s, Queued(Client(command), at)))
  {
    match command
    case PlaceOrder(m) => BeginPlaceKeeps(cal, s, m);
    case ClosePosition(id, volume) => BeginCloseKeeps(s, id, volume);
    case ModifyPosition(id, sl, tp) => PlainKeeps(s, BeginModify(s, id, sl, tp));
  }

  lemma PlainKeeps(s: Account, t: Account)
    requires Between(s) && t.book == s.book && t.queue == s.queue && t.rules == s.rules
    requires t.run.Idle? || t.run.Modifying? || t.run.Flushing? || t.run.Anchoring?
    ensures Books(t)
  {
  }

  lemma BeginKeepsBooks(cal: Calendar, s: Account)
    requires Books(s)
    ensures Books(Begin(cal, s))
  {
    if s.run.Idle? && s.queue != [] {
      assert QueueOk([s.queue[0]]) && QueueOk(s.queue[1..]);
      PerformKeeps(cal, s.(queue := s.queue[1..]), s.queue[0]);
    }
  }

  // ----- resuming -----

  lemma RemovedSize<K, V>(m: map<K, V>, k: K)
    ensures |m - {k}| == if k in m then |m| - 1 else |m|
  {
    assert (m - {k}).Keys == m.Keys - {k};
    assert |m| == |m.Keys| && |m - {k}| == |(m - {k}).Keys|;
  }

  lemma AppendNoRepeats<K(!new)>(order: seq<K>, id: K)
    requires NoRepeats(order) && id !in order
    ensures NoRepeats(order + [id])
  {
  }

  lemma NewIdIsFresh(b: Book)
    requires Stock(b)
    ensures b.db.nextId !in b.positions && b.db.nextId !in b.posOrder && b.db.nextId !in b.db.open
  {
    assert b.db.nextId !in b.db.lots;
  }

  /** One more OPEN row `p`, held in memory as `held`. */
  ghost predicate AddedRow(b: Book, c: Book, p: Position, held: Position) {
    && p.id !in b.positions && SamePosition(p, held) && p.volume >= 0
    && c.positions == b.positions[p.id := held] && c.posOrder == b.posOrder + [p.id]
    && c.pending == b.pending && c.ordOrder == b.ordOrder && c.untracked == b.untracked && c.results == b.results
    && c.db.open == b.db.open[p.id := p] && c.db.voided == b.db.voided
  }

  lemma AddedRowKeeps(b: Book, c: Book, p: Position, held: Position)
    requires KeysOk(b) && Mirrors(b) && AddedRow(b, c, p, held)
    ensures KeysOk(c) && Mirrors(c) && Held(c) == Held(b) + 1
  {
  }

  lemma MarkedSame(w: World, p: Position, q: Quote)
    ensures SamePosition(p, Marked(w, p, q)) && Marked(w, p, q).closing == p.closing
  {
  }

  lemma OpenedAdds(w: World, b: Book, p: Position, order: string)
    requires p.id !in b.positions && p.volume >= 0
    ensures var c := Opened(w, b.(db := RecordOpen(b.db, p, order)), p);
            AddedRow(b, c, p, c.positions[p.id])
  {
    if p.symbol in w.quotes {
      MarkedSame(w, p, w.quotes[p.symbol]);
    }
  }

  /** A fill adds one OPEN row and the same position to memory. */
  lemma OpenedKeeps(w: World, b: Book, p: Position, order: string)
    requires Stock(b) && !b.untracked && p.id == b.db.nextId && p.volume >= 0
    requires order !in b.db.orders
    ensures var c := Opened(w, b.(db := RecordOpen(b.db, p, order)), p);
            Stock(c) && Held(c) == Held(b) + 1
  {
    NewIdIsFresh(b);
    RecordOpenKeepsLedger(b.db, p, order);
    var c := Opened(w, b.(db := RecordOpen(b.db, p, order)), p);
    OpenedAdds(w, b, p, order);
    AddedRowKeeps(b, c, p, c.positions[p.id]);
    assert c.db.orders == b.db.orders[order := OrderFilled];
    assert OrdersOk(c);
  }

  lemma ResumeOpeningKeeps(s: Account, m: OrderMsg, volume: int, price: real, margin: int, ok: bool)
    requires Books(s) && s.run == Opening(m, volume, price, margin)
    ensures Books(ResumeOpening(s, m, volume, price, margin, ok))
  {
    if m.id in s.book.db.orders {
      var t := ResumeOpening(s, m, volume, price, margin, ok);
      IdleKeeps(t, s.book);
    } else if ok {
      var p := NewPosition(s.book.db.nextId, m.symbol, m.side, volume, price, m.stopLoss, m.takeProfit, margin);
      OpenedKeeps(s.w, s.book, p, m.id);
      var c := Opened(s.w, s.book.(db := RecordOpen(s.book.db, p, m.id)), p);
      IdleKeeps(ResumeOpening(s, m, volume, price, margin, ok), c);
    }
  }

  lemma RestingKeeps(b: Book, o: Pending)
    requires Stock(b) && !b.untracked && o.id !in b.db.orders && o.volume >= 0
    ensures var c := AddPending(b.(db := b.db.(orders := b.db.orders[o.id := OrderPending])), o);
            Stock(c) && Held(c) == Held(b) + 1
  {
    OrderRowKeepsLedger(b.db, o.id);
    RestingKeepsKeys(b, b.db.(orders := b.db.orders[o.id := OrderPending]), o);
  }

  lemma RestingKeepsKeys(b: Book, db: Ledger, o: Pending)
    requires KeysOk(b) && o.id !in b.pending && o.volume >= 0
    ensures KeysOk(AddPending(b.(db := db), o))
  {
    AppendNoRepeats(b.ordOrder, o.id);
  }

  lemma OrderRowKeepsLedger(db: Ledger, id: string)
    requires LedgerOk(db)
    ensures LedgerOk(db.(orders := db.orders[id := OrderPending]))
  {
    var t := db.(orders := db.orders[id := OrderPending]);
    forall k | k in t.lots ensures Conserved(t, k) {
      assert Conserved(db, k);
    }
  }

  lemma ResumeRestingKeeps(s: Account, o: Pending, ok: bool)
    requires Books(s) && s.run == Resting(o)
    ensures Books(ResumeResting(s, o, ok))
  {
    if o.id !in s.book.db.orders && ok {
      RestingKeeps(s.book, o);
    }
  }

  /** Forgetting an order and settling it in the database, before it is reported. */
  ghost predicate Settled(b: Book, c: Book, id: string, f: Final) {
    && c.positions == b.positions && c.posOrder == b.posOrder && c.untracked == b.untracked
    && c.pending == b.pending - {id} && c.ordOrder == Without(b.ordOrder, id)
    && c.results == b.results + [(id, f)]
    && c.db.orders == b.db.orders[id := StatusOf(f)]
  }

  lemma SettledKeeps(b: Book, c: Book, id: string, f: Final)
    requires KeysOk(b) && OrdersOk(b) && id in b.pending && Settled(b, c, id, f)
    ensures KeysOk(c) && OrdersOk(c) && |c.pending| == |b.pending| - 1
  {
    RemovedSize(b.pending, id);
    SettledKeepsOrders(b, c, id, f);
  }

  lemma SettledKeepsOrders(b: Book, c: Book, id: string, f: Final)
    requires OrdersOk(b) && id in b.pending && Settled(b, c, id, f)
    ensures OrdersOk(c)
  {
    assert forall i :: 0 <= i < |b.results| ==> c.results[i] == b.results[i] && b.results[i].0 != id;
  }

  lemma CancelOneKeeps(b: Book, id: string)
    requires Stock(b) && id in b.pending
    ensures Stock(CancelOne(b, id)) && Held(CancelOne(b, id)) == Held(b) - 1
    ensures CancelOne(b, id).pending == b.pending - {id}
  {
    var c := CancelOne(b, id);
    SettledKeeps(b, c, id, Cancelled);
    assert LedgerOk(c.db) by {
      forall k | k in c.db.lots ensures Conserved(c.db, k) {
        assert Conserved(b.db, k);
      }
    }
  }

  lemma {:induction false} CancelEachKeeps(b: Book, ids: seq<string>)
    requires Stock(b) && NoRepeats(ids) && forall id :: id in ids ==> id in b.pending
    ensures Stock(CancelEach(b, ids)) && Held(CancelEach(b, ids)) <= Held(b)
    decreases |ids|
  {
    if ids != [] {
      CancelOneKeeps(b, ids[0]);
      forall id | id in ids[1..] ensures id in CancelOne(b, ids[0]).pending {
        assert id != ids[0];
      }
      CancelEachKeeps(CancelOne(b, ids[0]), ids[1..]);
    }
  }

  lemma FillKeeps(w: World, b: Book, o: Pending, p: Position)
    requires Stock(b) && !b.untracked && o.id in b.pending && p.id == b.db.nextId && p.volume >= 0
    ensures var c := Opened(w, FillOrder(b, o.id, p), p);
            Stock(c) && Held(c) == Held(b)
  {
    var d := FillOrder(b, o.id, p);
    NewIdIsFresh(b);
    RecordOpenKeepsLedger(b.db, p, o.id);
    SettledKeeps(b, d, o.id, Filled);
    var c := Opened(w, d, p);
    FillAdds(w, b, d, c, p);
    FillStock(b, d, c, p, c.positions[p.id]);
  }

  lemma FillStock(b: Book, d: Book, c: Book, p: Position, held: Position)
    requires Stock(b) && !b.untracked && LedgerOk(d.db) && KeysOk(d) && OrdersOk(d) && !d.untracked
    requires d.positions == b.positions && |d.pending| == |b.pending| - 1
    requires AddedRow(d.(db := b.db), c, p, held) && c.db == d.db
    ensures Stock(c) && Held(c) == Held(b)
  {
    AddedRowKeeps(d.(db := b.db), c, p, held);
  }

  lemma FillAdds(w: World, b: Book, d: Book, c: Book, p: Position)
    requires p.id !in b.positions && p.volume >= 0 && d.positions == b.positions
    requires d.db.open == b.db.open[p.id := p] && d.db.voided == b.db.voided && c == Opened(w, d, p)
    ensures AddedRow(d.(db := b.db), c, p, c.positions[p.id])
  {
    if p.symbol in w.quotes {
      MarkedSame(w, p, w.quotes[p.symbol]);
    }
  }

  lemma ResumeFillingKeeps(s: Account, o: Pending, price: real, margin: int, ok: bool)
    requires Books(s) && s.run == Filling(o, price, margin)
    ensures Books(ResumeFilling(s, o, price, margin, ok))
  {
    if ok {
      var p := NewPosition(s.book.db.nextId, o.symbol, o.side, o.volume, price, o.stopLoss, o.takeProfit, margin);
      FillKeeps(s.w, s.book, o, p);
      var b := FillOrder(s.book, o.id, p);
      IdleKeeps(ResumeFilling(s, o, price, margin, ok), Opened(s.w, b, p));
    } else {
      SetTriggeringSame(s.book, o.id, false);
      SameBookKeeps(s.book, SetTriggering(s.book, o.id, false));
      IdleKeeps(ResumeFilling(s, o, price, margin, ok), SetTriggering(s.book, o.id, false));
    }
  }

  /** Position `id` is gone from memory and from the OPEN rows, or smaller in both. */
  ghost predicate ClosedRow(b: Book, c: Book, id: nat) {
    && c.pending == b.pending && c.ordOrder == b.ordOrder && c.untracked == b.untracked && c.results == b.results
    && c.db.orders == b.db.orders && c.db.voided == b.db.voided
    && if id in c.db.open then
         && c.posOrder == b.posOrder && id in c.positions && SamePosition(c.db.open[id], c.positions[id])
         && c.positions == b.positions[id := c.positions[id]] && c.db.open == b.db.open[id := c.db.open[id]]
       else
         && c.positions == b.positions - {id} && c.posOrder == Without(b.posOrder, id) && c.db.open == b.db.open - {id}
  }

  lemma ClosedRowKeeps(b: Book, c: Book, id: nat)
    requires KeysOk(b) && Mirrors(b) && OrdersOk(b) && id in b.positions && ClosedRow(b, c, id) && LedgerOk(c.db)
    ensures KeysOk(c) && Mirrors(c) && OrdersOk(c) && Held(c) <= Held(b)
  {
    RemovedSize(b.positions, id);
  }

  lemma ApplyCloseRow(s: Account, id: nat, plan: ClosePlan, reply: Reply)
    requires Stock(s.book) && !s.book.untracked && id in s.book.positions
    ensures ClosedRow(s.book, ApplyClose(s, id, plan, reply).book, id)
    ensures ApplyClose(s, id, plan, reply).book.db == RecordClose(s.book.db, id, plan)
  {
    var db := RecordClose(s.book.db, id, plan);
    RecordCloseRow(s.book.db, id, plan);
    if id in db.open && plan.quote.Some? {
      var row := db.open[id];
      MarkedSame(s.w, s.book.positions[id].(volume := row.volume, margin := row.margin, closing := false), plan.quote.value);
    }
  }

  lemma RecordCloseRow(db: Ledger, id: nat, plan: ClosePlan)
    ensures var d := RecordClose(db, id, plan);
            && d.orders == db.orders && d.voided == db.voided
            && (if id in d.open
                then id in db.open && d.open == db.open[id := d.open[id]] && d.open[id].symbol == db.open[id].symbol && d.open[id].id == db.open[id].id
                else d.open == db.open - {id})
  {
  }

  lemma ApplyCloseKeeps(s: Account, id: nat, plan: ClosePlan, reply: Reply)
    requires Between(s) && !s.book.untracked && id in s.book.positions && plan.volume >= 0
    ensures Between(ApplyClose(s, id, plan, reply)) && !ApplyClose(s, id, plan, reply).book.untracked
  {
    RecordCloseKeepsLedger(s.book.db, id, plan);
    ApplyCloseRow(s, id, plan, reply);
    ClosedRowKeeps(s.book, ApplyClose(s, id, plan, reply).book, id);
  }

  lemma AfterCloseKeeps(s: Account, after: After)
    requires Between(s)
    ensures Books(AfterClose(s, after))
  {
    match after
    case SweepMore(rule, at, todo, failures) => SweepLoopKeeps(s, rule, at, todo, failures);
    case BreachMore(reason, todo) => CloseAllLoopKeeps(s, Some(reason), todo);
    case AdminMore(todo) => CloseAllLoopKeeps(s, None, todo);
    case _ =>
  }

  lemma CloseFailedKeeps(s: Account, id: nat, after: After)
    requires Between(s)
    ensures Books(CloseFailed(s, id, after))
  {
    if after.StopDone? {
      IdleKeeps(s.(run := Idle, stuck := s.stuck + {id}), s.book);
    } else {
      ReopenKeeps(s, id, false);
      ReopenedKeeps(s, s.(book := SetClosing(s.book, id, false)), id, after);
    }
  }

  lemma ReopenedKeeps(s: Account, t: Account, id: nat, after: After)
    requires !after.StopDone? && t == s.(book := SetClosing(s.book, id, false)) && Between(t)
    ensures Books(CloseFailed(s, id, after))
  {
    match after
    case ManualDone => IdleKeeps(t.(run := Idle), t.book);
    case SweepMore(rule, at, todo, failures) => SweepLoopKeeps(t, rule, at, todo, failures + 1);
    case BreachMore(reason, todo) => CloseAllLoopKeeps(t, Some(reason), todo);
    case AdminMore(todo) => CloseAllLoopKeeps(t, None, todo);
  }

  lemma ResumeClosingKeeps(s: Account, id: nat, plan: ClosePlan, after: After, reply: Reply)
    requires Books(s) && s.run == Closing(id, plan, after)
    ensures Books(ResumeClosing(s, id, plan, after, reply))
  {
    if !reply.ok {
      CloseFailedKeeps(s, id, after);
    } else {
      ApplyCloseKeeps(s, id, plan, reply);
      var t := ApplyClose(s, id, plan, reply);
      CancelThenKeeps(t, t.book.ordOrder, ThenUntrack);
      AfterCloseKeeps(t, after);
    }
  }

  lemma ResumeKeepsBooks(s: Account, reply: Reply)
    requires Books(s)
    ensures Books(Resume(s, reply))
  {
    match s.run
    case Idle =>
    case Opening(m, volume, price, margin) => ResumeOpeningKeeps(s, m, volume, price, margin, reply.ok);
    case Resting(o) => ResumeRestingKeeps(s, o, reply.ok);
    case Filling(o, price, margin) => ResumeFillingKeeps(s, o, price, margin, reply.ok);
    case Closing(id, plan, after) => ResumeClosingKeeps(s, id, plan, after, reply);
    case Cancelling(ids, next) =>
      CancelEachKeeps(s.book, ids);
      CancelledKeeps(s.(book := CancelEach(s.book, ids)), next);
    case Flushing(reason) => CloseAllLoopKeeps(s, Some(reason), s.book.posOrder);
    case Failing(reason) => FailingKeeps(s, reply);
    case Anchoring =>
    case Modifying(id, sl, tp) => ModifyKeeps(s, id, sl, tp);
  }

  lemma FailingKeeps(s: Account, reply: Reply)
    requires Between(s) && s.run.Failing?
    ensures Books(Resume(s, reply))
  {
    var t := if reply.ok then s.(fig := s.fig.(status := reply.status, balance := s.book.db.balance)) else s;
    CancelThenKeeps(t, t.book.ordOrder, ThenUntrack);
  }

  lemma ModifyKeeps(s: Account, id: nat, sl: Option<real>, tp: Option<real>)
    requires Between(s)
    ensures Books(s.(book := SetLevels(s.book, id, sl, tp), run := Idle))
  {
    var c := if id in s.book.positions then PutPosition(s.book, id, s.book.positions[id].(stopLoss := sl, takeProfit := tp)) else s.book;
    if id in s.book.positions {
      PutSame(s.book, id, s.book.positions[id].(stopLoss := sl, takeProfit := tp));
      SameBookKeeps(s.book, c);
    }
    RowLevelsKeep(c, SetLevels(s.book, id, sl, tp));
    IdleKeeps(s.(book := SetLevels(s.book, id, sl, tp), run := Idle), SetLevels(s.book, id, sl, tp));
  }

  /** The same OPEN rows, but for their levels and marks: nothing the books are about. */
  lemma RowLevelsKeep(b: Book, c: Book)
    requires Stock(b) && c == b.(db := b.db.(open := c.db.open)) && SameRows(b.db.open, c.db.open)
    ensures Stock(c) && Held(c) == Held(b)
  {
    RowLevelsKeepLedger(b.db, c.db);
  }

  ghost predicate SameRows(open: map<nat, Position>, changed: map<nat, Position>) {
    changed.Keys == open.Keys && forall k :: k in open ==> SamePosition(open[k], changed[k])
  }

  lemma RowLevelsKeepLedger(db: Ledger, changed: Ledger)
    requires LedgerOk(db) && changed == db.(open := changed.open) && SameRows(db.open, changed.open)
    ensures LedgerOk(changed)
  {
    forall k | k in changed.lots ensures Conserved(changed, k) {
      assert Conserved(db, k);
    }
  }

  // ----- whole runs -----

  lemma StepKeepsBooks(cal: Calendar, s: Account, step: Step)
    requires Books(s)
    ensures Books(Next(cal, s, step))
  {
    match step
    case Happened(e) => EventKeepsBooks(cal, s, e);
    case Began => BeginKeepsBooks(cal, s);
    case Resumed(reply) => ResumeKeepsBooks(s, reply);
  }

  lemma {:induction false} RunKeepsBooks(cal: Calendar, s: Account, steps: seq<Step>)
    requires Books(s)
    ensures Books(Run(cal, s, steps))
  {
    if steps != [] {
      RunKeepsBooks(cal, s, steps[..|steps| - 1]);
      StepKeepsBooks(cal, Run(cal, s, steps[..|steps| - 1]), steps[|steps| - 1]);
    }
  }
}
