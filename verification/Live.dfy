/**
 * One account as the live engine tracks it: positions, resting orders, the account's serial queue
 * and the operation in flight. Between two awaits the source runs without interruption, so a step
 * is one synchronous piece of code: an event (tick, timer, client message, reload, clock), the
 * start of the queued operation at the head, or its resumption after an await. Events may fall
 * between any two pieces of an operation.
 *
 * A JavaScript Map is a `map` plus the insertion order of its keys. `done`, `stuck`, `results`
 * and the times in the queue record history that the code itself does not keep.
 */
module Live {
  import opened Options
  import opened Money
  import opened TradingMath
  import opened ChallengeRules
  import opened Sessions
  import opened DailyReset

  // ----- the market around the account -----

  datatype Category = Forex | Metal | IndexFund | Crypto

  datatype Instrument = Instrument(
    enabled: bool, category: Category, digits: nat, contractSize: real, volume: VolumeRule,
    commissionPerLot: real, quoteCurrency: string)

  /** Instruments, last quotes, stale symbols, whether the market is OPEN, FX rates and symbols inside a news window. */
  datatype World = World(
    instruments: map<string, Instrument>, quotes: map<string, Quote>, stale: set<string>, open: bool,
    rates: map<string, real>, news: set<string>)

  predicate IsCrypto(w: World, symbol: string) {
    symbol in w.instruments && w.instruments[symbol].category.Crypto?
  }

  predicate IsSession(w: World, symbol: string) {
    symbol in w.instruments && !w.instruments[symbol].category.Crypto?
  }

  function FreshQuote(w: World, symbol: string): Option<Quote> {
    if symbol !in w.quotes || symbol in w.stale || !w.open then None else Some(w.quotes[symbol])
  }

  function Rate(w: World, currency: string): Option<real> {
    if currency in w.rates then Some(w.rates[currency]) else None
  }

  // ----- the account -----

  datatype HoldingRule = Weekend | Overnight

  datatype Rules = Rules(
    weekendAllowed: bool, overnightAllowed: bool, newsAllowed: bool, maxPositions: Option<int>,
    maxPositionSize: Option<real>, leverage: real, maxDrawdown: real, dailyDrawdown: real, drawdownMode: DrawdownMode)

  predicate Forbids(rules: Rules, rule: HoldingRule) {
    match rule
    case Weekend => !rules.weekendAllowed
    case Overnight => !rules.overnightAllowed
  }

  datatype Position = Position(
    id: nat, symbol: string, side: Side, volume: int, entry: real, stopLoss: Option<real>, takeProfit: Option<real>,
    margin: int, mark: Option<real>, floating: int, closing: bool)

  datatype Pending = Pending(
    id: string, symbol: string, side: Side, kind: OrderKind, volume: int, price: real, stopLoss: Option<real>,
    takeProfit: Option<real>, triggering: bool)

  datatype OrderMsg = OrderMsg(
    id: string, symbol: string, side: Side, kind: OrderKind, volume: real, price: Option<real>,
    stopLoss: Option<real>, takeProfit: Option<real>)

  datatype Command =
    | PlaceOrder(msg: OrderMsg)
    | ClosePosition(pos: nat, volume: Option<real>)
    | ModifyPosition(pos: nat, stopLoss: Option<Option<real>>, takeProfit: Option<Option<real>>)

  datatype Op =
    | Client(command: Command)
    | StopClose(pos: nat, price: real)
    | TriggerOrder(order: Pending, quote: Quote)
    | Sweep(rule: HoldingRule)
    | ExecuteBreach(reason: FailureReason)
    | CloseAll
    | CaptureAnchor(boundary: int)

  /** An operation waiting its turn, and when it was submitted. */
  datatype Queued = Queued(op: Op, at: int)

  // ----- the ledger -----

  datatype OrderStatus = OrderPending | OrderFilled | OrderCancelled | OrderRejected

  /** A closed volume and what the account was credited for it. */
  datatype Trade = Trade(pos: nat, volume: int, full: bool, net: int)

  /**
   * Rows of the database that belong to the account: OPEN positions, volumes at opening, trades,
   * orders, balance. `voided` holds the volume of rows that a refund or a reset closed behind the
   * engine, without a trade.
   */
  datatype Ledger = Ledger(
    open: map<nat, Position>, lots: map<nat, int>, voided: map<nat, int>, trades: seq<Trade>, orders: map<string, OrderStatus>,
    nextId: nat, balance: int)

  /** What an awaited call brings back: whether it succeeded, and the account row after the rules ran on it. */
  datatype Reply = Reply(ok: bool, status: Status, highWaterMark: int, anchor: int)

  // ----- the operation in flight -----

  datatype ClosePlan = ClosePlan(volume: int, gross: int, commission: int, quote: Option<Quote>)

  /** What follows a close. */
  datatype After =
    | ManualDone
    | StopDone
    | SweepMore(rule: HoldingRule, at: int, todo: seq<nat>, failures: nat)
    | BreachMore(reason: FailureReason, todo: seq<nat>)
    | AdminMore(todo: seq<nat>)

  /** What follows a cancellation. */
  datatype AfterCancel =
    | CancelDone
    | SweepCancelled(rule: HoldingRule, at: int, failures: nat)
    | ThenUntrack

  datatype Running =
    | Idle
    | Opening(msg: OrderMsg, volume: int, price: real, margin: int)
    | Resting(order: Pending)
    | Filling(order: Pending, price: real, margin: int)
    | Closing(pos: nat, plan: ClosePlan, after: After)
    | Cancelling(orders: seq<string>, next: AfterCancel)
    | Flushing(reason: FailureReason)
    | Failing(reason: FailureReason)
    | Anchoring
    | Modifying(pos: nat, stopLoss: Option<real>, takeProfit: Option<real>)

  datatype Final = Filled | Cancelled

  /** The account in memory and its rows: what the books are about. */
  datatype Book = Book(
    positions: map<nat, Position>,
    posOrder: seq<nat>,
    pending: map<string, Pending>,
    ordOrder: seq<string>,
    untracked: bool,
    db: Ledger,
    results: seq<(string, Final)>)

  /** Money columns of the account, in cents. */
  datatype Figures = Figures(
    status: Status, balance: int, highWaterMark: int, anchor: int, marginUsed: int, floating: int, equity: int)

  datatype Account = Account(
    w: World,
    now: int,
    rules: Rules,
    resetTime: ResetTime,
    startingBalance: int,
    book: Book,
    fig: Figures,
    breaching: bool,
    sweeps: map<HoldingRule, int>,
    retryAt: int,
    nextBoundary: int,
    queue: seq<Queued>,
    run: Running,
    stuck: set<nat>,
    done: map<HoldingRule, int>)

  const RULE_RETRY_MS := 60_000

  function Enqueue(s: Account, op: Op): Account {
    s.(queue := s.queue + [Queued(op, s.now)])
  }

  function Without<K(==,!new)>(order: seq<K>, key: K): (r: seq<K>)
    ensures forall k :: k in r <==> k in order && k != key
    ensures NoRepeats(order) ==> NoRepeats(r)
  {
    if order == [] then []
    else
      assert NoRepeats(order) ==> NoRepeats(order[1..]) && order[0] !in order[1..];
      var rest := Without(order[1..], key);
      if order[0] == key then rest else [order[0]] + rest
  }

  ghost predicate NoRepeats<K(!new)>(order: seq<K>) {
    forall i, j :: 0 <= i < j < |order| ==> order[i] != order[j]
  }

  // ----- marking -----

  function Marked(w: World, p: Position, q: Quote): Position {
    if p.symbol !in w.instruments then p
    else
      var inst := w.instruments[p.symbol];
      var rate := Rate(w, inst.quoteCurrency);
      if rate.None? then p
      else
        var mark := MarkPrice(p.side, q);
        p.(mark := Some(mark),
           floating := Gross(GainPerHundredth(p.side, p.entry, mark, inst.contractSize, rate.value), p.volume))
  }

  function FloatingSum(order: seq<nat>, positions: map<nat, Position>): int {
    if order == [] then 0
    else (if order[0] in positions then positions[order[0]].floating else 0) + FloatingSum(order[1..], positions)
  }

  function MarginSum(order: seq<nat>, positions: map<nat, Position>): int {
    if order == [] then 0
    else (if order[0] in positions then positions[order[0]].margin else 0) + MarginSum(order[1..], positions)
  }

  function Recompute(s: Account): Account {
    var floating := FloatingSum(s.book.posOrder, s.book.positions);
    var equity := s.fig.balance + floating;
    s.(fig := s.fig.(floating := floating, marginUsed := MarginSum(s.book.posOrder, s.book.positions), equity := equity,
                     highWaterMark := Max(s.fig.highWaterMark, equity)))
  }

  function DrawdownFloor(s: Account): Floor {
    MaxDrawdownFloor(s.startingBalance, s.fig.highWaterMark, s.rules.maxDrawdown, s.rules.drawdownMode)
  }

  function LossFloor(s: Account): Floor { DailyLossFloor(s.fig.anchor, s.rules.dailyDrawdown) }

  // ----- memory updates -----

  function AddPosition(b: Book, p: Position): Book {
    b.(positions := b.positions[p.id := p],
       posOrder := if p.id in b.positions then b.posOrder else b.posOrder + [p.id])
  }

  /** A row joins memory and is marked at once if its symbol has a quote. */
  function Opened(w: World, b: Book, p: Position): Book {
    AddPosition(b, if p.symbol in w.quotes then Marked(w, p, w.quotes[p.symbol]) else p)
  }

  function RemovePosition(b: Book, id: nat): Book {
    b.(positions := b.positions - {id}, posOrder := Without(b.posOrder, id))
  }

  function AddPending(b: Book, o: Pending): Book {
    b.(pending := b.pending[o.id := o],
       ordOrder := if o.id in b.pending then b.ordOrder else b.ordOrder + [o.id])
  }

  function RemovePending(b: Book, id: string): Book {
    b.(pending := b.pending - {id}, ordOrder := Without(b.ordOrder, id))
  }

  function PutPosition(b: Book, id: nat, p: Position): Book { b.(positions := b.positions[id := p]) }

  function SetClosing(b: Book, id: nat, closing: bool): Book {
    if id in b.positions then PutPosition(b, id, b.positions[id].(closing := closing)) else b
  }

  /** The levels of a position in memory and of its OPEN row. */
  function SetLevels(b: Book, id: nat, stopLoss: Option<real>, takeProfit: Option<real>): Book {
    var b1 := if id in b.positions then PutPosition(b, id, b.positions[id].(stopLoss := stopLoss, takeProfit := takeProfit)) else b;
    if id in b.db.open
    then b1.(db := b.db.(open := b.db.open[id := b.db.open[id].(stopLoss := stopLoss, takeProfit := takeProfit)]))
    else b1
  }

  function SetTriggering(b: Book, id: string, triggering: bool): Book {
    if id in b.pending then b.(pending := b.pending[id := b.pending[id].(triggering := triggering)]) else b
  }

  function Untrack(b: Book): Book {
    b.(positions := map[], posOrder := [], pending := map[], ordOrder := [], untracked := true)
  }

  // ----- holding rules -----

  /** What the engine asks the session clock: is `rule` in force at an instant, since when, and until when. */
  datatype Calendar = Calendar(inWindow: (HoldingRule, int) -> bool, cutoff: (HoldingRule, int) -> int, end: (HoldingRule, int) -> int)

  function NewYorkCalendar(off: Zone): Calendar
    requires NewYork(off)
  {
    Calendar(
      (rule: HoldingRule, t: int) => if rule.Weekend? then IsWeekendRestricted(off, t) else IsRolloverWindow(off, t),
      (rule: HoldingRule, t: int) => if rule.Weekend? then WeekendCutoff(off, t) else DailyRolloverCutoff(off, t),
      (rule: HoldingRule, t: int) => if rule.Weekend? then WeekendReopen(off, t) else DailyRollover(off, t))
  }

  function RuleRestriction(cal: Calendar, rules: Rules, w: World, symbol: string, now: int): Option<RejectCode> {
    if IsSession(w, symbol) && !rules.weekendAllowed && cal.inWindow(Weekend, now) then Some(WeekendClosed)
    else if IsSession(w, symbol) && !rules.overnightAllowed && cal.inWindow(Overnight, now) then Some(OvernightClosed)
    else if !rules.newsAllowed && symbol in w.news then Some(NewsWindow)
    else None
  }

  // ----- ticks -----

  /** The tick loop on one position. */
  function TickPosition(s: Account, symbol: string, q: Quote, id: nat): Account {
    if id !in s.book.positions || s.book.positions[id].symbol != symbol then s
    else
      var p := Marked(s.w, s.book.positions[id], q);
      var trigger := CheckStops(p.side, q, p.stopLoss, p.takeProfit);
      if s.w.open && !p.closing && !s.breaching && trigger.Some? then
        var price := if trigger.value.StopLoss? then p.stopLoss.value else p.takeProfit.value;
        Enqueue(s.(book := PutPosition(s.book, id, p.(closing := true))), StopClose(id, price))
      else s.(book := PutPosition(s.book, id, p))
  }

  function TickPositions(s: Account, symbol: string, q: Quote, ids: seq<nat>): (t: Account)
    ensures t.w == s.w && t.now == s.now
    decreases |ids|
  {
    if ids == [] then s else TickPositions(TickPosition(s, symbol, q, ids[0]), symbol, q, ids[1..])
  }

  /** The tick loop on one resting order: a rule window keeps it resting. */
  function TickOrder(cal: Calendar, s: Account, symbol: string, q: Quote, id: string): Account {
    if id !in s.book.pending || s.book.pending[id].symbol != symbol then s
    else
      var o := s.book.pending[id];
      if !s.w.open || o.triggering || s.breaching || !PendingTriggered(o.side, o.kind, o.price, q) then s
      else if RuleRestriction(cal, s.rules, s.w, symbol, s.now).Some? then s
      else
        Enqueue(s.(book := SetTriggering(s.book, id, true)), TriggerOrder(o.(triggering := true), q))
  }

  function TickOrders(cal: Calendar, s: Account, symbol: string, q: Quote, ids: seq<string>): (t: Account)
    ensures t.w == s.w && t.now == s.now
    decreases |ids|
  {
    if ids == [] then s else TickOrders(cal, TickOrder(cal, s, symbol, q, ids[0]), symbol, q, ids[1..])
  }

  predicate Holds(s: Account, symbol: string) {
    exists id :: id in s.book.positions && s.book.positions[id].symbol == symbol
  }

  predicate HoldsStale(s: Account) {
    exists id :: id in s.book.positions && s.book.positions[id].symbol in s.w.stale
  }

  function CheckForBreach(s: Account): Account {
    var reason := CheckBreach(s.fig.equity, DrawdownFloor(s), LossFloor(s));
    if reason.None? then s else Enqueue(s.(breaching := true), ExecuteBreach(reason.value))
  }

  function TickDone(s: Account, touched: bool): Account {
    if !touched then s
    else
      var r := Recompute(s);
      if r.w.open && !r.breaching && !HoldsStale(r) then CheckForBreach(r) else r
  }

  /** The market once a tick is taken in: its state, stale symbols and FX rates are those of `w`. */
  function Quoted(v: World, symbol: string, q: Quote, w: World): World {
    v.(quotes := v.quotes[symbol := q], open := w.open, stale := w.stale, rates := w.rates)
  }

  /** A tick with the marked-up quote `q`; one on a symbol that is not loaded is ignored. */
  function Tick(cal: Calendar, s: Account, symbol: string, q: Quote, w: World): Account {
    if symbol !in s.w.instruments then s
    else
      var s1 := s.(w := Quoted(s.w, symbol, q, w));
      var s2 := TickPositions(s1, symbol, q, s1.book.posOrder);
      var s3 := TickOrders(cal, s2, symbol, q, s2.book.ordOrder);
      TickDone(s3, Holds(s1, symbol))
  }

  // ----- the one-second timer -----

  function AnchorTimer(s: Account): Account {
    if s.book.untracked || s.breaching || s.now < s.nextBoundary then s
    else Enqueue(s.(nextBoundary := NextDayStart(s.resetTime, s.now)), CaptureAnchor(CurrentDayStart(s.resetTime, s.now)))
  }

  function DueRule(cal: Calendar, s: Account): Option<HoldingRule> {
    if cal.inWindow(Weekend, s.now) && !s.rules.weekendAllowed then Some(Weekend)
    else if cal.inWindow(Overnight, s.now) && !s.rules.overnightAllowed then Some(Overnight)
    else None
  }

  function EnforceHoldingRules(cal: Calendar, s: Account): Account
  {
    if s.breaching || s.book.untracked || s.now < s.retryAt then s
    else
      var due := DueRule(cal, s);
      if due.None? then s
      else
        var key := cal.cutoff(due.value, s.now);
        if due.value in s.sweeps && s.sweeps[due.value] == key then s
        else Enqueue(s.(sweeps := s.sweeps[due.value := key]), Sweep(due.value))
  }

  // ----- reloading -----

  function AddMissing(w: World, b: Book, ids: seq<nat>): Book
    decreases |ids|
  {
    if ids == [] then b
    else
      var b1 := if ids[0] in b.db.open && ids[0] !in b.positions
                then Opened(w, b, b.db.open[ids[0]].(closing := false)) else b;
      AddMissing(w, b1, ids[1..])
  }

  function DropClosed(b: Book, ids: seq<nat>): Book
    decreases |ids|
  {
    if ids == [] then b
    else
      var id := ids[0];
      var b1 := if id in b.positions && id !in b.db.open && !b.positions[id].closing then RemovePosition(b, id) else b;
      DropClosed(b1, ids[1..])
  }

  /** Money columns and status come from the database row; the peak never goes back. */
  function ApplyRow(s: Account, row: Reply): Account {
    s.(fig := s.fig.(status := row.status, balance := s.book.db.balance,
                     highWaterMark := Max(s.fig.highWaterMark, row.highWaterMark), anchor := row.anchor))
  }

  /** The account row and the OPEN rows (in `rows` order) are read and merged in one step. */
  function MergeRow(s: Account, row: Reply, rows: seq<nat>): Account {
    if s.book.untracked then s
    else if !CanAutoEvaluate(row.status) then Enqueue(s, CloseAll)
    else
      var b := AddMissing(s.w, s.book, rows);
      Recompute(ApplyRow(s, row).(book := DropClosed(b, b.posOrder)))
  }

  // ----- tracking -----

  function AddOrders(b: Book, orders: seq<Pending>): Book
    decreases |orders|
  {
    if orders == [] then b else AddOrders(AddPending(b, orders[0].(triggering := false)), orders[1..])
  }

  /** A reset boundary went by unwatched: the rules run on the account (`judged` is their reply), or its equity becomes the anchor. */
  function Anchored(s: Account, judged: Option<Reply>): Account {
    if judged.None? then Recompute(s)
    else if !judged.value.ok then
      var t := Recompute(s);
      t.(fig := t.fig.(anchor := t.fig.equity))
    else if !CanAutoEvaluate(judged.value.status) then ApplyRow(s, judged.value).(book := Untrack(s.book))
    else Recompute(ApplyRow(s, judged.value))
  }

  /** An account is loaded from its row, its OPEN positions and its PENDING orders, and re-anchored if that is due. */
  function Track(w: World, now: int, rules: Rules, resetTime: ResetTime, startingBalance: int, row: Figures,
                 db: Ledger, rows: seq<nat>, orders: seq<Pending>, judged: Option<Reply>): Account
  {
    var b := AddOrders(AddMissing(w, Book(map[], [], map[], [], false, db, []), rows), orders);
    Anchored(Account(w, now, rules, resetTime, startingBalance, b, row, false, map[], 0, NextDayStart(resetTime, now), [], Idle,
                     {}, map[]), judged)
  }

  // ----- events -----

  datatype Event =
    | Ticked(symbol: string, quote: Quote, w: World)
    | SecondPassed
    | Submitted(command: Command)
    | MarketChanged(w: World)
    | ClockAdvanced(ms: nat)
    | RowReloaded(row: Reply, rows: seq<nat>)
    | ChangedElsewhere(closed: set<nat>, credit: int)

  /** The web application closes OPEN rows (refund, reset) or moves the balance (payout, reset). */
  function CloseElsewhere(db: Ledger, closed: set<nat>, credit: int): Ledger {
    db.(open := db.open - closed,
        voided := map id | id in db.voided.Keys + db.open.Keys * closed :: if id in db.open then db.open[id].volume else db.voided[id],
        balance := db.balance + credit)
  }

  function OnEvent(cal: Calendar, s: Account, e: Event): Account
  {
    match e
    case Ticked(symbol, q, w) => Tick(cal, s, symbol, q, w)
    case SecondPassed => EnforceHoldingRules(cal, AnchorTimer(s))
    case Submitted(c) => Enqueue(s, Client(c))
    case MarketChanged(w) => s.(w := w)
    case ClockAdvanced(ms) => s.(now := s.now + ms)
    case RowReloaded(row, rows) => MergeRow(s, row, rows)
    case ChangedElsewhere(closed, credit) => s.(book := s.book.(db := CloseElsewhere(s.book.db, closed, credit)))
  }

  // ----- closing -----

  /** The part of a close before the ledger call; None is the exception it may throw. */
  function PlanClose(s: Account, p: Position, price: real, volume: int, q: Option<Quote>): Option<ClosePlan> {
    if p.symbol !in s.w.instruments then None
    else
      var inst := s.w.instruments[p.symbol];
      var rate := Rate(s.w, inst.quoteCurrency);
      if rate.None? then None
      else
        var exit := RoundPrice(price, inst.digits);
        Some(ClosePlan(volume,
                       Gross(GainPerHundredth(p.side, p.entry, exit, inst.contractSize, rate.value), volume),
                       Commission(inst.commissionPerLot, volume), q))
  }

  function LookupQuote(w: World, symbol: string): Option<Quote> {
    if symbol in w.quotes then Some(w.quotes[symbol]) else None
  }

  function StartClose(s: Account, id: nat, plan: ClosePlan, after: After): Account {
    s.(book := SetClosing(s.book, id, true), run := Closing(id, plan, after))
  }

  function CancelThen(s: Account, ids: seq<string>, next: AfterCancel): Account {
    if ids == [] then Settle(s, next) else s.(run := Cancelling(ids, next))
  }

  function Settle(s: Account, next: AfterCancel): Account {
    match next
    case CancelDone => s.(run := Idle)
    case SweepCancelled(rule, at, failures) => SweepFinish(s, rule, at, failures)
    case ThenUntrack => Recompute(s).(book := Untrack(s.book), run := Idle)
  }

  function SweepFinish(s: Account, rule: HoldingRule, at: int, failures: nat): Account {
    if failures > 0 then s.(run := Idle, sweeps := s.sweeps - {rule}, retryAt := s.now + RULE_RETRY_MS)
    else s.(run := Idle, done := s.done[rule := at])
  }

  function SessionOrders(w: World, pending: map<string, Pending>, order: seq<string>): (r: seq<string>)
    ensures forall id :: id in r <==> id in order && id in pending && !IsCrypto(w, pending[id].symbol)
    ensures NoRepeats(order) ==> NoRepeats(r)
  {
    if order == [] then []
    else
      assert NoRepeats(order) ==> NoRepeats(order[1..]);
      var rest := SessionOrders(w, pending, order[1..]);
      if order[0] in pending && !IsCrypto(w, pending[order[0]].symbol) then [order[0]] + rest else rest
  }

  /** The flattening loop, up to its next await. */
  function SweepLoop(s: Account, rule: HoldingRule, at: int, todo: seq<nat>, failures: nat): (t: Account)
    ensures t.w == s.w && t.now == s.now
    decreases |todo|
  {
    if todo == [] then
      if rule.Weekend? then CancelThen(s, SessionOrders(s.w, s.book.pending, s.book.ordOrder), SweepCancelled(rule, at, failures))
      else SweepFinish(s, rule, at, failures)
    else
      var id, rest := todo[0], todo[1..];
      if id !in s.book.positions || !IsSession(s.w, s.book.positions[id].symbol) || s.book.positions[id].closing then
        SweepLoop(s, rule, at, rest, failures)
      else
        var p := s.book.positions[id];
        var q := LookupQuote(s.w, p.symbol);
        var price := if q.Some? then Some(MarkPrice(p.side, q.value)) else p.mark;
        if price.None? then SweepLoop(s, rule, at, rest, failures + 1)
        else
          var plan := PlanClose(s, p, price.value, p.volume, q);
          if plan.None? then SweepLoop(s, rule, at, rest, failures + 1)
          else StartClose(s, id, plan.value, SweepMore(rule, at, rest, failures))
  }

  /** The loop that closes everything on a breach (`reason`) or for an admin (None), up to its next await. */
  function CloseAllLoop(s: Account, reason: Option<FailureReason>, todo: seq<nat>): (t: Account)
    ensures t.w == s.w && t.now == s.now
    decreases |todo|
  {
    if todo == [] then
      if reason.Some? then s.(run := Failing(reason.value)) else CancelThen(s, s.book.ordOrder, ThenUntrack)
    else
      var id, rest := todo[0], todo[1..];
      if id !in s.book.positions || s.book.positions[id].symbol !in s.w.quotes then CloseAllLoop(s, reason, rest)
      else
        var p := s.book.positions[id];
        var q := s.w.quotes[p.symbol];
        var plan := PlanClose(s, p, MarkPrice(p.side, q), p.volume, Some(q));
        if plan.None? then CloseAllLoop(s.(book := SetClosing(s.book, id, false)), reason, rest)
        else StartClose(s, id, plan.value, if reason.Some? then BreachMore(reason.value, rest) else AdminMore(rest))
  }

  /** The margin that goes with a closed part. */
  function Released(row: Position, volume: int): int {
    if row.volume == 0 then row.margin else PartOf(row.margin, volume, row.volume)
  }

  function PartOf(margin: int, part: int, whole: int): int
    requires whole != 0
  {
    RoundCents(margin as real * (part as real / whole as real))
  }

  /** The database side of a close: a claim on the OPEN row, a trade, and the balance; a row that is not OPEN is left alone. */
  function RecordClose(db: Ledger, id: nat, plan: ClosePlan): Ledger {
    if id !in db.open then db
    else
      var row := db.open[id];
      var volume := Min(row.volume, plan.volume);
      var full := volume >= row.volume;
      db.(open := if full then db.open - {id}
                  else db.open[id := row.(volume := row.volume - volume, margin := row.margin - Released(row, volume))],
          trades := db.trades + [Trade(id, volume, full, plan.gross - plan.commission)],
          balance := db.balance + plan.gross - plan.commission)
  }

  /** Memory after the ledger call of a close succeeded. */
  function ApplyClose(s: Account, id: nat, plan: ClosePlan, reply: Reply): Account {
    var b := s.book.(db := RecordClose(s.book.db, id, plan));
    var b2 :=
      if id !in b.db.open then RemovePosition(b, id)
      else if id !in b.positions then b
      else
        var row := b.db.open[id];
        var p := b.positions[id].(volume := row.volume, margin := row.margin, closing := false);
        PutPosition(b, id, if plan.quote.Some? then Marked(s.w, p, plan.quote.value) else p);
    Recompute(ApplyRow(s.(book := b2), reply))
  }

  function KeepsTracked(after: After): bool { after.BreachMore? || after.AdminMore? }

  function AfterClose(s: Account, after: After): Account {
    match after
    case ManualDone => s.(run := Idle)
    case StopDone => s.(run := Idle)
    case SweepMore(rule, at, todo, failures) => SweepLoop(s, rule, at, todo, failures)
    case BreachMore(reason, todo) => CloseAllLoop(s, Some(reason), todo)
    case AdminMore(todo) => CloseAllLoop(s, None, todo)
  }

  function CloseFailed(s: Account, id: nat, after: After): Account {
    match after
    case ManualDone => s.(book := SetClosing(s.book, id, false), run := Idle)
    case StopDone => s.(run := Idle, stuck := s.stuck + {id})
    case SweepMore(rule, at, todo, failures) => SweepLoop(s.(book := SetClosing(s.book, id, false)), rule, at, todo, failures + 1)
    case BreachMore(reason, todo) => CloseAllLoop(s.(book := SetClosing(s.book, id, false)), Some(reason), todo)
    case AdminMore(todo) => CloseAllLoop(s.(book := SetClosing(s.book, id, false)), None, todo)
  }

  // ----- placing orders -----

  datatype Verdict =
    | Refused(code: RejectCode, record: bool)
    | FillNow(volume: int, price: real, margin: int)
    | Rest(order: Pending)

  function PositionCount(s: Account): int { |s.book.positions| + |s.book.pending| }

  predicate AtLimit(s: Account) {
    s.rules.maxPositions.Some? && s.rules.maxPositions.value > 0 && PositionCount(s) >= s.rules.maxPositions.value
  }

  /** Every check on a new order, in the order the engine makes them. */
  function CheckOrder(cal: Calendar, s: Account, m: OrderMsg): (v: Verdict)
    ensures !v.Refused? ==> AcceptedOrder(cal, s, m, v)
  {
    if s.book.untracked || s.breaching || !CanAutoEvaluate(s.fig.status) then Refused(AccountNotTradable, !s.book.untracked)
    else if m.symbol !in s.w.instruments || !s.w.instruments[m.symbol].enabled then Refused(UnknownSymbol, false)
    else
      var inst := s.w.instruments[m.symbol];
      var restriction := RuleRestriction(cal, s.rules, s.w, m.symbol, s.now);
      if restriction.Some? then Refused(restriction.value, true)
      else
        var q := FreshQuote(s.w, m.symbol);
        if q.None? then Refused(MarketHalted, true)
        else if ValidateVolume(m.volume, inst.volume).Some? then Refused(InvalidVolume, true)
        else if AtLimit(s) then Refused(MaxPositions, true)
        else
          var volume := RoundVolume(m.volume);
          var rate := Rate(s.w, inst.quoteCurrency);
          if !SizeAllowed(s.rules, volume) then Refused(MaxPositionSize, true)
          else if rate.None? then Refused(NoFxPath, true)
          else if m.kind.Market? then CheckMarket(s, m, inst, q.value, volume, rate.value)
          else CheckResting(s, m, inst, q.value, volume, rate.value)
  }

  function CheckMarket(s: Account, m: OrderMsg, inst: Instrument, q: Quote, volume: int, rate: real): (v: Verdict)
    ensures v.FillNow? ==> v.volume == volume && v.margin <= s.fig.equity - s.fig.marginUsed
    ensures !v.Rest?
  {
    var price := FillPrice(m.side, q);
    var stops := ValidateStops(m.side, price, m.stopLoss, m.takeProfit);
    if stops.Some? then Refused(stops.value, true)
    else
      var margin := RequiredMargin(volume, inst.contractSize, price, rate, s.rules.leverage);
      if margin > s.fig.equity - s.fig.marginUsed then Refused(InsufficientMargin, true) else FillNow(volume, price, margin)
  }

  function CheckResting(s: Account, m: OrderMsg, inst: Instrument, q: Quote, volume: int, rate: real): (v: Verdict)
    ensures v.Rest? ==> v.order.id == m.id && v.order.symbol == m.symbol && v.order.volume == volume && !v.order.triggering
    ensures !v.FillNow?
  {
    var wrong := ValidatePendingPrice(m.side, m.kind, m.price, q);
    if wrong.Some? then Refused(wrong.value, true)
    else
      var price := RoundPrice(m.price.value, inst.digits);
      var stops := ValidateStops(m.side, price, m.stopLoss, m.takeProfit);
      if stops.Some? then Refused(stops.value, true)
      else if RequiredMargin(volume, inst.contractSize, price, rate, s.rules.leverage) > s.fig.equity - s.fig.marginUsed
      then Refused(InsufficientMargin, true)
      else Rest(Pending(m.id, m.symbol, m.side, m.kind, volume, price, m.stopLoss, m.takeProfit, false))
  }

  predicate SizeAllowed(rules: Rules, volume: int) {
    rules.maxPositionSize.Some? && rules.maxPositionSize.value > 0.0 ==> Lots(volume) <= rules.maxPositionSize.value
  }

  /** What an accepted order can rely on. */
  ghost predicate AcceptedOrder(cal: Calendar, s: Account, m: OrderMsg, v: Verdict) {
    && !s.book.untracked && !s.breaching && m.symbol in s.w.instruments && s.w.open
    && RuleRestriction(cal, s.rules, s.w, m.symbol, s.now).None?
    && ValidateVolume(m.volume, s.w.instruments[m.symbol].volume).None?
    && !AtLimit(s) && SizeAllowed(s.rules, RoundVolume(m.volume))
    && (v.FillNow? ==> v.volume == RoundVolume(m.volume) && v.margin <= s.fig.equity - s.fig.marginUsed)
    && (v.Rest? ==> v.order.id == m.id && v.order.symbol == m.symbol && v.order.volume == RoundVolume(m.volume) && !v.order.triggering)
  }

  // ----- starting a queued operation -----

  function BeginPlace(cal: Calendar, s: Account, m: OrderMsg): Account {
    match CheckOrder(cal, s, m)
    case Refused(code, record) =>
      if record && m.id !in s.book.db.orders then s.(book := s.book.(db := s.book.db.(orders := s.book.db.orders[m.id := OrderRejected]))) else s
    case FillNow(volume, price, margin) => s.(run := Opening(m, volume, price, margin))
    case Rest(order) => s.(run := Resting(order))
  }

  /** The volume a close request asks for; None is a refusal. */
  function CloseVolume(s: Account, p: Position, requested: Option<real>): (v: Option<int>)
    ensures v.Some? && p.volume > 0 ==> v.value == p.volume || AcceptedPartial(s, p, requested, v.value)
  {
    if requested.None? then Some(p.volume)
    else if requested.value <= 0.0 || requested.value > Lots(p.volume) then None
    else if requested.value == Lots(p.volume) then Some(p.volume)
    else if p.symbol in s.w.instruments
            && (ValidateVolume(requested.value, s.w.instruments[p.symbol].volume).Some?
                || ValidateVolume(Lots(p.volume) - requested.value, s.w.instruments[p.symbol].volume).Some?) then None
    else Some(RoundVolume(requested.value))
  }

  ghost predicate AcceptedPartial(s: Account, p: Position, requested: Option<real>, volume: int) {
    && requested.Some? && 0.0 < requested.value < Lots(p.volume) && volume == RoundVolume(requested.value)
    && (p.symbol in s.w.instruments
        ==> ValidateVolume(requested.value, s.w.instruments[p.symbol].volume).None?
            && ValidateVolume(Lots(p.volume) - requested.value, s.w.instruments[p.symbol].volume).None?)
  }

  function BeginClose(s: Account, id: nat, requested: Option<real>): Account {
    if s.book.untracked || id !in s.book.positions || s.book.positions[id].closing || s.breaching then s
    else
      var p := s.book.positions[id];
      var q := FreshQuote(s.w, p.symbol);
      var volume := CloseVolume(s, p, requested);
      if q.None? || volume.None? then s
      else
        var plan := PlanClose(s, p, MarkPrice(p.side, q.value), volume.value, q);
        if plan.None? then s else StartClose(s, id, plan.value, ManualDone)
  }

  function BeginModify(s: Account, id: nat, sl: Option<Option<real>>, tp: Option<Option<real>>): Account {
    if s.book.untracked || id !in s.book.positions || s.book.positions[id].closing then s
    else
      var p := s.book.positions[id];
      var reference := if p.symbol in s.w.quotes then MarkPrice(p.side, s.w.quotes[p.symbol]) else p.entry;
      var stopLoss := if sl.None? then p.stopLoss else sl.value;
      var takeProfit := if tp.None? then p.takeProfit else tp.value;
      if ValidateStops(p.side, reference, stopLoss, takeProfit).Some? then s
      else s.(run := Modifying(id, stopLoss, takeProfit))
  }

  function BeginStop(s: Account, id: nat, price: real): Account {
    if id !in s.book.positions then s
    else
      var p := s.book.positions[id];
      var plan := PlanClose(s, p, price, p.volume, LookupQuote(s.w, p.symbol));
      if plan.None? then s.(stuck := s.stuck + {id}) else StartClose(s, id, plan.value, StopDone)
  }

  /** No rule is looked at here: a trigger accepted before a window may still fill inside it. */
  function BeginTrigger(s: Account, o: Pending, q: Quote): Account {
    if s.book.untracked || o.id !in s.book.pending then s
    else if o.symbol !in s.w.instruments then CancelThen(s, [o.id], CancelDone)
    else
      var inst := s.w.instruments[o.symbol];
      var rate := Rate(s.w, inst.quoteCurrency);
      var price := RoundPrice(PendingFillPrice(o.side, o.kind, o.price, q), inst.digits);
      if rate.None? then CancelThen(s, [o.id], CancelDone)
      else
        var margin := RequiredMargin(o.volume, inst.contractSize, price, rate.value, s.rules.leverage);
        if margin > s.fig.equity - s.fig.marginUsed then CancelThen(s, [o.id], CancelDone)
        else s.(run := Filling(o, price, margin))
  }

  function Perform(cal: Calendar, s: Account, q: Queued): Account {
    match q.op
    case Client(PlaceOrder(m)) => BeginPlace(cal, s, m)
    case Client(ClosePosition(id, volume)) => BeginClose(s, id, volume)
    case Client(ModifyPosition(id, sl, tp)) => BeginModify(s, id, sl, tp)
    case StopClose(id, price) => BeginStop(s, id, price)
    case TriggerOrder(o, quote) => BeginTrigger(s, o, quote)
    case Sweep(rule) => if s.book.untracked || s.breaching then s else SweepLoop(s, rule, q.at, s.book.posOrder, 0)
    case ExecuteBreach(reason) => s.(run := Flushing(reason))
    case CloseAll => CloseAllLoop(s, None, s.book.posOrder)
    case CaptureAnchor(boundary) => if s.book.untracked then s else Recompute(s).(run := Anchoring)
  }

  /** The operation at the head of the queue starts once nothing is in flight. */
  function Begin(cal: Calendar, s: Account): Account {
    if !s.run.Idle? || s.queue == [] then s
    else Perform(cal, s.(queue := s.queue[1..]), s.queue[0])
  }

  // ----- resuming after an await -----

  function NewPosition(id: nat, symbol: string, side: Side, volume: int, price: real, sl: Option<real>, tp: Option<real>, margin: int): Position {
    Position(id, symbol, side, volume, price, sl, tp, margin, Some(price), 0, false)
  }

  function RecordOpen(db: Ledger, p: Position, order: string): Ledger {
    db.(open := db.open[p.id := p], lots := db.lots[p.id := p.volume], orders := db.orders[order := OrderFilled],
        nextId := db.nextId + 1)
  }

  /** A client order id that was used before opens nothing. */
  function ResumeOpening(s: Account, m: OrderMsg, volume: int, price: real, margin: int, ok: bool): (t: Account)
    ensures t.w == s.w
  {
    if m.id in s.book.db.orders then Recompute(s.(run := Idle))
    else if !ok then s.(run := Idle)
    else
      var p := NewPosition(s.book.db.nextId, m.symbol, m.side, volume, price, m.stopLoss, m.takeProfit, margin);
      Recompute(s.(book := Opened(s.w, s.book.(db := RecordOpen(s.book.db, p, m.id)), p), run := Idle))
  }

  function ResumeResting(s: Account, o: Pending, ok: bool): Account {
    if o.id in s.book.db.orders || !ok then s.(run := Idle)
    else s.(book := AddPending(s.book.(db := s.book.db.(orders := s.book.db.orders[o.id := OrderPending])), o), run := Idle)
  }

  /** The order is settled, reported and forgotten; its position is an OPEN row. */
  function FillOrder(b: Book, order: string, p: Position): Book {
    RemovePending(b.(db := RecordOpen(b.db, p, order), results := b.results + [(order, Filled)]), order)
  }

  function ResumeFilling(s: Account, o: Pending, price: real, margin: int, ok: bool): (t: Account)
    ensures t.w == s.w
  {
    if !ok then s.(book := SetTriggering(s.book, o.id, false), run := Idle)
    else
      var p := NewPosition(s.book.db.nextId, o.symbol, o.side, o.volume, price, o.stopLoss, o.takeProfit, margin);
      var b := FillOrder(s.book, o.id, p);
      Recompute(s.(book := Opened(s.w, b, p), run := Idle))
  }

  function ResumeClosing(s: Account, id: nat, plan: ClosePlan, after: After, reply: Reply): (t: Account)
    ensures t.w == s.w
  {
    if !reply.ok then CloseFailed(s, id, after)
    else
      var s1 := ApplyClose(s, id, plan, reply);
      if !CanAutoEvaluate(reply.status) && !KeepsTracked(after) then CancelThen(s1, s1.book.ordOrder, ThenUntrack)
      else AfterClose(s1, after)
  }

  /** Each order is dropped from memory, cancelled if still PENDING, and reported. */
  function CancelOne(b: Book, id: string): Book {
    var db := if id in b.db.orders && b.db.orders[id].OrderPending?
              then b.db.(orders := b.db.orders[id := OrderCancelled]) else b.db;
    RemovePending(b.(db := db, results := b.results + [(id, Cancelled)]), id)
  }

  function CancelEach(b: Book, ids: seq<string>): Book
    decreases |ids|
  {
    if ids == [] then b else CancelEach(CancelOne(b, ids[0]), ids[1..])
  }

  function Resume(s: Account, reply: Reply): Account {
    match s.run
    case Idle => s
    case Opening(m, volume, price, margin) => ResumeOpening(s, m, volume, price, margin, reply.ok)
    case Resting(o) => ResumeResting(s, o, reply.ok)
    case Filling(o, price, margin) => ResumeFilling(s, o, price, margin, reply.ok)
    case Closing(id, plan, after) => ResumeClosing(s, id, plan, after, reply)
    case Cancelling(ids, next) => Settle(s.(book := CancelEach(s.book, ids)), next)
    case Flushing(reason) => CloseAllLoop(s, Some(reason), s.book.posOrder)
    case Failing(reason) =>
      var s1 := if reply.ok then s.(fig := s.fig.(status := reply.status, balance := s.book.db.balance)) else s;
      CancelThen(s1, s1.book.ordOrder, ThenUntrack)
    case Anchoring => if reply.ok then s.(run := Idle, fig := s.fig.(anchor := s.fig.equity)) else s.(run := Idle)
    case Modifying(id, sl, tp) =>
      if reply.ok then s.(book := SetLevels(s.book, id, sl, tp), run := Idle) else s.(run := Idle)
  }

  // ----- runs -----

  datatype Step = Happened(event: Event) | Began | Resumed(reply: Reply)

  function Next(cal: Calendar, s: Account, step: Step): Account
  {
    match step
    case Happened(e) => OnEvent(cal, s, e)
    case Began => Begin(cal, s)
    case Resumed(reply) => Resume(s, reply)
  }

  function Run(cal: Calendar, s: Account, steps: seq<Step>): Account
  {
    if steps == [] then s else Next(cal, Run(cal, s, steps[..|steps| - 1]), steps[|steps| - 1])
  }
}
