/**
 * What a close pays: the price of every close the engine starts, what the ledger records of it, and
 * what is left in memory.
 */
module LiveCloses {
  import opened Options
  import opened Money
  import opened TradingMath
  import opened TradingLaws
  import opened ChallengeRules
  import opened Live
  import opened LiveBooks
  import opened LiveFrames
  import opened LiveTicks
  import opened LiveOrders

  // ----- the price of a close -----

  /** Of the volume, the gain from the entry to the rounded price, and the commission per lot to half a cent. */
  ghost predicate Pays(w: World, p: Position, plan: ClosePlan, price: real, volume: int) {
    && p.symbol in w.instruments && w.instruments[p.symbol].quoteCurrency in w.rates
    && var inst := w.instruments[p.symbol];
       && plan.volume == volume
       && plan.gross == Worth(p.side, p.entry, RoundPrice(price, inst.digits), inst, w.rates[inst.quoteCurrency], volume)
       && Near(plan.commission, inst.commissionPerLot * volume as real, 1)
  }

  lemma PlanPays(s: Account, p: Position, price: real, volume: int, q: Option<Quote>)
    ensures var plan := PlanClose(s, p, price, volume, q);
            && (plan.Some? <==> p.symbol in s.w.instruments && s.w.instruments[p.symbol].quoteCurrency in s.w.rates)
            && (plan.Some? ==> Pays(s.w, p, plan.value, price, volume) && plan.value.quote == q)
  {
    if p.symbol in s.w.instruments && s.w.instruments[p.symbol].quoteCurrency in s.w.rates {
      var inst := s.w.instruments[p.symbol];
      WorthIsGross(p.side, p.entry, RoundPrice(price, inst.digits), inst, s.w.rates[inst.quoteCurrency], volume);
    }
  }

  /** The last quote's price to get out at. */
  ghost predicate PaysQuoted(w: World, p: Position, plan: ClosePlan, volume: int) {
    p.symbol in w.quotes && Pays(w, p, plan, ValuedAt(p.side, w.quotes[p.symbol]), volume)
  }

  /** A sweep closes at the quote, or without one at the last mark. */
  ghost predicate PaysMarked(w: World, p: Position, plan: ClosePlan) {
    if p.symbol in w.quotes then PaysQuoted(w, p, plan, p.volume)
    else p.mark.Some? && Pays(w, p, plan, p.mark.value, p.volume)
  }

  /** A close that one of the loops has just started: the whole position, at the price of its kind. */
  ghost predicate LoopPays(t: Account) {
    match t.run
    case Closing(id, plan, after) =>
      && id in t.book.positions && t.book.positions[id].closing
      && var p := t.book.positions[id];
         (match after
          case SweepMore(_, _, _, _) => PaysMarked(t.w, p, plan) && IsSession(t.w, p.symbol)
          case BreachMore(_, _) => PaysQuoted(t.w, p, plan, p.volume)
          case AdminMore(_) => PaysQuoted(t.w, p, plan, p.volume)
          case _ => false)
    case _ => true
  }

  lemma SweepStartPays(s: Account, id: nat, price: real, rule: HoldingRule, at: int, rest: seq<nat>, failures: nat)
    requires id in s.book.positions && IsSession(s.w, s.book.positions[id].symbol)
    requires var p := s.book.positions[id];
             if p.symbol in s.w.quotes then price == MarkPrice(p.side, s.w.quotes[p.symbol]) else p.mark == Some(price)
    ensures var p := s.book.positions[id];
            var plan := PlanClose(s, p, price, p.volume, LookupQuote(s.w, p.symbol));
            plan.Some? ==> LoopPays(StartClose(s, id, plan.value, SweepMore(rule, at, rest, failures)))
  {
    var p := s.book.positions[id];
    PlanPays(s, p, price, p.volume, LookupQuote(s.w, p.symbol));
  }

  lemma {:induction false} SweepLoopPays(s: Account, rule: HoldingRule, at: int, todo: seq<nat>, failures: nat)
    ensures LoopPays(SweepLoop(s, rule, at, todo, failures))
    decreases |todo|
  {
    if todo != [] {
      SweepLoopPays(s, rule, at, todo[1..], failures);
      SweepLoopPays(s, rule, at, todo[1..], failures + 1);
      SweepHeadPays(s, rule, at, todo, failures);
    }
  }

  lemma SweepHeadPays(s: Account, rule: HoldingRule, at: int, todo: seq<nat>, failures: nat)
    requires todo != []
    ensures var t := SweepLoop(s, rule, at, todo, failures);
            t == SweepLoop(s, rule, at, todo[1..], failures) || t == SweepLoop(s, rule, at, todo[1..], failures + 1) || LoopPays(t)
  {
    var id := todo[0];
    if id in s.book.positions && IsSession(s.w, s.book.positions[id].symbol) {
      var p := s.book.positions[id];
      var q := LookupQuote(s.w, p.symbol);
      if q.Some? {
        SweepStartPays(s, id, MarkPrice(p.side, q.value), rule, at, todo[1..], failures);
      } else if p.mark.Some? {
        SweepStartPays(s, id, p.mark.value, rule, at, todo[1..], failures);
      }
    }
  }

  lemma EmptyStartPays(s: Account, id: nat, reason: Option<FailureReason>, rest: seq<nat>)
    requires id in s.book.positions && s.book.positions[id].symbol in s.w.quotes
    ensures var p := s.book.positions[id];
            var q := s.w.quotes[p.symbol];
            var plan := PlanClose(s, p, MarkPrice(p.side, q), p.volume, Some(q));
            plan.Some? ==> LoopPays(StartClose(s, id, plan.value, if reason.Some? then BreachMore(reason.value, rest) else AdminMore(rest)))
  {
    var p := s.book.positions[id];
    PlanPays(s, p, MarkPrice(p.side, s.w.quotes[p.symbol]), p.volume, Some(s.w.quotes[p.symbol]));
  }

  lemma {:induction false} CloseAllLoopPays(s: Account, reason: Option<FailureReason>, todo: seq<nat>)
    ensures LoopPays(CloseAllLoop(s, reason, todo))
    decreases |todo|
  {
    if todo != [] {
      CloseAllLoopPays(s, reason, todo[1..]);
      CloseAllLoopPays(s.(book := SetClosing(s.book, todo[0], false)), reason, todo[1..]);
      if todo[0] in s.book.positions && s.book.positions[todo[0]].symbol in s.w.quotes {
        EmptyStartPays(s, todo[0], reason, todo[1..]);
      }
    }
  }

  // ----- every close the engine starts -----

  /** A trader's close: the asked part of the position, at a quote that is fresh in an open market. */
  ghost predicate ManualPays(s: Account, t: Account, id: nat, plan: ClosePlan, requested: Option<real>) {
    && id in s.book.positions && id in t.book.positions && CloseVolume(s, s.book.positions[id], requested) == Some(plan.volume)
    && s.w.open && t.book.positions[id].symbol !in s.w.stale && PaysQuoted(t.w, t.book.positions[id], plan, plan.volume)
  }

  /** A reached stop or target: the whole position, at the level that was queued. */
  ghost predicate StopPays(t: Account, id: nat, plan: ClosePlan, price: real) {
    id in t.book.positions && Pays(t.w, t.book.positions[id], plan, price, t.book.positions[id].volume)
  }

  /** The operation that starts a close, and the price it makes it at. */
  ghost predicate StartPays(s: Account, op: Op, t: Account) {
    match t.run
    case Closing(id, plan, ManualDone) =>
      op.Client? && op.command.ClosePosition? && op.command.pos == id && ManualPays(s, t, id, plan, op.command.volume)
    case Closing(id, plan, StopDone) => op.StopClose? && op.pos == id && StopPays(t, id, plan, op.price)
    case _ => LoopPays(t)
  }

  lemma ManualCloseStarts(s: Account, id: nat, requested: Option<real>)
    requires s.run.Idle?
    ensures StartPays(s, Client(ClosePosition(id, requested)), BeginClose(s, id, requested))
  {
    if id in s.book.positions && FreshQuote(s.w, s.book.positions[id].symbol).Some? {
      var volume := CloseVolume(s, s.book.positions[id], requested);
      if volume.Some? {
        QuotedStartPays(s, id, volume.value);
      }
    }
  }

  lemma QuotedStartPays(s: Account, id: nat, volume: int)
    requires id in s.book.positions && FreshQuote(s.w, s.book.positions[id].symbol).Some?
    ensures var p := s.book.positions[id];
            var q := FreshQuote(s.w, p.symbol);
            var plan := PlanClose(s, p, MarkPrice(p.side, q.value), volume, q);
            plan.Some? ==> plan.value.volume == volume && PaysQuoted(s.w, p.(closing := true), plan.value, volume)
  {
    var p := s.book.positions[id];
    PlanPays(s, p, MarkPrice(p.side, s.w.quotes[p.symbol]), volume, Some(s.w.quotes[p.symbol]));
  }

  lemma StopCloseStarts(s: Account, id: nat, price: real)
    requires s.run.Idle?
    ensures StartPays(s, StopClose(id, price), BeginStop(s, id, price))
  {
    if id in s.book.positions {
      var p := s.book.positions[id];
      PlanPays(s, p, price, p.volume, LookupQuote(s.w, p.symbol));
    }
  }

  lemma PerformPays(cal: Calendar, s: Account, q: Queued)
    requires s.run.Idle?
    ensures StartPays(s, q.op, Perform(cal, s, q))
  {
    match q.op
    case Client(ClosePosition(id, requested)) => ManualCloseStarts(s, id, requested);
    case StopClose(id, price) => StopCloseStarts(s, id, price);
    case Sweep(rule) => SweepLoopPays(s, rule, q.at, s.book.posOrder, 0);
    case CloseAll => CloseAllLoopPays(s, None, s.book.posOrder);
    case _ => NoCloseStarts(cal, s, q);
  }

  lemma NoCloseStarts(cal: Calendar, s: Account, q: Queued)
    requires s.run.Idle? && !q.op.StopClose? && !q.op.Sweep? && !q.op.CloseAll? && (q.op.Client? ==> !q.op.command.ClosePosition?)
    ensures !Perform(cal, s, q).run.Closing?
  {
  }

  /**
   * Every close an operation starts is made at the price of its kind: a trader's at the fresh quote for
   * the volume asked, a stop's at its level, a sweep's at the quote or the last mark, a breach's and an
   * administrator's at the quote; all but the first for the whole position.
   */
  lemma BeganClosePays(cal: Calendar, s: Account)
    requires s.run.Idle? && s.queue != []
    ensures StartPays(s.(queue := s.queue[1..]), s.queue[0].op, Next(cal, s, Began))
  {
    PerformPays(cal, s.(queue := s.queue[1..]), s.queue[0]);
  }

  /** And so is every next close of a loop. */
  lemma ResumedClosePays(cal: Calendar, s: Account, reply: Reply)
    ensures LoopPays(Next(cal, s, Resumed(reply)))
  {
    match s.run
    case Flushing(reason) => CloseAllLoopPays(s, Some(reason), s.book.posOrder);
    case Closing(id, plan, after) => AfterClosePays(s, id, plan, after, reply);
    case _ => NoCloseResumes(s, reply);
  }

  lemma NoCloseResumes(s: Account, reply: Reply)
    requires !s.run.Flushing? && !s.run.Closing?
    ensures !Resume(s, reply).run.Closing?
  {
    match s.run
    case Opening(m, volume, price, margin) => OpeningAdmits(s, m, volume, price, margin, reply.ok);
    case Filling(o, price, margin) => FillingAdmits(s, o, price, margin, reply.ok);
    case _ =>
  }

  lemma AfterClosePays(s: Account, id: nat, plan: ClosePlan, after: After, reply: Reply)
    ensures LoopPays(ResumeClosing(s, id, plan, after, reply))
  {
    var t := if reply.ok then ApplyClose(s, id, plan, reply) else s.(book := SetClosing(s.book, id, false));
    match after
    case SweepMore(rule, at, todo, failures) =>
      SweepLoopPays(t, rule, at, todo, failures);
      SweepLoopPays(t, rule, at, todo, failures + 1);
    case BreachMore(reason, todo) => CloseAllLoopPays(t, Some(reason), todo);
    case AdminMore(todo) => CloseAllLoopPays(t, None, todo);
    case _ =>
  }

  // ----- what the ledger records -----

  /** Of `margin` for the whole, `left` stays when a part goes: the share of the rest, to half a cent. */
  ghost predicate StaysFor(margin: int, left: int, whole: int, part: int) {
    -whole <= 2 * (left * whole - margin * (whole - part)) <= whole
  }

  /** The rest of a partly closed row: the same position, smaller. */
  ghost predicate Smaller(row: Position, rest: Position, part: int) {
    rest == row.(volume := row.volume - part, margin := rest.margin) && StaysFor(row.margin, rest.margin, row.volume, part)
  }

  /** A trade of the closed volume, credited with the gain less the commission; a row closed elsewhere leaves no trace. */
  ghost predicate Recorded(db: Ledger, after: Ledger, id: nat, plan: ClosePlan) {
    if id !in db.open then after == db
    else
      var row := db.open[id];
      && after.balance == db.balance + plan.gross - plan.commission
      && after.orders == db.orders && after.lots == db.lots && after.voided == db.voided
      && if plan.volume >= row.volume then
           && after.open == db.open - {id}
           && after.trades == db.trades + [Trade(id, row.volume, true, plan.gross - plan.commission)]
         else
           && id in after.open && after.open == db.open[id := after.open[id]] && Smaller(row, after.open[id], plan.volume)
           && after.trades == db.trades + [Trade(id, plan.volume, false, plan.gross - plan.commission)]
  }

  lemma CloseRecorded(db: Ledger, id: nat, plan: ClosePlan)
    requires plan.volume >= 0
    ensures Recorded(db, RecordClose(db, id, plan), id, plan)
  {
    if id in db.open && plan.volume < db.open[id].volume {
      PartShares(db.open[id].margin, plan.volume, db.open[id].volume);
    }
  }

  /** The margin released is the share of what is closed, to half a cent. */
  lemma PartShares(margin: int, part: int, whole: int)
    requires 0 <= part < whole
    ensures StaysFor(margin, margin - PartOf(margin, part, whole), whole, part)
  {
    var exact := margin as real * (part as real / whole as real);
    var released := RoundCents(exact);
    Quotient(margin as real, part as real, whole as real);
    ScaleNear(released as real, exact, whole as real, margin as real * part as real);
    WholeDifference(released, whole, margin, part);
    Expand(margin, released, whole, part);
  }

  lemma WholeDifference(a: int, b: int, c: int, d: int)
    ensures (a * b - c * d) as real == a as real * b as real - c as real * d as real
  {
    assert (a * b) as real == a as real * b as real && (c * d) as real == c as real * d as real;
  }

  lemma Quotient(x: real, y: real, z: real)
    requires z > 0.0
    ensures x * (y / z) * z == x * y
  {
    var q := y / z;
    assert q * z == y;
    assert x * q * z == x * (q * z);
  }

  lemma Expand(margin: int, released: int, whole: int, part: int)
    ensures (margin - released) * whole - margin * (whole - part) == -(released * whole - margin * part)
  {
  }

  lemma {:induction false} SweepKeepsRows(s: Account, rule: HoldingRule, at: int, todo: seq<nat>, failures: nat)
    ensures SweepLoop(s, rule, at, todo, failures).book.db == s.book.db
    decreases |todo|
  {
    if todo != [] {
      SweepKeepsRows(s, rule, at, todo[1..], failures);
      SweepKeepsRows(s, rule, at, todo[1..], failures + 1);
    }
  }

  lemma {:induction false} EmptyingKeepsRows(s: Account, reason: Option<FailureReason>, todo: seq<nat>)
    ensures CloseAllLoop(s, reason, todo).book.db == s.book.db
    decreases |todo|
  {
    if todo != [] {
      EmptyingKeepsRows(s, reason, todo[1..]);
      EmptyingKeepsRows(s.(book := SetClosing(s.book, todo[0], false)), reason, todo[1..]);
    }
  }

  lemma AfterCloseKeepsRows(s: Account, after: After)
    ensures AfterClose(s, after).book.db == s.book.db
  {
    match after
    case SweepMore(rule, at, todo, failures) => SweepKeepsRows(s, rule, at, todo, failures);
    case BreachMore(reason, todo) => EmptyingKeepsRows(s, Some(reason), todo);
    case AdminMore(todo) => EmptyingKeepsRows(s, None, todo);
    case _ =>
  }

  lemma FailedCloseKeepsRows(s: Account, id: nat, after: After)
    ensures CloseFailed(s, id, after).book.db == s.book.db
  {
    var t := s.(book := SetClosing(s.book, id, false));
    match after
    case SweepMore(rule, at, todo, failures) => SweepKeepsRows(t, rule, at, todo, failures + 1);
    case BreachMore(reason, todo) => EmptyingKeepsRows(t, Some(reason), todo);
    case AdminMore(todo) => EmptyingKeepsRows(t, None, todo);
    case _ =>
  }

  /** What the answer to a close leaves in the ledger, whatever the close was part of. */
  lemma ResumedCloseRecords(cal: Calendar, s: Account, reply: Reply)
    requires s.run.Closing? && s.run.plan.volume >= 0
    ensures var after := Next(cal, s, Resumed(reply)).book.db;
            if reply.ok then Recorded(s.book.db, after, s.run.pos, s.run.plan) else after == s.book.db
  {
    var id, plan := s.run.pos, s.run.plan;
    if reply.ok {
      CloseRecorded(s.book.db, id, plan);
      assert ApplyClose(s, id, plan, reply).book.db == RecordClose(s.book.db, id, plan);
      AfterCloseKeepsRows(ApplyClose(s, id, plan, reply), s.run.after);
    } else {
      FailedCloseKeepsRows(s, id, s.run.after);
    }
  }

  /** When the close was the account's last - the rules passed or failed it - it goes off, with its resting orders first. */
  lemma LastCloseLeaves(cal: Calendar, s: Account, reply: Reply)
    requires s.run.Closing? && !KeepsTracked(s.run.after) && reply.ok && reply.status != Active && reply.status != FundedStatus
    ensures var t := Next(cal, s, Resumed(reply));
            t.book.untracked || (t.run.Cancelling? && t.run.next.ThenUntrack? && t.run.orders == s.book.ordOrder)
  {
    assert ApplyClose(s, s.run.pos, s.run.plan, reply).book.ordOrder == s.book.ordOrder;
  }

  // ----- how much is closed -----

  /** All of it when nothing is said, or what is said if it is no more than that and both parts are volumes of the instrument. */
  lemma CloseVolumeIs(s: Account, p: Position, requested: Option<real>)
    ensures CloseVolume(s, p, requested)
            == if requested.None? then Some(p.volume)
               else if requested.value <= 0.0 || requested.value > Lots(p.volume) then None
               else if requested.value == Lots(p.volume) then Some(p.volume)
               else if p.symbol in s.w.instruments && !PartsFit(requested.value, p.volume, s.w.instruments[p.symbol].volume) then None
               else Some(RoundVolume(requested.value))
  {
    if requested.Some? && p.symbol in s.w.instruments {
      VolumeValidIff(requested.value, s.w.instruments[p.symbol].volume);
      VolumeValidIff(Lots(p.volume) - requested.value, s.w.instruments[p.symbol].volume);
    }
  }

  ghost predicate PartsFit(part: real, volume: int, rule: VolumeRule) {
    VolumeFits(part, rule) && VolumeFits(Lots(volume) - part, rule)
  }

  // ----- a stop closes -----

  /** A queued stop closes its position, whole and at its level, when its turn comes and the ledger answers. */
  lemma StopCloses(cal: Calendar, s: Account, id: nat, price: real, at: int, reply: Reply)
    requires s.run.Idle? && s.queue == [Queued(StopClose(id, price), at)] && id in s.book.positions && reply.ok
    requires id in s.book.db.open && s.book.db.open[id].volume == s.book.positions[id].volume >= 0
    requires var symbol := s.book.positions[id].symbol;
             symbol in s.w.instruments && s.w.instruments[symbol].quoteCurrency in s.w.rates
    ensures var p := s.book.positions[id];
            var inst := s.w.instruments[p.symbol];
            var gross := Worth(p.side, p.entry, RoundPrice(price, inst.digits), inst, s.w.rates[inst.quoteCurrency], p.volume);
            var net := gross - Commission(inst.commissionPerLot, p.volume);
            var t := Next(cal, Next(cal, s, Began), Resumed(reply));
            && t.book.db.trades == s.book.db.trades + [Trade(id, p.volume, true, net)] && t.book.db.balance == s.book.db.balance + net
            && t.book.db.open == s.book.db.open - {id} && id !in t.book.positions
  {
    assert s.queue[1..] == [];
    var p := s.book.positions[id];
    var inst := s.w.instruments[p.symbol];
    WorthIsGross(p.side, p.entry, RoundPrice(price, inst.digits), inst, s.w.rates[inst.quoteCurrency], p.volume);
    StopStarts(cal, s, id, price);
    ResumedCloseRecords(cal, Next(cal, s, Began), reply);
  }

  lemma StopStarts(cal: Calendar, s: Account, id: nat, price: real)
    requires s.run.Idle? && |s.queue| == 1 && s.queue[0].op == StopClose(id, price) && id in s.book.positions
    requires var symbol := s.book.positions[id].symbol;
             symbol in s.w.instruments && s.w.instruments[symbol].quoteCurrency in s.w.rates
    ensures var p := s.book.positions[id];
            var t := Next(cal, s, Began);
            && t == s.(queue := [], book := SetClosing(s.book, id, true), run := t.run)
            && t.run.Closing? && t.run.pos == id && t.run.after.StopDone? && t.run.plan.volume == p.volume
            && var inst := s.w.instruments[p.symbol];
               && t.run.plan.gross == Gross(GainPerHundredth(p.side, p.entry, RoundPrice(price, inst.digits), inst.contractSize,
                                                            s.w.rates[inst.quoteCurrency]), p.volume)
               && t.run.plan.commission == Commission(inst.commissionPerLot, p.volume)
  {
    assert s.queue[1..] == [];
  }

  // ----- in and out -----

  /** The account can close the position by hand: tracked, not breaching, and quoted afresh. */
  predicate CanCloseByHand(s: Account, id: nat) {
    && !s.book.untracked && !s.breaching && id in s.book.positions && !s.book.positions[id].closing
    && var symbol := s.book.positions[id].symbol;
       && symbol in s.w.quotes && symbol !in s.w.stale && s.w.open
       && symbol in s.w.instruments && s.w.instruments[symbol].quoteCurrency in s.w.rates
  }

  /** What the whole position pays at the quote. */
  function NetAtQuote(w: World, p: Position): int
    requires p.symbol in w.quotes && p.symbol in w.instruments && w.instruments[p.symbol].quoteCurrency in w.rates
  {
    var inst := w.instruments[p.symbol];
    Worth(p.side, p.entry, RoundPrice(ValuedAt(p.side, w.quotes[p.symbol]), inst.digits), inst, w.rates[inst.quoteCurrency], p.volume)
    - Commission(inst.commissionPerLot, p.volume)
  }

  lemma CloseByHandStarts(cal: Calendar, s: Account, id: nat)
    requires AtRest(s) && CanCloseByHand(s, id)
    ensures var p := s.book.positions[id];
            var t := Next(cal, Next(cal, s, Happened(Submitted(ClosePosition(id, None)))), Began);
            && t == s.(book := SetClosing(s.book, id, true), run := t.run)
            && t.run.Closing? && t.run.pos == id && t.run.after.ManualDone? && t.run.plan.volume == p.volume
            && t.run.plan.gross - t.run.plan.commission == NetAtQuote(s.w, p)
  {
    Starts(cal, s, ClosePosition(id, None));
    var p := s.book.positions[id];
    var inst := s.w.instruments[p.symbol];
    WorthIsGross(p.side, p.entry, RoundPrice(ValuedAt(p.side, s.w.quotes[p.symbol]), inst.digits), inst, s.w.rates[inst.quoteCurrency], p.volume);
  }

  /** A whole close by hand is one trade, credited at the quote; the position is gone from memory and from the rows. */
  lemma CloseByHandPays(cal: Calendar, s: Account, id: nat, reply: Reply)
    requires AtRest(s) && CanCloseByHand(s, id) && reply.ok
    requires id in s.book.db.open && s.book.db.open[id].volume == s.book.positions[id].volume >= 0
    ensures var p := s.book.positions[id];
            var t := Handled(cal, s, ClosePosition(id, None), reply);
            && t.book.db.trades == s.book.db.trades + [Trade(id, p.volume, true, NetAtQuote(s.w, p))]
            && t.book.db.balance == s.book.db.balance + NetAtQuote(s.w, p)
            && t.book.db.open == s.book.db.open - {id} && id !in t.book.positions
  {
    CloseByHandStarts(cal, s, id);
    var t := Next(cal, Next(cal, s, Happened(Submitted(ClosePosition(id, None)))), Began);
    ResumedCloseRecords(cal, t, reply);
  }

  lemma OnGridStays(price: real, digits: nat)
    requires IsWhole(Points(digits)(price))
    ensures RoundPrice(price, digits) == price
  {
    RoundPricePoints(price, digits);
    WholeStays(Points(digits)(price));
    PointsInOrder(digits);
    SamePoints(Points(digits), RoundPrice(price, digits), price);
  }

  lemma WholeStays(x: real)
    requires IsWhole(x)
    ensures RoundHalfUp(x) as real == x
  {
    WholeSide(x, x.Floor, x);
  }

  lemma SamePoints(points: real -> real, a: real, b: real)
    requires InOrder(points) && points(a) == points(b)
    ensures a == b
  {
    assert !(a < b) && !(b < a);
  }

  /** The spread on a volume, and the commission of the close. */
  function SpreadCost(inst: Instrument, q: Quote, rate: real, volume: int): int {
    RoundCents(Value(q.ask - q.bid, inst, rate, volume)) + Commission(inst.commissionPerLot, volume)
  }

  lemma WorthOfSpread(side: Side, q: Quote, inst: Instrument, rate: real, volume: int)
    ensures var entry := if side.Buy? then q.ask else q.bid;
            Worth(side, entry, ValuedAt(side, q), inst, rate, volume) == -RoundCents(Value(q.ask - q.bid, inst, rate, volume))
  {
    assert q.bid - q.ask == -(q.ask - q.bid);
    ValueOdd(q.ask - q.bid, inst, rate, volume);
    RoundCentsOdd(Value(q.ask - q.bid, inst, rate, volume));
  }

  lemma ValueOdd(move: real, inst: Instrument, rate: real, volume: int)
    ensures Value(-move, inst, rate, volume) == -Value(move, inst, rate, volume)
  {
    var a := move * inst.contractSize;
    assert -move * inst.contractSize == -a;
    Opposite(a, rate);
    Opposite(a * rate, volume as real);
  }

  /** The position a market order opened can be closed by hand at the same quote. */
  lemma OpenedCanClose(cal: Calendar, s: Account, m: OrderMsg, reply: Reply)
    requires AtRest(s) && m.kind.Market? && MayTrade(cal, s, m) && PriceFits(s, m) && m.id !in s.book.db.orders && reply.ok
    ensures var q, id, t := s.w.quotes[m.symbol], s.book.db.nextId, Handled(cal, s, PlaceOrder(m), reply);
            && AtRest(t) && CanCloseByHand(t, id) && t.w == s.w
            && var p := t.book.positions[id];
               && p.symbol == m.symbol && p.side == m.side && p.volume == RoundVolume(m.volume) >= 0
               && p.entry == (if m.side.Buy? then q.ask else q.bid)
               && t.book.db.trades == s.book.db.trades && t.book.db.balance == s.book.db.balance
               && id in t.book.db.open && t.book.db.open[id].volume == p.volume && t.book.db.open - {id} == s.book.db.open - {id}
  {
    MarketOrderOpens(cal, s, m, reply);
    var t, id := Handled(cal, s, PlaceOrder(m), reply), s.book.db.nextId;
    assert s.book.db.open[id := t.book.db.open[id]] - {id} == s.book.db.open - {id};
    VolumePositive(m.volume);
  }

  /**
   * In and out at one quote whose prices are on the instrument's grid: a market order of either side,
   * closed by hand before anything moves, costs the account exactly the spread and the commission.
   */
  lemma RoundTripCostsSpread(cal: Calendar, s: Account, m: OrderMsg, entered: Reply, left: Reply)
    requires AtRest(s) && m.kind.Market? && MayTrade(cal, s, m) && PriceFits(s, m) && m.id !in s.book.db.orders && entered.ok && left.ok
    requires IsWhole(Points(s.w.instruments[m.symbol].digits)(ValuedAt(m.side, s.w.quotes[m.symbol])))
    ensures Spent(s, Handled(cal, Handled(cal, s, PlaceOrder(m), entered), ClosePosition(s.book.db.nextId, None), left),
                  s.w.instruments[m.symbol], s.w.quotes[m.symbol], RoundVolume(m.volume))
  {
    var t := Handled(cal, s, PlaceOrder(m), entered);
    OpenedCanClose(cal, s, m, entered);
    assert CanLeave(s, t, m.side, s.w.quotes[m.symbol], m.symbol, RoundVolume(m.volume));
    LeavingSpends(cal, s, t, m.side, s.w.quotes[m.symbol], m.symbol, RoundVolume(m.volume), left);
  }

  /** One trade, credited with minus the spread and the commission, and nothing else left of it. */
  ghost predicate Spent(s: Account, u: Account, inst: Instrument, q: Quote, volume: int)
    requires inst.quoteCurrency in s.w.rates
  {
    var id, cost := s.book.db.nextId, SpreadCost(inst, q, s.w.rates[inst.quoteCurrency], volume);
    && u.book.db.trades == s.book.db.trades + [Trade(id, volume, true, -cost)] && u.book.db.balance == s.book.db.balance - cost
    && u.book.db.open == s.book.db.open - {id} && id !in u.book.positions
  }

  /** The position just entered at `q` is all that is new. */
  ghost predicate CanLeave(s: Account, t: Account, side: Side, q: Quote, symbol: string, volume: int) {
    var id := s.book.db.nextId;
    && AtRest(t) && CanCloseByHand(t, id) && t.w == s.w && volume >= 0
    && var p := t.book.positions[id];
       && p.symbol == symbol && p.side == side && p.volume == volume && s.w.quotes[symbol] == q
       && p.entry == (if side.Buy? then q.ask else q.bid)
       && t.book.db.trades == s.book.db.trades && t.book.db.balance == s.book.db.balance
       && id in t.book.db.open && t.book.db.open[id].volume == p.volume && t.book.db.open - {id} == s.book.db.open - {id}
  }

  lemma LeavingSpends(cal: Calendar, s: Account, t: Account, side: Side, q: Quote, symbol: string, volume: int, reply: Reply)
    requires CanLeave(s, t, side, q, symbol, volume) && reply.ok
    requires IsWhole(Points(s.w.instruments[symbol].digits)(ValuedAt(side, q)))
    ensures Spent(s, Handled(cal, t, ClosePosition(s.book.db.nextId, None), reply), s.w.instruments[symbol], q, volume)
  {
    LeavingCosts(cal, t, s.book.db.nextId, q, reply);
  }

  /** A position entered at the quote's own fill price, closed at that quote. */
  lemma LeavingCosts(cal: Calendar, s: Account, id: nat, q: Quote, reply: Reply)
    requires AtRest(s) && CanCloseByHand(s, id) && reply.ok && s.w.quotes[s.book.positions[id].symbol] == q
    requires id in s.book.db.open && s.book.db.open[id].volume == s.book.positions[id].volume >= 0
    requires var p := s.book.positions[id];
             && p.entry == (if p.side.Buy? then q.ask else q.bid)
             && IsWhole(Points(s.w.instruments[p.symbol].digits)(ValuedAt(p.side, q)))
    ensures var p := s.book.positions[id];
            var inst := s.w.instruments[p.symbol];
            var cost := SpreadCost(inst, q, s.w.rates[inst.quoteCurrency], p.volume);
            var t := Handled(cal, s, ClosePosition(id, None), reply);
            && t.book.db.trades == s.book.db.trades + [Trade(id, p.volume, true, -cost)] && t.book.db.balance == s.book.db.balance - cost
            && t.book.db.open == s.book.db.open - {id} && id !in t.book.positions
  {
    CloseByHandPays(cal, s, id, reply);
    NetOfSpread(s.w, s.book.positions[id], q);
  }

  lemma VolumePositive(volume: real)
    requires volume > 0.0
    ensures RoundVolume(volume) >= 0
  {
  }

  lemma NetOfSpread(w: World, p: Position, q: Quote)
    requires p.symbol in w.quotes && w.quotes[p.symbol] == q && p.symbol in w.instruments && w.instruments[p.symbol].quoteCurrency in w.rates
    requires p.entry == (if p.side.Buy? then q.ask else q.bid) && IsWhole(Points(w.instruments[p.symbol].digits)(ValuedAt(p.side, q)))
    ensures var inst := w.instruments[p.symbol];
            NetAtQuote(w, p) == -SpreadCost(inst, q, w.rates[inst.quoteCurrency], p.volume)
  {
    var inst := w.instruments[p.symbol];
    OnGridStays(ValuedAt(p.side, q), inst.digits);
    WorthOfSpread(p.side, q, inst, w.rates[inst.quoteCurrency], p.volume);
  }
}
