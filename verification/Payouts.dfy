/**
 * Payouts of one funded account: the trader's share of the profit, requests against what is left of
 * it, and the maker-checker decisions, each split into the read of the row and its claim. Money in
 * cents; the profit split is a whole percentage.
 */
module Payouts {
  import opened Options
  import opened Money

  const MIN_PAYOUT := 50_000

  datatype Status = Pending | Approved | Paid | Rejected

  datatype Payout = Payout(amount: int, status: Status, createdBy: string, approvedBy: Option<string>, paidBy: Option<string>)

  /** The two legs of a paid payout in the ledger: to the trader and to the firm. */
  datatype Debit = Debit(payout: nat, amount: int, firmShare: int)

  /** A decision whose checks passed on the row as read, not yet claimed. */
  datatype Decision = Decision(payout: nat, to: Status, actor: string)

  datatype State = State(startingBalance: int, split: int, balance: int, payouts: seq<Payout>, debits: seq<Debit>, decisions: map<nat, Decision>, next: nat)

  // ----- arithmetic -----

  /** `split` per cent of an amount, before rounding. */
  function Portion(split: int): int -> real { (x: int) => x as real * split as real / 100.0 }

  function Share(profit: int, split: int): int { ShareBy(Portion(split), profit) }

  function ShareBy(portion: int -> real, profit: int): int { RoundCents(portion(Max(0, profit))) }

  /** The profit that a payout of `amount` uses up. */
  function Consumed(amount: int, split: int): int {
    if split > 0 then RoundCents(amount as real * 100.0 / split as real) else amount
  }

  predicate Committed(p: Payout) { p.status.Pending? || p.status.Approved? }

  function CommittedSum(payouts: seq<Payout>): int {
    if payouts == [] then 0
    else CommittedSum(payouts[..|payouts| - 1]) + if Committed(payouts[|payouts| - 1]) then payouts[|payouts| - 1].amount else 0
  }

  function PaidSum(payouts: seq<Payout>): int {
    if payouts == [] then 0
    else PaidSum(payouts[..|payouts| - 1]) + if payouts[|payouts| - 1].status.Paid? then payouts[|payouts| - 1].amount else 0
  }

  function PaidCount(payouts: seq<Payout>): nat {
    if payouts == [] then 0
    else PaidCount(payouts[..|payouts| - 1]) + if payouts[|payouts| - 1].status.Paid? then 1 else 0
  }

  function Profit(s: State): int { s.balance - s.startingBalance }

  function Available(s: State): int { Max(0, Share(Profit(s), s.split) - CommittedSum(s.payouts)) }

  // ----- operations -----

  /** The checks and the insert are one step; `eligible` stands for status, KYC, funded days and consistency. */
  function Request(s: State, amount: int, author: string, eligible: bool): State {
    if amount < MIN_PAYOUT || !eligible || amount > Available(s) then s
    else s.(payouts := s.payouts + [Payout(amount, Pending, author, None, None)])
  }

  predicate MayDecide(p: Payout, to: Status, actor: string) {
    match to
    case Pending => false
    case Approved => p.createdBy != actor && p.status.Pending?
    case Paid => p.status.Approved? && p.approvedBy != Some(actor) && p.createdBy != actor
    case Rejected => p.status.Pending? || p.status.Approved?
  }

  function ReadDecision(s: State, id: nat, to: Status, actor: string): State {
    if id < |s.payouts| && MayDecide(s.payouts[id], to, actor)
    then s.(decisions := s.decisions[s.next := Decision(id, to, actor)], next := s.next + 1)
    else s
  }

  /** The statuses the conditional write accepts. */
  predicate ClaimFrom(status: Status, to: Status) {
    match to
    case Pending => false
    case Approved => status.Pending?
    case Paid => status.Approved?
    case Rejected => status.Pending? || status.Approved?
  }

  function Decided(p: Payout, to: Status, actor: string): Payout {
    match to
    case Pending => p
    case Approved => p.(status := Approved, approvedBy := Some(actor))
    case Paid => p.(status := Paid, paidBy := Some(actor))
    case Rejected => p.(status := Rejected)
  }

  /** The balance moves by the profit consumed, in two ledger legs. */
  function DebitFor(s: State, id: nat): Debit
    requires id < |s.payouts|
  {
    var amount := s.payouts[id].amount;
    Debit(id, amount, Max(0, Consumed(amount, s.split) - amount))
  }

  function Claim(s: State, k: nat): State {
    if k !in s.decisions then s
    else
      var d := s.decisions[k];
      var t := s.(decisions := s.decisions - {k});
      if d.payout >= |s.payouts| || !ClaimFrom(s.payouts[d.payout].status, d.to) then t
      else
        var u := t.(payouts := t.payouts[d.payout := Decided(t.payouts[d.payout], d.to, d.actor)]);
        if d.to.Paid?
        then u.(balance := u.balance - Consumed(s.payouts[d.payout].amount, s.split), debits := u.debits + [DebitFor(s, d.payout)])
        else u
  }

  datatype Step =
    | Requested(amount: int, author: string, eligible: bool)
    | DecisionRead(id: nat, to: Status, actor: string)
    | DecisionClaimed(k: nat)
    | TradeClosed(net: int)

  function Next(s: State, step: Step): State {
    match step
    case Requested(amount, author, eligible) => Request(s, amount, author, eligible)
    case DecisionRead(id, to, actor) => ReadDecision(s, id, to, actor)
    case DecisionClaimed(k) => Claim(s, k)
    case TradeClosed(net) => s.(balance := s.balance + net)
  }

  function Start(startingBalance: int, split: int, balance: int): State {
    State(startingBalance, split, balance, [], [], map[], 0)
  }

  function Run(s: State, steps: seq<Step>): State {
    if steps == [] then s else Next(Run(s, steps[..|steps| - 1]), steps[|steps| - 1])
  }

  predicate NoTrading(steps: seq<Step>) { forall i :: 0 <= i < |steps| ==> !steps[i].TradeClosed? }

  function Trading(steps: seq<Step>): int {
    if steps == [] then 0
    else Trading(steps[..|steps| - 1]) + if steps[|steps| - 1].TradeClosed? then steps[|steps| - 1].net else 0
  }

  // ----- the service's form -----

  class PayoutDesk {
    const startingBalance: int
    const split: int
    var balance: int
    var payouts: seq<Payout>
    var debits: seq<Debit>
    var decisions: map<nat, Decision>
    var next: nat

    function View(): State
      reads this
    {
      State(startingBalance, split, balance, payouts, debits, decisions, next)
    }

    constructor (startingBalance: int, split: int, balance: int)
      ensures View() == Start(startingBalance, split, balance)
    {
      this.startingBalance, this.split, this.balance := startingBalance, split, balance;
      payouts, debits, decisions, next := [], [], map[], 0;
    }

    method ComputeAvailability() returns (available: int)
      ensures available == Available(View())
    {
      var committed := 0;
      for i := 0 to |payouts|
        invariant committed == CommittedSum(payouts[..i])
      {
        assert payouts[..i + 1][..i] == payouts[..i];
        if payouts[i].status.Pending? || payouts[i].status.Approved? {
          committed := committed + payouts[i].amount;
        }
      }
      assert payouts[..|payouts|] == payouts;
      var traderShare := Share(balance - startingBalance, split);
      available := Max(0, traderShare - committed);
    }

    method CreatePayout(amount: int, author: string, eligible: bool) returns (created: bool)
      modifies this`payouts
      ensures View() == Request(old(View()), amount, author, eligible)
      ensures created <==> payouts != old(payouts)
    {
      created := false;
      if amount < MIN_PAYOUT || !eligible {
        return;
      }
      var available := ComputeAvailability();
      if amount <= available {
        payouts := payouts + [Payout(amount, Pending, author, None, None)];
        created := true;
      }
    }

    method ReadPayout(id: nat, to: Status, actor: string)
      modifies this`decisions, this`next
      ensures View() == ReadDecision(old(View()), id, to, actor)
    {
      if id < |payouts| && MayDecide(payouts[id], to, actor) {
        decisions := decisions[next := Decision(id, to, actor)];
        next := next + 1;
      }
    }

    method ClaimDecision(k: nat)
      modifies this
      ensures View() == Claim(old(View()), k)
    {
      if k !in decisions {
        return;
      }
      var d := decisions[k];
      decisions := decisions - {k};
      if d.payout < |payouts| && ClaimFrom(payouts[d.payout].status, d.to) {
        var p := payouts[d.payout];
        payouts := payouts[d.payout := Decided(p, d.to, d.actor)];
        if d.to.Paid? {
          var consumed := Consumed(p.amount, split);
          var firmShare := consumed - p.amount;
          balance := balance - consumed;
          debits := debits + [Debit(d.payout, p.amount, if firmShare > 0 then firmShare else 0)];
        }
      }
    }
  }

  // ----- rounding -----

  /** A payout never uses up less than itself, and its share of what it uses up is the amount to half a cent. */
  lemma ConsumedNear(amount: int, split: int)
    requires amount >= 0 && 1 <= split <= 100
    ensures Consumed(amount, split) >= amount
    ensures -0.5 <= Portion(split)(Consumed(amount, split)) - amount as real <= 0.5
    ensures Portion(split)(Consumed(amount, split) - 1) <= amount as real
  {
    var s := split as real;
    var x := amount as real * 100.0 / s;
    var c := Consumed(amount, split);
    assert x * s == amount as real * 100.0;
    assert x - 0.5 <= c as real <= x + 0.5;
    ScaleBounds(c as real, x, s);
    AtLeast(x, amount as real, s);
    AmountBelow(c, amount, x);
    OneLess((c - 1) as real, c as real, x, s, amount as real);
  }

  lemma Product(a: real, b: real)
    requires a >= 0.0 && b >= 0.0
    ensures a * b >= 0.0
  {
  }

  lemma ScaleBounds(c: real, x: real, s: real)
    requires x - 0.5 <= c <= x + 0.5 && 1.0 <= s <= 100.0
    ensures x * s - 50.0 <= c * s <= x * s + 50.0
  {
    var d := c - x;
    assert c * s == x * s + d * s;
    Product(0.5 - d, s);
    Product(0.5 + d, s);
    assert (0.5 - d) * s == 0.5 * s - d * s && (0.5 + d) * s == 0.5 * s + d * s;
  }

  lemma OneLess(e: real, c: real, x: real, s: real, a: real)
    requires e == c - 1.0 && c <= x + 0.5 && 1.0 <= s <= 100.0 && x * s == a * 100.0
    ensures e * s / 100.0 <= a
  {
    Product(x - e, s);
    assert (x - e) * s == x * s - e * s;
  }

  lemma AtLeast(x: real, a: real, s: real)
    requires x * s == a * 100.0 && a >= 0.0 && 1.0 <= s <= 100.0
    ensures x >= a
  {
    assert a * s <= a * 100.0;
    assert (x - a) * s == x * s - a * s;
    PositiveFactor(x - a, s);
  }

  lemma PositiveFactor(d: real, s: real)
    requires d * s >= 0.0 && s >= 1.0
    ensures d >= 0.0
  {
  }

  lemma AmountBelow(c: int, amount: int, x: real)
    requires x - 0.5 <= c as real && amount as real <= x
    ensures c >= amount
  {
  }

  lemma ScaleMonotone(p: real, q: real, s: real)
    requires p <= q && s >= 0.0
    ensures p * s / 100.0 <= q * s / 100.0
  {
    Product(q - p, s);
    assert (q - p) * s == q * s - p * s;
  }

  ghost predicate Rising(portion: int -> real) {
    portion(0) == 0.0 && forall p, q :: 0 <= p <= q ==> portion(p) <= portion(q)
  }

  lemma PortionRises(split: int)
    requires split >= 0
    ensures Rising(Portion(split))
  {
    forall p: int, q: int | 0 <= p <= q ensures Portion(split)(p) <= Portion(split)(q) {
      ScaleMonotone(p as real, q as real, split as real);
    }
  }

  lemma ShareMonotone(p: int, q: int, split: int)
    requires p <= q && split >= 0
    ensures 0 <= Share(p, split) <= Share(q, split)
  {
    PortionRises(split);
    ShareByMonotone(Portion(split), p, q);
  }

  lemma ShareByMonotone(portion: int -> real, p: int, q: int)
    requires Rising(portion) && p <= q
    ensures 0 <= ShareBy(portion, p) <= ShareBy(portion, q)
  {
    RoundCentsMonotone(portion(Max(0, p)), portion(Max(0, q)));
    assert portion(0) <= portion(Max(0, p));
  }

  lemma PortionGap(profit: int, c: int, split: int)
    ensures Portion(split)(profit) - Portion(split)(profit - c) == Portion(split)(c)
  {
    Distribute(profit as real, c as real, (profit - c) as real, split as real);
  }

  lemma Distribute(p: real, c: real, rest: real, s: real)
    requires rest == p - c
    ensures p * s / 100.0 - rest * s / 100.0 == c * s / 100.0
  {
    assert rest * s == p * s - c * s;
  }

  /** Paying moves the share by the amount, to the cent, while the profit covers what is consumed. */
  lemma ShareAfterPay(profit: int, amount: int, split: int)
    requires amount >= 0 && 1 <= split <= 100 && profit >= Consumed(amount, split)
    ensures -1 <= Share(profit, split) - Share(profit - Consumed(amount, split), split) - amount <= 1
  {
    ConsumedNear(amount, split);
    PortionGap(profit, Consumed(amount, split), split);
    ShareOfGap(Portion(split), profit, profit - Consumed(amount, split), amount);
  }

  lemma ShareOfGap(portion: int -> real, profit: int, rest: int, amount: int)
    requires profit >= 0 && rest >= 0 && -0.5 <= portion(profit) - portion(rest) - amount as real <= 0.5
    ensures -1 <= ShareBy(portion, profit) - ShareBy(portion, rest) - amount <= 1
  {
    RoundCentsShift(portion(profit), portion(rest), amount);
  }

  /** When it does not, the share was no larger than the amount and becomes nothing. */
  lemma ShareAfterOverpay(profit: int, amount: int, split: int)
    requires amount >= 0 && 1 <= split <= 100 && profit < Consumed(amount, split)
    ensures Share(profit, split) <= amount && Share(profit - Consumed(amount, split), split) == 0
  {
    ConsumedNear(amount, split);
    PortionRises(split);
    ShareBelow(Portion(split), profit, Consumed(amount, split), amount);
  }

  lemma ShareBelow(portion: int -> real, profit: int, c: int, amount: int)
    requires Rising(portion) && amount >= 0 && profit < c && portion(c - 1) <= amount as real
    ensures ShareBy(portion, profit) <= amount && ShareBy(portion, profit - c) == 0
  {
    RoundCentsExact(0);
    RoundCentsExact(amount);
    if profit >= 0 {
      assert portion(profit) <= portion(c - 1);
      RoundCentsMonotone(portion(profit), amount as real);
    }
  }

  // ----- sums over payouts -----

  function CommittedOf(p: Payout): int { if Committed(p) then p.amount else 0 }

  function PaidOf(p: Payout): int { if p.status.Paid? then p.amount else 0 }

  function OnePaid(p: Payout): int { if p.status.Paid? then 1 else 0 }

  lemma {:induction false} SumsUpdate(payouts: seq<Payout>, i: nat, q: Payout)
    requires i < |payouts|
    ensures CommittedSum(payouts[i := q]) == CommittedSum(payouts) - CommittedOf(payouts[i]) + CommittedOf(q)
    ensures PaidSum(payouts[i := q]) == PaidSum(payouts) - PaidOf(payouts[i]) + PaidOf(q)
    ensures PaidCount(payouts[i := q]) == PaidCount(payouts) - OnePaid(payouts[i]) + OnePaid(q)
  {
    var n := |payouts| - 1;
    if i == n {
      assert payouts[i := q][..n] == payouts[..n];
    } else {
      SumsUpdate(payouts[..n], i, q);
      assert payouts[i := q][..n] == payouts[..n][i := q];
    }
  }

  lemma SumsAppend(payouts: seq<Payout>, q: Payout)
    ensures CommittedSum(payouts + [q]) == CommittedSum(payouts) + CommittedOf(q)
    ensures PaidSum(payouts + [q]) == PaidSum(payouts) + PaidOf(q)
    ensures PaidCount(payouts + [q]) == PaidCount(payouts) + OnePaid(q)
  {
    assert (payouts + [q])[..|payouts|] == payouts;
  }

  lemma {:induction false} CommittedCovers(payouts: seq<Payout>, i: nat)
    requires i < |payouts| && Committed(payouts[i]) && forall j :: 0 <= j < |payouts| ==> payouts[j].amount >= 0
    ensures CommittedSum(payouts) >= payouts[i].amount && PaidSum(payouts) >= 0
  {
    var n := |payouts| - 1;
    if i == n {
      CommittedPositive(payouts[..n]);
    } else {
      CommittedCovers(payouts[..n], i);
    }
    CommittedPositive(payouts);
  }

  lemma {:induction false} CommittedPositive(payouts: seq<Payout>)
    requires forall j :: 0 <= j < |payouts| ==> payouts[j].amount >= 0
    ensures CommittedSum(payouts) >= 0 && PaidSum(payouts) >= 0
  {
    if payouts != [] {
      CommittedPositive(payouts[..|payouts| - 1]);
    }
  }

  // ----- never more than the share -----

  /** Nothing was requested beyond the share at hand, and nothing paid beyond the initial one, but for a cent a payment. */
  ghost predicate WithinShare(s: State, initial: int) {
    && 0 <= s.split <= 100
    && (forall i :: 0 <= i < |s.payouts| ==> s.payouts[i].amount >= MIN_PAYOUT)
    && PaidSum(s.payouts) + CommittedSum(s.payouts) <= initial + PaidCount(s.payouts)
    && PaidSum(s.payouts) + Share(Profit(s), s.split) <= initial + PaidCount(s.payouts)
    && (s.split == 0 ==> s.payouts == [])
  }

  lemma NoSplitNoShare(profit: int)
    ensures Share(profit, 0) == 0
  {
    assert Portion(0)(Max(0, profit)) == 0.0;
    RoundCentsExact(0);
  }

  lemma RequestWithinShare(s: State, initial: int, amount: int, author: string, eligible: bool)
    requires WithinShare(s, initial)
    ensures WithinShare(Request(s, amount, author, eligible), initial)
  {
    if amount >= MIN_PAYOUT && eligible && amount <= Available(s) {
      SumsAppend(s.payouts, Payout(amount, Pending, author, None, None));
      NoSplitNoShare(Profit(s));
      CommittedPositive(s.payouts);
    }
  }

  /** Paying out of the committed sum uses up the share that was left for it. */
  lemma PayWithinShare(s: State, initial: int, id: nat, actor: string)
    requires WithinShare(s, initial) && id < |s.payouts| && s.payouts[id].status.Approved?
    ensures var u := s.(payouts := s.payouts[id := Decided(s.payouts[id], Paid, actor)], balance := s.balance - Consumed(s.payouts[id].amount, s.split));
            WithinShare(u, initial)
  {
    var p := s.payouts[id];
    SumsUpdate(s.payouts, id, Decided(p, Paid, actor));
    CommittedCovers(s.payouts, id);
    PayMovesShare(s, id);
  }

  lemma PayMovesShare(s: State, id: nat)
    requires id < |s.payouts| && s.payouts[id].amount >= 0 && 1 <= s.split <= 100
    ensures var a := s.payouts[id].amount;
            var after := Share(Profit(s) - Consumed(a, s.split), s.split);
            if Profit(s) >= Consumed(a, s.split) then -1 <= Share(Profit(s), s.split) - after - a <= 1
            else Share(Profit(s), s.split) <= a && after == 0
  {
    if Profit(s) >= Consumed(s.payouts[id].amount, s.split) {
      ShareAfterPay(Profit(s), s.payouts[id].amount, s.split);
    } else {
      ShareAfterOverpay(Profit(s), s.payouts[id].amount, s.split);
    }
  }

  lemma ClaimWithinShare(s: State, initial: int, k: nat)
    requires WithinShare(s, initial)
    ensures WithinShare(Claim(s, k), initial)
  {
    if k in s.decisions {
      var d := s.decisions[k];
      if d.payout < |s.payouts| && ClaimFrom(s.payouts[d.payout].status, d.to) {
        if d.to.Paid? {
          PayWithinShare(s, initial, d.payout, d.actor);
        } else {
          SumsUpdate(s.payouts, d.payout, Decided(s.payouts[d.payout], d.to, d.actor));
        }
      }
    }
  }

  /**
   * Over any run of requests, rejections and payments without trading: what is paid and what is
   * committed never exceed the initial trader share by more than a cent per paid payout.
   */
  lemma {:induction false} NeverOverpaid(startingBalance: int, split: int, balance: int, steps: seq<Step>)
    requires 0 <= split <= 100 && NoTrading(steps)
    ensures WithinShare(Run(Start(startingBalance, split, balance), steps), Share(balance - startingBalance, split))
  {
    var s0 := Start(startingBalance, split, balance);
    if steps != [] {
      var front := steps[..|steps| - 1];
      NeverOverpaid(startingBalance, split, balance, front);
      var s := Run(s0, front);
      var initial := Share(balance - startingBalance, split);
      var step := steps[|steps| - 1];
      assert !step.TradeClosed?;
      if step.Requested? {
        RequestWithinShare(s, initial, step.amount, step.author, step.eligible);
      } else if step.DecisionClaimed? {
        ClaimWithinShare(s, initial, step.k);
      }
    } else {
      ShareMonotone(Profit(s0), Profit(s0), split);
    }
  }

  /** A payment moves the availability of the others by at most a cent - even when it uses up more than the profit. */
  lemma PaymentKeepsAvailability(s: State, initial: int, id: nat, actor: string)
    requires WithinShare(s, initial) && id < |s.payouts| && s.payouts[id].status.Approved?
    ensures var u := s.(payouts := s.payouts[id := Decided(s.payouts[id], Paid, actor)], balance := s.balance - Consumed(s.payouts[id].amount, s.split));
            -1 <= Available(u) - Available(s) <= 1
  {
    var p := s.payouts[id];
    SumsUpdate(s.payouts, id, Decided(p, Paid, actor));
    CommittedCovers(s.payouts, id);
    PayMovesShare(s, id);
  }

  // ----- the ledger and maker-checker -----

  function DebitSum(debits: seq<Debit>): int {
    if debits == [] then 0
    else DebitSum(debits[..|debits| - 1]) + debits[|debits| - 1].amount + debits[|debits| - 1].firmShare
  }

  function DebitsOf(debits: seq<Debit>, id: nat): nat {
    if debits == [] then 0
    else DebitsOf(debits[..|debits| - 1], id) + if debits[|debits| - 1].payout == id then 1 else 0
  }

  lemma DebitAppend(debits: seq<Debit>, d: Debit, id: nat)
    ensures DebitSum(debits + [d]) == DebitSum(debits) + d.amount + d.firmShare
    ensures DebitsOf(debits + [d], id) == DebitsOf(debits, id) + if d.payout == id then 1 else 0
  {
    assert (debits + [d])[..|debits|] == debits;
  }

  predicate Terminal(status: Status) { status.Paid? || status.Rejected? }

  /** Creator, approver and payer of a paid payout are three people. */
  predicate ThreePeople(p: Payout) {
    && p.approvedBy.Some? && p.paidBy.Some?
    && p.createdBy != p.approvedBy.value && p.createdBy != p.paidBy.value && p.approvedBy.value != p.paidBy.value
  }

  predicate PayoutOk(p: Payout) {
    && p.amount >= MIN_PAYOUT
    && (p.status.Approved? ==> p.approvedBy.Some? && p.approvedBy.value != p.createdBy)
    && (p.status.Paid? ==> ThreePeople(p))
  }

  /** A payment decision was read from the approved row that it will find. */
  predicate DecisionOk(s: State, d: Decision) {
    && d.payout < |s.payouts| && !d.to.Pending?
    && (d.to.Approved? ==> d.actor != s.payouts[d.payout].createdBy)
    && (d.to.Paid? ==> !s.payouts[d.payout].status.Pending? && d.actor != s.payouts[d.payout].createdBy
                       && (s.payouts[d.payout].status.Approved? ==> Some(d.actor) != s.payouts[d.payout].approvedBy))
  }

  ghost predicate Ok(s: State, flows: int) {
    && 0 <= s.split <= 100
    && (forall i :: 0 <= i < |s.payouts| ==> PayoutOk(s.payouts[i]) && DebitsOf(s.debits, i) == OnePaid(s.payouts[i]))
    && (forall i :: i >= |s.payouts| ==> DebitsOf(s.debits, i) == 0)
    && (forall k :: k in s.decisions ==> k < s.next && DecisionOk(s, s.decisions[k]))
    && s.balance == flows - DebitSum(s.debits)
    && (s.split == 0 ==> s.payouts == [])
  }

  lemma ClaimKeeps(s: State, flows: int, k: nat)
    requires Ok(s, flows)
    ensures Ok(Claim(s, k), flows)
  {
    if k in s.decisions {
      var d := s.decisions[k];
      if ClaimFrom(s.payouts[d.payout].status, d.to) {
        var t := Claim(s, k);
        if d.to.Paid? {
          DebitIsConsumed(s, d.payout);
          forall i: nat ensures DebitsOf(t.debits, i) == DebitsOf(s.debits, i) + if i == d.payout then 1 else 0 {
            DebitAppend(s.debits, DebitFor(s, d.payout), i);
          }
        }
        forall j | j in t.decisions ensures j < t.next && DecisionOk(t, t.decisions[j]) {
          assert DecisionOk(s, s.decisions[j]);
        }
        forall i | 0 <= i < |t.payouts| ensures PayoutOk(t.payouts[i]) && DebitsOf(t.debits, i) == OnePaid(t.payouts[i]) {
          assert PayoutOk(s.payouts[i]);
        }
      }
    }
  }

  /** The two legs are the whole of what leaves the balance. */
  lemma DebitIsConsumed(s: State, id: nat)
    requires id < |s.payouts| && s.payouts[id].amount >= 0 && 1 <= s.split <= 100
    ensures DebitFor(s, id).amount + DebitFor(s, id).firmShare == Consumed(s.payouts[id].amount, s.split)
  {
    ConsumedNear(s.payouts[id].amount, s.split);
  }

  lemma RequestKeeps(s: State, flows: int, amount: int, author: string, eligible: bool)
    requires Ok(s, flows)
    ensures Ok(Request(s, amount, author, eligible), flows)
  {
    var t := Request(s, amount, author, eligible);
    if t != s {
      NoSplitNoShare(Profit(s));
      forall j | j in t.decisions ensures DecisionOk(t, t.decisions[j]) {
        assert DecisionOk(s, s.decisions[j]);
      }
    }
  }

  lemma StepKeeps(s: State, flows: int, step: Step)
    requires Ok(s, flows)
    ensures Ok(Next(s, step), flows + if step.TradeClosed? then step.net else 0)
  {
    match step
    case Requested(amount, author, eligible) => RequestKeeps(s, flows, amount, author, eligible);
    case DecisionRead(id, to, actor) =>
    case DecisionClaimed(k) => ClaimKeeps(s, flows, k);
    case TradeClosed(net) =>
  }

  lemma {:induction false} RunKeeps(startingBalance: int, split: int, balance: int, steps: seq<Step>)
    requires 0 <= split <= 100
    ensures Ok(Run(Start(startingBalance, split, balance), steps), balance + Trading(steps))
  {
    if steps != [] {
      RunKeeps(startingBalance, split, balance, steps[..|steps| - 1]);
      StepKeeps(Run(Start(startingBalance, split, balance), steps[..|steps| - 1]), balance + Trading(steps[..|steps| - 1]), steps[|steps| - 1]);
    }
  }

  /** However many admins interleave their reads and claims: three people behind a paid payout, and one debit. */
  lemma PaidByThreeAndOnce(startingBalance: int, split: int, balance: int, steps: seq<Step>, id: nat)
    requires 0 <= split <= 100 && id < |Run(Start(startingBalance, split, balance), steps).payouts|
    ensures var s := Run(Start(startingBalance, split, balance), steps);
            && (s.payouts[id].status.Paid? ==> ThreePeople(s.payouts[id]))
            && DebitsOf(s.debits, id) == (if s.payouts[id].status.Paid? then 1 else 0)
  {
    RunKeeps(startingBalance, split, balance, steps);
  }

  /** The balance is what came in by trading less exactly what the ledger debited. */
  lemma BalanceMatchesLedger(startingBalance: int, split: int, balance: int, steps: seq<Step>)
    requires 0 <= split <= 100
    ensures var s := Run(Start(startingBalance, split, balance), steps);
            s.balance == balance + Trading(steps) - DebitSum(s.debits)
  {
    RunKeeps(startingBalance, split, balance, steps);
  }

  /** PAID and REJECTED are never left, and a payout never changes its amount or its creator. */
  lemma {:induction false} TerminalStays(s: State, steps: seq<Step>, id: nat)
    requires id < |s.payouts|
    ensures var t := Run(s, steps);
            && id < |t.payouts| && t.payouts[id].amount == s.payouts[id].amount && t.payouts[id].createdBy == s.payouts[id].createdBy
            && (Terminal(s.payouts[id].status) ==> t.payouts[id] == s.payouts[id])
  {
    if steps != [] {
      TerminalStays(s, steps[..|steps| - 1], id);
    }
  }
}
