/** Who asked for, approved and paid each payout over a run, and what each step makes of the availability. */
module PayoutTrail {
  import opened Options
  import opened Money
  import opened Payouts

  // ----- the people behind a payout -----

  ghost predicate AskedFor(steps: seq<Step>, p: Payout) {
    exists j :: 0 <= j < |steps| && steps[j].Requested? && steps[j].author == p.createdBy && steps[j].amount == p.amount && steps[j].eligible
  }

  /** `actor` read the payout's row to decide on it. */
  ghost predicate Read(steps: seq<Step>, id: nat, to: Status, actor: string) {
    exists j :: 0 <= j < |steps| && steps[j] == DecisionRead(id, to, actor)
  }

  /** The names in a row are those of the people who took the steps. */
  ghost predicate Traced(steps: seq<Step>, id: nat, p: Payout) {
    && AskedFor(steps, p)
    && (p.approvedBy.Some? ==> Read(steps, id, Approved, p.approvedBy.value))
    && (p.paidBy.Some? ==> Read(steps, id, Paid, p.paidBy.value))
    && (p.status.Paid? ==> p.paidBy.Some?)
  }

  ghost predicate AllTraced(s: State, steps: seq<Step>) {
    && (forall i :: 0 <= i < |s.payouts| ==> Traced(steps, i, s.payouts[i]))
    && (forall k :: k in s.decisions ==> Read(steps, s.decisions[k].payout, s.decisions[k].to, s.decisions[k].actor))
  }

  lemma ReadMore(steps: seq<Step>, step: Step, id: nat, to: Status, actor: string)
    requires Read(steps, id, to, actor)
    ensures Read(steps + [step], id, to, actor)
  {
    var j :| 0 <= j < |steps| && steps[j] == DecisionRead(id, to, actor);
    assert (steps + [step])[j] == steps[j];
  }

  lemma TracedMore(steps: seq<Step>, step: Step, id: nat, p: Payout)
    requires Traced(steps, id, p)
    ensures Traced(steps + [step], id, p)
  {
    var j :| 0 <= j < |steps| && steps[j].Requested? && steps[j].author == p.createdBy && steps[j].amount == p.amount && steps[j].eligible;
    assert (steps + [step])[j] == steps[j];
    if p.approvedBy.Some? {
      ReadMore(steps, step, id, Approved, p.approvedBy.value);
    }
    if p.paidBy.Some? {
      ReadMore(steps, step, id, Paid, p.paidBy.value);
    }
  }

  lemma StepTraced(s: State, steps: seq<Step>, step: Step)
    requires AllTraced(s, steps)
    ensures AllTraced(Next(s, step), steps + [step])
  {
    var t, more := Next(s, step), steps + [step];
    assert more[|steps|] == step;
    forall i | 0 <= i < |s.payouts| ensures Traced(more, i, s.payouts[i]) {
      TracedMore(steps, step, i, s.payouts[i]);
    }
    forall k | k in s.decisions ensures Read(more, s.decisions[k].payout, s.decisions[k].to, s.decisions[k].actor) {
      ReadMore(steps, step, s.decisions[k].payout, s.decisions[k].to, s.decisions[k].actor);
    }
  }

  lemma {:induction false} RunTraced(startingBalance: int, split: int, balance: int, steps: seq<Step>)
    ensures AllTraced(Run(Start(startingBalance, split, balance), steps), steps)
  {
    if steps != [] {
      var front, step := steps[..|steps| - 1], steps[|steps| - 1];
      RunTraced(startingBalance, split, balance, front);
      StepTraced(Run(Start(startingBalance, split, balance), front), front, step);
      assert steps == front + [step];
    }
  }

  /**
   * Behind every paid payout of a run there are three steps of three different people: one asked for it,
   * in its own name and for this amount, one read it to approve it and one read it to pay it.
   */
  lemma PaidByThreeSteps(startingBalance: int, split: int, balance: int, steps: seq<Step>, id: nat)
    returns (asked: nat, approved: nat, paid: nat)
    requires 0 <= split <= 100 && id < |Run(Start(startingBalance, split, balance), steps).payouts|
    requires Run(Start(startingBalance, split, balance), steps).payouts[id].status.Paid?
    ensures var p := Run(Start(startingBalance, split, balance), steps).payouts[id];
            && asked < |steps| && approved < |steps| && paid < |steps|
            && steps[asked].Requested? && steps[asked].amount == p.amount && steps[asked].eligible
            && steps[approved].DecisionRead? && steps[approved].id == id && steps[approved].to == Approved
            && steps[paid].DecisionRead? && steps[paid].id == id && steps[paid].to == Paid
            && steps[asked].author != steps[approved].actor && steps[asked].author != steps[paid].actor
            && steps[approved].actor != steps[paid].actor
  {
    RunTraced(startingBalance, split, balance, steps);
    RunKeeps(startingBalance, split, balance, steps);
    var p := Run(Start(startingBalance, split, balance), steps).payouts[id];
    assert Traced(steps, id, p);
    var j :| 0 <= j < |steps| && steps[j].Requested? && steps[j].author == p.createdBy && steps[j].amount == p.amount && steps[j].eligible;
    asked := j;
    approved :| 0 <= approved < |steps| && steps[approved] == DecisionRead(id, Approved, p.approvedBy.value);
    paid :| 0 <= paid < |steps| && steps[paid] == DecisionRead(id, Paid, p.paidBy.value);
  }

  // ----- what each step makes of it -----

  /** What of the trader's share is neither promised nor paid out of yet, before the floor at zero. */
  function Uncommitted(s: State): int { Share(Profit(s), s.split) - CommittedSum(s.payouts) }

  /** The share is the split per cent of a profit, to half a cent, and nothing of a loss. */
  lemma ShareIsPercent(profit: int, split: int)
    ensures profit <= 0 ==> Share(profit, split) == 0
    ensures profit >= 0 ==> -50 <= 100 * Share(profit, split) - profit * split <= 50
  {
    if profit >= 0 {
      PercentNear(Portion(split)(profit), profit * split);
    } else {
      assert Portion(split)(0) == 0.0;
    }
    if profit == 0 {
      assert Portion(split)(0) == 0.0;
    }
  }

  lemma PercentNear(x: real, whole: int)
    requires x == whole as real / 100.0
    ensures -50 <= 100 * RoundCents(x) - whole <= 50
  {
    assert (100 * RoundCents(x)) as real == 100.0 * RoundCents(x) as real;
  }

  /** A request is recorded, in its author's name, exactly when it is eligible, large enough and within what is uncommitted. */
  lemma RequestRecordedIff(s: State, amount: int, author: string, eligible: bool)
    ensures Next(s, Requested(amount, author, eligible))
            == if eligible && 50_000 <= amount <= Uncommitted(s)
               then s.(payouts := s.payouts + [Payout(amount, Pending, author, None, None)]) else s
  {
  }

  /** A decision may be read by somebody who has not acted on the payout yet, one stage at a time; a rejection by anybody until it is paid. */
  lemma DecisionReadIff(s: State, id: nat, to: Status, actor: string)
    requires id < |s.payouts|
    ensures var p, t := s.payouts[id], Next(s, DecisionRead(id, to, actor));
            var may := (to == Approved && p.status == Pending && actor != p.createdBy)
                       || (to == Paid && p.status == Approved && actor != p.createdBy && p.approvedBy != Some(actor))
                       || (to == Rejected && (p.status == Pending || p.status == Approved));
            t == if may then s.(decisions := s.decisions[s.next := Decision(id, to, actor)], next := s.next + 1) else s
  {
  }

  /** A rejection gives the amount back to what is uncommitted; an approval leaves that as it is; both leave the balance. */
  lemma DecisionsMoveUncommitted(s: State, k: nat)
    requires k in s.decisions && s.decisions[k].payout < |s.payouts| && !s.decisions[k].to.Paid? && !s.decisions[k].to.Pending?
    ensures var d, t := s.decisions[k], Next(s, DecisionClaimed(k));
            var p := s.payouts[d.payout];
            var allowed := p.status == Pending || (d.to == Rejected && p.status == Approved);
            && t.balance == s.balance && t.debits == s.debits
            && (if allowed then
                  && t.payouts == s.payouts[d.payout := t.payouts[d.payout]] && t.payouts[d.payout].status == d.to
                  && (d.to == Approved ==> t.payouts[d.payout].approvedBy == Some(d.actor))
                  && Uncommitted(t) == Uncommitted(s) + (if d.to == Rejected then p.amount else 0)
                else t.payouts == s.payouts)
  {
    var d, t := s.decisions[k], Next(s, DecisionClaimed(k));
    if ClaimFrom(s.payouts[d.payout].status, d.to) {
      SumsUpdate(s.payouts, d.payout, t.payouts[d.payout]);
    }
  }

  /** A payment is written exactly when the row is still approved: who paid, both ledger legs, and the balance less the profit used up. */
  lemma PaymentWritten(s: State, k: nat)
    requires k in s.decisions && s.decisions[k].payout < |s.payouts| && s.decisions[k].to.Paid?
    ensures var d, t := s.decisions[k], Next(s, DecisionClaimed(k));
            var p := s.payouts[d.payout];
            var used := Consumed(p.amount, s.split);
            && t.decisions == s.decisions - {k}
            && (if p.status == Approved then
                  && t.payouts == s.payouts[d.payout := p.(status := Paid, paidBy := Some(d.actor))] && t.balance == s.balance - used
                  && t.debits == s.debits + [Debit(d.payout, p.amount, Max(0, used - p.amount))]
                else t == s.(decisions := s.decisions - {k}))
  {
  }
}
