/**
 * The serial queue of each account, built on promises: an operation starts when the promise of the
 * one before it has settled, and a clean-up callback then counts it out. Submissions, starts, ends
 * (a failure ends an operation like a success) and clean-ups interleave freely across accounts.
 */
module AccountQueue {
  import opened Options

  datatype Phase = Waiting | Running | Finished | Settled

  /** A submitted operation; `prev` is the operation whose promise it waits for. */
  datatype Op = Op(account: string, prev: Option<nat>, phase: Phase)

  /** `ops` in submission order; `queues` holds each account's tail; idle callers are `waiters` until `released`. */
  datatype State = State(ops: seq<Op>, queues: map<string, nat>, inflight: int, waiters: set<nat>, released: set<nat>, callers: nat)

  datatype Step = Enqueue(account: string) | Start(i: nat) | Finish(i: nat) | CleanUp(i: nat) | Idle

  const Empty := State([], map[], 0, {}, {}, 0)

  predicate Ended(p: Phase) { p.Finished? || p.Settled? }

  predicate CanStart(s: State, i: nat) {
    && i < |s.ops| && s.ops[i].phase.Waiting?
    && (s.ops[i].prev.None? || (s.ops[i].prev.value < |s.ops| && Ended(s.ops[s.ops[i].prev.value].phase)))
  }

  predicate CanFinish(s: State, i: nat) { i < |s.ops| && s.ops[i].phase.Running? }

  predicate CanCleanUp(s: State, i: nat) { i < |s.ops| && s.ops[i].phase.Finished? }

  function SetPhase(s: State, i: nat, p: Phase): State
    requires i < |s.ops|
  {
    s.(ops := s.ops[i := s.ops[i].(phase := p)])
  }

  function Submit(s: State, account: string): State {
    var prev := if account in s.queues then Some(s.queues[account]) else None;
    s.(ops := s.ops + [Op(account, prev, Waiting)], queues := s.queues[account := |s.ops|], inflight := s.inflight + 1)
  }

  function Settle(s: State, i: nat): State
    requires i < |s.ops|
  {
    var account := s.ops[i].account;
    var t := SetPhase(s, i, Settled).(
      inflight := s.inflight - 1,
      queues := if account in s.queues && s.queues[account] == i then s.queues - {account} else s.queues);
    if t.inflight == 0 then t.(released := t.released + t.waiters, waiters := {}) else t
  }

  function AskIdle(s: State): State {
    var caller := s.callers;
    if s.inflight == 0 then s.(released := s.released + {caller}, callers := caller + 1)
    else s.(waiters := s.waiters + {caller}, callers := caller + 1)
  }

  function Next(s: State, step: Step): State {
    match step
    case Enqueue(account) => Submit(s, account)
    case Start(i) => if CanStart(s, i) then SetPhase(s, i, Running) else s
    case Finish(i) => if CanFinish(s, i) then SetPhase(s, i, Finished) else s
    case CleanUp(i) => if CanCleanUp(s, i) then Settle(s, i) else s
    case Idle => AskIdle(s)
  }

  function Run(steps: seq<Step>): State {
    if steps == [] then Empty else Next(Run(steps[..|steps| - 1]), steps[|steps| - 1])
  }

  // ----- the engine's fields -----

  class Engine {
    var ops: seq<Op>
    var queues: map<string, nat>
    var inflight: int
    var waiters: set<nat>
    var released: set<nat>
    var callers: nat

    function View(): State
      reads this
    {
      State(ops, queues, inflight, waiters, released, callers)
    }

    constructor ()
      ensures View() == Empty
    {
      ops, queues, inflight, waiters, released, callers := [], map[], 0, {}, {}, 0;
    }

    method Enqueue(account: string)
      modifies this
      ensures View() == Submit(old(View()), account)
    {
      var prev: Option<nat> := None;
      if account in queues {
        prev := Some(queues[account]);
      }
      inflight := inflight + 1;
      queues := queues[account := |ops|];
      ops := ops + [Op(account, prev, Waiting)];
    }

    /** The clean-up callback of an ended operation. */
    method CleanUp(i: nat)
      requires i < |ops|
      modifies this
      ensures View() == Settle(old(View()), i)
    {
      var account := ops[i].account;
      ops := ops[i := ops[i].(phase := Phase.Settled)];
      inflight := inflight - 1;
      if account in queues && queues[account] == i {
        queues := queues - {account};
      }
      if inflight == 0 {
        released, waiters := released + waiters, {};
      }
    }

    method Idle()
      modifies this
      ensures View() == AskIdle(old(View()))
    {
      if inflight == 0 {
        released := released + {callers};
      } else {
        waiters := waiters + {callers};
      }
      callers := callers + 1;
    }
  }

  // ----- the invariant -----

  function Unsettled(ops: seq<Op>): nat {
    if ops == [] then 0
    else Unsettled(ops[..|ops| - 1]) + if ops[|ops| - 1].phase.Settled? then 0 else 1
  }

  /** `i` is the latest operation of its account. */
  ghost predicate Tail(ops: seq<Op>, i: int) {
    0 <= i < |ops| && forall j :: i < j < |ops| ==> ops[j].account != ops[i].account
  }

  /** An account has a queue entry exactly while its latest operation is unsettled. */
  ghost predicate EntriesOk(s: State) {
    && (forall a :: a in s.queues ==> Tail(s.ops, s.queues[a]) && s.ops[s.queues[a]].account == a && !s.ops[s.queues[a]].phase.Settled?)
    && (forall i :: Tail(s.ops, i) && !s.ops[i].phase.Settled? ==> s.ops[i].account in s.queues && s.queues[s.ops[i].account] == i)
  }

  /** Operations of one account run one at a time, in submission order. */
  ghost predicate Serial(ops: seq<Op>) {
    forall i, j :: 0 <= i < j < |ops| && ops[i].account == ops[j].account && !ops[j].phase.Waiting? ==> Ended(ops[i].phase)
  }

  /** Everything before a waiting operation is behind the promise it waits for, or over. */
  ghost predicate Chained(ops: seq<Op>) {
    forall i, j {:trigger ops[i].account, ops[j].prev} ::
      0 <= i < j < |ops| && ops[i].account == ops[j].account ==> if ops[j].prev.None? then Ended(ops[i].phase) else i <= ops[j].prev.value
  }

  ghost predicate PrevBefore(ops: seq<Op>) {
    forall j {:trigger ops[j].prev} :: 0 <= j < |ops| && ops[j].prev.Some? ==> ops[j].prev.value < j && ops[ops[j].prev.value].account == ops[j].account
  }

  /** Somebody waits only while something is in flight, and every caller so far waits or was released. */
  ghost predicate CallersOk(s: State) {
    && (s.waiters != {} ==> s.inflight > 0)
    && s.waiters !! s.released
    && (forall w :: w in s.waiters || w in s.released <==> 0 <= w < s.callers)
  }

  ghost predicate Ok(s: State) {
    && s.inflight == Unsettled(s.ops) && EntriesOk(s) && Serial(s.ops) && Chained(s.ops) && PrevBefore(s.ops)
    && CallersOk(s)
  }

  lemma {:induction false} UnsettledUpdate(ops: seq<Op>, i: nat, p: Phase)
    requires i < |ops| && !ops[i].phase.Settled?
    ensures Unsettled(ops[i := ops[i].(phase := p)]) == Unsettled(ops) - if p.Settled? then 1 else 0
  {
    var n := |ops| - 1;
    if i == n {
      assert ops[i := ops[i].(phase := p)][..n] == ops[..n];
    } else {
      UnsettledUpdate(ops[..n], i, p);
      assert ops[i := ops[i].(phase := p)][..n] == ops[..n][i := ops[i].(phase := p)];
    }
  }

  lemma {:induction false} NoneUnsettled(ops: seq<Op>)
    ensures Unsettled(ops) == 0 <==> forall i :: 0 <= i < |ops| ==> ops[i].phase.Settled?
  {
    if ops != [] {
      var n := |ops| - 1;
      NoneUnsettled(ops[..n]);
      assert forall i :: 0 <= i < n ==> ops[..n][i] == ops[i];
    }
  }

  /** With no entry, whatever the account submitted before is over. */
  lemma NoEntryAllOver(s: State, account: string, i: nat)
    requires EntriesOk(s) && Serial(s.ops) && account !in s.queues
    requires i < |s.ops| && s.ops[i].account == account
    ensures Ended(s.ops[i].phase)
    decreases |s.ops| - i
  {
    if !Tail(s.ops, i) {
      var j :| i < j < |s.ops| && s.ops[j].account == account;
      NoEntryAllOver(s, account, j);
    }
  }

  lemma SubmitEntries(s: State, account: string)
    requires EntriesOk(s)
    ensures EntriesOk(Submit(s, account))
  {
    var t := Submit(s, account);
    var n := |s.ops|;
    assert forall i :: 0 <= i < n ==> t.ops[i] == s.ops[i];
    forall i | Tail(t.ops, i) && !t.ops[i].phase.Settled? ensures t.ops[i].account in t.queues && t.queues[t.ops[i].account] == i {
      if i < n {
        assert t.ops[n].account != t.ops[i].account;
        assert Tail(s.ops, i);
      }
    }
    forall a | a in t.queues ensures Tail(t.ops, t.queues[a]) && t.ops[t.queues[a]].account == a && !t.ops[t.queues[a]].phase.Settled? {
      if a != account {
        assert Tail(s.ops, s.queues[a]);
      }
    }
  }

  lemma AppendKeepsChains(ops: seq<Op>, op: Op)
    requires Serial(ops) && Chained(ops) && PrevBefore(ops) && op.phase.Waiting?
    requires op.prev.Some? ==> op.prev.value < |ops| && ops[op.prev.value].account == op.account
    requires forall i :: 0 <= i < |ops| && ops[i].account == op.account
                         ==> if op.prev.None? then Ended(ops[i].phase) else i <= op.prev.value
    ensures Serial(ops + [op]) && Chained(ops + [op]) && PrevBefore(ops + [op])
  {
    var longer := ops + [op];
    assert forall i :: 0 <= i < |ops| ==> longer[i] == ops[i];
  }

  lemma SubmitKeeps(s: State, account: string)
    requires Ok(s)
    ensures Ok(Submit(s, account))
  {
    var t := Submit(s, account);
    var op := Op(account, if account in s.queues then Some(s.queues[account]) else None, Waiting);
    assert t.ops == s.ops + [op];
    SubmitEntries(s, account);
    EntryIsLast(s, account);
    assert forall i :: 0 <= i < |s.ops| && s.ops[i].account == op.account
                       ==> if op.prev.None? then Ended(s.ops[i].phase) else i <= op.prev.value;
    AppendKeepsChains(s.ops, op);
    OneMoreUnsettled(s.ops, op);
  }

  lemma OneMoreUnsettled(ops: seq<Op>, op: Op)
    requires op.phase.Waiting?
    ensures Unsettled(ops + [op]) == Unsettled(ops) + 1
  {
    assert (ops + [op])[..|ops|] == ops;
  }

  /** The promise a new operation gets is that of the account's latest, or everything is over. */
  lemma EntryIsLast(s: State, account: string)
    requires EntriesOk(s) && Serial(s.ops)
    ensures forall i :: 0 <= i < |s.ops| && s.ops[i].account == account
                        ==> if account in s.queues then i <= s.queues[account] else Ended(s.ops[i].phase)
  {
    if account in s.queues {
      assert Tail(s.ops, s.queues[account]);
    } else {
      forall i | 0 <= i < |s.ops| && s.ops[i].account == account ensures Ended(s.ops[i].phase) {
        NoEntryAllOver(s, account, i);
      }
    }
  }

  /** Moving one operation on keeps who is last where, and every chain. */
  lemma MoveKeepsShape(s: State, i: nat, p: Phase)
    requires Ok(s) && i < |s.ops| && (Ended(s.ops[i].phase) ==> Ended(p))
    ensures var ops := SetPhase(s, i, p).ops;
            && Chained(ops) && PrevBefore(ops)
            && (forall k :: Tail(ops, k) <==> Tail(s.ops, k))
  {
    var ops := SetPhase(s, i, p).ops;
    assert forall j :: 0 <= j < |ops| ==> ops[j].account == s.ops[j].account && ops[j].prev == s.ops[j].prev;
    PhaseKeepsTails(s.ops, ops);
    PhaseKeepsChains(s.ops, ops);
  }

  lemma PhaseKeepsTails(ops: seq<Op>, moved: seq<Op>)
    requires |moved| == |ops| && forall j :: 0 <= j < |ops| ==> moved[j].account == ops[j].account
    ensures forall k :: Tail(moved, k) <==> Tail(ops, k)
  {
  }

  lemma PhaseKeepsChains(ops: seq<Op>, moved: seq<Op>)
    requires Chained(ops) && PrevBefore(ops) && |moved| == |ops|
    requires forall j :: 0 <= j < |ops| ==> moved[j].account == ops[j].account && moved[j].prev == ops[j].prev
    requires forall j :: 0 <= j < |ops| && Ended(ops[j].phase) ==> Ended(moved[j].phase)
    ensures Chained(moved) && PrevBefore(moved)
  {
  }

  lemma MoveKeepsSerial(s: State, i: nat, p: Phase)
    requires Ok(s) && i < |s.ops| && (Ended(s.ops[i].phase) ==> Ended(p))
    requires s.ops[i].phase.Waiting? ==> forall h :: 0 <= h < i && s.ops[h].account == s.ops[i].account ==> Ended(s.ops[h].phase)
    ensures Serial(SetPhase(s, i, p).ops)
  {
    var ops := SetPhase(s, i, p).ops;
    assert forall j :: 0 <= j < |ops| ==> ops[j].account == s.ops[j].account && (Ended(s.ops[j].phase) ==> Ended(ops[j].phase));
  }

  lemma MoveKeeps(s: State, i: nat, p: Phase)
    requires Ok(s) && i < |s.ops| && (Ended(s.ops[i].phase) ==> Ended(p)) && !p.Settled? && !s.ops[i].phase.Settled?
    requires Serial(SetPhase(s, i, p).ops)
    ensures Ok(SetPhase(s, i, p))
  {
    UnsettledUpdate(s.ops, i, p);
    MoveKeepsShape(s, i, p);
  }

  lemma StartKeeps(s: State, i: nat)
    requires Ok(s) && CanStart(s, i)
    ensures Ok(SetPhase(s, i, Running))
  {
    forall h | 0 <= h < i && s.ops[h].account == s.ops[i].account ensures Ended(s.ops[h].phase) {
      BehindIsOver(s.ops, h, i);
    }
    MoveKeepsSerial(s, i, Running);
    MoveKeeps(s, i, Running);
  }

  lemma BehindIsOver(ops: seq<Op>, h: nat, i: nat)
    requires Serial(ops) && Chained(ops) && PrevBefore(ops)
    requires h < i < |ops| && ops[h].account == ops[i].account
    requires ops[i].prev.None? || (ops[i].prev.value < |ops| && Ended(ops[ops[i].prev.value].phase))
    ensures Ended(ops[h].phase)
  {
  }

  lemma FinishKeeps(s: State, i: nat)
    requires Ok(s) && CanFinish(s, i)
    ensures Ok(SetPhase(s, i, Finished))
  {
    MoveKeepsSerial(s, i, Finished);
    MoveKeeps(s, i, Finished);
  }

  lemma SettleKeeps(s: State, i: nat)
    requires Ok(s) && CanCleanUp(s, i)
    ensures Ok(Settle(s, i))
  {
    UnsettledUpdate(s.ops, i, Settled);
    MoveKeepsShape(s, i, Settled);
    MoveKeepsSerial(s, i, Settled);
    SettleEntries(s, i);
    SettleCallers(s, i);
  }

  /** Waiters are let go together, at zero. */
  lemma SettleCallers(s: State, i: nat)
    requires CallersOk(s) && i < |s.ops| && s.inflight > 0
    ensures CallersOk(Settle(s, i))
  {
  }

  lemma SettleEntries(s: State, i: nat)
    requires Ok(s) && CanCleanUp(s, i)
    requires forall k :: Tail(SetPhase(s, i, Settled).ops, k) <==> Tail(s.ops, k)
    ensures EntriesOk(Settle(s, i))
  {
    var t := Settle(s, i);
    assert t.ops == SetPhase(s, i, Settled).ops;
    forall k | Tail(t.ops, k) && !t.ops[k].phase.Settled? ensures t.ops[k].account in t.queues && t.queues[t.ops[k].account] == k {
      assert Tail(s.ops, k) && t.ops[k] == s.ops[k];
    }
    forall a | a in t.queues ensures Tail(t.ops, t.queues[a]) && t.ops[t.queues[a]].account == a && !t.ops[t.queues[a]].phase.Settled? {
      assert Tail(s.ops, s.queues[a]) && t.queues[a] != i;
    }
  }

  lemma StepKeeps(s: State, step: Step)
    requires Ok(s)
    ensures Ok(Next(s, step))
  {
    match step
    case Enqueue(account) => SubmitKeeps(s, account);
    case Start(i) => if CanStart(s, i) { StartKeeps(s, i); }
    case Finish(i) => if CanFinish(s, i) { FinishKeeps(s, i); }
    case CleanUp(i) => if CanCleanUp(s, i) { SettleKeeps(s, i); }
    case Idle =>
  }

  lemma {:induction false} RunKeeps(steps: seq<Step>)
    ensures Ok(Run(steps))
  {
    if steps != [] {
      RunKeeps(steps[..|steps| - 1]);
      StepKeeps(Run(steps[..|steps| - 1]), steps[|steps| - 1]);
    }
  }

  // ----- what every run guarantees -----

  /** One operation of an account at a time, and none before those submitted earlier are over. */
  lemma OneAtATimeInOrder(steps: seq<Step>, i: nat, j: nat)
    requires i < j < |Run(steps).ops| && Run(steps).ops[i].account == Run(steps).ops[j].account
    ensures var ops := Run(steps).ops;
            (ops[j].phase.Waiting? || Ended(ops[i].phase)) && !(ops[i].phase.Running? && ops[j].phase.Running?)
  {
    RunKeeps(steps);
  }

  /** `inflight` counts the operations not yet settled, and an entry exists exactly while its tail is unsettled. */
  lemma CountersTellTheTruth(steps: seq<Step>, account: string)
    ensures var s := Run(steps);
            && s.inflight == Unsettled(s.ops)
            && (account in s.queues <==> exists i :: Tail(s.ops, i) && s.ops[i].account == account && !s.ops[i].phase.Settled?)
  {
    RunKeeps(steps);
    var s := Run(steps);
    if account in s.queues {
      assert Tail(s.ops, s.queues[account]);
    }
  }

  /** An idle caller is let go exactly at a moment when everything submitted so far has settled. */
  lemma ReleasedOnlyWhenIdle(steps: seq<Step>, step: Step, caller: nat)
    requires caller !in Run(steps).released && caller in Run(steps + [step]).released
    ensures var t := Run(steps + [step]);
            t.waiters == {} && forall i :: 0 <= i < |t.ops| ==> t.ops[i].phase.Settled?
  {
    RunKeeps(steps);
    RunKeeps(steps + [step]);
    assert (steps + [step])[..|steps|] == steps;
    ReleasesAtZero(Run(steps), step);
    NoneUnsettled(Run(steps + [step]).ops);
  }

  lemma ReleasesAtZero(s: State, step: Step)
    requires CallersOk(s) && (step.Idle? || step.CleanUp? ==> s.inflight >= 0)
    ensures Next(s, step).released != s.released ==> Next(s, step).inflight == 0 && Next(s, step).waiters == {}
  {
  }

  /** Nobody is left waiting for an idle engine. */
  lemma NobodyForgotten(steps: seq<Step>)
    ensures var s := Run(steps);
            (forall i :: 0 <= i < |s.ops| ==> s.ops[i].phase.Settled?) ==> s.waiters == {} && s.queues == map[]
  {
    RunKeeps(steps);
    NoneUnsettled(Run(steps).ops);
  }

  /** While something is unsettled some operation can move: the oldest unsettled one of any account. */
  lemma {:induction false} NeverStuck(steps: seq<Step>, i: nat)
    requires i < |Run(steps).ops| && !Run(steps).ops[i].phase.Settled?
    ensures var s := Run(steps);
            exists k: nat :: k <= i && (CanStart(s, k) || CanFinish(s, k) || CanCleanUp(s, k)) && s.ops[k].account == s.ops[i].account
    decreases i
  {
    RunKeeps(steps);
    var s := Run(steps);
    if s.ops[i].phase.Waiting? && !CanStart(s, i) {
      var p := s.ops[i].prev.value;
      assert p < i && s.ops[p].account == s.ops[i].account;
      NeverStuck(steps, p);
    } else {
      assert CanStart(s, i) || CanFinish(s, i) || CanCleanUp(s, i);
    }
  }
}
