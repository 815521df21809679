/**
 * Challenge accounts in the database: evaluations read a row, decide, and claim the transition with
 * a conditional write; a passed account spawns the next phase from the chain frozen at purchase.
 * Evaluations and breach failures are split into their read and their claim, and any number of
 * them overlap with manual changes, resets and refunds.
 */
module ChallengeLifecycle {
  import opened Options
  import opened ChallengeRules
  import Money

  // ----- templates and frozen chains -----

  datatype Template = Template(id: string, phase: Phase, nextPhaseId: Option<string>, active: bool)

  /** The part of a frozen snapshot that drives progression. */
  datatype Snapshot = Snapshot(id: string, phase: Phase, nextPhaseId: Option<string>, next: Option<Snapshot>)

  type Catalogue = map<string, Template>

  function ToSnapshot(t: Template, next: Option<Snapshot>): Snapshot {
    Snapshot(t.id, t.phase, t.nextPhaseId, next)
  }

  function Depth(s: Snapshot): nat { if s.next.None? then 1 else 1 + Depth(s.next.value) }

  /** The chain ends where the templates end: the live fallback can never extend it. */
  predicate WholeChain(s: Snapshot) {
    if s.next.None? then s.nextPhaseId.None? else WholeChain(s.next.value)
  }

  predicate HasFunded(s: Snapshot) {
    s.phase.FundedPhase? || (s.next.Some? && HasFunded(s.next.value))
  }

  /** A chain comes to an end: at its last template, or in the funded phase, which nobody passes. */
  predicate Ends(s: Snapshot) { WholeChain(s) || HasFunded(s) }

  const MAX_FROZEN := 4

  /** The templates that follow `nextId`, stopping at a missing or repeated one and after four. */
  function Following(live: Catalogue, nextId: Option<string>, seen: set<string>, room: nat): (chain: seq<Template>)
    ensures |chain| <= room
    decreases room
  {
    if nextId.None? || nextId.value in seen || room == 0 || nextId.value !in live then []
    else
      var t := live[nextId.value];
      [t] + Following(live, t.nextPhaseId, seen + {t.id}, room - 1)
  }

  function Nest(chain: seq<Template>): Option<Snapshot> {
    if chain == [] then None else Some(ToSnapshot(chain[0], Nest(chain[1..])))
  }

  function Freeze(live: Catalogue, t: Template): Snapshot {
    ToSnapshot(t, Nest(Following(live, t.nextPhaseId, {t.id}, MAX_FROZEN)))
  }

  method BuildSnapshot(live: Catalogue, template: Template) returns (s: Snapshot)
    ensures s == Freeze(live, template)
  {
    var chain: seq<Template>, nextId, seen := [], template.nextPhaseId, {template.id};
    while nextId.Some? && nextId.value !in seen && |chain| < MAX_FROZEN
      invariant |chain| <= MAX_FROZEN
      invariant chain + Following(live, nextId, seen, MAX_FROZEN - |chain|) == Following(live, template.nextPhaseId, {template.id}, MAX_FROZEN)
      decreases MAX_FROZEN - |chain|
    {
      if nextId.value !in live {
        break;
      }
      var next := live[nextId.value];
      seen := seen + {next.id};
      chain := chain + [next];
      nextId := next.nextPhaseId;
    }
    assert chain == Following(live, template.nextPhaseId, {template.id}, MAX_FROZEN);
    var nested := NestChain(chain);
    s := ToSnapshot(template, nested);
  }

  /** The snapshots are nested from the last one inwards. */
  method NestChain(chain: seq<Template>) returns (nested: Option<Snapshot>)
    ensures nested == Nest(chain)
  {
    nested := None;
    var i := |chain|;
    while i > 0
      invariant 0 <= i <= |chain| && nested == Nest(chain[i..])
    {
      i := i - 1;
      assert chain[i..][1..] == chain[i + 1..];
      nested := Some(ToSnapshot(chain[i], nested));
    }
    assert chain[0..] == chain;
  }

  /** The template the freeze stopped at. */
  function LastFrozen(t: Template, chain: seq<Template>): Template {
    if chain == [] then t else chain[|chain| - 1]
  }

  lemma {:induction false} NestWhole(t: Template, chain: seq<Template>)
    ensures WholeChain(ToSnapshot(t, Nest(chain))) <==> LastFrozen(t, chain).nextPhaseId.None?
    ensures Depth(ToSnapshot(t, Nest(chain))) == 1 + |chain|
    decreases |chain|
  {
    if chain != [] {
      NestWhole(chain[0], chain[1..]);
    }
  }

  /**
   * A frozen chain is whole exactly when the walk ended at a template without a successor - not at
   * a cycle, a missing template or the limit of four; it never holds more than five phases.
   */
  lemma FreezeIsWholeIff(live: Catalogue, t: Template)
    ensures WholeChain(Freeze(live, t)) <==> LastFrozen(t, Following(live, t.nextPhaseId, {t.id}, MAX_FROZEN)).nextPhaseId.None?
    ensures Depth(Freeze(live, t)) <= 1 + MAX_FROZEN
  {
    NestWhole(t, Following(live, t.nextPhaseId, {t.id}, MAX_FROZEN));
  }

  // ----- accounts -----

  /** `previous` is unique; `root` records which account the chain began with. */
  datatype Row = Row(status: Status, phase: Phase, snapshot: Snapshot, previous: Option<nat>, root: nat)

  /** A transition decided on a row as it was read, not yet claimed. */
  datatype Claim = Claim(account: nat, from: Status, to: Status)

  /** `nexts` is the unique index on `previous`. */
  datatype State = State(rows: map<nat, Row>, nexts: map<nat, nat>, nextId: nat, claims: map<nat, Claim>, nextClaim: nat)

  const NoAccounts := State(map[], map[], 0, map[], 0)

  function StartStatus(phase: Phase): Status { ReinstateTarget(phase) }

  function SetStatus(s: State, id: nat, status: Status): State
    requires id in s.rows
  {
    s.(rows := s.rows[id := s.rows[id].(status := status)])
  }

  function Create(s: State, snapshot: Snapshot): State {
    s.(rows := s.rows[s.nextId := Row(StartStatus(snapshot.phase), snapshot.phase, snapshot, None, s.nextId)], nextId := s.nextId + 1)
  }

  /** A purchase activates Phase 1 challenges only. */
  function Purchase(s: State, live: Catalogue, t: Template): State {
    if t.phase.Phase1? && t.active then Create(s, Freeze(live, t)) else s
  }

  function AddClaim(s: State, c: Claim): State {
    s.(claims := s.claims[s.nextClaim := c], nextClaim := s.nextClaim + 1)
  }

  /** The first half of an evaluation: whatever the figures are, status and phase come from the row. */
  function ReadForEvaluation(s: State, id: nat, figures: DecisionInput): State {
    if id !in s.rows then s
    else
      var row := s.rows[id];
      var d := DetermineChallengeTransition(figures.(status := row.status, phase := row.phase));
      if d.nextStatus == row.status then s else AddClaim(s, Claim(id, row.status, d.nextStatus))
  }

  /** The first half of a breach failure. */
  function ReadForBreach(s: State, id: nat): State {
    if id in s.rows && CanAutoEvaluate(s.rows[id].status) then AddClaim(s, Claim(id, s.rows[id].status, Failed)) else s
  }

  /** The rules of the next phase: the frozen ones, or for a chain that was not frozen the live template if it is still active. */
  function NextSnapshot(snapshot: Snapshot, live: Catalogue): Option<Snapshot> {
    if snapshot.next.Some? then snapshot.next
    else if snapshot.nextPhaseId.None? || snapshot.nextPhaseId.value !in live || !live[snapshot.nextPhaseId.value].active then None
    else Some(ToSnapshot(live[snapshot.nextPhaseId.value], None))
  }

  /** A second account with the same predecessor violates the unique index and is not created. */
  function Advance(s: State, id: nat, live: Catalogue): State
    requires id in s.rows
  {
    var next := NextSnapshot(s.rows[id].snapshot, live);
    if next.None? || id in s.nexts then s
    else
      var row := Row(StartStatus(next.value.phase), next.value.phase, next.value, Some(id), s.rows[id].root);
      s.(rows := s.rows[s.nextId := row], nexts := s.nexts[id := s.nextId], nextId := s.nextId + 1)
  }

  /** The second half: the write succeeds only if the status is still the one that was read. */
  function Commit(s: State, k: nat, live: Catalogue): State {
    if k !in s.claims then s
    else
      var c := s.claims[k];
      var s1 := s.(claims := s.claims - {k});
      if c.account !in s.rows || s.rows[c.account].status != c.from then s1
      else
        var s2 := SetStatus(s1, c.account, c.to);
        if c.to.Passed? then Advance(s2, c.account, live) else s2
  }

  function ManualChange(s: State, id: nat, to: Status): State {
    if id in s.rows && IsLegalManualTransition(s.rows[id].status, to, s.rows[id].phase) then SetStatus(s, id, to) else s
  }

  function Reset(s: State, id: nat): State {
    if id !in s.rows || id in s.nexts then s else SetStatus(s, id, StartStatus(s.rows[id].phase))
  }

  /** The account and up to `more` successors. */
  function ChainFrom(nexts: map<nat, nat>, id: nat, more: nat): seq<nat>
    decreases more
  {
    if more == 0 || id !in nexts then [id] else [id] + ChainFrom(nexts, nexts[id], more - 1)
  }

  function SuspendEach(s: State, ids: seq<nat>): State
    decreases |ids|
  {
    if ids == [] then s
    else
      var s1 := if ids[0] in s.rows && CanAutoEvaluate(s.rows[ids[0]].status) then SetStatus(s, ids[0], Suspended) else s;
      SuspendEach(s1, ids[1..])
  }

  const MAX_REFUND_WALK := 4

  /** A refund suspends the purchased account and what progressed from it. */
  function Refund(s: State, root: nat): State {
    if root !in s.rows then s else SuspendEach(s, ChainFrom(s.nexts, root, MAX_REFUND_WALK))
  }

  datatype Step =
    | Purchased(live: Catalogue, template: Template)
    | CreatedByAdmin(live: Catalogue, template: Template)
    | EvaluationRead(id: nat, figures: DecisionInput)
    | BreachRead(id: nat)
    | Claimed(k: nat, live: Catalogue)
    | ChangedManually(id: nat, to: Status)
    | WasReset(id: nat)
    | Refunded(root: nat)

  function Next(s: State, step: Step): State {
    match step
    case Purchased(live, t) => Purchase(s, live, t)
    case CreatedByAdmin(live, t) => Create(s, Freeze(live, t))
    case EvaluationRead(id, figures) => ReadForEvaluation(s, id, figures)
    case BreachRead(id) => ReadForBreach(s, id)
    case Claimed(k, live) => Commit(s, k, live)
    case ChangedManually(id, to) => ManualChange(s, id, to)
    case WasReset(id) => Reset(s, id)
    case Refunded(root) => Refund(s, root)
  }

  function Run(steps: seq<Step>): State {
    if steps == [] then NoAccounts else Next(Run(steps[..|steps| - 1]), steps[|steps| - 1])
  }

  // ----- the invariant -----

  /** A status fits its phase: ACTIVE and PASSED outside the funded phase, FUNDED inside it. */
  predicate StatusFits(row: Row) {
    && row.phase == row.snapshot.phase
    && (row.status.Active? || row.status.Passed? ==> !row.phase.FundedPhase?)
    && (row.status.FundedStatus? ==> row.phase.FundedPhase?)
  }

  ghost predicate LinkOk(s: State, id: nat)
    requires id in s.rows
  {
    var row := s.rows[id];
    if row.previous.None? then row.root == id
    else row.previous.value < id && row.previous.value in s.rows && s.rows[row.previous.value].root == row.root
         && row.previous.value in s.nexts && s.nexts[row.previous.value] == id
  }

  ghost predicate RowsOk(s: State) {
    forall id :: id in s.rows ==> id < s.nextId && StatusFits(s.rows[id]) && LinkOk(s, id)
  }

  /** An account with a successor is PASSED, and is that successor's predecessor. */
  ghost predicate NextsOk(s: State) {
    forall p :: p in s.nexts ==> p in s.rows && s.rows[p].status.Passed? && s.nexts[p] in s.rows && s.rows[s.nexts[p]].previous == Some(p)
  }

  /** Claims come from a tradable status; only an ACTIVE one can pass. */
  ghost predicate ClaimsOk(s: State) {
    forall k :: k in s.claims ==> s.claims[k].account in s.rows && CanAutoEvaluate(s.claims[k].from)
                                  && (s.claims[k].to.Failed? || (s.claims[k].to.Passed? && s.claims[k].from.Active?))
  }

  ghost predicate Ok(s: State) { RowsOk(s) && NextsOk(s) && ClaimsOk(s) }

  lemma CreateKeeps(s: State, snapshot: Snapshot)
    requires Ok(s)
    ensures Ok(Create(s, snapshot))
  {
    var t := Create(s, snapshot);
    forall id | id in t.rows ensures id < t.nextId && StatusFits(t.rows[id]) && LinkOk(t, id) {
      if id in s.rows {
        assert LinkOk(s, id);
      }
    }
  }

  lemma DecisionClaims(input: DecisionInput)
    requires DetermineChallengeTransition(input).nextStatus != input.status
    ensures var to := DetermineChallengeTransition(input).nextStatus;
            CanAutoEvaluate(input.status) && (to.Failed? || (to.Passed? && input.status.Active?))
  {
  }

  lemma AddClaimKeeps(s: State, c: Claim)
    requires Ok(s) && c.account in s.rows && CanAutoEvaluate(c.from) && (c.to.Failed? || (c.to.Passed? && c.from.Active?))
    ensures Ok(AddClaim(s, c))
  {
    var t := AddClaim(s, c);
    forall id | id in t.rows ensures LinkOk(t, id) {
      assert LinkOk(s, id);
    }
  }

  /** Any status that fits may be set on an account without a successor. */
  lemma SetStatusKeeps(s: State, id: nat, status: Status)
    requires Ok(s) && id in s.rows && StatusFits(s.rows[id].(status := status)) && (id in s.nexts ==> status.Passed?)
    ensures Ok(SetStatus(s, id, status))
  {
    var t := SetStatus(s, id, status);
    forall k | k in t.rows ensures k < t.nextId && StatusFits(t.rows[k]) && LinkOk(t, k) {
      assert LinkOk(s, k);
    }
  }

  lemma AdvanceKeeps(s: State, id: nat, live: Catalogue)
    requires Ok(s) && id in s.rows && s.rows[id].status.Passed?
    ensures Ok(Advance(s, id, live))
  {
    var t := Advance(s, id, live);
    forall k | k in t.rows ensures k < t.nextId && StatusFits(t.rows[k]) && LinkOk(t, k) {
      if k in s.rows {
        assert LinkOk(s, k);
      }
    }
  }

  lemma CommitKeeps(s: State, k: nat, live: Catalogue)
    requires Ok(s)
    ensures Ok(Commit(s, k, live))
  {
    if k in s.claims {
      var c := s.claims[k];
      var s1 := s.(claims := s.claims - {k});
      DropClaimKeeps(s, k);
      if s.rows[c.account].status == c.from {
        SetStatusKeeps(s1, c.account, c.to);
        if c.to.Passed? {
          AdvanceKeeps(SetStatus(s1, c.account, c.to), c.account, live);
        }
      }
    }
  }

  lemma DropClaimKeeps(s: State, k: nat)
    requires Ok(s)
    ensures Ok(s.(claims := s.claims - {k}))
  {
    var t := s.(claims := s.claims - {k});
    forall id | id in t.rows ensures LinkOk(t, id) {
      assert LinkOk(s, id);
    }
  }

  lemma {:induction false} SuspendKeeps(s: State, ids: seq<nat>)
    requires Ok(s)
    ensures Ok(SuspendEach(s, ids))
    decreases |ids|
  {
    if ids != [] {
      if ids[0] in s.rows && CanAutoEvaluate(s.rows[ids[0]].status) {
        SetStatusKeeps(s, ids[0], Suspended);
        SuspendKeeps(SetStatus(s, ids[0], Suspended), ids[1..]);
      } else {
        SuspendKeeps(s, ids[1..]);
      }
    }
  }

  lemma StepKeeps(s: State, step: Step)
    requires Ok(s)
    ensures Ok(Next(s, step))
  {
    match step
    case Purchased(live, t) => CreateKeeps(s, Freeze(live, t));
    case CreatedByAdmin(live, t) => CreateKeeps(s, Freeze(live, t));
    case EvaluationRead(id, figures) =>
      if id in s.rows {
        var input := figures.(status := s.rows[id].status, phase := s.rows[id].phase);
        var d := DetermineChallengeTransition(input);
        if d.nextStatus != s.rows[id].status {
          DecisionClaims(input);
          AddClaimKeeps(s, Claim(id, s.rows[id].status, d.nextStatus));
        }
      }
    case BreachRead(id) =>
      if id in s.rows && CanAutoEvaluate(s.rows[id].status) {
        AddClaimKeeps(s, Claim(id, s.rows[id].status, Failed));
      }
    case Claimed(k, live) => CommitKeeps(s, k, live);
    case ChangedManually(id, to) =>
      if id in s.rows && IsLegalManualTransition(s.rows[id].status, to, s.rows[id].phase) {
        SetStatusKeeps(s, id, to);
      }
    case WasReset(id) =>
      if id in s.rows && id !in s.nexts {
        SetStatusKeeps(s, id, StartStatus(s.rows[id].phase));
      }
    case Refunded(root) =>
      if root in s.rows {
        SuspendKeeps(s, ChainFrom(s.nexts, root, MAX_REFUND_WALK));
      }
  }

  lemma {:induction false} RunKeeps(steps: seq<Step>)
    ensures Ok(Run(steps))
  {
    if steps != [] {
      RunKeeps(steps[..|steps| - 1]);
      StepKeeps(Run(steps[..|steps| - 1]), steps[|steps| - 1]);
    }
  }

  // ----- what every run guarantees -----

  /** However evaluations overlap: a predecessor is PASSED and has one successor, and statuses fit their phase. */
  lemma ProgressionSound(steps: seq<Step>, a: nat, b: nat, p: nat)
    requires var rows := Run(steps).rows;
             a in rows && b in rows && rows[a].previous == Some(p) && rows[b].previous == Some(p)
    ensures var rows := Run(steps).rows;
            a == b && p in rows && rows[p].status.Passed?
  {
    RunKeeps(steps);
    assert LinkOk(Run(steps), a) && LinkOk(Run(steps), b);
  }

  lemma StatusFitsPhase(steps: seq<Step>, id: nat)
    requires id in Run(steps).rows
    ensures var row := Run(steps).rows[id];
            (row.status.Active? ==> !row.phase.FundedPhase?) && (row.status.FundedStatus? ==> row.phase.FundedPhase?)
  {
    RunKeeps(steps);
  }

  /** A claim that succeeds never meets the unique index: the duplicate branch is unreachable. */
  lemma NoDuplicateSuccessor(steps: seq<Step>, k: nat)
    requires var s := Run(steps); k in s.claims && s.claims[k].account in s.rows && s.rows[s.claims[k].account].status == s.claims[k].from
    ensures Run(steps).claims[k].account !in Run(steps).nexts
  {
    RunKeeps(steps);
  }

  // ----- families -----

  function Rank(s: State, id: nat): nat
    requires id in s.rows
  {
    Depth(s.rows[id].snapshot)
  }

  ghost predicate Member(s: State, root: nat, id: nat) { id in s.rows && s.rows[id].root == root }

  /** One phase below its predecessor, and the rest of the chain comes to an end. */
  ghost predicate StepDown(s: State, id: nat)
    requires id in s.rows
  {
    && Ends(s.rows[id].snapshot)
    && (s.rows[id].previous.Some? && s.rows[id].previous.value in s.rows ==> Rank(s, id) + 1 == Rank(s, s.rows[id].previous.value))
  }

  /** Two members are at different phases, and the higher one has a successor. */
  ghost predicate Ordered(s: State, a: nat, b: nat)
    requires a in s.rows && b in s.rows
  {
    a != b ==> Rank(s, a) != Rank(s, b) && (Rank(s, b) < Rank(s, a) ==> a in s.nexts)
  }

  ghost predicate FamilyOk(s: State, root: nat) {
    && (forall id {:trigger Member(s, root, id)} :: Member(s, root, id) ==> StepDown(s, id))
    && (forall a, b {:trigger Member(s, root, a), Member(s, root, b)} :: Member(s, root, a) && Member(s, root, b) ==> Ordered(s, a, b))
  }

  /** The old accounts are as they were, up to their status, and successors are only added. */
  ghost predicate Extends(s: State, t: State) {
    && s.rows.Keys <= t.rows.Keys && s.nexts.Keys <= t.nexts.Keys
    && forall id :: id in s.rows ==> t.rows[id] == s.rows[id].(status := t.rows[id].status)
  }

  lemma MemberBack(s: State, t: State, root: nat, id: nat)
    requires Extends(s, t) && FamilyOk(s, root) && Member(t, root, id) && id in s.rows
    requires s.rows[id].previous.Some? ==> s.rows[id].previous.value in s.rows
    ensures Member(s, root, id) && StepDown(t, id) && Rank(t, id) == Rank(s, id)
  {
    assert Member(s, root, id);
  }

  lemma OrderedBack(s: State, t: State, root: nat, a: nat, b: nat)
    requires Extends(s, t) && FamilyOk(s, root) && Member(t, root, a) && Member(t, root, b) && a in s.rows && b in s.rows
    ensures Ordered(t, a, b)
  {
    assert Member(s, root, a) && Member(s, root, b);
  }

  /** With no new member, nothing can get out of order. */
  lemma NoNewMember(s: State, t: State, root: nat)
    requires Ok(s) && Extends(s, t) && FamilyOk(s, root)
    requires forall id :: Member(t, root, id) ==> id in s.rows
    ensures FamilyOk(t, root)
  {
    forall id | Member(t, root, id) ensures StepDown(t, id) {
      assert LinkOk(s, id);
      MemberBack(s, t, root, id);
    }
    forall a, b | Member(t, root, a) && Member(t, root, b) ensures Ordered(t, a, b) {
      OrderedBack(s, t, root, a, b);
    }
  }

  lemma {:induction false} SuspendSameChains(s: State, ids: seq<nat>)
    ensures var t := SuspendEach(s, ids); Extends(s, t) && t.rows.Keys == s.rows.Keys && t.nexts == s.nexts
    decreases |ids|
  {
    if ids != [] {
      var s1 := if ids[0] in s.rows && CanAutoEvaluate(s.rows[ids[0]].status) then SetStatus(s, ids[0], Suspended) else s;
      SuspendSameChains(s1, ids[1..]);
    }
  }

  lemma CreateFamily(s: State, snapshot: Snapshot, root: nat)
    requires Ok(s) && root in s.rows && FamilyOk(s, root)
    ensures FamilyOk(Create(s, snapshot), root)
  {
    var t := Create(s, snapshot);
    assert s.nextId !in s.rows;
    NoNewMember(s, t, root);
  }

  /** A new account joins below everything its family has. */
  lemma AdvanceFamily(s: State, id: nat, live: Catalogue, root: nat)
    requires Ok(s) && id in s.rows && s.rows[id].status.Passed? && FamilyOk(s, root)
    ensures FamilyOk(Advance(s, id, live), root)
  {
    var t := Advance(s, id, live);
    if s.rows[id].root != root || t == s {
      if t != s {
        NoNewMember(s, t, root);
      }
    } else {
      JoinFamily(s, t, id, root);
    }
  }

  lemma JoinFamily(s: State, t: State, id: nat, root: nat)
    requires Ok(s) && id in s.rows && s.rows[id].status.Passed? && s.rows[id].root == root && FamilyOk(s, root) && id !in s.nexts
    requires exists live :: t == Advance(s, id, live) && t != s
    ensures FamilyOk(t, root)
  {
    var n := s.nextId;
    assert n !in s.rows && Extends(s, t);
    assert Member(s, root, id) && StepDown(s, id);
    assert Rank(t, n) + 1 == Rank(t, id) && StepDown(t, n);
    forall k | Member(t, root, k) ensures StepDown(t, k) {
      if k != n {
        assert LinkOk(s, k);
        MemberBack(s, t, root, k);
      }
    }
    forall a, b | Member(t, root, a) && Member(t, root, b) ensures Ordered(t, a, b) {
      if a != n && b != n {
        OrderedBack(s, t, root, a, b);
      } else if a != n {
        AboveNewcomer(s, t, id, root, a);
      } else if b != n {
        AboveNewcomer(s, t, id, root, b);
      }
    }
  }

  /** The account without a successor was the last one, so everyone else is above it and has one. */
  lemma AboveNewcomer(s: State, t: State, id: nat, root: nat, k: nat)
    requires FamilyOk(s, root) && Member(s, root, id) && id !in s.nexts && Member(t, root, k) && k in s.rows && Extends(s, t)
    requires id in t.nexts && s.nextId in t.rows && Rank(t, s.nextId) + 1 == Rank(t, id)
    ensures Rank(t, k) > Rank(t, s.nextId) && k in t.nexts
  {
    assert Member(s, root, k);
    assert Ordered(s, id, k) && Ordered(s, k, id);
  }

  lemma StepFamily(s: State, step: Step, root: nat)
    requires Ok(s) && root in s.rows && FamilyOk(s, root)
    ensures FamilyOk(Next(s, step), root)
  {
    match step
    case Purchased(live, tpl) =>
      if tpl.phase.Phase1? && tpl.active {
        CreateFamily(s, Freeze(live, tpl), root);
      }
    case CreatedByAdmin(live, tpl) => CreateFamily(s, Freeze(live, tpl), root);
    case Claimed(k, live) => CommitFamily(s, k, live, root);
    case Refunded(r) =>
      SuspendSameChains(s, ChainFrom(s.nexts, r, MAX_REFUND_WALK));
      NoNewMember(s, Next(s, step), root);
    case _ => NoNewMember(s, Next(s, step), root);
  }

  lemma CommitFamily(s: State, k: nat, live: Catalogue, root: nat)
    requires Ok(s) && FamilyOk(s, root)
    ensures FamilyOk(Commit(s, k, live), root)
  {
    if k in s.claims {
      var c := s.claims[k];
      var s1 := s.(claims := s.claims - {k});
      NoNewMember(s, s1, root);
      if s.rows[c.account].status == c.from {
        var s2 := SetStatus(s1, c.account, c.to);
        DropClaimKeeps(s, k);
        SetStatusKeeps(s1, c.account, c.to);
        NoNewMember(s1, s2, root);
        if c.to.Passed? {
          AdvanceFamily(s2, c.account, live, root);
        }
      }
    }
  }

  /** The family of a root whose frozen chain comes to an end stays in order from its creation on. */
  lemma {:induction false} RunFamily(steps: seq<Step>, root: nat)
    requires root in Run(steps).rows && Run(steps).rows[root].root == root && Ends(Run(steps).rows[root].snapshot)
    ensures FamilyOk(Run(steps), root)
  {
    var front := steps[..|steps| - 1];
    var s := Run(front);
    var t := Run(steps);
    var step := steps[|steps| - 1];
    RunKeeps(front);
    RunKeeps(steps);
    if root in s.rows {
      StepKeepsRow(s, step, root);
      RunFamily(front, root);
      StepFamily(s, step, root);
    } else {
      assert Member(t, root, root);
      NewRootAlone(s, step, root);
    }
  }

  lemma CommitKeepsRow(s: State, k: nat, live: Catalogue, id: nat)
    requires Ok(s) && id in s.rows
    ensures id in Commit(s, k, live).rows && Commit(s, k, live).rows[id] == s.rows[id].(status := Commit(s, k, live).rows[id].status)
  {
  }

  lemma StepKeepsRow(s: State, step: Step, id: nat)
    requires Ok(s) && id in s.rows
    ensures id in Next(s, step).rows && Next(s, step).rows[id] == s.rows[id].(status := Next(s, step).rows[id].status)
  {
    match step
    case Claimed(k, live) => CommitKeepsRow(s, k, live, id);
    case Refunded(r) => SuspendSameChains(s, ChainFrom(s.nexts, r, MAX_REFUND_WALK));
    case _ =>
  }

  lemma OneNewRow(s: State, step: Step, id: nat)
    requires Ok(s) && id in Next(s, step).rows && id !in s.rows
    ensures id == s.nextId
  {
    match step
    case Refunded(r) => SuspendSameChains(s, ChainFrom(s.nexts, r, MAX_REFUND_WALK));
    case _ =>
  }

  lemma NewRootAlone(s: State, step: Step, root: nat)
    requires Ok(s) && root !in s.rows && Member(Next(s, step), root, root)
    requires Ends(Next(s, step).rows[root].snapshot)
    ensures FamilyOk(Next(s, step), root)
  {
    var t := Next(s, step);
    StepKeeps(s, step);
    OneNewRow(s, step, root);
    forall id | Member(t, root, id) ensures id == root {
      if id in s.rows {
        RootExists(s, id);
        StepKeepsRow(s, step, id);
      } else {
        OneNewRow(s, step, id);
      }
    }
    assert forall id :: id in t.rows && t.rows[id].root == root ==> Member(t, root, id);
    RootHasNoPrevious(t, root);
  }

  lemma RootHasNoPrevious(t: State, root: nat)
    requires Ok(t) && root in t.rows && t.rows[root].root == root
    requires forall id :: id in t.rows && t.rows[id].root == root ==> id == root
    ensures t.rows[root].previous.None?
  {
    assert LinkOk(t, root);
  }

  lemma RootExists(s: State, id: nat)
    requires Ok(s) && id in s.rows
    ensures s.rows[id].root in s.rows && s.rows[s.rows[id].root].root == s.rows[id].root && s.rows[s.rows[id].root].previous.None?
    decreases id
  {
    assert LinkOk(s, id);
    if s.rows[id].previous.Some? {
      RootExists(s, s.rows[id].previous.value);
    }
  }

  function Family(s: State, root: nat): set<nat> {
    set id | id in s.rows && s.rows[id].root == root
  }

  /** Distinct ranks between 1 and n leave room for n members. */
  lemma {:induction false} DistinctRanks(s: State, members: set<nat>, n: nat)
    requires forall id :: id in members ==> id in s.rows && 1 <= Rank(s, id) <= n
    requires forall a, b :: a in members && b in members && a != b ==> Rank(s, a) != Rank(s, b)
    ensures |members| <= n
    decreases n
  {
    if id :| id in members && Rank(s, id) == n {
      DistinctRanks(s, members - {id}, n - 1);
    } else if n > 0 {
      DistinctRanks(s, members, n - 1);
    } else {
      assert members == {};
    }
  }

  lemma {:induction false} RankBelowRoot(s: State, root: nat, id: nat)
    requires Ok(s) && Member(s, root, id) && FamilyOk(s, root)
    ensures root in s.rows && Rank(s, id) <= Rank(s, root)
    decreases id
  {
    assert LinkOk(s, id) && StepDown(s, id);
    if s.rows[id].previous.Some? {
      RankBelowRoot(s, root, s.rows[id].previous.value);
    }
  }

  /** Accounts descended from one purchase never outnumber the phases frozen with it. */
  lemma FamilyBounded(steps: seq<Step>, root: nat)
    requires root in Run(steps).rows && Run(steps).rows[root].root == root && Ends(Run(steps).rows[root].snapshot)
    ensures |Family(Run(steps), root)| <= Depth(Run(steps).rows[root].snapshot)
  {
    var s := Run(steps);
    RunKeeps(steps);
    RunFamily(steps, root);
    forall id | id in Family(s, root) ensures 1 <= Rank(s, id) <= Rank(s, root) {
      RankBelowRoot(s, root, id);
    }
    forall a, b | a in Family(s, root) && b in Family(s, root) && a != b ensures Rank(s, a) != Rank(s, b) {
      assert Member(s, root, a) && Member(s, root, b);
    }
    DistinctRanks(s, Family(s, root), Rank(s, root));
  }

  // ----- refunds reach the whole family -----

  /** A member is as many successors away from an ancestor as their ranks are apart. */
  lemma {:induction false} ChainReaches(s: State, root: nat, id: nat, more: nat)
    requires Ok(s) && FamilyOk(s, root) && Member(s, root, root) && Member(s, root, id)
    requires Rank(s, root) <= Rank(s, id) + more
    ensures id in ChainFrom(s.nexts, root, more)
    decreases id
  {
    assert LinkOk(s, id) && StepDown(s, id);
    if s.rows[id].previous.Some? {
      var p := s.rows[id].previous.value;
      RankBelowRoot(s, root, p);
      if more > 0 {
        ChainReaches(s, root, p, more - 1);
        ChainStep(s.nexts, root, more - 1, p);
      }
    }
  }

  lemma {:induction false} ChainStep(nexts: map<nat, nat>, id: nat, more: nat, p: nat)
    requires p in ChainFrom(nexts, id, more) && p in nexts
    ensures nexts[p] in ChainFrom(nexts, id, more + 1)
    decreases more
  {
    if p == id {
      assert ChainFrom(nexts, id, more + 1) == [id] + ChainFrom(nexts, nexts[id], more);
      assert ChainFrom(nexts, nexts[id], more)[0] == nexts[id];
    } else {
      ChainStep(nexts, nexts[id], more - 1, p);
    }
  }

  lemma {:induction false} SuspendedAll(s: State, ids: seq<nat>, id: nat)
    requires id in ids && id in s.rows
    ensures id in SuspendEach(s, ids).rows && !CanAutoEvaluate(SuspendEach(s, ids).rows[id].status)
    decreases |ids|
  {
    var s1 := if ids[0] in s.rows && CanAutoEvaluate(s.rows[ids[0]].status) then SetStatus(s, ids[0], Suspended) else s;
    if id in ids[1..] {
      SuspendedAll(s1, ids[1..], id);
    } else {
      SuspendLeaves(s1, ids[1..], id);
    }
  }

  lemma {:induction false} SuspendLeaves(s: State, ids: seq<nat>, id: nat)
    requires id in s.rows && !CanAutoEvaluate(s.rows[id].status)
    ensures id in SuspendEach(s, ids).rows && !CanAutoEvaluate(SuspendEach(s, ids).rows[id].status)
    decreases |ids|
  {
    if ids != [] {
      var s1 := if ids[0] in s.rows && CanAutoEvaluate(s.rows[ids[0]].status) then SetStatus(s, ids[0], Suspended) else s;
      SuspendLeaves(s1, ids[1..], id);
    }
  }

  lemma {:induction false} RunShallow(steps: seq<Step>, id: nat)
    requires id in Run(steps).rows
    ensures Depth(Run(steps).rows[id].snapshot) <= 1 + MAX_FROZEN
  {
    var front, step := steps[..|steps| - 1], steps[|steps| - 1];
    var s := Run(front);
    RunKeeps(front);
    if id in s.rows {
      RunShallow(front, id);
      StepKeepsRow(s, step, id);
    } else {
      match step
      case Purchased(live, t) => FreezeIsWholeIff(live, t);
      case CreatedByAdmin(live, t) => FreezeIsWholeIff(live, t);
      case Claimed(k, live) => RunShallow(front, s.claims[k].account);
      case Refunded(r) => SuspendSameChains(s, ChainFrom(s.nexts, r, MAX_REFUND_WALK));
      case _ =>
    }
  }

  /** After a refund no account of a purchase whose chain ends can trade: four steps reach all five phases. */
  lemma RefundStopsFamily(steps: seq<Step>, root: nat, id: nat)
    requires var s := Run(steps);
             root in s.rows && s.rows[root].root == root && Ends(s.rows[root].snapshot) && id in Family(s, root)
    ensures var t := Refund(Run(steps), root);
            id in t.rows && !CanAutoEvaluate(t.rows[id].status)
  {
    var s := Run(steps);
    RunKeeps(steps);
    RunFamily(steps, root);
    RunShallow(steps, root);
    assert Member(s, root, root) && Member(s, root, id);
    ChainReaches(s, root, id, MAX_REFUND_WALK);
    SuspendedAll(s, ChainFrom(s.nexts, root, MAX_REFUND_WALK), id);
  }

  // ----- when the chain does not end -----

  lemma RunMore(steps: seq<Step>, step: Step)
    ensures Run(steps + [step]) == Next(Run(steps), step)
  {
    assert (steps + [step])[..|steps|] == steps;
  }

  function PassingFigures(): DecisionInput {
    DecisionInput(Active, Phase1, 100, 10, 110, 110, 100, 5, RuleSnapshot(0.0, 0.0, Some(10.0), 0, Static), false, None)
  }

  lemma PassingFiguresPass(phase: Phase)
    requires !phase.FundedPhase?
    ensures DetermineChallengeTransition(PassingFigures().(status := Active, phase := phase)).nextStatus == Passed
  {
    assert Limit(100, 10.0) == 10 by {
      assert 100.0 * (10.0 / 100.0) == 10.0;
      Money.RoundCentsExact(10);
    }
    assert Limit(100, 0.0) == 0 by {
      Money.RoundCentsExact(0);
    }
  }

  /** One read and its claim, as two steps. */
  function Pass(steps: seq<Step>, id: nat, live: Catalogue): seq<Step> {
    (steps + [EvaluationRead(id, PassingFigures())]) + [Claimed(Run(steps).nextClaim, live)]
  }

  /** One family only, `0` to `last`, of which `last` trades outside the funded phase under `snapshot`. */
  ghost predicate OneFamily(s: State, last: nat, snapshot: Snapshot) {
    && s.nextId == last + 1 && s.claims == map[]
    && (forall k: nat :: k in s.rows <==> k <= last) && (forall k :: k in s.rows ==> s.rows[k].root == 0)
    && (forall k: nat :: k in s.nexts <==> k < last) && (forall k :: k in s.nexts ==> s.nexts[k] == k + 1)
    && s.rows[last].status.Active? && !s.rows[last].phase.FundedPhase? && s.rows[last].snapshot == snapshot
  }

  lemma PassAdvances(steps: seq<Step>, last: nat, snapshot: Snapshot, live: Catalogue)
    requires OneFamily(Run(steps), last, snapshot)
    requires NextSnapshot(snapshot, live).Some? && !NextSnapshot(snapshot, live).value.phase.FundedPhase?
    ensures OneFamily(Run(Pass(steps, last, live)), last + 1, NextSnapshot(snapshot, live).value)
    ensures Run(Pass(steps, last, live)).rows[0].snapshot == Run(steps).rows[0].snapshot
  {
    var s, read := Run(steps), steps + [EvaluationRead(last, PassingFigures())];
    PassingFiguresPass(s.rows[last].phase);
    RunMore(steps, EvaluationRead(last, PassingFigures()));
    RunMore(read, Claimed(s.nextClaim, live));
    assert Run(read) == AddClaim(s, Claim(last, Active, Passed));
    ClaimAdvances(s, last, snapshot, live);
  }

  /** The claim of the one evaluation that was read. */
  lemma ClaimAdvances(s: State, last: nat, snapshot: Snapshot, live: Catalogue)
    requires OneFamily(s, last, snapshot)
    requires NextSnapshot(snapshot, live).Some? && !NextSnapshot(snapshot, live).value.phase.FundedPhase?
    ensures var t := Commit(AddClaim(s, Claim(last, Active, Passed)), s.nextClaim, live);
            OneFamily(t, last + 1, NextSnapshot(snapshot, live).value) && t.rows[0].snapshot == s.rows[0].snapshot
  {
    var s1 := AddClaim(s, Claim(last, Active, Passed));
    assert s1.claims - {s.nextClaim} == map[];
    var s2 := SetStatus(s1.(claims := map[]), last, Passed);
    assert Commit(s1, s.nextClaim, live) == Advance(s2, last, live);
  }

  lemma FamilySize(s: State, last: nat, snapshot: Snapshot)
    requires OneFamily(s, last, snapshot)
    ensures |Family(s, 0)| == last + 1
  {
    assert Family(s, 0) == UpTo(last);
  }

  function UpTo(n: nat): (r: set<nat>)
    ensures |r| == n + 1 && forall k: nat :: k in r <==> k <= n
  {
    if n == 0 then {0} else UpTo(n - 1) + {n}
  }

  /** The last phase of a chain. */
  function LastPhase(s: Snapshot): Snapshot { if s.next.None? then s else LastPhase(s.next.value) }

  /** Every account passes in turn until the frozen chain is used up. */
  lemma {:induction false} PassAll(steps: seq<Step>, last: nat, snapshot: Snapshot) returns (more: seq<Step>)
    requires OneFamily(Run(steps), last, snapshot) && !HasFunded(snapshot)
    ensures OneFamily(Run(more), last + Depth(snapshot) - 1, LastPhase(snapshot))
    ensures Run(more).rows[0].snapshot == Run(steps).rows[0].snapshot
    decreases snapshot
  {
    more := steps;
    if snapshot.next.Some? {
      PassAdvances(steps, last, snapshot, map[]);
      more := PassAll(Pass(steps, last, map[]), last + 1, snapshot.next.value);
    }
  }

  lemma {:induction false} BrokenAtTheEnd(s: Snapshot)
    requires !WholeChain(s)
    ensures LastPhase(s).next.None? && LastPhase(s).nextPhaseId.Some?
  {
    if s.next.Some? {
      BrokenAtTheEnd(s.next.value);
    }
  }

  lemma AdminStarts(live: Catalogue, t: Template)
    requires !t.phase.FundedPhase?
    ensures OneFamily(Run([CreatedByAdmin(live, t)]), 0, Freeze(live, t))
  {
    RunMore([], CreatedByAdmin(live, t));
    assert [] + [CreatedByAdmin(live, t)] == [CreatedByAdmin(live, t)];
  }

  ghost predicate IsRoot(s: State, root: nat, snapshot: Snapshot) {
    root in s.rows && s.rows[root].root == root && s.rows[root].snapshot == snapshot
  }

  /** No run gives an account with this chain more descendants than the chain has phases. */
  ghost predicate StaysWithin(snapshot: Snapshot) {
    forall steps, root :: IsRoot(Run(steps), root, snapshot) ==> |Family(Run(steps), root)| <= Depth(snapshot)
  }

  /** A chain that is cut off before any funded phase goes on and on while the next template is live: a run makes any number of accounts. */
  lemma {:induction false} CutOffGrows(live: Catalogue, t: Template, n: nat) returns (steps: seq<Step>, last: Snapshot)
    requires !Ends(Freeze(live, t)) && n + 1 >= Depth(Freeze(live, t))
    ensures OneFamily(Run(steps), n, last) && last.next.None? && last.nextPhaseId.Some?
    ensures IsRoot(Run(steps), 0, Freeze(live, t)) && |Family(Run(steps), 0)| == n + 1
  {
    if n + 1 == Depth(Freeze(live, t)) {
      AdminStarts(live, t);
      steps := PassAll([CreatedByAdmin(live, t)], 0, Freeze(live, t));
      last := LastPhase(Freeze(live, t));
      BrokenAtTheEnd(Freeze(live, t));
    } else {
      var before, snapshot := CutOffGrows(live, t, n - 1);
      var next := snapshot.nextPhaseId.value;
      var later := map[next := Template(next, Phase1, Some(next), true)];
      PassAdvances(before, n - 1, snapshot, later);
      steps, last := Pass(before, n - 1, later), NextSnapshot(snapshot, later).value;
    }
    FamilySize(Run(steps), n, last);
  }

  /** A frozen chain bounds its family in every run exactly when it comes to an end. */
  lemma FamilyBoundedIff(live: Catalogue, t: Template)
    ensures StaysWithin(Freeze(live, t)) <==> Ends(Freeze(live, t))
  {
    var snapshot := Freeze(live, t);
    if Ends(snapshot) {
      forall steps, root | IsRoot(Run(steps), root, snapshot) ensures |Family(Run(steps), root)| <= Depth(snapshot) {
        FamilyBounded(steps, root);
      }
    } else {
      var steps, last := CutOffGrows(live, t, Depth(snapshot));
      assert IsRoot(Run(steps), 0, snapshot);
    }
  }

  /** After a refund no account descended from a purchase with this chain can trade, in any run. */
  ghost predicate RefundStops(snapshot: Snapshot) {
    forall steps, root, id :: IsRoot(Run(steps), root, snapshot) && id in Family(Run(steps), root) ==> !TradesAfterRefund(Run(steps), root, id)
  }

  predicate TradesAfterRefund(s: State, root: nat, id: nat) {
    id in Refund(s, root).rows && CanAutoEvaluate(Refund(s, root).rows[id].status)
  }

  /** A refund stops every account of every run exactly when the chain comes to an end: otherwise a sixth account is out of its reach. */
  lemma RefundStopsFamilyIff(live: Catalogue, t: Template)
    ensures RefundStops(Freeze(live, t)) <==> Ends(Freeze(live, t))
  {
    var snapshot := Freeze(live, t);
    if Ends(snapshot) {
      forall steps, root, id | IsRoot(Run(steps), root, snapshot) && id in Family(Run(steps), root)
        ensures !TradesAfterRefund(Run(steps), root, id)
      {
        RefundStopsFamily(steps, root, id);
      }
    } else {
      FreezeIsWholeIff(live, t);
      var steps, last := CutOffGrows(live, t, MAX_REFUND_WALK + 1);
      SixthEscapes(Run(steps), last);
      assert MAX_REFUND_WALK + 1 in Family(Run(steps), 0);
    }
  }

  lemma SixthEscapes(s: State, last: Snapshot)
    requires OneFamily(s, MAX_REFUND_WALK + 1, last)
    ensures TradesAfterRefund(s, 0, MAX_REFUND_WALK + 1)
  {
    var walk := ChainFrom(s.nexts, 0, MAX_REFUND_WALK);
    if MAX_REFUND_WALK + 1 in walk {
      WalkIsShort(s.nexts, 0, MAX_REFUND_WALK, MAX_REFUND_WALK + 1);
    }
    SuspendSpares(s, walk, MAX_REFUND_WALK + 1);
  }

  lemma {:induction false} WalkIsShort(nexts: map<nat, nat>, id: nat, more: nat, k: nat)
    requires (forall j :: j in nexts ==> nexts[j] == j + 1) && k in ChainFrom(nexts, id, more)
    ensures k <= id + more
    decreases more
  {
    if more > 0 && id in nexts && k != id {
      WalkIsShort(nexts, nexts[id], more - 1, k);
    }
  }

  lemma {:induction false} SuspendSpares(s: State, ids: seq<nat>, id: nat)
    requires id !in ids && id in s.rows
    ensures id in SuspendEach(s, ids).rows && SuspendEach(s, ids).rows[id] == s.rows[id]
    decreases |ids|
  {
    if ids != [] {
      var s1 := if ids[0] in s.rows && CanAutoEvaluate(s.rows[ids[0]].status) then SetStatus(s, ids[0], Suspended) else s;
      SuspendSpares(s1, ids[1..], id);
    }
  }

  function TwoInACircle(): Catalogue {
    map["A" := Template("A", Phase1, Some("B"), true), "B" := Template("B", Phase2, Some("A"), true)]
  }

  /** The next phase of the circle is A or B, from the frozen chain or from the live templates. */
  predicate InCircle(s: Snapshot) {
    (s.nextPhaseId == Some("A") || s.nextPhaseId == Some("B")) && !s.phase.FundedPhase? && (s.next.Some? ==> InCircle(s.next.value))
  }

  /** With two active templates that name each other there is no end: for every number there is a run that makes as many accounts. */
  lemma {:induction false} CircleGrows(n: nat) returns (steps: seq<Step>, last: Snapshot)
    ensures OneFamily(Run(steps), n, last) && InCircle(last)
    ensures IsRoot(Run(steps), 0, Freeze(TwoInACircle(), TwoInACircle()["A"])) && |Family(Run(steps), 0)| == n + 1
  {
    var live := TwoInACircle();
    assert "A"[0] != "B"[0];
    if n == 0 {
      steps, last := [CreatedByAdmin(live, live["A"])], Freeze(live, live["A"]);
      AdminStarts(live, live["A"]);
      CircleFreeze();
    } else {
      var before, snapshot := CircleGrows(n - 1);
      PassAdvances(before, n - 1, snapshot, live);
      steps, last := Pass(before, n - 1, live), NextSnapshot(snapshot, live).value;
    }
    FamilySize(Run(steps), n, last);
  }

  lemma CircleFreeze()
    ensures var live := TwoInACircle();
            Freeze(live, live["A"]) == Snapshot("A", Phase1, Some("B"), Some(Snapshot("B", Phase2, Some("A"), None)))
  {
    var live := TwoInACircle();
    assert "A"[0] != "B"[0];
    var a, b := live["A"], live["B"];
    assert a.nextPhaseId == Some("B") && b.nextPhaseId == Some("A");
    assert Following(live, Some("A"), {"A"} + {b.id}, 3) == [];
    assert Following(live, Some("B"), {"A"}, 4) == [b];
    assert [b][1..] == [];
    assert Nest([b]) == Some(ToSnapshot(b, None));
  }

  // ----- the service's form -----

  class ChallengeStore {
    var rows: map<nat, Row>
    var nexts: map<nat, nat>
    var nextId: nat
    var claims: map<nat, Claim>
    var nextClaim: nat

    function View(): State
      reads this
    {
      State(rows, nexts, nextId, claims, nextClaim)
    }

    constructor ()
      ensures View() == NoAccounts
    {
      rows, nexts, nextId, claims, nextClaim := map[], map[], 0, map[], 0;
    }

    method CreateAccount(live: Catalogue, template: Template, purchased: bool)
      modifies this
      ensures View() == Next(old(View()), if purchased then Purchased(live, template) else CreatedByAdmin(live, template))
    {
      if purchased && (!template.phase.Phase1? || !template.active) {
        return;
      }
      var snapshot := BuildSnapshot(live, template);
      var status := if snapshot.phase.FundedPhase? then FundedStatus else Active;
      rows := rows[nextId := Row(status, snapshot.phase, snapshot, None, nextId)];
      nextId := nextId + 1;
    }

    /** The read of an evaluation or, with `breach`, of a failure asked for by the live engine. */
    method Read(id: nat, figures: DecisionInput, breach: bool)
      modifies this`claims, this`nextClaim
      ensures View() == Next(old(View()), if breach then BreachRead(id) else EvaluationRead(id, figures))
    {
      if id !in rows {
        return;
      }
      var row := rows[id];
      var to := row.status;
      if breach {
        if row.status.Active? || row.status.FundedStatus? {
          to := Failed;
        }
      } else {
        var d := DetermineChallengeTransition(figures.(status := row.status, phase := row.phase));
        to := d.nextStatus;
      }
      if to != row.status {
        claims := claims[nextClaim := Claim(id, row.status, to)];
        nextClaim := nextClaim + 1;
      }
    }

    method ClaimTransition(k: nat, live: Catalogue)
      modifies this
      ensures View() == Commit(old(View()), k, live)
    {
      if k !in claims {
        return;
      }
      var c := claims[k];
      claims := claims - {k};
      if c.account in rows && rows[c.account].status == c.from {
        rows := rows[c.account := rows[c.account].(status := c.to)];
        if c.to.Passed? {
          AdvanceToNextPhase(c.account, live);
        }
      }
    }

    method AdvanceToNextPhase(id: nat, live: Catalogue)
      requires id in rows
      modifies this`rows, this`nexts, this`nextId
      ensures View() == Advance(old(View()), id, live)
    {
      var next := rows[id].snapshot.next;
      if next.None? {
        var nextPhaseId := rows[id].snapshot.nextPhaseId;
        if nextPhaseId.None? || nextPhaseId.value !in live || !live[nextPhaseId.value].active {
          return;
        }
        next := Some(ToSnapshot(live[nextPhaseId.value], None));
      }
      if id in nexts {
        return;
      }
      var status := if next.value.phase.FundedPhase? then FundedStatus else Active;
      rows := rows[nextId := Row(status, next.value.phase, next.value, Some(id), rows[id].root)];
      nexts := nexts[id := nextId];
      nextId := nextId + 1;
    }

    method SetStatusManually(id: nat, to: Status) returns (changed: bool)
      modifies this`rows
      ensures View() == ManualChange(old(View()), id, to)
      ensures changed == (id in old(rows) && IsLegalManualTransition(old(rows)[id].status, to, old(rows)[id].phase))
    {
      changed := id in rows && IsLegalManualTransition(rows[id].status, to, rows[id].phase);
      if changed {
        rows := rows[id := rows[id].(status := to)];
      }
    }

    method ResetAccount(id: nat) returns (reset: bool)
      modifies this`rows
      ensures View() == Reset(old(View()), id)
      ensures reset == (id in old(rows) && id !in nexts)
    {
      reset := id in rows && id !in nexts;
      if reset {
        rows := rows[id := rows[id].(status := if rows[id].phase.FundedPhase? then FundedStatus else Active)];
      }
    }

    method SuspendPurchaseAccounts(root: nat)
      modifies this`rows
      ensures View() == Refund(old(View()), root)
    {
      if root !in rows {
        return;
      }
      var chain := WalkChain(root);
      SuspendAll(chain);
    }

    method WalkChain(root: nat) returns (chain: seq<nat>)
      ensures chain == ChainFrom(nexts, root, MAX_REFUND_WALK)
    {
      chain := [root];
      var current, i := root, 0;
      while i < MAX_REFUND_WALK
        invariant 0 <= i <= MAX_REFUND_WALK && |chain| > 0 && chain[|chain| - 1] == current
        invariant chain[..|chain| - 1] + ChainFrom(nexts, current, MAX_REFUND_WALK - i) == ChainFrom(nexts, root, MAX_REFUND_WALK)
      {
        if current !in nexts {
          break;
        }
        current := nexts[current];
        chain := chain + [current];
        i := i + 1;
      }
    }

    method SuspendAll(ids: seq<nat>)
      modifies this`rows
      ensures View() == SuspendEach(old(View()), ids)
    {
      var i := 0;
      while i < |ids|
        invariant 0 <= i <= |ids|
        invariant SuspendEach(View(), ids[i..]) == SuspendEach(old(View()), ids)
      {
        if ids[i] in rows && (rows[ids[i]].status.Active? || rows[ids[i]].status.FundedStatus?) {
          rows := rows[ids[i] := rows[ids[i]].(status := Suspended)];
        }
        i := i + 1;
      }
    }
  }
}
