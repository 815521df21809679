/** What each step writes to the rows of the challenge accounts, and what becomes of a claim over a run. */
module ChallengeOutcomes {
  import opened Options
  import opened ChallengeRules
  import opened ChallengeLifecycle

  /** Of the existing rows only the status of `id` changes, to `status`. */
  ghost predicate OnlyStatus(s: State, t: State, id: nat, status: Status) {
    forall k :: k in s.rows ==> k in t.rows && t.rows[k] == if k == id then s.rows[k].(status := status) else s.rows[k]
  }

  ghost predicate NothingWritten(s: State, t: State) { t.rows == s.rows && t.nexts == s.nexts && t.nextId == s.nextId }

  /** FUNDED for the funded phase, ACTIVE for the others. */
  function OpenStatus(phase: Phase): Status { if phase.FundedPhase? then FundedStatus else Active }

  /** One new account, open in its phase. */
  ghost predicate NewAccount(s: State, t: State, snapshot: Snapshot, previous: Option<nat>, root: nat) {
    && s.nextId !in s.rows && t.nextId == s.nextId + 1 && t.rows.Keys == s.rows.Keys + {s.nextId}
    && t.rows[s.nextId] == Row(OpenStatus(snapshot.phase), snapshot.phase, snapshot, previous, root)
  }

  // ----- claims -----

  /** The row still has the status the decision was made on. */
  predicate StillAsRead(s: State, k: nat)
    requires k in s.claims
  {
    s.claims[k].account in s.rows && s.rows[s.claims[k].account].status == s.claims[k].from
  }

  /**
   * A claim writes its status exactly when the row still has the one that was read, and writes
   * nothing else; a pass makes the account of the next phase with it, if there is one.
   */
  lemma ClaimWrites(steps: seq<Step>, k: nat, live: Catalogue)
    requires k in Run(steps).claims
    ensures var s, t := Run(steps), Next(Run(steps), Claimed(k, live));
            var c := s.claims[k];
            && t.claims == s.claims - {k}
            && if !StillAsRead(s, k) then NothingWritten(s, t)
               else
                 && OnlyStatus(s, t, c.account, c.to)
                 && var next := NextSnapshot(s.rows[c.account].snapshot, live);
                    if c.to.Passed? && next.Some? then
                      && NewAccount(s, t, next.value, Some(c.account), s.rows[c.account].root)
                      && t.nexts == s.nexts[c.account := s.nextId]
                    else t.rows.Keys == s.rows.Keys && t.nexts == s.nexts
  {
    RunKeeps(steps);
    var s := Run(steps);
    var c := s.claims[k];
    if StillAsRead(s, k) {
      var written := SetStatus(s.(claims := s.claims - {k}), c.account, c.to);
      assert OnlyStatus(s, written, c.account, c.to);
      if c.to.Passed? {
        NoDuplicateSuccessor(steps, k);
        AdvanceMakes(written, c.account, live);
      }
    }
  }

  lemma AdvanceMakes(s: State, id: nat, live: Catalogue)
    requires id in s.rows && id !in s.nexts && s.nextId !in s.rows
    ensures var t, next := Advance(s, id, live), NextSnapshot(s.rows[id].snapshot, live);
            && (forall k :: k in s.rows ==> k in t.rows && t.rows[k] == s.rows[k]) && t.claims == s.claims
            && if next.Some? then
                 && NewAccount(s, t, next.value, Some(id), s.rows[id].root)
                 && t.nexts == s.nexts[id := s.nextId]
               else t == s
  {
  }

  /** An evaluation leaves a claim exactly when the rules decide for another status on the row as it is. */
  lemma EvaluationClaimsIff(s: State, id: nat, figures: DecisionInput)
    requires id in s.rows
    ensures var t := Next(s, EvaluationRead(id, figures));
            var row := s.rows[id];
            var to := DetermineChallengeTransition(figures.(status := row.status, phase := row.phase)).nextStatus;
            && NothingWritten(s, t)
            && (if to == row.status then t == s else t.claims == s.claims[s.nextClaim := Claim(id, row.status, to)])
  {
  }

  /** The live engine's failure of an account leaves a claim to FAILED exactly when the account is tradable. */
  lemma BreachClaimsIff(s: State, id: nat)
    requires id in s.rows
    ensures var t, status := Next(s, BreachRead(id)), s.rows[id].status;
            && NothingWritten(s, t)
            && (if status == Active || status == FundedStatus then t.claims == s.claims[s.nextClaim := Claim(id, status, Failed)] else t == s)
  {
  }

  ghost predicate Claims(steps: seq<Step>, k: nat) {
    exists i :: 0 <= i < |steps| && steps[i].Claimed? && steps[i].k == k
  }

  /** A claim waits unchanged until it is made. */
  lemma {:induction false} ClaimWaits(steps: seq<Step>, more: seq<Step>, k: nat)
    requires k in Run(steps).claims && k < Run(steps).nextClaim && !Claims(more, k)
    ensures var t := Run(steps + more); k in t.claims && t.claims[k] == Run(steps).claims[k] && k < t.nextClaim
  {
    if more == [] {
      assert steps + more == steps;
    } else {
      var front, step := more[..|more| - 1], more[|more| - 1];
      assert steps + more == (steps + front) + [step];
      assert forall i :: 0 <= i < |front| ==> front[i] == more[i];
      ClaimWaits(steps, front, k);
      RunMore(steps + front, step);
      StepKeepsClaim(Run(steps + front), step, k);
    }
  }

  lemma StepKeepsClaim(s: State, step: Step, k: nat)
    requires k in s.claims && k < s.nextClaim && !(step.Claimed? && step.k == k)
    ensures var t := Next(s, step); k in t.claims && t.claims[k] == s.claims[k] && k < t.nextClaim
  {
    match step
    case Refunded(root) => SuspendKeepsClaims(s, ChainFrom(s.nexts, root, MAX_REFUND_WALK));
    case _ =>
  }

  lemma {:induction false} SuspendKeepsClaims(s: State, ids: seq<nat>)
    ensures SuspendEach(s, ids).claims == s.claims && SuspendEach(s, ids).nextClaim == s.nextClaim
    decreases |ids|
  {
    if ids != [] {
      SuspendKeepsClaims(if ids[0] in s.rows && CanAutoEvaluate(s.rows[ids[0]].status) then SetStatus(s, ids[0], Suspended) else s, ids[1..]);
    }
  }

  /**
   * A breach the live engine reports fails the account, whatever happens between its read and its
   * claim, exactly if the status is then still the one it read.
   */
  lemma BreachFails(steps: seq<Step>, id: nat, between: seq<Step>, live: Catalogue)
    requires var s := Run(steps); id in s.rows && CanAutoEvaluate(s.rows[id].status) && !Claims(between, s.nextClaim)
    ensures var s, t := Run(steps), Run((steps + [BreachRead(id)]) + between);
            var u := Run(((steps + [BreachRead(id)]) + between) + [Claimed(s.nextClaim, live)]);
            && id in t.rows && id in u.rows
            && (if t.rows[id].status == s.rows[id].status then u.rows[id] == t.rows[id].(status := Failed) else u.rows[id] == t.rows[id])
  {
    var read, k := steps + [BreachRead(id)], Run(steps).nextClaim;
    RunMore(steps, BreachRead(id));
    BreachClaimsIff(Run(steps), id);
    ClaimWaits(read, between, k);
    RowsStay(read, between, id);
    RunMore(read + between, Claimed(k, live));
    ClaimWrites(read + between, k, live);
  }

  /** And so an evaluation: what the rules decided is written if the status is still the one they decided on. */
  lemma EvaluationDecides(steps: seq<Step>, id: nat, figures: DecisionInput, between: seq<Step>, live: Catalogue)
    requires var s := Run(steps); id in s.rows && !Claims(between, s.nextClaim)
    requires var row := Run(steps).rows[id];
             DetermineChallengeTransition(figures.(status := row.status, phase := row.phase)).nextStatus != row.status
    ensures var s, t := Run(steps), Run((steps + [EvaluationRead(id, figures)]) + between);
            var u := Run(((steps + [EvaluationRead(id, figures)]) + between) + [Claimed(s.nextClaim, live)]);
            var row := s.rows[id];
            var to := DetermineChallengeTransition(figures.(status := row.status, phase := row.phase)).nextStatus;
            && id in t.rows && id in u.rows
            && (if t.rows[id].status == row.status then u.rows[id] == t.rows[id].(status := to) else u.rows[id] == t.rows[id])
  {
    var read, k := steps + [EvaluationRead(id, figures)], Run(steps).nextClaim;
    RunMore(steps, EvaluationRead(id, figures));
    EvaluationClaimsIff(Run(steps), id, figures);
    ClaimWaits(read, between, k);
    RowsStay(read, between, id);
    RunMore(read + between, Claimed(k, live));
    ClaimWrites(read + between, k, live);
  }

  lemma {:induction false} RowsStay(steps: seq<Step>, more: seq<Step>, id: nat)
    requires id in Run(steps).rows
    ensures id in Run(steps + more).rows
  {
    if more == [] {
      assert steps + more == steps;
    } else {
      var front, step := more[..|more| - 1], more[|more| - 1];
      assert steps + more == (steps + front) + [step];
      RowsStay(steps, front, id);
      RunMore(steps + front, step);
      RunKeeps(steps + front);
      StepKeepsRow(Run(steps + front), step, id);
    }
  }

  // ----- the other steps -----

  /** A purchase makes an account of an active Phase 1 template and of no other; an administrator of any. */
  lemma AccountsAreMade(steps: seq<Step>, live: Catalogue, t: Template)
    ensures var s := Run(steps);
            && NewAccount(s, Next(s, CreatedByAdmin(live, t)), Freeze(live, t), None, s.nextId)
            && (if t.phase == Phase1 && t.active then Next(s, Purchased(live, t)) == Next(s, CreatedByAdmin(live, t)) else Next(s, Purchased(live, t)) == s)
  {
    RunKeeps(steps);
    var s := Run(steps);
    assert s.nextId in s.rows ==> s.nextId < s.nextId;
  }

  /** A manual change and a reset write one status, or nothing; a reset is refused once there is a successor. */
  lemma ManualChangeWrites(s: State, id: nat, to: Status)
    requires id in s.rows
    ensures var t, row, u := Next(s, ChangedManually(id, to)), s.rows[id], Next(s, WasReset(id));
            && (if IsLegalManualTransition(row.status, to, row.phase) then OnlyStatus(s, t, id, to) && t.rows.Keys == s.rows.Keys else t == s)
            && (if id !in s.nexts then OnlyStatus(s, u, id, OpenStatus(row.phase)) && u.rows.Keys == s.rows.Keys else u == s)
  {
  }

  /** A refund suspends tradable accounts and touches nothing else. */
  lemma RefundOnlySuspends(s: State, root: nat, id: nat)
    requires id in s.rows
    ensures var t := Next(s, Refunded(root));
            && id in t.rows
            && (t.rows[id] == s.rows[id] || (CanAutoEvaluate(s.rows[id].status) && t.rows[id] == s.rows[id].(status := Suspended)))
            && t.nexts == s.nexts && t.claims == s.claims && t.rows.Keys == s.rows.Keys
  {
    if root in s.rows {
      SuspendsOnly(s, ChainFrom(s.nexts, root, MAX_REFUND_WALK), id);
    }
  }

  lemma {:induction false} SuspendsOnly(s: State, ids: seq<nat>, id: nat)
    requires id in s.rows
    ensures var t := SuspendEach(s, ids);
            && id in t.rows
            && (t.rows[id] == s.rows[id] || (CanAutoEvaluate(s.rows[id].status) && t.rows[id] == s.rows[id].(status := Suspended)))
            && t.nexts == s.nexts && t.claims == s.claims && t.rows.Keys == s.rows.Keys
    decreases |ids|
  {
    if ids != [] {
      SuspendsOnly(if ids[0] in s.rows && CanAutoEvaluate(s.rows[ids[0]].status) then SetStatus(s, ids[0], Suspended) else s, ids[1..], id);
    }
  }

  // ----- what is frozen -----

  /** The template before place `k` of the chain. */
  function Before(t: Template, chain: seq<Template>, k: nat): Template
    requires k <= |chain|
  {
    if k == 0 then t else chain[k - 1]
  }

  /** Every template is the live one its predecessor names. */
  ghost predicate Linked(live: Catalogue, t: Template, chain: seq<Template>) {
    forall k :: 0 <= k < |chain|
                ==> Before(t, chain, k).nextPhaseId.Some? && Before(t, chain, k).nextPhaseId.value in live
                    && chain[k] == live[Before(t, chain, k).nextPhaseId.value]
  }

  function IdsOf(chain: seq<Template>): set<string> { set k | 0 <= k < |chain| :: chain[k].id }

  /** There is nothing to go on with: no successor, a missing one, or one met before. */
  predicate Stops(live: Catalogue, nextId: Option<string>, seen: set<string>) {
    nextId.None? || nextId.value !in live || nextId.value in seen
  }

  lemma {:induction false} FollowingIs(live: Catalogue, t: Template, seen: set<string>, room: nat)
    ensures var chain := Following(live, t.nextPhaseId, seen, room);
            && Linked(live, t, chain) && |chain| <= room
            && (|chain| < room ==> Stops(live, Before(t, chain, |chain|).nextPhaseId, seen + IdsOf(chain)))
    decreases room
  {
    var chain := Following(live, t.nextPhaseId, seen, room);
    if chain == [] {
      assert seen + IdsOf(chain) == seen;
    } else {
      var next := chain[0];
      FollowingIs(live, next, seen + {next.id}, room - 1);
      var rest := chain[1..];
      assert rest == Following(live, next.nextPhaseId, seen + {next.id}, room - 1);
      forall k | 0 <= k < |chain|
        ensures Before(t, chain, k).nextPhaseId.Some? && Before(t, chain, k).nextPhaseId.value in live
                && chain[k] == live[Before(t, chain, k).nextPhaseId.value]
      {
        if k > 0 {
          assert chain[k] == rest[k - 1] && Before(t, chain, k) == Before(next, rest, k - 1);
        }
      }
      IdsOfMore(chain);
      assert seen + {next.id} + IdsOf(rest) == seen + IdsOf(chain);
    }
  }

  lemma IdsOfMore(chain: seq<Template>)
    requires chain != []
    ensures IdsOf(chain) == {chain[0].id} + IdsOf(chain[1..])
  {
    assert forall k :: 0 < k < |chain| ==> chain[k] == chain[1..][k - 1];
    forall id | id in IdsOf(chain[1..]) ensures id in IdsOf(chain) {
      var k :| 0 <= k < |chain[1..]| && chain[1..][k].id == id;
      assert chain[k + 1].id == id;
    }
  }

  /** The snapshot is of `t`, and of the chain after it, one inside the other. */
  ghost predicate Freezes(s: Snapshot, t: Template, chain: seq<Template>)
    decreases |chain|
  {
    && s.id == t.id && s.phase == t.phase && s.nextPhaseId == t.nextPhaseId
    && if chain == [] then s.next.None? else s.next.Some? && Freezes(s.next.value, chain[0], chain[1..])
  }

  lemma {:induction false} NestFreezes(t: Template, chain: seq<Template>)
    ensures Freezes(ToSnapshot(t, Nest(chain)), t, chain)
    decreases |chain|
  {
    if chain != [] {
      NestFreezes(chain[0], chain[1..]);
    }
  }

  /**
   * A purchase freezes its template and the live templates that follow, each the one its predecessor
   * names, up to four; it stops earlier only where there is no successor, a missing one or one frozen
   * already.
   */
  lemma FreezeFollows(live: Catalogue, t: Template) returns (chain: seq<Template>)
    ensures Freezes(Freeze(live, t), t, chain) && Linked(live, t, chain) && |chain| <= 4
    ensures |chain| < 4 ==> Stops(live, Before(t, chain, |chain|).nextPhaseId, {t.id} + IdsOf(chain))
  {
    chain := Following(live, t.nextPhaseId, {t.id}, MAX_FROZEN);
    FollowingIs(live, t, {t.id}, MAX_FROZEN);
    NestFreezes(t, chain);
  }

  /** The next phase is the one frozen with the account; only where none is, it is the named live template while that is active. */
  lemma NextPhaseIs(snapshot: Snapshot, live: Catalogue)
    ensures snapshot.next.Some? ==> NextSnapshot(snapshot, live) == snapshot.next
    ensures snapshot.next.None?
            ==> (NextSnapshot(snapshot, live).Some? <==> exists id :: snapshot.nextPhaseId == Some(id) && id in live && live[id].active)
    ensures snapshot.next.None? && NextSnapshot(snapshot, live).Some?
            ==> NextSnapshot(snapshot, live) == Some(ToSnapshot(live[snapshot.nextPhaseId.value], None))
  {
    if snapshot.nextPhaseId.Some? && snapshot.nextPhaseId.value in live && live[snapshot.nextPhaseId.value].active {
      assert snapshot.nextPhaseId == Some(snapshot.nextPhaseId.value);
    }
  }
}
