/**
 * Which codes are accepted: over every run only the code that was issued, for its purpose and in its
 * time; and the right code is, while the wrong one never is.
 */
module PhoneCodes {
  import opened Options
  import opened PhoneOtp

  // ----- what a run issued and accepted -----

  /** The rows as they were issued, by their numbers. */
  function Issued(steps: seq<Step>): seq<Row> {
    if steps == [] then []
    else
      var front := steps[..|steps| - 1];
      IssuedMore(Issued(front), Run(front), Run(steps))
  }

  /** A step that takes a number issues the last row. */
  function IssuedMore(issued: seq<Row>, s: State, t: State): seq<Row> {
    if t.nextId > s.nextId && t.rows != [] then issued + [t.rows[|t.rows| - 1]] else issued
  }

  /** The verifications that ended in a consumed code. */
  function Accepted(steps: seq<Step>): seq<Check> {
    if steps == [] then []
    else
      var front := steps[..|steps| - 1];
      AcceptedMore(Accepted(front), Run(front), steps[|steps| - 1])
  }

  /** A claim that is accepted is of the check it claims. */
  function AcceptedMore(accepted: seq<Check>, s: State, step: Step): seq<Check> {
    if step.CheckClaimed? && step.k in s.checks && |Next(s, step).accepted| > |s.accepted| then accepted + [s.checks[step.k]] else accepted
  }

  /** A check asks for what was issued, and found it in its time. */
  ghost predicate Fits(c: Check, issued: seq<Row>) {
    c.row < |issued| && c.purpose == issued[c.row].purpose && c.at < issued[c.row].expiresAt && (c.matched ==> c.code == issued[c.row].code)
  }

  ghost predicate AsIssued(r: Row, issued: seq<Row>) {
    r.id < |issued| && r == issued[r.id].(attempts := r.attempts, consumed := r.consumed)
  }

  ghost predicate Faithful(s: State, issued: seq<Row>, accepted: seq<Check>) {
    && |issued| == s.nextId
    && (forall i :: 0 <= i < |s.rows| ==> AsIssued(s.rows[i], issued))
    && (forall k :: k in s.checks ==> Fits(s.checks[k], issued))
    && (forall i :: 0 <= i < |accepted| ==> accepted[i].matched && Fits(accepted[i], issued))
  }

  lemma RequestFaithful(s: State, issued: seq<Row>, accepted: seq<Check>, purpose: Purpose, code: int, now: int, createdAt: int)
    requires Faithful(s, issued, accepted)
    ensures var t := Request(s, purpose, code, now, createdAt);
            Faithful(t, IssuedMore(issued, s, t), accepted)
  {
    ConsumeEach(s.rows, purpose);
    var t := Request(s, purpose, code, now, createdAt);
    if t.nextId > s.nextId {
      var more := issued + [t.rows[|t.rows| - 1]];
      forall i | 0 <= i < |t.rows| ensures AsIssued(t.rows[i], more) {
        if i < |s.rows| {
          assert AsIssued(s.rows[i], issued);
        }
      }
    }
  }

  lemma DeleteFaithful(s: State, issued: seq<Row>, accepted: seq<Check>, gone: Row -> bool)
    requires Faithful(s, issued, accepted)
    ensures Faithful(s.(rows := Without(s.rows, gone)), issued, accepted)
  {
    WithoutIn(s.rows, gone);
    forall i | 0 <= i < |Without(s.rows, gone)| ensures AsIssued(Without(s.rows, gone)[i], issued) {
      assert Without(s.rows, gone)[i] in Without(s.rows, gone);
    }
  }

  lemma FindFaithful(s: State, issued: seq<Row>, accepted: seq<Check>, purpose: Purpose, code: int, now: int)
    requires Faithful(s, issued, accepted)
    ensures Faithful(Find(s, purpose, code, now), issued, accepted)
  {
    NewestIn(s.rows, purpose, now);
    var r := Newest(s.rows, purpose, now);
    if r.Some? {
      var i :| 0 <= i < |s.rows| && s.rows[i] == r.value;
      assert AsIssued(s.rows[i], issued);
    }
  }

  /** The row moves, and a check matches only with the row's code. */
  lemma SpendFaithful(s: State, issued: seq<Row>, accepted: seq<Check>, k: nat)
    requires Faithful(s, issued, accepted)
    ensures Faithful(Spend(s, k), issued, accepted)
  {
    var t := Spend(s, k);
    if k in s.checks && !s.checks[k].matched {
      var i := IndexOf(s.rows, s.checks[k].row);
      assert i < |s.rows| ==> AsIssued(s.rows[i], issued);
      forall j | 0 <= j < |t.rows| ensures AsIssued(t.rows[j], issued) {
        assert AsIssued(s.rows[j], issued);
      }
    }
  }

  lemma ClaimFaithful(s: State, issued: seq<Row>, accepted: seq<Check>, k: nat)
    requires Faithful(s, issued, accepted)
    ensures var t := Claim(s, k);
            Faithful(t, issued, if k in s.checks && |t.accepted| > |s.accepted| then accepted + [s.checks[k]] else accepted)
  {
    var t := Claim(s, k);
    forall j | 0 <= j < |t.rows| ensures AsIssued(t.rows[j], issued) {
      assert AsIssued(s.rows[j], issued);
    }
  }

  lemma StepFaithful(s: State, issued: seq<Row>, accepted: seq<Check>, step: Step)
    requires Faithful(s, issued, accepted)
    ensures Faithful(Next(s, step), IssuedMore(issued, s, Next(s, step)), AcceptedMore(accepted, s, step))
  {
    match step
    case Requested(purpose, code, now, createdAt) => RequestFaithful(s, issued, accepted, purpose, code, now, createdAt);
    case SendFailed(id) => DeleteFaithful(s, issued, accepted, HasId(id));
    case CleanedUp(now) => DeleteFaithful(s, issued, accepted, LongExpired(now));
    case CheckFound(purpose, code, now) => FindFaithful(s, issued, accepted, purpose, code, now);
    case CheckSpent(k) => SpendFaithful(s, issued, accepted, k);
    case CheckClaimed(k) => ClaimFaithful(s, issued, accepted, k);
  }

  lemma {:induction false} RunFaithful(steps: seq<Step>)
    ensures Faithful(Run(steps), Issued(steps), Accepted(steps))
  {
    if steps != [] {
      var front := steps[..|steps| - 1];
      RunFaithful(front);
      StepFaithful(Run(front), Issued(front), Accepted(front), steps[|steps| - 1]);
    }
  }

  // ----- what every run guarantees -----

  /** Whatever is accepted carries the very code that was issued, for the same purpose, and was looked up within its five minutes. */
  lemma AcceptedCodesAreRight(steps: seq<Step>, i: nat)
    requires i < |Accepted(steps)|
    ensures var c := Accepted(steps)[i];
            && c.row < |Issued(steps)|
            && var r := Issued(steps)[c.row];
               c.code == r.code && c.purpose == r.purpose && c.at < r.expiresAt
  {
    RunFaithful(steps);
  }

  /** A matched check carries the code of the surviving row it found. */
  lemma MatchedCodesAreRight(steps: seq<Step>, k: nat, i: nat)
    requires k in Run(steps).checks && Run(steps).checks[k].matched && i < |Run(steps).rows| && Run(steps).rows[i].id == Run(steps).checks[k].row
    ensures Run(steps).rows[i].code == Run(steps).checks[k].code && Run(steps).rows[i].purpose == Run(steps).checks[k].purpose
  {
    RunFaithful(steps);
    assert AsIssued(Run(steps).rows[i], Issued(steps));
  }

  /** Everything issued was requested: its code, purpose and times are those of a request of the run. */
  lemma {:induction false} IssuedIsRequested(steps: seq<Step>, id: nat) returns (j: nat)
    requires id < |Issued(steps)|
    ensures j < |steps| && steps[j].Requested? && steps[j].now <= steps[j].createdAt
    ensures Issued(steps)[id] == Row(id, steps[j].purpose, steps[j].code, steps[j].createdAt, steps[j].now + 300_000, 0, false)
  {
    var front := steps[..|steps| - 1];
    if id < |Issued(front)| {
      j := IssuedIsRequested(front, id);
    } else {
      RunFaithful(front);
      NewIsRequested(Run(front), steps[|steps| - 1]);
      j := |steps| - 1;
    }
  }

  lemma NewIsRequested(s: State, step: Step)
    requires Next(s, step).nextId > s.nextId
    ensures step.Requested? && step.now <= step.createdAt && Next(s, step).rows != []
    ensures Next(s, step).rows[|Next(s, step).rows| - 1] == Row(s.nextId, step.purpose, step.code, step.createdAt, step.now + 300_000, 0, false)
  {
  }

  /** Every acceptance recorded in the state is one of those above. */
  lemma {:induction false} AcceptedMatches(steps: seq<Step>)
    ensures |Accepted(steps)| == |Run(steps).accepted| && forall i :: 0 <= i < |Accepted(steps)| ==> Accepted(steps)[i].row == Run(steps).accepted[i]
  {
    if steps != [] {
      AcceptedMatches(steps[..|steps| - 1]);
    }
  }

  // ----- what becomes of one verification -----

  /** A code that can still be used. */
  predicate Usable(r: Row, purpose: Purpose, now: int) {
    r.purpose == purpose && !r.consumed && now < r.expiresAt && r.attempts < 5
  }

  lemma {:induction false} NewestIsUsable(rows: seq<Row>, purpose: Purpose, now: int, i: nat)
    requires OneLive(rows) && i < |rows| && Usable(rows[i], purpose, now)
    ensures Newest(rows, purpose, now) == Some(rows[i])
  {
    var n := |rows| - 1;
    if i < n {
      NewestIsUsable(rows[..n], purpose, now, i);
    } else {
      NewestIn(rows[..n], purpose, now);
    }
  }

  /** The verification from end to end, with nothing in between. */
  function Verified(s: State, purpose: Purpose, code: int, now: int): State {
    Next(Next(Next(s, CheckFound(purpose, code, now)), CheckSpent(s.nextCheck)), CheckClaimed(s.nextCheck))
  }

  lemma FoundRow(rows: seq<Row>, i: nat)
    requires OneId(rows) && i < |rows|
    ensures IndexOf(rows, rows[i].id) == i
  {
    var j := IndexOf(rows, rows[i].id);
    assert j < |rows| && rows[j].id == rows[i].id;
  }

  /**
   * With a usable code for the purpose, the check of the right code consumes it and is accepted, and
   * the check of any other code spends one of its attempts and is refused.
   */
  lemma VerifiedIff(steps: seq<Step>, i: nat, purpose: Purpose, code: int, now: int)
    requires i < |Run(steps).rows| && Usable(Run(steps).rows[i], purpose, now)
    ensures var s := Run(steps);
            var r, t := s.rows[i], Verified(s, purpose, code, now);
            && t.compares == s.compares + [r.id]
            && (if code == r.code
                then t.accepted == s.accepted + [r.id] && t.rows == s.rows[i := r.(attempts := r.attempts + 1, consumed := true)]
                else t.accepted == s.accepted && t.rows == s.rows[i := r.(attempts := r.attempts + 1)])
            && s.nextCheck !in t.checks
  {
    RunKeeps(steps);
    var s := Run(steps);
    NewestIsUsable(s.rows, purpose, now, i);
    FoundRow(s.rows, i);
    CheckedOnce(Next(s, CheckFound(purpose, code, now)), s.nextCheck, i);
  }

  /** A check that found a usable row is spent and claimed. */
  lemma CheckedOnce(s: State, k: nat, i: nat)
    requires OneId(s.rows) && i < |s.rows| && k in s.checks && !s.checks[k].matched && s.checks[k].row == s.rows[i].id
    requires !s.rows[i].consumed && s.rows[i].attempts < 5 && IndexOf(s.rows, s.rows[i].id) == i
    ensures var r, t := s.rows[i], Next(Next(s, CheckSpent(k)), CheckClaimed(k));
            && t.compares == s.compares + [r.id] && t.checks == s.checks - {k}
            && (if s.checks[k].code == r.code
                then t.accepted == s.accepted + [r.id] && t.rows == s.rows[i := r.(attempts := r.attempts + 1, consumed := true)]
                else t.accepted == s.accepted && t.rows == s.rows[i := r.(attempts := r.attempts + 1)])
  {
    var spent := Next(s, CheckSpent(k));
    SameIds(s.rows, spent.rows, i);
    if s.checks[k].code == s.rows[i].code {
      assert spent.checks - {k} == s.checks - {k};
    }
  }

  lemma SameIds(rows: seq<Row>, other: seq<Row>, i: nat)
    requires OneId(rows) && i < |rows| && other == rows[i := rows[i].(attempts := rows[i].attempts + 1)]
    ensures IndexOf(other, other[i].id) == i
  {
    forall a, b | 0 <= a < b < |other| ensures other[a].id != other[b].id {
      assert rows[a].id != rows[b].id;
    }
    FoundRow(other, i);
  }

  /** Without a usable code nothing is looked at: every code is refused and nothing changes. */
  lemma NothingUsable(s: State, purpose: Purpose, code: int, now: int)
    requires forall i :: 0 <= i < |s.rows| ==> !Usable(s.rows[i], purpose, now)
    requires s.nextCheck !in s.checks
    ensures Verified(s, purpose, code, now) == s
  {
    NewestIn(s.rows, purpose, now);
  }

  // ----- requests -----

  /** The codes of the last hour. */
  function LastHour(rows: seq<Row>, now: int): set<int> {
    set i | 0 <= i < |rows| && rows[i].createdAt > now - 3_600_000
  }

  lemma {:induction false} RecentCounts(rows: seq<Row>, now: int)
    ensures |Recent(rows, now)| == |LastHour(rows, now)|
  {
    if rows != [] {
      var n := |rows| - 1;
      RecentCounts(rows[..n], now);
      var front := LastHour(rows[..n], now);
      assert LastHour(rows, now) == if rows[n].createdAt > now - 3_600_000 then front + {n} else front;
    }
  }

  lemma {:induction false} LatestIsLatest(rows: seq<Row>)
    ensures Latest(rows).None? <==> rows == []
    ensures Latest(rows).Some? ==> (exists i :: 0 <= i < |rows| && rows[i].createdAt == Latest(rows).value)
                                   && forall i :: 0 <= i < |rows| ==> rows[i].createdAt <= Latest(rows).value
  {
    if rows != [] {
      LatestIsLatest(rows[..|rows| - 1]);
    }
  }

  lemma {:induction false} RecentHas(rows: seq<Row>, now: int)
    ensures forall r :: r in Recent(rows, now) <==> r in rows && r.createdAt > now - 3_600_000
  {
    if rows != [] {
      RecentHas(rows[..|rows| - 1], now);
    }
  }

  /** A request is granted exactly when no code is less than a minute old and fewer than five are less than an hour old. */
  lemma GrantedIff(rows: seq<Row>, now: int)
    ensures Throttle(rows, now).None? <==> (forall r :: r in rows ==> now - r.createdAt >= 60_000) && |LastHour(rows, now)| < 5
  {
    RecentCounts(rows, now);
    RecentHas(rows, now);
    LatestIsLatest(Recent(rows, now));
    if r :| r in rows && now - r.createdAt < 60_000 {
      assert r in Recent(rows, now);
    }
  }

  /** A granted request uses up the purpose's earlier codes, leaves the others alone, and adds one good for five minutes and five attempts. */
  lemma GrantReplaces(steps: seq<Step>, purpose: Purpose, code: int, now: int, createdAt: int)
    requires now <= createdAt && Throttle(Run(steps).rows, now).None?
    ensures var s, t := Run(steps), Next(Run(steps), Requested(purpose, code, now, createdAt));
            && |t.rows| == |s.rows| + 1
            && t.rows[|s.rows|] == Row(s.nextId, purpose, code, createdAt, now + 300_000, 0, false)
            && (forall i :: 0 <= i < |s.rows| ==> t.rows[i] == s.rows[i].(consumed := s.rows[i].consumed || s.rows[i].purpose == purpose))
  {
    ConsumeEach(Run(steps).rows, purpose);
  }

  // ----- each call of a verification, whatever came before it -----

  /**
   * A check that is spent compares its code only with a row that is still there, unconsumed and with
   * attempts left, which loses one of them; otherwise, or with the wrong code, the check is over.
   */
  lemma SpentIs(steps: seq<Step>, k: nat, i: nat)
    requires var s := Run(steps); k in s.checks && !s.checks[k].matched && i < |s.rows| && s.rows[i].id == s.checks[k].row
    ensures var s, t := Run(steps), Next(Run(steps), CheckSpent(k));
            var r, c := s.rows[i], s.checks[k];
            && t.accepted == s.accepted
            && if r.consumed || r.attempts >= 5 then t.rows == s.rows && t.compares == s.compares && t.checks == s.checks - {k}
               else
                 && t.rows == s.rows[i := r.(attempts := r.attempts + 1)] && t.compares == s.compares + [r.id]
                 && t.checks == if c.code == r.code then s.checks[k := c.(matched := true)] else s.checks - {k}
  {
    RunKeeps(steps);
    FoundRow(Run(steps).rows, i);
  }

  /** A matched check is accepted exactly when its row is still there and unconsumed, and consumes it. */
  lemma ClaimedIs(steps: seq<Step>, k: nat, i: nat)
    requires var s := Run(steps); k in s.checks && s.checks[k].matched && i < |s.rows| && s.rows[i].id == s.checks[k].row
    ensures var s, t := Run(steps), Next(Run(steps), CheckClaimed(k));
            && t.checks == s.checks - {k} && t.compares == s.compares
            && (if s.rows[i].consumed then t.rows == s.rows && t.accepted == s.accepted
                else t.rows == s.rows[i := s.rows[i].(consumed := true)] && t.accepted == s.accepted + [s.rows[i].id])
  {
    RunKeeps(steps);
    FoundRow(Run(steps).rows, i);
  }

  /** A check whose row is gone is over, with nothing compared and nothing accepted. */
  lemma GoneIs(s: State, k: nat)
    requires k in s.checks && forall i :: 0 <= i < |s.rows| ==> s.rows[i].id != s.checks[k].row
    ensures Next(s, if s.checks[k].matched then CheckClaimed(k) else CheckSpent(k)) == s.(checks := s.checks - {k})
  {
  }

  // ----- what is deleted -----

  lemma {:induction false} WithoutIs(rows: seq<Row>, gone: Row -> bool)
    ensures forall r :: r in Without(rows, gone) <==> r in rows && !gone(r)
  {
    if rows != [] {
      WithoutIs(rows[..|rows| - 1], gone);
    }
  }

  /** A code that could not be sent goes alone; a clean-up takes exactly the codes that expired more than a day ago. */
  lemma DeletedIs(s: State, id: nat, now: int, r: Row)
    ensures r in Next(s, SendFailed(id)).rows <==> r in s.rows && r.id != id
    ensures r in Next(s, CleanedUp(now)).rows <==> r in s.rows && r.expiresAt >= now - 86_400_000
  {
    WithoutIs(s.rows, HasId(id));
    WithoutIs(s.rows, LongExpired(now));
  }
}
