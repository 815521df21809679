/**
 * One-time codes of one phone number. A request runs under the number's lock; a verification is
 * three separate database calls - find, spend an attempt, claim - that interleave with requests and
 * with each other. Times in milliseconds; a stored hash is the code itself, as hashing is injective.
 */
module PhoneOtp {
  import opened Options

  const TTL := 300_000
  const COOLDOWN := 60_000
  const HOUR := 3_600_000
  const DAY := 86_400_000
  const MAX_PER_HOUR := 5
  const MAX_ATTEMPTS := 5

  datatype Purpose = Login | ChangePhone | SetPassword

  datatype Row = Row(id: nat, purpose: Purpose, code: int, createdAt: int, expiresAt: int, attempts: nat, consumed: bool)

  /** A verification in flight: what it asks for, when it found its row, the code it carries, and whether the comparison succeeded. */
  datatype Check = Check(row: nat, purpose: Purpose, code: int, at: int, matched: bool)

  /** `rows` in insertion order; `compares` and `accepted` record every comparison and every accepted code. */
  datatype State = State(rows: seq<Row>, nextId: nat, checks: map<nat, Check>, nextCheck: nat, compares: seq<nat>, accepted: seq<nat>)

  const Unused := State([], 0, map[], 0, [], [])

  // ----- requests -----

  function Recent(rows: seq<Row>, now: int): seq<Row> {
    if rows == [] then []
    else
      var r := rows[|rows| - 1];
      if r.createdAt > now - HOUR then Recent(rows[..|rows| - 1], now) + [r] else Recent(rows[..|rows| - 1], now)
  }

  /** The latest creation time among some rows. */
  function Latest(rows: seq<Row>): Option<int> {
    if rows == [] then None
    else
      var before := Latest(rows[..|rows| - 1]);
      if before.Some? && before.value > rows[|rows| - 1].createdAt then before else Some(rows[|rows| - 1].createdAt)
  }

  datatype Refusal = CoolingDown | HourlyLimit

  function Throttle(rows: seq<Row>, now: int): Option<Refusal> {
    var recent := Recent(rows, now);
    var last := Latest(recent);
    if last.Some? && now - last.value < COOLDOWN then Some(CoolingDown)
    else if |recent| >= MAX_PER_HOUR then Some(HourlyLimit)
    else None
  }

  function Consume(rows: seq<Row>, purpose: Purpose): seq<Row> {
    if rows == [] then []
    else
      var r := rows[|rows| - 1];
      Consume(rows[..|rows| - 1], purpose) + [if r.purpose == purpose then r.(consumed := true) else r]
  }

  /** `now` was read before the lock was taken, so the row is created no earlier. */
  function Request(s: State, purpose: Purpose, code: int, now: int, createdAt: int): State {
    if createdAt < now || Throttle(s.rows, now).Some? then s
    else s.(rows := Consume(s.rows, purpose) + [Row(s.nextId, purpose, code, createdAt, now + TTL, 0, false)], nextId := s.nextId + 1)
  }

  /** A code that could not be sent, or one long expired, is deleted. */
  function Without(rows: seq<Row>, gone: Row -> bool): seq<Row> {
    if rows == [] then []
    else
      var r := rows[|rows| - 1];
      if gone(r) then Without(rows[..|rows| - 1], gone) else Without(rows[..|rows| - 1], gone) + [r]
  }

  function HasId(id: nat): Row -> bool { (r: Row) => r.id == id }

  function LongExpired(now: int): Row -> bool { (r: Row) => r.expiresAt < now - DAY }

  // ----- verification -----

  predicate Live(r: Row, purpose: Purpose, now: int) {
    r.purpose == purpose && !r.consumed && r.expiresAt > now && r.attempts < MAX_ATTEMPTS
  }

  /** The newest live code. */
  function Newest(rows: seq<Row>, purpose: Purpose, now: int): Option<Row> {
    if rows == [] then None
    else
      var r, before := rows[|rows| - 1], Newest(rows[..|rows| - 1], purpose, now);
      if Live(r, purpose, now) && (before.None? || before.value.createdAt <= r.createdAt) then Some(r) else before
  }

  function Find(s: State, purpose: Purpose, code: int, now: int): State {
    var r := Newest(s.rows, purpose, now);
    if r.None? then s
    else s.(checks := s.checks[s.nextCheck := Check(r.value.id, purpose, code, now, false)], nextCheck := s.nextCheck + 1)
  }

  function IndexOf(rows: seq<Row>, id: nat): (i: nat)
    ensures i <= |rows| && (i < |rows| ==> rows[i].id == id)
    ensures i == |rows| ==> forall j :: 0 <= j < |rows| ==> rows[j].id != id
  {
    if rows == [] then 0
    else
      var i := IndexOf(rows[..|rows| - 1], id);
      if i < |rows| - 1 then i else if rows[|rows| - 1].id == id then |rows| - 1 else |rows|
  }

  /** An attempt is spent only on a row still unconsumed with attempts left; then the code is compared. */
  function Spend(s: State, k: nat): State {
    if k !in s.checks || s.checks[k].matched then s
    else
      var c := s.checks[k];
      var i := IndexOf(s.rows, c.row);
      if i == |s.rows| || s.rows[i].consumed || s.rows[i].attempts >= MAX_ATTEMPTS then s.(checks := s.checks - {k})
      else
        var t := s.(rows := s.rows[i := s.rows[i].(attempts := s.rows[i].attempts + 1)], compares := s.compares + [c.row]);
        t.(checks := if s.rows[i].code == c.code then t.checks[k := c.(matched := true)] else t.checks - {k})
  }

  function Claim(s: State, k: nat): State {
    if k !in s.checks || !s.checks[k].matched then s
    else
      var c := s.checks[k];
      var i := IndexOf(s.rows, c.row);
      var t := s.(checks := s.checks - {k});
      if i == |s.rows| || s.rows[i].consumed then t
      else t.(rows := s.rows[i := s.rows[i].(consumed := true)], accepted := s.accepted + [c.row])
  }

  datatype Step =
    | Requested(purpose: Purpose, code: int, now: int, createdAt: int)
    | SendFailed(id: nat)
    | CleanedUp(now: int)
    | CheckFound(purpose: Purpose, code: int, now: int)
    | CheckSpent(k: nat)
    | CheckClaimed(k: nat)

  function Next(s: State, step: Step): State {
    match step
    case Requested(purpose, code, now, createdAt) => Request(s, purpose, code, now, createdAt)
    case SendFailed(id) => s.(rows := Without(s.rows, HasId(id)))
    case CleanedUp(now) => s.(rows := Without(s.rows, LongExpired(now)))
    case CheckFound(purpose, code, now) => Find(s, purpose, code, now)
    case CheckSpent(k) => Spend(s, k)
    case CheckClaimed(k) => Claim(s, k)
  }

  function Run(steps: seq<Step>): State {
    if steps == [] then Unused else Next(Run(steps[..|steps| - 1]), steps[|steps| - 1])
  }

  // ----- the service's form -----

  class OtpDesk {
    var rows: seq<Row>
    var nextId: nat
    var checks: map<nat, Check>
    var nextCheck: nat
    var compares: seq<nat>
    var accepted: seq<nat>

    function View(): State
      reads this
    {
      State(rows, nextId, checks, nextCheck, compares, accepted)
    }

    constructor ()
      ensures View() == Unused
    {
      rows, nextId, checks, nextCheck, compares, accepted := [], 0, map[], 0, [], [];
    }

    method RequestCode(purpose: Purpose, code: int, now: int, createdAt: int) returns (refusal: Option<Refusal>)
      requires now <= createdAt
      modifies this`rows, this`nextId
      ensures View() == Request(old(View()), purpose, code, now, createdAt)
      ensures refusal == Throttle(old(rows), now)
    {
      var recent := Recent(rows, now);
      var last := Latest(recent);
      if last.Some? && now - last.value < COOLDOWN {
        return Some(CoolingDown);
      }
      if |recent| >= MAX_PER_HOUR {
        return Some(HourlyLimit);
      }
      rows := Consume(rows, purpose) + [Row(nextId, purpose, code, createdAt, now + TTL, 0, false)];
      nextId := nextId + 1;
      refusal := None;
    }

    /** The code could not be sent: its row goes. */
    method DropUnsent(id: nat)
      modifies this`rows
      ensures View() == Next(old(View()), SendFailed(id))
    {
      Delete(HasId(id));
    }

    /** Rows that expired long ago go. */
    method CleanUp(now: int)
      modifies this`rows
      ensures View() == Next(old(View()), CleanedUp(now))
    {
      Delete(LongExpired(now));
    }

    method Delete(gone: Row -> bool)
      modifies this`rows
      ensures rows == Without(old(rows), gone)
    {
      var kept: seq<Row> := [];
      for i := 0 to |rows|
        invariant rows == old(rows) && kept == Without(rows[..i], gone)
      {
        assert rows[..i + 1][..i] == rows[..i];
        if !gone(rows[i]) {
          kept := kept + [rows[i]];
        }
      }
      assert rows[..|rows|] == rows;
      rows := kept;
    }

    method FindCode(purpose: Purpose, code: int, now: int) returns (found: bool)
      modifies this`checks, this`nextCheck
      ensures View() == Find(old(View()), purpose, code, now)
      ensures found == Newest(rows, purpose, now).Some?
    {
      var r := Newest(rows, purpose, now);
      found := r.Some?;
      if found {
        checks := checks[nextCheck := Check(r.value.id, purpose, code, now, false)];
        nextCheck := nextCheck + 1;
      }
    }

    method SpendAttempt(k: nat)
      modifies this
      ensures View() == Spend(old(View()), k)
    {
      if k !in checks || checks[k].matched {
        return;
      }
      var c := checks[k];
      var i := IndexOf(rows, c.row);
      if i == |rows| || rows[i].consumed || rows[i].attempts >= MAX_ATTEMPTS {
        checks := checks - {k};
        return;
      }
      rows := rows[i := rows[i].(attempts := rows[i].attempts + 1)];
      compares := compares + [c.row];
      if rows[i].code == c.code {
        checks := checks[k := c.(matched := true)];
      } else {
        checks := checks - {k};
      }
    }

    method ClaimCode(k: nat) returns (ok: bool)
      modifies this
      ensures View() == Claim(old(View()), k)
      ensures ok <==> accepted != old(accepted)
    {
      ok := false;
      if k !in checks || !checks[k].matched {
        return;
      }
      var c := checks[k];
      checks := checks - {k};
      var i := IndexOf(rows, c.row);
      if i < |rows| && !rows[i].consumed {
        rows := rows[i := rows[i].(consumed := true)];
        accepted := accepted + [c.row];
        ok := true;
      }
    }
  }

  // ----- spacing -----

  /** Codes are a minute apart, and any five in a row leave an hour before the next. */
  ghost predicate Spaced(rows: seq<Row>) {
    && (forall i, j :: 0 <= i < j < |rows| ==> rows[i].createdAt + COOLDOWN <= rows[j].createdAt)
    && (forall i, j :: 0 <= i && i + MAX_PER_HOUR <= j < |rows| ==> rows[i].createdAt + HOUR <= rows[j].createdAt)
  }

  ghost predicate SameTimes(rows: seq<Row>, other: seq<Row>) {
    |other| == |rows| && forall i :: 0 <= i < |rows| ==> other[i].createdAt == rows[i].createdAt && other[i].id == rows[i].id
  }

  lemma {:induction false} ConsumeEach(rows: seq<Row>, purpose: Purpose)
    ensures |Consume(rows, purpose)| == |rows|
    ensures forall i :: 0 <= i < |rows|
                        ==> Consume(rows, purpose)[i] == if rows[i].purpose == purpose then rows[i].(consumed := true) else rows[i]
  {
    if rows != [] {
      ConsumeEach(rows[..|rows| - 1], purpose);
    }
  }

  /** With ascending times the recent rows are the last ones. */
  lemma {:induction false} RecentIsTail(rows: seq<Row>, now: int)
    requires forall i, j :: 0 <= i < j < |rows| ==> rows[i].createdAt <= rows[j].createdAt
    ensures var from := |rows| - |Recent(rows, now)|;
            && 0 <= from
            && (forall i :: 0 <= i < |Recent(rows, now)| ==> Recent(rows, now)[i] == rows[from + i])
            && (forall i :: 0 <= i < from ==> rows[i].createdAt <= now - HOUR)
  {
    if rows != [] {
      var n := |rows| - 1;
      var front := rows[..n];
      assert forall i :: 0 <= i < n ==> front[i] == rows[i];
      if rows[n].createdAt > now - HOUR {
        RecentIsTail(front, now);
      } else {
        NoneRecent(front, now);
      }
    }
  }

  lemma {:induction false} NoneRecent(rows: seq<Row>, now: int)
    requires forall i :: 0 <= i < |rows| ==> rows[i].createdAt <= now - HOUR
    ensures Recent(rows, now) == []
  {
    if rows != [] {
      NoneRecent(rows[..|rows| - 1], now);
    }
  }

  lemma {:induction false} LatestBounds(rows: seq<Row>)
    ensures rows != [] ==> Latest(rows).Some?
    ensures forall i :: 0 <= i < |rows| ==> rows[i].createdAt <= Latest(rows).value
  {
    if rows != [] {
      var front := rows[..|rows| - 1];
      LatestBounds(front);
      assert forall i :: 0 <= i < |front| ==> rows[i] == front[i];
    }
  }

  /** Every code still there is a cooldown older, and all but the last four an hour. */
  lemma RequestGaps(rows: seq<Row>, now: int, i: nat)
    requires Spaced(rows) && Throttle(rows, now).None? && i < |rows|
    ensures rows[i].createdAt + COOLDOWN <= now && (i + MAX_PER_HOUR <= |rows| ==> rows[i].createdAt + HOUR <= now)
  {
    RecentIsTail(rows, now);
    var recent := Recent(rows, now);
    var from := |rows| - |recent|;
    LatestBounds(recent);
    if i >= from {
      assert recent[i - from] == rows[i];
    }
  }

  /** An accepted request keeps its distance from every surviving code. */
  lemma RequestSpaced(rows: seq<Row>, now: int, row: Row)
    requires Spaced(rows) && Throttle(rows, now).None? && now <= row.createdAt
    ensures Spaced(rows + [row])
  {
    forall i | 0 <= i < |rows|
      ensures rows[i].createdAt + COOLDOWN <= row.createdAt && (i + MAX_PER_HOUR <= |rows| ==> rows[i].createdAt + HOUR <= row.createdAt)
    {
      RequestGaps(rows, now, i);
    }
  }

  lemma SpacedSame(rows: seq<Row>, other: seq<Row>)
    requires Spaced(rows) && SameTimes(rows, other)
    ensures Spaced(other)
  {
  }

  lemma DropOneSpaced(a: seq<Row>, r: Row, b: seq<Row>)
    requires Spaced(a + [r] + b)
    ensures Spaced(a + b)
  {
    var all, less := a + [r] + b, a + b;
    forall i | 0 <= i < |less| ensures less[i] == all[if i < |a| then i else i + 1] {
    }
    forall i, j | 0 <= i < j < |less|
      ensures less[i].createdAt + COOLDOWN <= less[j].createdAt
              && (i + MAX_PER_HOUR <= j ==> less[i].createdAt + HOUR <= less[j].createdAt)
    {
      var p, q := if i < |a| then i else i + 1, if j < |a| then j else j + 1;
      assert less[i] == all[p] && less[j] == all[q];
    }
  }

  /** What survives a deletion is still spread out. */
  lemma {:induction false} WithoutSpaced(a: seq<Row>, b: seq<Row>, gone: Row -> bool)
    requires Spaced(a + b)
    ensures Spaced(Without(a, gone) + b)
    decreases |a|
  {
    if a != [] {
      var front, r := a[..|a| - 1], a[|a| - 1];
      assert front + [r] + b == a + b;
      if gone(r) {
        DropOneSpaced(front, r, b);
        WithoutSpaced(front, b, gone);
      } else {
        assert front + ([r] + b) == a + b;
        WithoutSpaced(front, [r] + b, gone);
        assert Without(front, gone) + ([r] + b) == Without(a, gone) + b;
      }
    }
  }

  lemma {:induction false} WithoutIn(rows: seq<Row>, gone: Row -> bool)
    ensures forall r :: r in Without(rows, gone) ==> r in rows
  {
    if rows != [] {
      WithoutIn(rows[..|rows| - 1], gone);
    }
  }

  // ----- one live code, bounded attempts, one acceptance -----

  function Count(ids: seq<nat>, id: nat): nat {
    if ids == [] then 0 else Count(ids[..|ids| - 1], id) + if ids[|ids| - 1] == id then 1 else 0
  }

  lemma CountMore(ids: seq<nat>, more: nat, id: nat)
    ensures Count(ids + [more], id) == Count(ids, id) + if more == id then 1 else 0
  {
    assert (ids + [more])[..|ids|] == ids;
  }

  ghost predicate OneId(rows: seq<Row>) {
    forall i, j :: 0 <= i < j < |rows| ==> rows[i].id != rows[j].id
  }

  ghost predicate OneLive(rows: seq<Row>) {
    forall i, j :: 0 <= i < j < |rows| && rows[i].purpose == rows[j].purpose ==> rows[i].consumed || rows[j].consumed
  }

  ghost predicate RowOk(s: State, r: Row) {
    && r.id < s.nextId && r.attempts <= MAX_ATTEMPTS
    && Count(s.compares, r.id) == r.attempts
    && Count(s.accepted, r.id) <= (if r.consumed then 1 else 0)
  }

  ghost predicate Ok(s: State) {
    && OneId(s.rows) && OneLive(s.rows) && Spaced(s.rows)
    && (forall i :: 0 <= i < |s.rows| ==> RowOk(s, s.rows[i]))
    && (forall id: nat :: Count(s.compares, id) <= MAX_ATTEMPTS && Count(s.accepted, id) <= 1)
    && (forall id: nat :: id >= s.nextId ==> Count(s.compares, id) == 0 && Count(s.accepted, id) == 0)
    && (forall k :: k in s.checks ==> s.checks[k].row < s.nextId)
  }

  lemma NewRowPairs(s: State, purpose: Purpose, row: Row)
    requires Ok(s) && row.id == s.nextId && row.purpose == purpose
    ensures OneId(Consume(s.rows, purpose) + [row]) && OneLive(Consume(s.rows, purpose) + [row])
  {
    ConsumeEach(s.rows, purpose);
    assert forall i :: 0 <= i < |s.rows| ==> RowOk(s, s.rows[i]);
  }

  lemma NewRowOk(s: State, purpose: Purpose, row: Row, t: State)
    requires Ok(s) && row.id == s.nextId && row.attempts == 0 && t == s.(rows := Consume(s.rows, purpose) + [row], nextId := s.nextId + 1)
    ensures forall i :: 0 <= i < |t.rows| ==> RowOk(t, t.rows[i])
  {
    ConsumeEach(s.rows, purpose);
    forall i | 0 <= i < |t.rows| ensures RowOk(t, t.rows[i]) {
      if i < |s.rows| {
        assert RowOk(s, s.rows[i]);
      }
    }
  }

  lemma RequestKeeps(s: State, purpose: Purpose, code: int, now: int, createdAt: int)
    requires Ok(s)
    ensures Ok(Request(s, purpose, code, now, createdAt))
  {
    if createdAt >= now && Throttle(s.rows, now).None? {
      var row := Row(s.nextId, purpose, code, createdAt, now + TTL, 0, false);
      ConsumeEach(s.rows, purpose);
      RequestSpaced(s.rows, now, row);
      SpacedSame(s.rows + [row], Consume(s.rows, purpose) + [row]);
      NewRowPairs(s, purpose, row);
      NewRowOk(s, purpose, row, Request(s, purpose, code, now, createdAt));
    }
  }

  /** Rows only leave. */
  lemma DeleteKeeps(s: State, gone: Row -> bool)
    requires Ok(s)
    ensures Ok(s.(rows := Without(s.rows, gone)))
  {
    var kept := Without(s.rows, gone);
    assert s.rows + [] == s.rows;
    WithoutSpaced(s.rows, [], gone);
    assert kept + [] == kept;
    WithoutIn(s.rows, gone);
    WithoutPairs(s.rows, gone);
    forall i | 0 <= i < |kept| ensures RowOk(s, kept[i]) {
      assert kept[i] in s.rows;
    }
  }

  lemma {:induction false} WithoutPairs(rows: seq<Row>, gone: Row -> bool)
    requires OneId(rows) && OneLive(rows)
    ensures OneId(Without(rows, gone)) && OneLive(Without(rows, gone))
  {
    if rows != [] {
      var front := rows[..|rows| - 1];
      WithoutPairs(front, gone);
      WithoutIn(front, gone);
      var kept := Without(front, gone);
      forall i | 0 <= i < |kept| ensures kept[i] in front {
        assert kept[i] in kept;
      }
    }
  }

  lemma {:induction false} NewestIn(rows: seq<Row>, purpose: Purpose, now: int)
    ensures var r := Newest(rows, purpose, now); r.Some? ==> r.value in rows && Live(r.value, purpose, now)
  {
    if rows != [] {
      NewestIn(rows[..|rows| - 1], purpose, now);
    }
  }

  lemma FindKeeps(s: State, purpose: Purpose, code: int, now: int)
    requires Ok(s)
    ensures Ok(Find(s, purpose, code, now))
  {
    NewestIn(s.rows, purpose, now);
  }

  /** One row changes in what it says of its attempts and its use. */
  ghost predicate Moved(rows: seq<Row>, other: seq<Row>, i: nat, r: Row) {
    && i < |rows| && other == rows[i := r]
    && r.id == rows[i].id && r.createdAt == rows[i].createdAt && r.purpose == rows[i].purpose && (rows[i].consumed ==> r.consumed)
  }

  lemma MovedKeepsRows(rows: seq<Row>, other: seq<Row>, i: nat, r: Row)
    requires OneId(rows) && OneLive(rows) && Spaced(rows) && Moved(rows, other, i, r)
    ensures OneId(other) && OneLive(other) && Spaced(other)
  {
    forall j | 0 <= j < |rows|
      ensures other[j].id == rows[j].id && other[j].createdAt == rows[j].createdAt && other[j].purpose == rows[j].purpose
              && (rows[j].consumed ==> other[j].consumed)
    {
    }
    SpacedSame(rows, other);
  }

  /** The row that moved and the others agree with what is recorded of them, given their counts. */
  lemma MovedRowOk(s: State, t: State, was: Row, r: Row, compared: nat, taken: nat)
    requires RowOk(s, was) && r.id == was.id && t.nextId == s.nextId && r.attempts == was.attempts + compared <= MAX_ATTEMPTS
    requires Count(t.compares, r.id) == Count(s.compares, r.id) + compared
    requires Count(t.accepted, r.id) == Count(s.accepted, r.id) + taken
    requires (was.consumed ==> r.consumed) && (taken > 0 ==> taken == 1 && !was.consumed && r.consumed)
    ensures RowOk(t, r)
  {
  }

  lemma SpendCounts(s: State, t: State, id: nat)
    requires t.compares == s.compares + [id] && t.accepted == s.accepted
    ensures forall other: nat :: Count(t.compares, other) == Count(s.compares, other) + if other == id then 1 else 0
  {
    forall other: nat ensures Count(t.compares, other) == Count(s.compares, other) + if other == id then 1 else 0 {
      CountMore(s.compares, id, other);
    }
  }

  lemma ClaimCounts(s: State, t: State, id: nat)
    requires t.accepted == s.accepted + [id] && t.compares == s.compares
    ensures forall other: nat :: Count(t.accepted, other) == Count(s.accepted, other) + if other == id then 1 else 0
  {
    forall other: nat ensures Count(t.accepted, other) == Count(s.accepted, other) + if other == id then 1 else 0 {
      CountMore(s.accepted, id, other);
    }
  }

  lemma SpentRowKeeps(s: State, t: State, i: nat)
    requires Ok(s) && i < |s.rows| && s.rows[i].attempts < MAX_ATTEMPTS
    requires t.rows == s.rows[i := s.rows[i].(attempts := s.rows[i].attempts + 1)] && t.nextId == s.nextId
    requires t.compares == s.compares + [s.rows[i].id] && t.accepted == s.accepted
    requires forall k :: k in t.checks ==> t.checks[k].row < t.nextId
    ensures Ok(t)
  {
    var id := s.rows[i].id;
    assert RowOk(s, s.rows[i]);
    MovedKeepsRows(s.rows, t.rows, i, t.rows[i]);
    SpendCounts(s, t, id);
    forall j | 0 <= j < |t.rows| ensures RowOk(t, t.rows[j]) {
      assert RowOk(s, s.rows[j]);
      assert j != i ==> s.rows[j].id != id;
      MovedRowOk(s, t, s.rows[j], t.rows[j], if j == i then 1 else 0, 0);
    }
  }

  lemma ClaimedRowKeeps(s: State, t: State, i: nat)
    requires Ok(s) && i < |s.rows| && !s.rows[i].consumed
    requires t.rows == s.rows[i := s.rows[i].(consumed := true)] && t.nextId == s.nextId
    requires t.accepted == s.accepted + [s.rows[i].id] && t.compares == s.compares
    requires forall k :: k in t.checks ==> t.checks[k].row < t.nextId
    ensures Ok(t)
  {
    var id := s.rows[i].id;
    assert RowOk(s, s.rows[i]);
    MovedKeepsRows(s.rows, t.rows, i, t.rows[i]);
    ClaimCounts(s, t, id);
    forall j | 0 <= j < |t.rows| ensures RowOk(t, t.rows[j]) {
      assert RowOk(s, s.rows[j]);
      assert j != i ==> s.rows[j].id != id;
      MovedRowOk(s, t, s.rows[j], t.rows[j], 0, if j == i then 1 else 0);
    }
  }

  lemma SpendKeeps(s: State, k: nat)
    requires Ok(s)
    ensures Ok(Spend(s, k))
  {
    if k in s.checks && !s.checks[k].matched {
      var id := s.checks[k].row;
      var i := IndexOf(s.rows, id);
      if i < |s.rows| && !s.rows[i].consumed && s.rows[i].attempts < MAX_ATTEMPTS {
        SpentRowKeeps(s, Spend(s, k), i);
      }
    }
  }

  lemma ClaimKeeps(s: State, k: nat)
    requires Ok(s)
    ensures Ok(Claim(s, k))
  {
    if k in s.checks && s.checks[k].matched {
      var id := s.checks[k].row;
      var i := IndexOf(s.rows, id);
      if i < |s.rows| && !s.rows[i].consumed {
        ClaimedRowKeeps(s, Claim(s, k), i);
      }
    }
  }

  lemma {:induction false} RunKeeps(steps: seq<Step>)
    ensures Ok(Run(steps))
  {
    if steps != [] {
      RunKeeps(steps[..|steps| - 1]);
      var s := Run(steps[..|steps| - 1]);
      match steps[|steps| - 1]
      case Requested(purpose, code, now, createdAt) => RequestKeeps(s, purpose, code, now, createdAt);
      case SendFailed(id) => DeleteKeeps(s, HasId(id));
      case CleanedUp(now) => DeleteKeeps(s, LongExpired(now));
      case CheckFound(purpose, code, now) => FindKeeps(s, purpose, code, now);
      case CheckSpent(k) => SpendKeeps(s, k);
      case CheckClaimed(k) => ClaimKeeps(s, k);
    }
  }

  // ----- what every run guarantees -----

  /** One code at a time per purpose, five guesses at most, and no code accepted twice. */
  lemma CodesAreSafe(steps: seq<Step>, id: nat)
    ensures var s := Run(steps);
            && OneLive(s.rows) && Count(s.compares, id) <= MAX_ATTEMPTS && Count(s.accepted, id) <= 1
  {
    RunKeeps(steps);
  }

  function InWindow(rows: seq<Row>, end: int): set<int> {
    set i | 0 <= i < |rows| && end - HOUR < rows[i].createdAt <= end
  }

  function Range(from: int, n: nat): (r: set<int>)
    ensures forall i :: i in r <==> from <= i < from + n
  {
    if n == 0 then {} else Range(from, n - 1) + {from + n - 1}
  }

  lemma {:induction false} RangeSize(from: int, n: nat)
    ensures |Range(from, n)| == n
  {
    if n > 0 {
      RangeSize(from, n - 1);
    }
  }

  lemma SubsetSize(a: set<int>, b: set<int>)
    requires a <= b
    ensures |a| <= |b|
  {
    assert b == a + (b - a);
  }

  /** Surviving codes are a minute apart, with at most five in any sliding hour. */
  lemma CodesAreSpread(steps: seq<Step>, end: int)
    ensures var rows := Run(steps).rows;
            && (forall i, j :: 0 <= i < j < |rows| ==> rows[j].createdAt - rows[i].createdAt >= COOLDOWN)
            && |InWindow(rows, end)| <= MAX_PER_HOUR
  {
    RunKeeps(steps);
    SpacedApart(Run(steps).rows);
    SpacedWindow(Run(steps).rows, end);
  }

  lemma SpacedApart(rows: seq<Row>)
    requires Spaced(rows)
    ensures forall i, j :: 0 <= i < j < |rows| ==> rows[j].createdAt - rows[i].createdAt >= COOLDOWN
  {
  }

  lemma SpacedWindow(rows: seq<Row>, end: int)
    requires Spaced(rows)
    ensures |InWindow(rows, end)| <= MAX_PER_HOUR
  {
    RecentIsTail(rows, end);
    var from := |rows| - |Recent(rows, end)|;
    forall i | i in InWindow(rows, end) ensures from <= i < from + MAX_PER_HOUR {
      if from + MAX_PER_HOUR <= i {
        assert rows[from] == Recent(rows, end)[0];
        RecentAfter(rows, end);
      }
    }
    RangeSize(from, MAX_PER_HOUR);
    SubsetSize(InWindow(rows, end), Range(from, MAX_PER_HOUR));
  }

  lemma {:induction false} RecentAfter(rows: seq<Row>, now: int)
    ensures forall i :: 0 <= i < |Recent(rows, now)| ==> Recent(rows, now)[i].createdAt > now - HOUR
  {
    if rows != [] {
      RecentAfter(rows[..|rows| - 1], now);
    }
  }
}
