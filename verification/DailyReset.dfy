/** The daily-loss reset boundary, on instants in milliseconds. */
module DailyReset {
  import opened Division
  import opened Sessions

  datatype ResetTime = ResetTime(hour: int, minute: int, offsetMinutes: int)

  predicate ValidReset(rt: ResetTime) { 0 <= rt.hour < 24 && 0 <= rt.minute < 60 }

  function TimeOfDay(rt: ResetTime): int { (rt.hour * 60 + rt.minute) * MINUTE }

  function ZoneShift(rt: ResetTime): int { rt.offsetMinutes * MINUTE }

  /** The most recent reset boundary at or before `now`. */
  function CurrentDayStart(rt: ResetTime, now: int): int {
    var shifted := now + ZoneShift(rt);
    var boundary := shifted / DAY * DAY + TimeOfDay(rt);
    var instant := boundary - ZoneShift(rt);
    if instant > now then instant - DAY else instant
  }

  function NextDayStart(rt: ResetTime, now: int): int { CurrentDayStart(rt, now) + DAY }

  predicate NeedsDailyReset(anchorDate: int, rt: ResetTime, now: int) { anchorDate < CurrentDayStart(rt, now) }

  /** Day number of the calendar day that names a trading day. */
  function TradingDayKey(rt: ResetTime, instant: int): int {
    (instant + ZoneShift(rt) - TimeOfDay(rt)) / DAY
  }

  /** An instant at which the reset zone shows the reset time. */
  ghost predicate IsBoundary(rt: ResetTime, t: int) {
    exists day: int :: AtReset(rt, t, day)
  }

  ghost predicate AtReset(rt: ResetTime, t: int, day: int) {
    t + ZoneShift(rt) == day * DAY + TimeOfDay(rt)
  }

  /** Names the day whose boundary is the current one. */
  lemma DayStartByKey(rt: ResetTime, now: int)
    requires ValidReset(rt)
    ensures CurrentDayStart(rt, now) + ZoneShift(rt) == TradingDayKey(rt, now) * DAY + TimeOfDay(rt)
  {
    var shifted, tod := now + ZoneShift(rt), TimeOfDay(rt);
    assert 0 <= tod < DAY;
    var day := shifted / DAY;
    assert shifted == day * DAY + shifted % DAY;
    if shifted % DAY >= tod {
      QuotientUnique(shifted - tod, DAY, day, shifted % DAY - tod);
    } else {
      QuotientUnique(shifted - tod, DAY, day - 1, shifted % DAY - tod + DAY);
    }
  }

  /** The current day start is a boundary in (now - 24 h, now], and the only one there. */
  lemma DayStartUnique(rt: ResetTime, now: int, t: int)
    requires ValidReset(rt)
    ensures now - DAY < t <= now && IsBoundary(rt, t) <==> t == CurrentDayStart(rt, now)
  {
    DayStartByKey(rt, now);
    var key := TradingDayKey(rt, now);
    assert AtReset(rt, CurrentDayStart(rt, now), key);
    var x := now + ZoneShift(rt) - TimeOfDay(rt);
    assert x == key * DAY + x % DAY;
    if now - DAY < t <= now && IsBoundary(rt, t) {
      var day :| AtReset(rt, t, day);
      assert x - DAY < day * DAY <= x;
      assert day == key;
    }
  }

  /** Two instants are on one trading day exactly when they share their day start. */
  lemma KeyMatchesDayStart(rt: ResetTime, t: int, u: int)
    requires ValidReset(rt)
    ensures TradingDayKey(rt, t) == TradingDayKey(rt, u) <==> CurrentDayStart(rt, t) == CurrentDayStart(rt, u)
  {
    DayStartByKey(rt, t);
    DayStartByKey(rt, u);
  }

  /** A reset is due exactly when the anchor belongs to an earlier trading day. */
  lemma ResetDueByKey(rt: ResetTime, anchorDate: int, now: int)
    requires ValidReset(rt)
    ensures NeedsDailyReset(anchorDate, rt, now) <==> TradingDayKey(rt, anchorDate) < TradingDayKey(rt, now)
  {
    DayStartByKey(rt, now);
    var x := anchorDate + ZoneShift(rt) - TimeOfDay(rt);
    var key := TradingDayKey(rt, now);
    assert x == TradingDayKey(rt, anchorDate) * DAY + x % DAY;
  }

  /** In the reset zone a boundary shows the configured hour and minute. */
  lemma BoundaryShows(rt: ResetTime, now: int)
    requires ValidReset(rt)
    ensures (CurrentDayStart(rt, now) + rt.offsetMinutes * 60_000) % 86_400_000 == rt.hour * 3_600_000 + rt.minute * 60_000
  {
    DayStartByKey(rt, now);
    QuotientUnique(CurrentDayStart(rt, now) + ZoneShift(rt), DAY, TradingDayKey(rt, now), TimeOfDay(rt));
  }

  // ----- the engine's timer -----

  /** The boundary to wait for, and the boundaries an anchor capture was queued for, oldest first. */
  datatype Anchors = Anchors(next: int, captured: seq<int>)

  datatype Second = Second(now: int, breaching: bool)

  function AfterSecond(rt: ResetTime, s: Anchors, tick: Second): Anchors {
    if tick.now >= s.next && !tick.breaching
    then Anchors(NextDayStart(rt, tick.now), s.captured + [CurrentDayStart(rt, tick.now)])
    else s
  }

  function AfterSeconds(rt: ResetTime, start: int, ticks: seq<Second>): Anchors {
    if ticks == [] then Anchors(NextDayStart(rt, start), [])
    else AfterSecond(rt, AfterSeconds(rt, start, ticks[..|ticks| - 1]), ticks[|ticks| - 1])
  }

  /** The daily-anchor part of the engine's one-second timer, for one account. */
  class AnchorTimer {
    const resetTime: ResetTime
    var nextBoundary: int
    var captured: seq<int>

    function View(): Anchors
      reads this
    {
      Anchors(nextBoundary, captured)
    }

    constructor (resetTime: ResetTime, now: int)
      ensures this.resetTime == resetTime && View() == AfterSeconds(resetTime, now, [])
    {
      this.resetTime := resetTime;
      nextBoundary := NextDayStart(resetTime, now);
      captured := [];
    }

    method SecondTick(now: int, breaching: bool)
      modifies this
      ensures View() == AfterSecond(resetTime, old(View()), Second(now, breaching))
    {
      if now >= nextBoundary && !breaching {
        var boundary := CurrentDayStart(resetTime, now);
        nextBoundary := NextDayStart(resetTime, now);
        captured := captured + [boundary];
      }
    }
  }

  ghost predicate Increasing(s: seq<int>) {
    forall i, j :: 0 <= i < j < |s| ==> s[i] < s[j]
  }

  ghost predicate ClockForward(start: int, ticks: seq<Second>) {
    && (forall i :: 0 <= i < |ticks| ==> start <= ticks[i].now)
    && (forall i, j :: 0 <= i <= j < |ticks| ==> ticks[i].now <= ticks[j].now)
  }

  /** `boundary` began a later day than `start`, and some tick outside a breach fell on that day. */
  ghost predicate Seen(rt: ResetTime, start: int, ticks: seq<Second>, boundary: int) {
    && boundary != CurrentDayStart(rt, start)
    && exists i :: 0 <= i < |ticks| && !ticks[i].breaching && CurrentDayStart(rt, ticks[i].now) == boundary
  }

  /** The day start the timer is past. */
  function LastStart(rt: ResetTime, start: int, captured: seq<int>): int {
    if captured == [] then CurrentDayStart(rt, start) else captured[|captured| - 1]
  }

  /** Whatever the clock does, no boundary is captured twice. */
  lemma {:induction false} CapturedOnce(rt: ResetTime, start: int, ticks: seq<Second>)
    requires ValidReset(rt)
    ensures var s := AfterSeconds(rt, start, ticks);
            && Increasing(s.captured) && IsBoundary(rt, s.next) && s.next == LastStart(rt, start, s.captured) + DAY
  {
    if ticks == [] {
      NextIsBoundary(rt, start);
    } else {
      CapturedOnce(rt, start, ticks[..|ticks| - 1]);
      var s := AfterSeconds(rt, start, ticks[..|ticks| - 1]);
      var now := ticks[|ticks| - 1].now;
      NextIsBoundary(rt, now);
      if now >= s.next {
        BoundaryNotSkipped(rt, s.next, now);
      }
    }
  }

  /** On a clock that never goes back, the boundaries captured are exactly those of the later days seen. */
  lemma {:induction false} CapturedExactly(rt: ResetTime, start: int, ticks: seq<Second>, boundary: int)
    requires ValidReset(rt) && ClockForward(start, ticks)
    ensures boundary in AfterSeconds(rt, start, ticks).captured <==> Seen(rt, start, ticks, boundary)
    ensures ticks != [] ==> LastStart(rt, start, AfterSeconds(rt, start, ticks).captured) <= ticks[|ticks| - 1].now
  {
    if ticks != [] {
      var front := ticks[..|ticks| - 1];
      var last := ticks[|ticks| - 1];
      CapturedExactly(rt, start, front, boundary);
      CapturedOnce(rt, start, front);
      SeenMore(rt, start, ticks, boundary);
      var s := AfterSeconds(rt, start, front);
      var from := LastStart(rt, start, s.captured);
      DayStartByKey(rt, start);
      DayStartByKey(rt, last.now);
      assert from <= last.now by {
        if front == [] {
          DayStartUnique(rt, start, CurrentDayStart(rt, start));
        }
      }
      if last.now < s.next {
        StillLastDay(rt, from, last.now);
      } else {
        BoundaryNotSkipped(rt, s.next, last.now);
        DayStartUnique(rt, last.now, CurrentDayStart(rt, last.now));
        LaterThanAll(rt, start, front);
      }
      assert from == CurrentDayStart(rt, start) || from in s.captured;
    }
  }

  lemma SeenMore(rt: ResetTime, start: int, ticks: seq<Second>, boundary: int)
    requires ticks != []
    ensures var last := ticks[|ticks| - 1];
            Seen(rt, start, ticks, boundary)
            <==> Seen(rt, start, ticks[..|ticks| - 1], boundary)
                 || (boundary != CurrentDayStart(rt, start) && !last.breaching && CurrentDayStart(rt, last.now) == boundary)
  {
    var front := ticks[..|ticks| - 1];
    if Seen(rt, start, front, boundary) {
      var i :| 0 <= i < |front| && !front[i].breaching && CurrentDayStart(rt, front[i].now) == boundary;
      assert ticks[i] == front[i];
    }
    if Seen(rt, start, ticks, boundary) {
      var i :| 0 <= i < |ticks| && !ticks[i].breaching && CurrentDayStart(rt, ticks[i].now) == boundary;
      assert i < |front| ==> front[i] == ticks[i];
    }
  }

  /** Less than a day after a boundary the current day still starts there. */
  lemma StillLastDay(rt: ResetTime, from: int, now: int)
    requires ValidReset(rt) && IsBoundary(rt, from + DAY) && from <= now < from + DAY
    ensures CurrentDayStart(rt, now) == from
  {
    var day :| AtReset(rt, from + DAY, day);
    assert AtReset(rt, from, day - 1);
    DayStartUnique(rt, now, from);
  }

  lemma LaterThanAll(rt: ResetTime, start: int, ticks: seq<Second>)
    requires ValidReset(rt)
    ensures var s := AfterSeconds(rt, start, ticks);
            && CurrentDayStart(rt, start) < s.next && (forall c :: c in s.captured ==> c < s.next)
  {
    CapturedOnce(rt, start, ticks);
    StartBelow(rt, start, ticks);
  }

  lemma {:induction false} StartBelow(rt: ResetTime, start: int, ticks: seq<Second>)
    requires ValidReset(rt)
    ensures CurrentDayStart(rt, start) < AfterSeconds(rt, start, ticks).next
  {
    if ticks != [] {
      StartBelow(rt, start, ticks[..|ticks| - 1]);
      var s := AfterSeconds(rt, start, ticks[..|ticks| - 1]);
      NextIsBoundary(rt, ticks[|ticks| - 1].now);
    }
  }

  lemma NextIsBoundary(rt: ResetTime, now: int)
    requires ValidReset(rt)
    ensures IsBoundary(rt, NextDayStart(rt, now)) && now < NextDayStart(rt, now)
  {
    DayStartByKey(rt, now);
    DayStartUnique(rt, now, CurrentDayStart(rt, now));
    assert AtReset(rt, NextDayStart(rt, now), TradingDayKey(rt, now) + 1);
  }

  /** Once a boundary has passed, the current day starts at it or later. */
  lemma BoundaryNotSkipped(rt: ResetTime, boundary: int, now: int)
    requires ValidReset(rt) && IsBoundary(rt, boundary) && boundary <= now
    ensures boundary <= CurrentDayStart(rt, now)
  {
    var day :| AtReset(rt, boundary, day);
    DayStartByKey(rt, now);
    var x := now + ZoneShift(rt) - TimeOfDay(rt);
    assert x == TradingDayKey(rt, now) * DAY + x % DAY;
  }
}
