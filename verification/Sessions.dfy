/**
 * The FX session clock in New York wall time. Instants are milliseconds since the epoch and
 * dates are day numbers (0 = 1 January 1970, a Thursday). The zone database is a function `off`
 * from instants to offsets: two values, and no change between 20:45 and 22:00 UTC, which is where
 * 16:45-17:00 New York falls in winter and in summer. Nothing is assumed about any other instant.
 */
module Sessions {
  import opened Options
  import opened Division

  const MINUTE := 60_000
  const HOUR := 3_600_000
  const DAY := 86_400_000
  const STANDARD := -5 * HOUR
  const DAYLIGHT := -4 * HOUR

  /** Minutes after New York midnight. */
  const WEEK_OPEN_CLOSE := 17 * 60
  const WEEKEND_CUTOFF := 16 * 60 + 45
  const ROLLOVER_CUTOFF := 16 * 60 + 55

  /** The stretch of every UTC day that holds 16:45-17:00 New York. */
  const QUIET_FROM := 20 * HOUR + 45 * MINUTE
  const QUIET_TO := 22 * HOUR

  type Zone = int -> int

  ghost predicate Quiet(day: int, t: int) {
    day * DAY + QUIET_FROM <= t <= day * DAY + QUIET_TO
  }

  ghost predicate NewYork(off: Zone) {
    && (forall t :: off(t) == STANDARD || off(t) == DAYLIGHT)
    && (forall day, t :: Quiet(day, t) ==> off(t) == off(day * DAY + QUIET_FROM))
  }

  /** Hour and minute are kept together as minutes after midnight. */
  datatype Parts = Parts(day: int, minutes: int, second: int, weekday: int)

  function Weekday(day: int): (w: int)
    ensures 0 <= w < 7
  {
    (day + 4) % 7
  }

  function Local(off: Zone, t: int): int { t + off(t) }

  /** What a New York wall clock shows. */
  function NewYorkParts(off: Zone, t: int): Parts {
    var local := Local(off, t);
    Parts(local / DAY, local % DAY / MINUTE, local % MINUTE / 1000, Weekday(local / DAY))
  }

  function Utc(day: int, minutes: int, second: int): int {
    day * DAY + minutes * MINUTE + second * 1000
  }

  function OffsetAt(off: Zone, t: int): int {
    var p := NewYorkParts(off, t);
    Utc(p.day, p.minutes, p.second) - t / 1000 * 1000
  }

  function NewYorkWallTime(off: Zone, day: int, minutes: int): int {
    var wall := Utc(day, minutes, 0);
    var t := wall - OffsetAt(off, wall);
    wall - OffsetAt(off, t)
  }

  function IsWeekendClosed(off: Zone, now: int): bool {
    var p := NewYorkParts(off, now);
    var m := p.minutes;
    (p.weekday == 5 && m >= WEEK_OPEN_CLOSE) || p.weekday == 6 || (p.weekday == 0 && m < WEEK_OPEN_CLOSE)
  }

  /** Day number of the Friday of the FX week that `now` belongs to. */
  function CutoffDay(off: Zone, now: int): int {
    var p := NewYorkParts(off, now);
    var m := p.minutes;
    p.day + if p.weekday == 6 then -1
            else if p.weekday == 0 then (if m < WEEK_OPEN_CLOSE then -2 else 5)
            else 5 - p.weekday
  }

  function WeekendCutoff(off: Zone, now: int): int {
    NewYorkWallTime(off, CutoffDay(off, now), WEEKEND_CUTOFF)
  }

  function WeekendReopen(off: Zone, now: int): int {
    var friday := NewYorkParts(off, WeekendCutoff(off, now));
    NewYorkWallTime(off, friday.day + 2, WEEK_OPEN_CLOSE)
  }

  function IsWeekendRestricted(off: Zone, now: int): bool {
    WeekendCutoff(off, now) <= now < WeekendReopen(off, now)
  }

  /** The instants at which this clock shows given wall times. */
  function Wall(off: Zone): (int, int) -> int {
    (day: int, minutes: int) => NewYorkWallTime(off, day, minutes)
  }

  /** The search of `DailyRolloverCutoff` from `back` days ago on; None is the throw. */
  function RolloverSearch(wall: (int, int) -> int, now: int, today: int, back: nat): Option<int>
    requires back <= 7
    decreases 7 - back
  {
    if back == 7 then None
    else if Weekday(today - back) == 0 || Weekday(today - back) == 6 then RolloverSearch(wall, now, today, back + 1)
    else
      var cutoff := wall(today - back, ROLLOVER_CUTOFF);
      if cutoff <= now then Some(cutoff) else RolloverSearch(wall, now, today, back + 1)
  }

  function DailyRolloverCutoff(off: Zone, now: int): (cutoff: int)
    requires NewYork(off)
    ensures LatestRollover(Wall(off), cutoff, now)
  {
    RolloverFound(off, now);
    RolloverSearch(Wall(off), now, NewYorkParts(off, now).day, 0).value
  }

  function IsRolloverWindow(off: Zone, now: int): bool {
    var p := NewYorkParts(off, now);
    var m := p.minutes;
    1 <= p.weekday <= 5 && ROLLOVER_CUTOFF <= m < WEEK_OPEN_CLOSE
  }

  function DailyRollover(off: Zone, now: int): int
    requires NewYork(off)
  {
    DailyRolloverCutoff(off, now) + (WEEK_OPEN_CLOSE - ROLLOVER_CUTOFF) * MINUTE
  }

  ghost predicate RolloverDay(day: int) { 1 <= Weekday(day) <= 5 }

  /** `cutoff` is the last weekday 16:55 at or before `now`. */
  ghost predicate LatestRollover(wall: (int, int) -> int, cutoff: int, now: int) {
    && cutoff <= now
    && (exists day :: RolloverDay(day) && cutoff == wall(day, ROLLOVER_CUTOFF))
    && (forall day :: RolloverDay(day) && wall(day, ROLLOVER_CUTOFF) <= now ==> wall(day, ROLLOVER_CUTOFF) <= cutoff)
  }

  // ----- wall time -----

  lemma SplitLocal(x: int)
    ensures x == x / DAY * DAY + x % DAY
    ensures x % DAY == x % DAY / MINUTE * MINUTE + x % MINUTE
    ensures x % MINUTE == x % MINUTE / 1000 * 1000 + x % 1000
  {
    NestedMod(x, 1440, MINUTE);
    NestedMod(x, 60, 1000);
  }

  lemma PartsOfLocal(off: Zone, t: int)
    ensures var p := NewYorkParts(off, t);
            && Local(off, t) == p.day * DAY + Local(off, t) % DAY
            && p.minutes * MINUTE <= Local(off, t) % DAY < p.minutes * MINUTE + MINUTE
            && Local(off, t) % DAY == p.minutes * MINUTE + p.second * 1000 + Local(off, t) % 1000
  {
    SplitLocal(Local(off, t));
  }

  lemma SameMillis(t: int, hours: int)
    ensures (t + hours * HOUR) % 1000 == t % 1000
  {
    QuotientUnique(t + hours * HOUR, 1000, t / 1000 + hours * 3600, t % 1000);
  }

  /** Reading the clock and subtracting gives back the offset of the zone. */
  lemma OffsetRead(off: Zone, t: int)
    requires off(t) == STANDARD || off(t) == DAYLIGHT
    ensures OffsetAt(off, t) == off(t)
  {
    PartsOfLocal(off, t);
    SameMillis(t, -5);
    SameMillis(t, -4);
  }

  /** At the session times the two-pass search lands on an instant that shows the requested wall time. */
  lemma WallTimeRightInverse(off: Zone, day: int, minutes: int)
    requires NewYork(off) && WEEKEND_CUTOFF <= minutes <= WEEK_OPEN_CLOSE
    ensures Local(off, NewYorkWallTime(off, day, minutes)) == day * DAY + minutes * MINUTE
    ensures Quiet(day, NewYorkWallTime(off, day, minutes))
  {
    var wall := Utc(day, minutes, 0);
    OffsetRead(off, wall);
    var t := wall - off(wall);
    OffsetRead(off, t);
    SettledAfterTwo(off, day, minutes, wall);
  }

  lemma DayShown(off: Zone, day: int, minutes: int)
    requires NewYork(off) && WEEKEND_CUTOFF <= minutes <= WEEK_OPEN_CLOSE
    ensures NewYorkParts(off, NewYorkWallTime(off, day, minutes)) == Parts(day, minutes, 0, Weekday(day))
  {
    WallTimeRightInverse(off, day, minutes);
    PartsAt(off, NewYorkWallTime(off, day, minutes), day, minutes);
  }

  lemma PartsAt(off: Zone, t: int, day: int, minutes: int)
    requires Local(off, t) == day * DAY + minutes * MINUTE && 0 <= minutes < 1440
    ensures NewYorkParts(off, t) == Parts(day, minutes, 0, Weekday(day))
  {
    QuotientUnique(Local(off, t), DAY, day, minutes * MINUTE);
    QuotientUnique(Local(off, t), MINUTE, day * 1440 + minutes, 0);
    QuotientUnique(minutes * MINUTE, MINUTE, minutes, 0);
  }

  lemma SettledAfterTwo(off: Zone, day: int, minutes: int, wall: int)
    requires NewYork(off) && WEEKEND_CUTOFF <= minutes <= WEEK_OPEN_CLOSE && wall == day * DAY + minutes * MINUTE
    ensures var u := wall - off(wall - off(wall));
            u + off(u) == wall && Quiet(day, u)
  {
    var t := wall - off(wall);
    assert off(wall) == STANDARD || off(wall) == DAYLIGHT;
    assert Quiet(day, t);
    var u := wall - off(t);
    assert off(t) == STANDARD || off(t) == DAYLIGHT;
    assert Quiet(day, u);
  }

  /** Session instants compare as their wall times do, whatever the clock does elsewhere. */
  lemma WallOrder(off: Zone, t: int, day: int, minutes: int)
    requires NewYork(off) && WEEKEND_CUTOFF <= minutes <= WEEK_OPEN_CLOSE
    ensures NewYorkWallTime(off, day, minutes) <= t <==> day * DAY + minutes * MINUTE <= Local(off, t)
  {
    WallTimeRightInverse(off, day, minutes);
    InstantOrder(off, t, NewYorkWallTime(off, day, minutes), day, minutes);
  }

  lemma InstantOrder(off: Zone, t: int, u: int, day: int, minutes: int)
    requires NewYork(off) && WEEKEND_CUTOFF <= minutes <= WEEK_OPEN_CLOSE
    requires Local(off, u) == day * DAY + minutes * MINUTE
    requires Quiet(day, u)
    ensures u <= t <==> day * DAY + minutes * MINUTE <= Local(off, t)
  {
    assert off(t) == STANDARD || off(t) == DAYLIGHT;
    if Quiet(day, t) {
      assert off(t) == off(day * DAY + QUIET_FROM) == off(u);
    }
  }

  // ----- weekend -----

  /** The wall clock read `local` at `now`, for a clock that gives `wall(day, minutes)` as session instants. */
  ghost predicate Clock(wall: (int, int) -> int, now: int, local: int) {
    forall day, minutes :: WEEKEND_CUTOFF <= minutes <= WEEK_OPEN_CLOSE
                           ==> (wall(day, minutes) <= now <==> day * DAY + minutes * MINUTE <= local)
  }

  ghost predicate Banded(wall: (int, int) -> int) {
    forall day, minutes :: WEEKEND_CUTOFF <= minutes <= WEEK_OPEN_CLOSE
                           ==> Quiet(day, wall(day, minutes))
  }

  lemma WallIsClock(off: Zone, now: int)
    requires NewYork(off)
    ensures Clock(Wall(off), now, Local(off, now)) && Banded(Wall(off))
  {
    forall day, minutes | WEEKEND_CUTOFF <= minutes <= WEEK_OPEN_CLOSE
      ensures Wall(off)(day, minutes) <= now <==> day * DAY + minutes * MINUTE <= Local(off, now)
      ensures Quiet(day, Wall(off)(day, minutes))
    {
      WallOrder(off, now, day, minutes);
      WallTimeRightInverse(off, day, minutes);
    }
  }

  /** Friday of the FX week of a wall-clock reading. */
  ghost predicate FridayOf(f: int, local: int) {
    && Weekday(f) == 5
    && (f - 5) * DAY + WEEK_OPEN_CLOSE * MINUTE <= local < (f + 2) * DAY + WEEK_OPEN_CLOSE * MINUTE
  }

  lemma CutoffDayIsFriday(off: Zone, now: int)
    ensures FridayOf(CutoffDay(off, now), Local(off, now))
  {
    PartsOfLocal(off, now);
  }

  lemma FridayUnique(f: int, g: int, local: int)
    requires FridayOf(f, local) && FridayOf(g, local)
    ensures f == g
  {
    assert f < g + 7 && g < f + 7;
    assert (f - g) % 7 == 0;
  }

  lemma CutoffAndReopen(off: Zone, now: int)
    requires NewYork(off)
    ensures WeekendCutoff(off, now) == Wall(off)(CutoffDay(off, now), WEEKEND_CUTOFF)
    ensures WeekendReopen(off, now) == Wall(off)(CutoffDay(off, now) + 2, WEEK_OPEN_CLOSE)
  {
    DayShown(off, CutoffDay(off, now), WEEKEND_CUTOFF);
  }

  /** Every instant lies in exactly one FX week, from one Sunday 17:00 up to the next. */
  lemma FxWeek(off: Zone, now: int)
    requires NewYork(off)
    ensures NewYorkWallTime(off, CutoffDay(off, now) - 5, WEEK_OPEN_CLOSE) <= now < WeekendReopen(off, now)
    ensures WeekendCutoff(off, now) < WeekendReopen(off, now)
  {
    CutoffDayIsFriday(off, now);
    CutoffAndReopen(off, now);
    WallIsClock(off, now);
    assert Wall(off)(CutoffDay(off, now) - 5, WEEK_OPEN_CLOSE) == NewYorkWallTime(off, CutoffDay(off, now) - 5, WEEK_OPEN_CLOSE);
  }

  lemma WindowCore(wall: (int, int) -> int, u: int, local: int, f: int, g: int)
    requires Clock(wall, u, local) && Weekday(f) == 5 && FridayOf(g, local)
    requires wall(f, WEEKEND_CUTOFF) <= u < wall(f + 2, WEEK_OPEN_CLOSE)
    ensures f == g
  {
    FridayUnique(f, g, local);
  }

  lemma SameFriday(off: Zone, t: int, u: int)
    requires NewYork(off) && WeekendCutoff(off, t) <= u < WeekendReopen(off, t)
    ensures CutoffDay(off, u) == CutoffDay(off, t)
  {
    CutoffAndReopen(off, t);
    CutoffDayIsFriday(off, t);
    CutoffDayIsFriday(off, u);
    WallIsClock(off, u);
    WindowCore(Wall(off), u, Local(off, u), CutoffDay(off, t), CutoffDay(off, u));
  }

  /** The cutoff does not move while its own window is open, also across a DST change inside it. */
  lemma CutoffConstantOnWindow(off: Zone, t: int, u: int)
    requires NewYork(off) && WeekendCutoff(off, t) <= u < WeekendReopen(off, t)
    ensures WeekendCutoff(off, u) == WeekendCutoff(off, t) && WeekendReopen(off, u) == WeekendReopen(off, t)
    ensures IsWeekendRestricted(off, u)
  {
    SameFriday(off, t, u);
  }

  lemma LaterSameDay(off: Zone, day: int, m: int, n: int)
    requires NewYork(off) && WEEKEND_CUTOFF <= m <= n <= WEEK_OPEN_CLOSE
    ensures Wall(off)(day, n) == Wall(off)(day, m) + (n - m) * MINUTE
  {
    WallTimeRightInverse(off, day, m);
    WallTimeRightInverse(off, day, n);
    assert off(NewYorkWallTime(off, day, m)) == off(day * DAY + QUIET_FROM) == off(NewYorkWallTime(off, day, n));
  }

  lemma ClosedCore(local: int, minutes: int, f: int)
    requires FridayOf(f, local) && minutes == local % DAY / MINUTE
    ensures ((Weekday(local / DAY) == 5 && minutes >= WEEK_OPEN_CLOSE) || Weekday(local / DAY) == 6
             || (Weekday(local / DAY) == 0 && minutes < WEEK_OPEN_CLOSE))
            <==> f * DAY + WEEK_OPEN_CLOSE * MINUTE <= local
  {
    var day := local / DAY;
    assert local == day * DAY + local % DAY;
    assert f - 5 <= day <= f + 2;
  }

  /** The wall-clock test for a closed market is the window that opens 15 minutes after the cutoff. */
  lemma WeekendClosedWindow(off: Zone, now: int)
    requires NewYork(off)
    ensures IsWeekendClosed(off, now) <==> WeekendCutoff(off, now) + 15 * MINUTE <= now < WeekendReopen(off, now)
  {
    var f := CutoffDay(off, now);
    CutoffDayIsFriday(off, now);
    FxWeek(off, now);
    CutoffAndReopen(off, now);
    LaterSameDay(off, f, WEEKEND_CUTOFF, WEEK_OPEN_CLOSE);
    WallIsClock(off, now);
    ClosedCore(Local(off, now), NewYorkParts(off, now).minutes, f);
  }

  // ----- daily rollover -----

  lemma WeekdayBefore(today: int) returns (back: nat)
    ensures 1 <= back <= 3 && RolloverDay(today - back)
  {
    back := if RolloverDay(today - 1) then 1 else if RolloverDay(today - 2) then 2 else 3;
  }

  /** A weekday at most three days back has its 16:55 behind it, so the search never throws. */
  lemma RolloverFound(off: Zone, now: int)
    requires NewYork(off)
    ensures var r := RolloverSearch(Wall(off), now, NewYorkParts(off, now).day, 0);
            r.Some? && LatestRollover(Wall(off), r.value, now)
  {
    PartsOfLocal(off, now);
    WallIsClock(off, now);
    SearchAlwaysFinds(Wall(off), now, Local(off, now), NewYorkParts(off, now).day);
  }

  lemma SearchAlwaysFinds(wall: (int, int) -> int, now: int, local: int, today: int)
    requires Clock(wall, now, local) && Banded(wall) && today * DAY <= local < (today + 1) * DAY
    ensures var r := RolloverSearch(wall, now, today, 0);
            r.Some? && LatestRollover(wall, r.value, now)
  {
    var b := WeekdayBefore(today);
    assert wall(today - b, ROLLOVER_CUTOFF) <= now;
    SearchFinds(wall, now, today, 0, b);
  }

  lemma {:induction false} SearchFinds(wall: (int, int) -> int, now: int, today: int, back: nat, b: nat)
    requires Banded(wall)
    requires back <= b <= 3 && RolloverDay(today - b) && wall(today - b, ROLLOVER_CUTOFF) <= now
    requires forall day :: day > today - back && RolloverDay(day) ==> wall(day, ROLLOVER_CUTOFF) > now
    ensures var r := RolloverSearch(wall, now, today, back);
            r.Some? && LatestRollover(wall, r.value, now)
    decreases b - back
  {
    var day := today - back;
    if !RolloverDay(day) || wall(day, ROLLOVER_CUTOFF) > now {
      SearchFinds(wall, now, today, back + 1, b);
    } else {
      forall d | RolloverDay(d) && wall(d, ROLLOVER_CUTOFF) <= now
        ensures wall(d, ROLLOVER_CUTOFF) <= wall(day, ROLLOVER_CUTOFF)
      {
        assert Quiet(d, wall(d, ROLLOVER_CUTOFF)) && Quiet(day, wall(day, ROLLOVER_CUTOFF));
      }
    }
  }

  /** The loop as written: back one day at a time, weekends skipped, and the final throw is unreachable. */
  method FindDailyRolloverCutoff(off: Zone, now: int) returns (cutoff: int)
    requires NewYork(off)
    ensures cutoff == DailyRolloverCutoff(off, now)
    ensures LatestRollover(Wall(off), cutoff, now)
  {
    RolloverFound(off, now);
    var today := NewYorkParts(off, now).day;
    var wall := Wall(off);
    cutoff := DaysBack(wall, now, today);
  }

  method DaysBack(wall: (int, int) -> int, now: int, today: int) returns (cutoff: int)
    requires RolloverSearch(wall, now, today, 0).Some?
    ensures Some(cutoff) == RolloverSearch(wall, now, today, 0)
  {
    for back := 0 to 7
      invariant RolloverSearch(wall, now, today, 0) == RolloverSearch(wall, now, today, back)
    {
      var weekday := Weekday(today - back);
      if weekday == 0 || weekday == 6 {
        continue;
      }
      var c := wall(today - back, ROLLOVER_CUTOFF);
      if c <= now {
        return c;
      }
    }
    assert false;
  }

  lemma RolloverWindowCore(local: int, minutes: int, day: int)
    requires minutes == local % DAY / MINUTE && RolloverDay(day)
    ensures day * DAY + ROLLOVER_CUTOFF * MINUTE <= local < day * DAY + WEEK_OPEN_CLOSE * MINUTE
            <==> local / DAY == day && ROLLOVER_CUTOFF <= minutes < WEEK_OPEN_CLOSE
  {
    assert local == local / DAY * DAY + local % DAY;
  }

  lemma RolloverWindowAt(off: Zone, now: int, day: int)
    requires NewYork(off) && RolloverDay(day)
    ensures Wall(off)(day, ROLLOVER_CUTOFF) <= now < Wall(off)(day, ROLLOVER_CUTOFF) + 5 * MINUTE
            <==> NewYorkParts(off, now).day == day && IsRolloverWindow(off, now)
  {
    WallIsClock(off, now);
    LaterSameDay(off, day, ROLLOVER_CUTOFF, WEEK_OPEN_CLOSE);
    RolloverWindowCore(Local(off, now), NewYorkParts(off, now).minutes, day);
  }

  /** The wall-clock test for the rollover window is [cutoff, cutoff + 5 minutes). */
  lemma RolloverWindow(off: Zone, now: int)
    requires NewYork(off)
    ensures IsRolloverWindow(off, now) <==> DailyRolloverCutoff(off, now) <= now < DailyRollover(off, now)
  {
    var cutoff := DailyRolloverCutoff(off, now);
    var day :| RolloverDay(day) && cutoff == Wall(off)(day, ROLLOVER_CUTOFF);
    RolloverWindowAt(off, now, day);
    if IsRolloverWindow(off, now) {
      var today := NewYorkParts(off, now).day;
      RolloverWindowAt(off, now, today);
      WallIsClock(off, now);
      PartsOfLocal(off, now);
      LatestIsToday(Wall(off), now, Local(off, now), day, today);
    }
  }

  lemma LatestIsToday(wall: (int, int) -> int, now: int, local: int, day: int, today: int)
    requires Clock(wall, now, local) && Banded(wall) && local < (today + 1) * DAY
    requires wall(today, ROLLOVER_CUTOFF) <= wall(day, ROLLOVER_CUTOFF) <= now
    ensures day == today
  {
    assert Quiet(day, wall(day, ROLLOVER_CUTOFF)) && Quiet(today, wall(today, ROLLOVER_CUTOFF));
  }

  /** The rollover cutoff does not move while its own window is open. */
  lemma RolloverConstantOnWindow(off: Zone, t: int, u: int)
    requires NewYork(off) && DailyRolloverCutoff(off, t) <= u < DailyRollover(off, t)
    ensures DailyRolloverCutoff(off, u) == DailyRolloverCutoff(off, t) && IsRolloverWindow(off, u)
  {
    var day :| RolloverDay(day) && DailyRolloverCutoff(off, t) == Wall(off)(day, ROLLOVER_CUTOFF);
    RolloverWindowAt(off, u, day);
    RolloverWindow(off, u);
    var other :| RolloverDay(other) && DailyRolloverCutoff(off, u) == Wall(off)(other, ROLLOVER_CUTOFF);
    RolloverWindowAt(off, u, other);
  }

  // ----- what the clocks show -----

  /** Every seventh day is a Thursday, counted from 1 January 1970. */
  lemma WeekdaysGoRound(day: int)
    ensures Weekday(0) == 4 && Weekday(day + 1) == (Weekday(day) + 1) % 7
  {
  }

  /** New York clocks show Friday 16:45 at the weekend cutoff and Sunday 17:00, two days later, at the reopen. */
  lemma WeekendShows(off: Zone, now: int)
    requires NewYork(off)
    ensures var friday := CutoffDay(off, now);
            && Weekday(friday) == 5 && Weekday(friday + 2) == 0
            && NewYorkParts(off, WeekendCutoff(off, now)) == Parts(friday, 16 * 60 + 45, 0, 5)
            && NewYorkParts(off, WeekendReopen(off, now)) == Parts(friday + 2, 17 * 60, 0, 0)
  {
    var friday := CutoffDay(off, now);
    CutoffDayIsFriday(off, now);
    CutoffAndReopen(off, now);
    SundayAfter(friday);
    ShownAt(off, WeekendCutoff(off, now), friday, WEEKEND_CUTOFF);
    ShownAt(off, WeekendReopen(off, now), friday + 2, WEEK_OPEN_CLOSE);
  }

  lemma SundayAfter(friday: int)
    requires Weekday(friday) == 5
    ensures Weekday(friday + 2) == 0
  {
  }

  lemma ShownAt(off: Zone, t: int, day: int, minutes: int)
    requires NewYork(off) && WEEKEND_CUTOFF <= minutes <= WEEK_OPEN_CLOSE && t == Wall(off)(day, minutes)
    ensures NewYorkParts(off, t) == Parts(day, minutes, 0, Weekday(day))
  {
    DayShown(off, day, minutes);
  }

  /** And 16:55 and 17:00 of one day from Monday to Friday at the rollover's cutoff and end. */
  lemma RolloverShows(off: Zone, now: int) returns (day: int)
    requires NewYork(off)
    ensures 1 <= Weekday(day) <= 5
    ensures NewYorkParts(off, DailyRolloverCutoff(off, now)) == Parts(day, 16 * 60 + 55, 0, Weekday(day))
    ensures NewYorkParts(off, DailyRollover(off, now)) == Parts(day, 17 * 60, 0, Weekday(day))
  {
    day :| RolloverDay(day) && DailyRolloverCutoff(off, now) == Wall(off)(day, ROLLOVER_CUTOFF);
    LaterSameDay(off, day, ROLLOVER_CUTOFF, WEEK_OPEN_CLOSE);
    ShownAt(off, DailyRolloverCutoff(off, now), day, ROLLOVER_CUTOFF);
    ShownAt(off, DailyRollover(off, now), day, WEEK_OPEN_CLOSE);
  }
}
