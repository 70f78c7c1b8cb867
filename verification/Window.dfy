/**
 Quota windows without pins: the default UTC windows and the windows of a reset schedule.
 A window is [start, reset): it starts at one reset instant and ends at the next.
 */
module Windows {
  import opened Civil
  import opened Wrappers
  import opened Schedule

  datatype Window = Window(start: int, reset: int)

  function UtcDay(now: int): int {
    now / DAY
  }

  /** 9999-12-31 23:59:59 UTC */
  const END_OF_TIME: int := 253402300799

  /** The UTC calendar windows. */
  function DefaultWindow(period: Period, now: int): Window {
    var today := ToDate(UtcDay(now));
    match period
    case Daily =>
      Window(DayNumber(today.year, today.month, today.day) * DAY,
             DayNumber(today.year, today.month, today.day + 1) * DAY)
    case Weekly =>
      var weekday := if Weekday(UtcDay(now)) == 0 then 7 else Weekday(UtcDay(now));
      var monday := DayNumber(today.year, today.month, today.day - (weekday - 1));
      Window(monday * DAY, (monday + 7) * DAY)
    case Monthly =>
      Window(DayNumber(today.year, today.month, 1) * DAY, DayNumber(today.year, today.month + 1, 1) * DAY)
    case Total => Window(0, END_OF_TIME)
    case Other(_) => Window(0, now)
  }

  function Clamp(v: int, low: int, high: int): int {
    if v < low then low else if v > high then high else v
  }

  /** The local day number of the reset `k` periods from the one dated by the local date of now. */
  function NthDay(period: Period, sched: ResetSchedule, today: Date, weekday: int, k: int): int
    requires Scheduled(period)
  {
    match period
    case Daily => DayNumber(today.year, today.month, today.day + k)
    case Weekly =>
      var mondayDay := today.day - (weekday - 1);
      DayNumber(today.year, today.month, mondayDay + 7 * k + (Clamp(sched.weekday, 1, 7) - 1))
    case _ =>
      var first := ToDate(DayNumber(today.year, today.month + k, 1));
      DayNumber(first.year, first.month, Clamp(sched.day, 1, DaysIn(first.year, first.month)))
  }

  /** Steps k down, at most `steps` times, while its reset is after now. */
  function Descend(nth: int -> int, now: int, k: int, steps: nat): int
    decreases steps
  {
    if steps > 0 && nth(k) > now then Descend(nth, now, k - 1, steps - 1) else k
  }

  /** Steps k up, at most `steps` times, while the next reset has been reached. */
  function Ascend(nth: int -> int, now: int, k: int, steps: nat): int
    decreases steps
  {
    if steps > 0 && nth(k + 1) <= now then Ascend(nth, now, k + 1, steps - 1) else k
  }

  /** The resets seen from now: k = 0 is the reset dated by the local date of now. */
  function NthFrom(period: Period, sched: ResetSchedule, minute: int, zone: Zone, now: int): int -> int
    requires Scheduled(period)
  {
    var localDay := zone.WallClock(now) / DAY;
    var weekday := if Weekday(localDay) == 0 then 7 else Weekday(localDay);
    k => zone.Instant(NthDay(period, sched, ToDate(localDay), weekday, k) * DAY + 60 * minute)
  }

  predicate ValidWindow(w: Window, now: int) {
    w.start <= now < w.reset
  }

  /** The window at now that a schedule gives, or the default one when the schedule is unusable or
      the search ends on an invalid window. */
  function ScheduleWindow(tz: TzDb, period: Period, sched: Option<ResetSchedule>, now: int): Window {
    var zone := Load(tz, sched);
    if zone.None? then DefaultWindow(period, now)
    else
      var minute := ParseClock(sched.value.clock);
      if minute.None? || !Scheduled(period) then DefaultWindow(period, now)
      else
        var nth := NthFrom(period, sched.value, minute.value, zone.value, now);
        var k := Ascend(nth, now, Descend(nth, now, 0, 4), 4);
        var w := Window(nth(k), nth(k + 1));
        if ValidWindow(w, now) then w else DefaultWindow(period, now)
  }

  /** The two bounded search loops. */
  method Search(nth: int -> int, now: int) returns (k: int)
    ensures k == Ascend(nth, now, Descend(nth, now, 0, 4), 4)
  {
    k := 0;
    var i := 0;
    while i < 4 && nth(k) > now
      invariant 0 <= i <= 4
      invariant Descend(nth, now, 0, 4) == Descend(nth, now, k, 4 - i)
    {
      k, i := k - 1, i + 1;
    }
    ghost var low := k;
    i := 0;
    while i < 4 && nth(k + 1) <= now
      invariant 0 <= i <= 4
      invariant Ascend(nth, now, low, 4) == Ascend(nth, now, k, 4 - i)
    {
      k, i := k + 1, i + 1;
    }
  }

  /** Window search step by step. `fellBack` reports the invalid-window fallback, which no zone with
      offsets of less than a day reaches. */
  method FindScheduleWindow(tz: TzDb, period: Period, sched: Option<ResetSchedule>, now: int)
    returns (w: Window, fellBack: bool)
    ensures w == ScheduleWindow(tz, period, sched, now)
    ensures Load(tz, sched).Some? && Bounded(Load(tz, sched).value) ==> !fellBack
  {
    var zone := Load(tz, sched);
    if zone.None? {
      return DefaultWindow(period, now), false;
    }
    var minute := ParseClock(sched.value.clock);
    if minute.None? || !Scheduled(period) {
      return DefaultWindow(period, now), false;
    }
    var nth := NthFrom(period, sched.value, minute.value, zone.value, now);
    var k := Search(nth, now);
    if Bounded(zone.value) {
      SearchSucceeds(period, sched.value, minute.value, zone.value, now);
    }
    if nth(k) > now || now >= nth(k + 1) || nth(k + 1) <= nth(k) {
      return DefaultWindow(period, now), true;
    }
    return Window(nth(k), nth(k + 1)), false;
  }

  // The resets of a schedule, numbered once for all by day, week or month, whatever now is.

  function ResetDay(period: Period, sched: ResetSchedule, j: int): int
    requires Scheduled(period)
  {
    match period
    case Daily => j
    case Weekly => 7 * j - 3 + (Clamp(sched.weekday, 1, 7) - 1)
    case _ => MonthStart(j) + Clamp(sched.day, 1, MonthLength(j)) - 1
  }

  function Reset(period: Period, sched: ResetSchedule, minute: int, zone: Zone, j: int): int
    requires Scheduled(period)
  {
    zone.Instant(ResetDay(period, sched, j) * DAY + 60 * minute)
  }

  /** The number of the day, week or month that a local day lies in. */
  function Base(period: Period, localDay: int): int
    requires Scheduled(period)
  {
    match period
    case Daily => localDay
    case Weekly => (localDay + 3) / 7
    case _ => MonthOf(localDay)
  }

  lemma WeekdayOfBase(localDay: int)
    ensures var wd := if Weekday(localDay) == 0 then 7 else Weekday(localDay);
            localDay - (wd - 1) == 7 * ((localDay + 3) / 7) - 3
  {
  }

  lemma DailyDay(localDay: int, k: int)
    ensures var today := ToDate(localDay); DayNumber(today.year, today.month, today.day + k) == localDay + k
  {
    DayRoundTrip(localDay);
  }

  lemma FirstOfMonth(localDay: int, k: int)
    ensures var today := ToDate(localDay);
            DayNumber(today.year, today.month + k, 1) == MonthStart(MonthOf(localDay) + k)
  {
    MonthIndexParts(MonthOf(localDay), 0, 1);
  }

  lemma DayInMonth(index: int, day: int)
    ensures var first := ToDate(MonthStart(index));
            && DaysIn(first.year, first.month) == MonthLength(index)
            && DayNumber(first.year, first.month, day) == MonthStart(index) + day - 1
  {
    MonthStartSteps(index);
    MonthOfUnique(MonthStart(index), index);
    MonthIndexParts(index, 0, 1);
    DaysInIsMonthLength(ToDate(MonthStart(index)).year, ToDate(MonthStart(index)).month);
  }

  lemma WeeklyDay(sched: ResetSchedule, localDay: int, k: int)
    ensures var weekday := if Weekday(localDay) == 0 then 7 else Weekday(localDay);
            NthDay(Weekly, sched, ToDate(localDay), weekday, k) == ResetDay(Weekly, sched, (localDay + 3) / 7 + k)
  {
    WeekdayOfBase(localDay);
    var wd := if Weekday(localDay) == 0 then 7 else Weekday(localDay);
    DailyDay(localDay, 7 * k + (Clamp(sched.weekday, 1, 7) - 1) - (wd - 1));
  }

  lemma MonthlyDay(sched: ResetSchedule, localDay: int, weekday: int, k: int)
    ensures NthDay(Monthly, sched, ToDate(localDay), weekday, k) == ResetDay(Monthly, sched, MonthOf(localDay) + k)
  {
    hide DayNumber, ToDate, DaysIn, MonthStart, MonthOf, MonthLength, Clamp;
    var index := MonthOf(localDay) + k;
    FirstOfMonth(localDay, k);
    DayInMonth(index, Clamp(sched.day, 1, MonthLength(index)));
  }

  lemma NthDayIsResetDay(period: Period, sched: ResetSchedule, localDay: int, k: int)
    requires Scheduled(period)
    ensures var weekday := if Weekday(localDay) == 0 then 7 else Weekday(localDay);
            NthDay(period, sched, ToDate(localDay), weekday, k) == ResetDay(period, sched, Base(period, localDay) + k)
  {
    match period
    case Daily =>
      DailyDay(localDay, k);
    case Weekly =>
      hide NthDay, ResetDay, Weekday;
      WeeklyDay(sched, localDay, k);
    case Monthly =>
      hide NthDay, ResetDay, Weekday;
      MonthlyDay(sched, localDay, (if Weekday(localDay) == 0 then 7 else Weekday(localDay)), k);
  }

  /** The generator dated from now and the absolute numbering name the same instants. */
  lemma NthIsReset(period: Period, sched: ResetSchedule, minute: int, zone: Zone, now: int, k: int)
    requires Scheduled(period)
    ensures NthFrom(period, sched, minute, zone, now)(k)
         == Reset(period, sched, minute, zone, Base(period, zone.WallClock(now) / DAY) + k)
  {
    hide NthDay, ResetDay, ToDate, Weekday;
    NthDayIsResetDay(period, sched, zone.WallClock(now) / DAY, k);
  }

  /** Consecutive reset days of one period differ by a day, a week or 28 to 31 days. */
  lemma ResetDayStep(period: Period, sched: ResetSchedule, j: int)
    requires Scheduled(period)
    ensures var step := ResetDay(period, sched, j + 1) - ResetDay(period, sched, j);
            match period case Daily => step == 1 case Weekly => step == 7 case _ => 28 <= step <= 31
  {
    if period.Monthly? {
      MonthStartSteps(j);
    }
  }

  /** Resets never run backward. */
  lemma {:induction false} ResetsOrdered(period: Period, sched: ResetSchedule, minute: int, zone: Zone, i: int, j: int)
    requires Scheduled(period) && RegularZone(zone) && i <= j
    ensures Reset(period, sched, minute, zone, i) <= Reset(period, sched, minute, zone, j)
    decreases j - i
  {
    if i < j {
      ResetsOrdered(period, sched, minute, zone, i, j - 1);
      ResetDayStep(period, sched, j - 1);
    }
  }

  /** Four periods back and four ahead of the local date always enclose now. */
  lemma ResetsEnclose(period: Period, sched: ResetSchedule, minute: int, zone: Zone, now: int)
    requires Scheduled(period) && Bounded(zone) && 0 <= minute < 24 * 60
    ensures var base := Base(period, zone.WallClock(now) / DAY);
            Reset(period, sched, minute, zone, base - 4) <= now < Reset(period, sched, minute, zone, base + 4)
  {
    var localDay := zone.WallClock(now) / DAY;
    var base := Base(period, localDay);
    assert ResetDay(period, sched, base - 4) <= localDay - 3 && localDay + 3 <= ResetDay(period, sched, base + 4) by {
      if period.Monthly? {
        MonthStartsApart(base - 3, base);
        MonthStartSteps(base - 4);
        MonthStartsApart(base + 1, base + 4);
      }
    }
    assert localDay * DAY <= zone.WallClock(now) < localDay * DAY + DAY;
  }

  lemma {:induction false} DescendFinds(nth: int -> int, now: int, k: int, steps: nat)
    requires nth(k - steps) <= now
    ensures var d := Descend(nth, now, k, steps);
            k - steps <= d <= k && nth(d) <= now && (d < k ==> nth(d + 1) > now)
    decreases steps
  {
    if steps > 0 && nth(k) > now {
      DescendFinds(nth, now, k - 1, steps - 1);
    }
  }

  lemma {:induction false} AscendFinds(nth: int -> int, now: int, k: int, steps: nat)
    requires nth(k) <= now < nth(k + steps)
    ensures var a := Ascend(nth, now, k, steps);
            k <= a < k + steps && nth(a) <= now < nth(a + 1)
    decreases steps
  {
    if steps > 0 && nth(k + 1) <= now {
      AscendFinds(nth, now, k + 1, steps - 1);
    }
  }

  /** The k that the two loops end on. */
  function Found(period: Period, sched: ResetSchedule, minute: int, zone: Zone, now: int): int
    requires Scheduled(period)
  {
    var nth := NthFrom(period, sched, minute, zone, now);
    Ascend(nth, now, Descend(nth, now, 0, 4), 4)
  }

  /** The bounded search ends on consecutive resets around now: the fallback is unreachable. */
  lemma SearchSucceeds(period: Period, sched: ResetSchedule, minute: int, zone: Zone, now: int)
    requires Scheduled(period) && Bounded(zone) && 0 <= minute < 24 * 60
    ensures var nth, k := NthFrom(period, sched, minute, zone, now), Found(period, sched, minute, zone, now);
            nth(k) <= now < nth(k + 1)
  {
    hide NthFrom, Reset, Base, Descend;
    var nth := NthFrom(period, sched, minute, zone, now);
    ResetsEnclose(period, sched, minute, zone, now);
    NthIsReset(period, sched, minute, zone, now, -4);
    NthIsReset(period, sched, minute, zone, now, 4);
    DescendFinds(nth, now, 0, 4);
    var d := Descend(nth, now, 0, 4);
    if d == 0 {
      AscendFinds(nth, now, 0, 4);
    }
  }
}
