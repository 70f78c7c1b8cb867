/**
 The windows of a schedule tile the time line.
 */
module WindowTheorems {
  import opened Civil
  import opened Wrappers
  import opened Schedule
  import opened Windows

  const UTC: Zone := Zone(_ => 0, _ => 0)

  const MONDAY_MIDNIGHT: ResetSchedule := ResetSchedule("UTC", "00:00", 1, 1)

  predicate Usable(tz: TzDb, sched: Option<ResetSchedule>) {
    Load(tz, sched).Some? && ParseClock(sched.value.clock).Some?
  }

  /** The reset instants of a schedule, numbered by day, week or month. An unusable schedule resets
      at UTC midnight, on Monday and on the 1st. */
  function Grid(tz: TzDb, period: Period, sched: Option<ResetSchedule>): int -> int
    requires Scheduled(period)
  {
    if Usable(tz, sched) then
      j => Reset(period, sched.value, ParseClock(sched.value.clock).value, Load(tz, sched).value, j)
    else j => Reset(period, MONDAY_MIDNIGHT, 0, UTC, j)
  }

  ghost predicate Ordered(g: int -> int) {
    forall i, j :: i <= j ==> g(i) <= g(j)
  }

  ghost predicate Crosses(g: int -> int, j: int, now: int) {
    g(j) <= now < g(j + 1)
  }

  lemma CrossingUnique(g: int -> int, i: int, j: int, now: int)
    requires Ordered(g) && Crosses(g, i, now) && Crosses(g, j, now)
    ensures i == j
  {
    assert i < j ==> g(i + 1) <= g(j);
    assert j < i ==> g(j + 1) <= g(i);
  }

  lemma GridOrdered(tz: TzDb, period: Period, sched: Option<ResetSchedule>)
    requires Regular(tz) && Scheduled(period)
    ensures Ordered(Grid(tz, period, sched))
  {
    forall i: int, j: int | i <= j
      ensures Grid(tz, period, sched)(i) <= Grid(tz, period, sched)(j)
    {
      if Usable(tz, sched) {
        ResetsOrdered(period, sched.value, ParseClock(sched.value.clock).value, Load(tz, sched).value, i, j);
      } else {
        ResetsOrdered(period, MONDAY_MIDNIGHT, 0, UTC, i, j);
      }
    }
  }

  /** The default windows are the windows of the UTC grid. */
  lemma DefaultOnGrid(period: Period, now: int)
    requires Scheduled(period)
    ensures var j := Base(period, UtcDay(now));
            var w := DefaultWindow(period, now);
            && w == Window(Reset(period, MONDAY_MIDNIGHT, 0, UTC, j), Reset(period, MONDAY_MIDNIGHT, 0, UTC, j + 1))
            && ValidWindow(w, now)
  {
    var day := UtcDay(now);
    match period
    case Daily =>
      DailyDay(day, 0);
      DailyDay(day, 1);
    case Weekly =>
      WeekdayOfBase(day);
      DailyDay(day, -((if Weekday(day) == 0 then 7 else Weekday(day)) - 1));
    case Monthly =>
      FirstOfMonth(day, 0);
      FirstOfMonth(day, 1);
  }

  lemma UsableOnGrid(tz: TzDb, period: Period, sched: Option<ResetSchedule>, now: int) returns (j: int)
    requires Scheduled(period) && Usable(tz, sched) && Bounded(Load(tz, sched).value)
    ensures var g := Grid(tz, period, sched);
            Crosses(g, j, now) && ScheduleWindow(tz, period, sched, now) == Window(g(j), g(j + 1))
  {
    hide ParseClock, DefaultWindow, NameAllowed, Ascend, Descend, NthFrom, Reset, Base, Bounded;
    var zone, minute := Load(tz, sched).value, ParseClock(sched.value.clock).value;
    var k := Found(period, sched.value, minute, zone, now);
    SearchSucceeds(period, sched.value, minute, zone, now);
    NthIsReset(period, sched.value, minute, zone, now, k);
    NthIsReset(period, sched.value, minute, zone, now, k + 1);
    j := Base(period, zone.WallClock(now) / DAY) + k;
  }

  lemma UnusableOnGrid(tz: TzDb, period: Period, sched: Option<ResetSchedule>, now: int) returns (j: int)
    requires Scheduled(period) && !Usable(tz, sched)
    ensures ScheduleWindow(tz, period, sched, now) == DefaultWindow(period, now)
    ensures var g := Grid(tz, period, sched);
            Crosses(g, j, now) && DefaultWindow(period, now) == Window(g(j), g(j + 1))
  {
    j := Base(period, UtcDay(now));
    assert ScheduleWindow(tz, period, sched, now) == DefaultWindow(period, now);
    DefaultOnGrid(period, now);
  }

  lemma OnGrid(tz: TzDb, period: Period, sched: Option<ResetSchedule>, now: int) returns (j: int)
    requires Regular(tz) && Scheduled(period)
    ensures var g := Grid(tz, period, sched);
            Crosses(g, j, now) && ScheduleWindow(tz, period, sched, now) == Window(g(j), g(j + 1))
  {
    hide Grid, ScheduleWindow, DefaultWindow, ParseClock;
    if Usable(tz, sched) {
      j := UsableOnGrid(tz, period, sched, now);
    } else {
      j := UnusableOnGrid(tz, period, sched, now);
    }
  }

  /** The window at now is a pair of consecutive resets around now, and the only such pair. */
  lemma WindowIsTheCrossing(tz: TzDb, period: Period, sched: Option<ResetSchedule>, now: int)
    requires Regular(tz) && Scheduled(period)
    ensures exists j :: Crosses(Grid(tz, period, sched), j, now)
    ensures forall j :: Crosses(Grid(tz, period, sched), j, now) ==>
              ScheduleWindow(tz, period, sched, now) == Window(Grid(tz, period, sched)(j), Grid(tz, period, sched)(j + 1))
  {
    var g := Grid(tz, period, sched);
    GridOrdered(tz, period, sched);
    var k := OnGrid(tz, period, sched, now);
    forall j | Crosses(g, j, now) ensures j == k {
      CrossingUnique(g, j, k, now);
    }
  }

  /** The window at now is the window of each of its instants, and the window at its reset starts there. */
  ghost predicate TilesAt(tz: TzDb, period: Period, sched: Option<ResetSchedule>, now: int, t: int) {
    var w := ScheduleWindow(tz, period, sched, now);
    && (w.start <= t < w.reset ==> ScheduleWindow(tz, period, sched, t) == w)
    && ScheduleWindow(tz, period, sched, w.reset).start == w.reset
  }

  /** The windows tile: every instant of a window gets that window, whatever its local date, and
      the window at its reset starts exactly there. */
  lemma WindowsTile(tz: TzDb, period: Period, sched: Option<ResetSchedule>, now: int, t: int)
    requires Regular(tz) && Scheduled(period)
    ensures TilesAt(tz, period, sched, now, t)
  {
    var g := Grid(tz, period, sched);
    GridOrdered(tz, period, sched);
    var j := OnGrid(tz, period, sched, now);
    var i := OnGrid(tz, period, sched, t);
    if g(j) <= t < g(j + 1) {
      CrossingUnique(g, i, j, t);
    }
    var k := OnGrid(tz, period, sched, g(j + 1));
    assert k <= j ==> g(k + 1) <= g(j + 1);
    assert j < k ==> g(j + 1) <= g(k);
  }

  /** Later instants never get an earlier window: it is the same one, or one that starts at or after
      the reset announced before. */
  lemma WindowsAdvance(tz: TzDb, period: Period, sched: Option<ResetSchedule>, now: int, t: int)
    requires Regular(tz) && Scheduled(period) && now <= t
    ensures var w := ScheduleWindow(tz, period, sched, now);
            var v := ScheduleWindow(tz, period, sched, t);
            if t < w.reset then v == w else w.reset <= v.start
  {
    var g := Grid(tz, period, sched);
    GridOrdered(tz, period, sched);
    var j := OnGrid(tz, period, sched, now);
    var k := OnGrid(tz, period, sched, t);
    if t < g(j + 1) {
      CrossingUnique(g, j, k, t);
    }
    assert k <= j ==> g(k + 1) <= g(j + 1);
    assert j < k ==> g(j + 1) <= g(k);
  }

  /** Every window contains now, in any zone at all: a failed search falls back to the default. */
  lemma WindowContainsNow(tz: TzDb, period: Period, sched: Option<ResetSchedule>, now: int)
    requires Scheduled(period)
    ensures ValidWindow(ScheduleWindow(tz, period, sched, now), now)
  {
    DefaultOnGrid(period, now);
  }

  /** The periods without resets: all time since the epoch counts. The total ends with the last second of the
      year 9999; any other word names a window that is over at once. */
  lemma UnscheduledWindow(tz: TzDb, period: Period, sched: Option<ResetSchedule>, now: int)
    requires !Scheduled(period)
    ensures var w := ScheduleWindow(tz, period, sched, now);
            && w.start == 0
            && w.reset == if period.Total? then DayNumber(9999, 12, 31) * DAY + 23 * HOUR + 59 * 60 + 59 else now
  {
    KnownDays();
    hide DayNumber, ToDate, NthFrom;
  }

  /** What the settings form accepts, window math can use; it only asks for a weekday and a day besides. */
  lemma ValidIsUsable(tz: TzDb, sched: ResetSchedule)
    ensures Validate(tz, sched) <==> Usable(tz, Some(sched)) && 1 <= sched.weekday <= 7 && 1 <= sched.day <= 31
    ensures Validate(tz, sched) ==> Load(tz, Some(sched)) == tz(sched.timezone)
  {
  }

  /** A zone without a name, the machine's own and one with a name of over 64 characters are refused and give
      the default windows, whatever the zone database says of them; any other is the database's. */
  lemma RefusedZones(tz: TzDb, period: Period, sched: ResetSchedule, now: int)
    ensures if sched.timezone in {"", "Local"} || |sched.timezone| > 64
            then !Validate(tz, sched) && ScheduleWindow(tz, period, Some(sched), now) == DefaultWindow(period, now)
            else Load(tz, Some(sched)) == tz(sched.timezone)
  {
    hide DefaultWindow, NthFrom;
  }

  lemma UtcGrid(tz: TzDb, period: Period)
    requires Scheduled(period) && tz("UTC") == Some(UTC)
    ensures forall j :: Grid(tz, period, Some(MONDAY_MIDNIGHT))(j) == Grid(tz, period, None)(j)
  {
    assert ParseClock("00:00") == Some(0);
  }

  /** Two schedules with the same resets have the same windows. */
  lemma WindowsOnOneGridAgree(tz: TzDb, period: Period, a: Option<ResetSchedule>, b: Option<ResetSchedule>, now: int)
    requires Regular(tz) && Scheduled(period)
    requires forall j :: Grid(tz, period, a)(j) == Grid(tz, period, b)(j)
    ensures ScheduleWindow(tz, period, a, now) == ScheduleWindow(tz, period, b, now)
  {
    hide Grid, ScheduleWindow;
    var i := OnGrid(tz, period, a, now);
    var j := OnGrid(tz, period, b, now);
    GridOrdered(tz, period, a);
    CrossingUnique(Grid(tz, period, a), i, j, now);
  }

  /** Midnight UTC on Monday the 1st is exactly the default, for every period. */
  lemma UtcScheduleIsDefault(tz: TzDb, period: Period, now: int)
    requires Regular(tz) && tz("UTC") == Some(UTC)
    ensures ScheduleWindow(tz, period, Some(MONDAY_MIDNIGHT), now) == DefaultWindow(period, now)
  {
    if Scheduled(period) {
      UtcGrid(tz, period);
      WindowsOnOneGridAgree(tz, period, Some(MONDAY_MIDNIGHT), None, now);
      assert ScheduleWindow(tz, period, None, now) == DefaultWindow(period, now);
    }
  }

  /** In a zone with a fixed offset a day is 24 hours, a week seven days, and a month 28 to 31 days
      for every reset day, short months included. */
  lemma FixedOffsetLengths(tz: TzDb, period: Period, sched: Option<ResetSchedule>, now: int, offset: int)
    requires Regular(tz) && Scheduled(period)
    requires Usable(tz, sched) ==> forall civil :: Load(tz, sched).value.civilOffset(civil) == offset
    ensures var w := ScheduleWindow(tz, period, sched, now);
            match period
            case Daily => w.reset - w.start == DAY
            case Weekly => w.reset - w.start == 7 * DAY
            case _ => 28 * DAY <= w.reset - w.start <= 31 * DAY
  {
    var j := OnGrid(tz, period, sched, now);
    ResetDayStep(period, if Usable(tz, sched) then sched.value else MONDAY_MIDNIGHT, j);
  }

  /** The local days on which a schedule resets: every day, its weekday, or its day of the month, the
      last one in a shorter month. */
  predicate OnSchedule(period: Period, sched: ResetSchedule, day: int)
    requires Scheduled(period)
  {
    match period
    case Daily => true
    case Weekly => Weekday(day) == sched.weekday % 7
    case _ => ToDate(day).day == if sched.day < MonthLength(MonthOf(day)) then sched.day else MonthLength(MonthOf(day))
  }

  /** The numbered resets fall on the days of the schedule, and on all of them. */
  lemma ResetDaysAreScheduleDays(period: Period, sched: ResetSchedule, day: int)
    requires Scheduled(period) && 1 <= sched.weekday <= 7 && 1 <= sched.day <= 31
    ensures OnSchedule(period, sched, day) <==> ResetDay(period, sched, Base(period, day)) == day
    ensures forall j :: ResetDay(period, sched, j) == day ==> j == Base(period, day)
  {
    if period.Monthly? {
      forall j | ResetDay(period, sched, j) == day ensures j == MonthOf(day) {
        MonthStartSteps(j);
        MonthOfUnique(day, j);
      }
    }
  }

  /** The instant at which a schedule's time of day strikes on a local day. */
  function Strike(zone: Zone, minute: int, day: int): int {
    zone.Instant(day * DAY + 60 * minute)
  }

  /** A window starts and ends when the schedule's time of day strikes on days of the schedule, and it
      strikes on no such day in between. */
  lemma WindowEdges(tz: TzDb, period: Period, sched: ResetSchedule, now: int) returns (first: int, last: int)
    requires Regular(tz) && Scheduled(period) && Validate(tz, sched)
    ensures first < last && OnSchedule(period, sched, first) && OnSchedule(period, sched, last)
    ensures var zone, minute := tz(sched.timezone).value, ParseClock(sched.clock).value;
            ScheduleWindow(tz, period, Some(sched), now) == Window(Strike(zone, minute, first), Strike(zone, minute, last))
    ensures forall day :: first < day < last ==> !OnSchedule(period, sched, day)
  {
    hide OnSchedule, ResetDay, ScheduleWindow, Regular, ParseClock, Base;
    var j := OnGrid(tz, period, Some(sched), now);
    first, last := ResetDay(period, sched, j), ResetDay(period, sched, j + 1);
    GridStrikes(tz, period, sched, j);
    GridStrikes(tz, period, sched, j + 1);
    hide Grid, Strike, Validate;
    ResetDayStep(period, sched, j);
    EdgeDays(period, sched, j);
  }

  lemma GridStrikes(tz: TzDb, period: Period, sched: ResetSchedule, j: int)
    requires Scheduled(period) && Validate(tz, sched)
    ensures Grid(tz, period, Some(sched))(j) == Strike(tz(sched.timezone).value, ParseClock(sched.clock).value, ResetDay(period, sched, j))
  {
    hide ResetDay, ParseClock;
  }

  /** Consecutive resets fall on days of the schedule with none in between. */
  lemma EdgeDays(period: Period, sched: ResetSchedule, j: int)
    requires Scheduled(period) && 1 <= sched.weekday <= 7 && 1 <= sched.day <= 31
    ensures OnSchedule(period, sched, ResetDay(period, sched, j)) && OnSchedule(period, sched, ResetDay(period, sched, j + 1))
    ensures forall day :: ResetDay(period, sched, j) < day < ResetDay(period, sched, j + 1) ==> !OnSchedule(period, sched, day)
  {
    hide OnSchedule, ResetDay, Base;
    var first, last := ResetDay(period, sched, j), ResetDay(period, sched, j + 1);
    ResetDaysAreScheduleDays(period, sched, first);
    ResetDaysAreScheduleDays(period, sched, last);
    forall day | first < day < last ensures !OnSchedule(period, sched, day) {
      ResetDaysAreScheduleDays(period, sched, day);
      if OnSchedule(period, sched, day) {
        BetweenResets(period, sched, j, Base(period, day));
      }
    }
  }

  lemma {:induction false} DaysOrdered(period: Period, sched: ResetSchedule, i: int, j: int)
    requires Scheduled(period) && i <= j
    ensures ResetDay(period, sched, i) + (j - i) <= ResetDay(period, sched, j)
    decreases j - i
  {
    if i < j {
      DaysOrdered(period, sched, i, j - 1);
      ResetDayStep(period, sched, j - 1);
    }
  }

  lemma BetweenResets(period: Period, sched: ResetSchedule, j: int, k: int)
    requires Scheduled(period)
    ensures !(ResetDay(period, sched, j) < ResetDay(period, sched, k) < ResetDay(period, sched, j + 1))
  {
    if k <= j {
      DaysOrdered(period, sched, k, j);
    } else {
      DaysOrdered(period, sched, j + 1, k);
    }
  }

  // How far the tiling reaches: exactly as long as no reset comes before the previous one.

  ghost predicate NeverBackward(g: int -> int) {
    forall j :: g(j) <= g(j + 1)
  }

  lemma {:induction false} ForwardFrom(g: int -> int, i: int, j: int)
    requires NeverBackward(g) && i <= j
    ensures g(i) <= g(j)
    decreases j - i
  {
    if i < j {
      ForwardFrom(g, i, j - 1);
      assert g(j - 1) <= g(j - 1 + 1);
    }
  }

  lemma ForwardIsOrdered(g: int -> int)
    requires NeverBackward(g)
    ensures Ordered(g)
  {
    forall i: int, j: int | i <= j ensures g(i) <= g(j) {
      ForwardFrom(g, i, j);
    }
  }

  /** Ordered resets are all that tiling needs of a zone. */
  lemma OrderedTiles(tz: TzDb, period: Period, sched: Option<ResetSchedule>, now: int, t: int)
    requires Scheduled(period) && Usable(tz, sched) && Bounded(Load(tz, sched).value)
    requires Ordered(Grid(tz, period, sched))
    ensures TilesAt(tz, period, sched, now, t)
  {
    hide Usable, Bounded, ScheduleWindow;
    var g := Grid(tz, period, sched);
    var j := UsableOnGrid(tz, period, sched, now);
    var i := UsableOnGrid(tz, period, sched, t);
    var k := UsableOnGrid(tz, period, sched, g(j + 1));
    hide Grid;
    if g(j) <= t < g(j + 1) {
      CrossingUnique(g, i, j, t);
    }
    assert k <= j ==> g(k + 1) <= g(j + 1);
    assert j < k ==> g(j + 1) <= g(k);
  }

  lemma DaysApart(tz: TzDb, sched: Option<ResetSchedule>, i: int, j: int)
    requires Usable(tz, sched) && Bounded(Load(tz, sched).value) && i + 2 <= j
    ensures Grid(tz, Daily, sched)(i) < Grid(tz, Daily, sched)(j)
  {
  }

  /** Where a daily reset comes before the previous one, the second before it lies in a window whose
      reset no window starts at. */
  lemma BackwardBreaks(tz: TzDb, sched: Option<ResetSchedule>, j: int)
    requires Usable(tz, sched) && Bounded(Load(tz, sched).value)
    requires Grid(tz, Daily, sched)(j) > Grid(tz, Daily, sched)(j + 1)
    ensures var now := Grid(tz, Daily, sched)(j + 1) - 1;
            var w := ScheduleWindow(tz, Daily, sched, now);
            && w == Window(Grid(tz, Daily, sched)(j - 1), Grid(tz, Daily, sched)(j))
            && ScheduleWindow(tz, Daily, sched, w.reset).start != w.reset
            && !TilesAt(tz, Daily, sched, now, now)
  {
    hide Usable, Bounded, ScheduleWindow;
    var g := Grid(tz, Daily, sched);
    var i := UsableOnGrid(tz, Daily, sched, g(j + 1) - 1);
    var m := UsableOnGrid(tz, Daily, sched, g(j));
    forall a: int, b: int | a + 2 <= b ensures g(a) < g(b) {
      DaysApart(tz, sched, a, b);
    }
    hide Grid;
    assert i == j - 1 by {
      assert i + 1 <= j - 1 ==> g(i + 1) < g(j + 1);
      assert i >= j + 2 ==> g(j) < g(i);
    }
    assert g(m) != g(j) by {
      assert g(j - 1) < g(j + 1);
      assert m >= j + 2 ==> g(j) < g(m);
      assert m + 2 <= j ==> g(m) < g(j);
      assert m == j ==> g(m + 1) < g(j);
    }
  }

  /** Daily windows tile the time line exactly when the schedule's resets never run backward, in every
      zone with offsets of less than a day. */
  lemma DailyTilingExactly(tz: TzDb, sched: Option<ResetSchedule>)
    requires Usable(tz, sched) && Bounded(Load(tz, sched).value)
    ensures (forall now, t :: TilesAt(tz, Daily, sched, now, t)) <==> NeverBackward(Grid(tz, Daily, sched))
  {
    var g := Grid(tz, Daily, sched);
    if NeverBackward(g) {
      ForwardIsOrdered(g);
      forall now, t ensures TilesAt(tz, Daily, sched, now, t) {
        OrderedTiles(tz, Daily, sched, now, t);
      }
    } else {
      var j :| g(j) > g(j + 1);
      BackwardBreaks(tz, sched, j);
    }
  }

  lemma LongPeriodsForward(tz: TzDb, period: Period, sched: Option<ResetSchedule>)
    requires period.Weekly? || period.Monthly?
    requires Usable(tz, sched) && Bounded(Load(tz, sched).value)
    ensures NeverBackward(Grid(tz, period, sched))
  {
    forall j: int ensures Grid(tz, period, sched)(j) <= Grid(tz, period, sched)(j + 1) {
      ResetDayStep(period, sched.value, j);
    }
  }

  /** Weekly and monthly windows tile the time line in every zone with offsets of less than a day, however
      far its clock jumps. */
  lemma LongPeriodsTile(tz: TzDb, period: Period, sched: Option<ResetSchedule>, now: int, t: int)
    requires period.Weekly? || period.Monthly?
    requires Usable(tz, sched) && Bounded(Load(tz, sched).value)
    ensures TilesAt(tz, period, sched, now, t)
  {
    LongPeriodsForward(tz, period, sched);
    ForwardIsOrdered(Grid(tz, period, sched));
    OrderedTiles(tz, period, sched, now, t);
  }

  /** A zone whose clock goes from 12 hours behind UTC to 13 hours ahead of it at the epoch. */
  const LONG_JUMP: Zone := Zone(t => if t < 0 then -12 * HOUR else 13 * HOUR, civil => if civil < HOUR then -12 * HOUR else 13 * HOUR)

  /** It breaks the tiling of midnight resets: the window at 05:00 announces its reset for 12:00, and the
      window at 12:00 started an hour before. Every instant's wall-clock time names that instant. */
  lemma LongJumpBreaksTiling(tz: TzDb, sched: Option<ResetSchedule>)
    requires Load(tz, sched) == Some(LONG_JUMP) && ParseClock(sched.value.clock) == Some(0)
    ensures Bounded(LONG_JUMP) && forall t :: LONG_JUMP.Instant(LONG_JUMP.WallClock(t)) == t
    ensures ScheduleWindow(tz, Daily, sched, 5 * HOUR) == Window(-12 * HOUR, 12 * HOUR)
    ensures ScheduleWindow(tz, Daily, sched, 12 * HOUR) == Window(11 * HOUR, 35 * HOUR)
    ensures !TilesAt(tz, Daily, sched, 5 * HOUR, 5 * HOUR)
  {
    var g := Grid(tz, Daily, sched);
    assert g(-1) == -12 * HOUR && g(0) == 12 * HOUR && g(1) == 11 * HOUR && g(2) == 35 * HOUR;
    var before := UsableOnGrid(tz, Daily, sched, 5 * HOUR);
    var after := UsableOnGrid(tz, Daily, sched, 12 * HOUR);
    forall a: int, b: int | a + 2 <= b ensures g(a) < g(b) {
      DaysApart(tz, sched, a, b);
    }
    hide Grid, ScheduleWindow;
    assert before == -1 by {
      assert before >= 2 ==> g(0) < g(before);
      assert before + 1 <= -1 ==> g(before + 1) < g(1);
    }
    assert after == 1 by {
      assert after >= 2 ==> g(0) < g(after);
      assert after + 1 <= -1 ==> g(after + 1) < g(1);
    }
  }
}
