/**
 Transitional Windows: a schedule change keeps the start of the running window and ends that window
 at the first reset of the new schedule.
 */
module Pins {
  import opened Wrappers
  import opened Schedule
  import opened Windows
  import opened WindowTheorems

  datatype Pin = Pin(start: int, until: int)

  /** A key's effective schedule (None = the default windows) and its Transitional Windows. */
  datatype ResetRule = ResetRule(schedule: Option<ResetSchedule>, pins: map<Period, Pin>)

  /** The quota window at now: an active pin wins over the schedule. */
  function CalcQuotaWindow(tz: TzDb, period: Period, rule: ResetRule, now: int): Window {
    if period in rule.pins && rule.pins[period].start <= now < rule.pins[period].until then
      Window(rule.pins[period].start, rule.pins[period].until)
    else ScheduleWindow(tz, period, rule.schedule, now)
  }

  predicate Moves(tz: TzDb, period: Period, oldRule: ResetRule, newSchedule: Option<ResetSchedule>, now: int) {
    CalcQuotaWindow(tz, period, oldRule, now).start != ScheduleWindow(tz, period, newSchedule, now).start
  }

  function PinFor(tz: TzDb, period: Period, oldRule: ResetRule, newSchedule: Option<ResetSchedule>, now: int): Pin {
    Pin(CalcQuotaWindow(tz, period, oldRule, now).start, ScheduleWindow(tz, period, newSchedule, now).reset)
  }

  /** The pins a change of schedule needs: one for each period whose window start would move. */
  ghost function PinsFor(tz: TzDb, oldRule: ResetRule, newSchedule: Option<ResetSchedule>, now: int): map<Period, Pin> {
    map period | period in SCHEDULED && Moves(tz, period, oldRule, newSchedule, now)
      :: PinFor(tz, period, oldRule, newSchedule, now)
  }

  method PinsForChange(tz: TzDb, oldRule: ResetRule, newSchedule: Option<ResetSchedule>, now: int)
    returns (pins: map<Period, Pin>)
    ensures pins == PinsFor(tz, oldRule, newSchedule, now)
  {
    pins := map[];
    for i := 0 to |SCHEDULED|
      invariant forall period :: period in pins <==> period in SCHEDULED[..i] && Moves(tz, period, oldRule, newSchedule, now)
      invariant forall period :: period in pins ==> pins[period] == PinFor(tz, period, oldRule, newSchedule, now)
    {
      var period := SCHEDULED[i];
      var moves, pin := PeriodPin(tz, period, oldRule, newSchedule, now);
      if moves {
        pins := pins[period := pin];
      }
      assert SCHEDULED[..i + 1] == SCHEDULED[..i] + [period];
    }
    assert SCHEDULED[..|SCHEDULED|] == SCHEDULED;
  }

  method PeriodPin(tz: TzDb, period: Period, oldRule: ResetRule, newSchedule: Option<ResetSchedule>, now: int)
    returns (moves: bool, pin: Pin)
    ensures moves == Moves(tz, period, oldRule, newSchedule, now)
    ensures pin == PinFor(tz, period, oldRule, newSchedule, now)
  {
    var running := CalcQuotaWindow(tz, period, oldRule, now);
    var next, _ := FindScheduleWindow(tz, period, newSchedule, now);
    return running.start != next.start, Pin(running.start, next.reset);
  }

  /** A change to an equal schedule keeps the stored pins as they are. */
  ghost function PinsAfterChange(tz: TzDb, oldEff: Option<ResetSchedule>, newEff: Option<ResetSchedule>,
                                 oldPins: map<Period, Pin>, now: int): map<Period, Pin>
  {
    if oldEff == newEff then oldPins else PinsFor(tz, ResetRule(oldEff, oldPins), newEff, now)
  }

  /** Stored pins without the ones that end before they start. */
  function ParsePins(stored: map<Period, Pin>): (pins: map<Period, Pin>) {
    map period | period in stored && stored[period].start < stored[period].until :: stored[period]
  }

  /** The rule of a key after its effective schedule changes. */
  ghost function ChangeSchedule(tz: TzDb, rule: ResetRule, newEff: Option<ResetSchedule>, now: int): ResetRule {
    ResetRule(newEff, PinsAfterChange(tz, rule.schedule, newEff, rule.pins, now))
  }

  /** What every rule in use satisfies: its pins are for periods that reset, they have begun, and each
      ends on a reset of the rule's schedule. */
  ghost predicate Settled(tz: TzDb, rule: ResetRule, now: int) {
    forall period :: period in rule.pins ==>
      && Scheduled(period)
      && rule.pins[period].start <= now
      && rule.pins[period].start < rule.pins[period].until
      && ScheduleWindow(tz, period, rule.schedule, rule.pins[period].until).start == rule.pins[period].until
  }

  lemma SettledWindowContainsNow(tz: TzDb, period: Period, rule: ResetRule, now: int)
    requires Scheduled(period)
    ensures ValidWindow(CalcQuotaWindow(tz, period, rule, now), now)
  {
    WindowContainsNow(tz, period, rule.schedule, now);
  }

  /** Changing the schedule keeps the start of the running window, for every period; the window then
      ends at the first reset of the new schedule, unless the schedule did not change at all. */
  lemma ChangeKeepsStart(tz: TzDb, period: Period, rule: ResetRule, newEff: Option<ResetSchedule>, now: int)
    requires Settled(tz, rule, now)
    ensures var before, after := CalcQuotaWindow(tz, period, rule, now),
                                 CalcQuotaWindow(tz, period, ChangeSchedule(tz, rule, newEff, now), now);
            && after.start == before.start
            && after.reset == if newEff == rule.schedule then before.reset
                              else ScheduleWindow(tz, period, newEff, now).reset
  {
    if Scheduled(period) {
      SettledWindowContainsNow(tz, period, rule, now);
      WindowContainsNow(tz, period, newEff, now);
    }
  }

  lemma ChangeStaysSettled(tz: TzDb, rule: ResetRule, newEff: Option<ResetSchedule>, now: int)
    requires Regular(tz) && Settled(tz, rule, now)
    ensures Settled(tz, ChangeSchedule(tz, rule, newEff, now), now)
  {
    var pins := PinsAfterChange(tz, rule.schedule, newEff, rule.pins, now);
    if newEff != rule.schedule {
      forall period | period in pins
        ensures Scheduled(period)
        ensures pins[period].start <= now < pins[period].until
        ensures ScheduleWindow(tz, period, newEff, pins[period].until).start == pins[period].until
      {
        SettledWindowContainsNow(tz, period, rule, now);
        WindowContainsNow(tz, period, newEff, now);
        WindowsTile(tz, period, newEff, now, now);
      }
    }
  }

  /** While time passes, the window stays the same until its announced reset and the next one starts
      exactly there. */
  lemma TimeKeepsWindows(tz: TzDb, period: Period, rule: ResetRule, now: int, t: int)
    requires Regular(tz) && Settled(tz, rule, now) && now <= t && Scheduled(period)
    ensures var w, v := CalcQuotaWindow(tz, period, rule, now), CalcQuotaWindow(tz, period, rule, t);
            && (if t < w.reset then v == w else w.reset <= v.start)
            && CalcQuotaWindow(tz, period, rule, w.reset).start == w.reset
  {
    WindowContainsNow(tz, period, rule.schedule, now);
    if period in rule.pins && now < rule.pins[period].until {
      var until := rule.pins[period].until;
      if until <= t {
        WindowContainsNow(tz, period, rule.schedule, until);
        WindowsAdvance(tz, period, rule.schedule, until, t);
      }
    } else {
      WindowsAdvance(tz, period, rule.schedule, now, t);
      WindowsTile(tz, period, rule.schedule, now, now);
    }
  }

  /** Repeated changes inside a Transitional Window keep its original start and move only its end. */
  lemma SecondChangeKeepsOriginalStart(tz: TzDb, period: Period, rule: ResetRule, first: Option<ResetSchedule>,
                                       second: Option<ResetSchedule>, now: int, later: int)
    requires Regular(tz) && Settled(tz, rule, now) && Scheduled(period)
    requires now <= later < CalcQuotaWindow(tz, period, ChangeSchedule(tz, rule, first, now), now).reset
    ensures var once := ChangeSchedule(tz, rule, first, now);
            var twice := ChangeSchedule(tz, once, second, later);
            CalcQuotaWindow(tz, period, twice, later).start == CalcQuotaWindow(tz, period, rule, now).start
  {
    var once := ChangeSchedule(tz, rule, first, now);
    ChangeKeepsStart(tz, period, rule, first, now);
    ChangeStaysSettled(tz, rule, first, now);
    TimeKeepsWindows(tz, period, once, now, later);
    ChangeKeepsStart(tz, period, once, second, later);
  }

  predicate ActiveAt(pin: Pin, t: int) {
    pin.start <= t < pin.until
  }

  /** Reading pins back drops exactly those that are active at no instant, and so changes no window. */
  lemma ParsedPinsExactly(tz: TzDb, stored: map<Period, Pin>, schedule: Option<ResetSchedule>, period: Period, now: int)
    ensures period in ParsePins(stored) <==> period in stored && exists t :: ActiveAt(stored[period], t)
    ensures period in ParsePins(stored) ==> ParsePins(stored)[period] == stored[period]
    ensures CalcQuotaWindow(tz, period, ResetRule(schedule, ParsePins(stored)), now)
         == CalcQuotaWindow(tz, period, ResetRule(schedule, stored), now)
  {
    if period in stored && stored[period].start < stored[period].until {
      assert ActiveAt(stored[period], stored[period].start);
    }
  }
}
