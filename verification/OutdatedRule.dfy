/**
 Where the soft gate leaks: a request validated before a schedule edit and checked after the reset that was
 announced then is checked against the wrong window.
 */
module OutdatedRule {
  import opened Wrappers
  import opened Civil
  import opened Schedule
  import opened Text
  import opened Windows
  import opened WindowTheorems
  import opened Pins
  import opened KeyTable
  import QuotaRun

  const CLOCKS: TzDb := name => if name == "UTC" then Some(UTC) else None

  const NOON: ResetSchedule := ResetSchedule("UTC", "12:00", 1, 1)

  const ROW: Row := Row("raw", "Agent Key", true, Access("all", [], []), Limits(0, Other("none"), PerModel), Empty, map[])
  const QUOTAS: map<string, ModelQuota> := map["m" := ModelQuota(10, Daily)]
  const BEFORE: Table := Table(map["key" := ROW], map["key" := QUOTAS], None)

  /** At 23:00 the key gets a schedule of its own. */
  const EDIT: Op := Update("key", KeyUpdate("Agent Key", Access("all", [], []), None, None, None, None, Some(Set(Some(NOON)))))

  const LIMIT: QuotaRun.Quota := QuotaRun.Quota(Daily, 10, Some("m"))

  const LATE: int := DAY + 10

  ghost function Edited(): Table {
    Apply(CLOCKS, BEFORE, EDIT, 23 * HOUR)
  }

  lemma Clocks()
    ensures Regular(CLOCKS) && CaseMapping(AsciiLower)
  {
  }

  lemma DefaultDay(now: int, day: int)
    requires day * DAY <= now < (day + 1) * DAY
    ensures ScheduleWindow(CLOCKS, Daily, None, now) == Window(day * DAY, (day + 1) * DAY)
  {
    DefaultOnGrid(Daily, now);
    assert now / DAY == day;
  }

  lemma NoonWindow()
    ensures Validate(CLOCKS, NOON) && ScheduleWindow(CLOCKS, Daily, Some(NOON), 23 * HOUR) == Window(12 * HOUR, 36 * HOUR)
  {
    assert ParseClock("12:00") == Some(720);
    var j := UsableOnGrid(CLOCKS, Daily, Some(NOON), 23 * HOUR);
    assert j == 0;
  }

  const OLD_RULE: ResetRule := ResetRule(None, map[])

  lemma OldRule()
    ensures RuleOf(CLOCKS, ROW, None) == OLD_RULE && Settled(CLOCKS, OLD_RULE, HOUR)
  {
    assert ParsePins(map[]) == map[];
  }

  lemma OldWindow(now: int, day: int)
    requires day * DAY <= now < (day + 1) * DAY
    ensures CalcQuotaWindow(CLOCKS, Daily, OLD_RULE, now) == Window(day * DAY, (day + 1) * DAY)
  {
    hide ScheduleWindow;
    DefaultDay(now, day);
  }

  /** After the edit the window of the first day runs on until noon of the second. */
  lemma WindowRunsOn()
    ensures "key" in Edited().rows
    ensures var rule := RuleOf(CLOCKS, Edited().rows["key"], Edited().global);
            CalcQuotaWindow(CLOCKS, Daily, rule, LATE) == Window(0, 36 * HOUR)
  {
    Clocks();
    NoonWindow();
    OldRule();
    OldWindow(23 * HOUR, 0);
    OperationIsScheduleChange(CLOCKS, BEFORE, EDIT, 23 * HOUR, "key");
    var rule := RuleAfter(CLOCKS, BEFORE, EDIT, 23 * HOUR, "key");
    assert rule.schedule == Some(NOON) by {
      assert EncodeSchedule(Some(NOON)) == Readable(NOON);
    }
    hide Validate, ScheduleWindow, Apply, RuleOf;
    ChangeKeepsStart(CLOCKS, Daily, OLD_RULE, Some(NOON), 23 * HOUR);
    ChangeStaysSettled(CLOCKS, OLD_RULE, Some(NOON), 23 * HOUR);
    TimeKeepsWindows(CLOCKS, Daily, rule, 23 * HOUR, LATE);
  }

  const TICKET: Ticket := Ticket(ROW, QUOTAS, OLD_RULE, HOUR)

  function Rows(count: nat): seq<LogRow> {
    var first, second := LogRow("key", QuotaRun.Entry(Some("m"), 10, HOUR)), LogRow("key", QuotaRun.Entry(Some("m"), 10, LATE));
    if count == 0 then [] else if count == 1 then [first] else [first, second]
  }

  function Tickets(count: nat): seq<Ticket> {
    seq(count, _ => TICKET)
  }

  function Models(count: nat): seq<string> {
    seq(count, _ => "m")
  }

  function Moment(table: Table, stale: Option<OldTable>, now: int, recorded: nat, waiting: nat, flying: nat): TableState {
    TableState(table, stale, now, Rows(recorded), map["key" := Tickets(waiting)], map["key" := Models(flying)])
  }

  /** Two requests are validated at 01:00 and one is served, for 10 tokens: the quota is used up. At 23:00 the
      schedule is edited. The other request is checked ten seconds after midnight. */
  const SCRIPT: seq<TableEvent> :=
    [Validates("key"), Validates("key"), Admits("key", 0, "m", Some("m")), Records("key", 0, 10), Passes(23 * HOUR),
     Does(EDIT), Reloads, Passes(LATE), Admits("key", 0, "m", Some("m")), Records("key", 0, 10)]

  ghost function Scene(i: nat): TableState {
    if i == 0 then Moment(BEFORE, None, HOUR, 0, 0, 0)
    else if i == 1 then Moment(BEFORE, None, HOUR, 0, 1, 0)
    else if i == 2 then Moment(BEFORE, None, HOUR, 0, 2, 0)
    else if i == 3 then Moment(BEFORE, None, HOUR, 0, 1, 1)
    else if i == 4 then Moment(BEFORE, None, HOUR, 1, 1, 0)
    else if i == 5 then Moment(BEFORE, None, 23 * HOUR, 1, 1, 0)
    else if i == 6 then Moment(Edited(), Some(OldTable(BEFORE, 23 * HOUR)), 23 * HOUR, 1, 1, 0)
    else if i == 7 then Moment(Edited(), None, 23 * HOUR, 1, 1, 0)
    else if i == 8 then Moment(Edited(), None, LATE, 1, 1, 0)
    else if i == 9 then Moment(Edited(), None, LATE, 1, 0, 1)
    else Moment(Edited(), None, LATE, 2, 0, 0)
  }

  ghost predicate Follows(s: TableState, e: TableEvent, s': TableState) {
    TableStep(CLOCKS, AsciiLower, s, e, s')
  }

  lemma TicketShown(s: TableState)
    requires s.table == BEFORE && s.stale.None? && s.now == HOUR
    ensures Shown(CLOCKS, s, "key") == Some(TICKET)
  {
    OldRule();
    hide RuleOf;
  }

  lemma ValidateStep(waiting: nat)
    ensures Follows(Moment(BEFORE, None, HOUR, 0, waiting, 0), Validates("key"), Moment(BEFORE, None, HOUR, 0, waiting + 1, 0))
  {
    TicketShown(Moment(BEFORE, None, HOUR, 0, waiting, 0));
    hide Shown, Rows, Models;
    assert Tickets(waiting + 1) == Tickets(waiting) + [TICKET];
    assert map["key" := Tickets(waiting)]["key" := Tickets(waiting + 1)] == map["key" := Tickets(waiting + 1)];
  }

  lemma KeyRows(recorded: nat)
    requires recorded <= 2
    ensures KeyLog(Rows(recorded), "key") == Entries(recorded)
  {
    KeyLogAppend([], Rows(2)[0], "key");
    KeyLogAppend(Rows(1), Rows(2)[1], "key");
    assert [] + [Rows(2)[0]] == Rows(1) && Rows(1) + [Rows(2)[1]] == Rows(2);
  }

  function Entries(recorded: nat): seq<QuotaRun.Entry> {
    var first, second := QuotaRun.Entry(Some("m"), 10, HOUR), QuotaRun.Entry(Some("m"), 10, LATE);
    if recorded == 0 then [] else if recorded == 1 then [first] else [first, second]
  }

  lemma EntriesUsed(recorded: nat, start: int)
    requires recorded <= 2 && (start == 0 || start == DAY)
    ensures QuotaRun.Usage(Entries(recorded), Some("m"), start) == if start == 0 then 10 * recorded else if recorded == 2 then 10 else 0
  {
    QuotaRun.OneEntry(Entries(1)[0], Some("m"), start);
    QuotaRun.UsageAppend(Entries(1), Entries(2)[1], Some("m"), start);
    assert Entries(1) + [Entries(2)[1]] == Entries(2);
  }

  lemma ServesFrom(s: TableState, start: int)
    requires QuotaRun.SeenStart(CLOCKS, Daily, SnapshotOf(TICKET), s.now) == start
    requires QuotaRun.Usage(KeyLog(s.log, "key"), Some("m"), start) < 10
    ensures Serves(CLOCKS, AsciiLower, s, "key", TICKET, "m", Some("m"))
  {
    hide KeyLog, QuotaRun.Usage, QuotaRun.SeenStart, SnapshotOf, Map, AsciiLower;
  }

  /** Under the old rule neither the first check finds anything used, nor the one after midnight. */
  lemma TicketServes(s: TableState)
    requires (s.now == HOUR && s.log == Rows(0)) || (s.now == LATE && s.log == Rows(1))
    ensures Serves(CLOCKS, AsciiLower, s, "key", TICKET, "m", Some("m"))
  {
    hide KeyLog, Entries, Rows, QuotaRun.Usage, QuotaRun.SeenStart, SnapshotOf, Serves;
    OldStart(s.now);
    KeyRows(0);
    KeyRows(1);
    EntriesUsed(0, 0);
    EntriesUsed(1, DAY);
    ServesFrom(s, if s.now == HOUR then 0 else DAY);
  }

  lemma OldStart(now: int)
    requires now == HOUR || now == LATE
    ensures QuotaRun.SeenStart(CLOCKS, Daily, SnapshotOf(TICKET), now) == if now == HOUR then 0 else DAY
  {
    hide CalcQuotaWindow;
    OldWindow(HOUR, 0);
    OldWindow(LATE, 1);
  }

  lemma AdmitStep(table: Table, now: int, recorded: nat, waiting: nat)
    requires (now == HOUR && recorded == 0) || (now == LATE && recorded == 1)
    ensures Follows(Moment(table, None, now, recorded, waiting + 1, 0), Admits("key", 0, "m", Some("m")),
                    Moment(table, None, now, recorded, waiting, 1))
  {
    hide Serves, Rows;
    TicketServes(Moment(table, None, now, recorded, waiting + 1, 0));
    assert QuotaRun.Without(Tickets(waiting + 1), 0) == Tickets(waiting) && Models(0) + ["m"] == Models(1);
    assert map["key" := Tickets(waiting + 1)]["key" := Tickets(waiting)] == map["key" := Tickets(waiting)];
    assert map["key" := Models(0)]["key" := Models(1)] == map["key" := Models(1)];
  }

  lemma RecordStep(table: Table, now: int, recorded: nat, waiting: nat)
    requires (now == HOUR && recorded == 0) || (now == LATE && recorded == 1)
    ensures Follows(Moment(table, None, now, recorded, waiting, 1), Records("key", 0, 10), Moment(table, None, now, recorded + 1, waiting, 0))
  {
    assert QuotaRun.Without(Models(1), 0) == Models(0);
    assert map["key" := Models(1)]["key" := Models(0)] == map["key" := Models(0)];
  }

  lemma EditStep()
    ensures Follows(Moment(BEFORE, None, 23 * HOUR, 1, 1, 0), Does(EDIT),
                    Moment(Edited(), Some(OldTable(BEFORE, 23 * HOUR)), 23 * HOUR, 1, 1, 0))
  {
    NoonWindow();
    hide Apply, Validate;
  }

  lemma QuietSteps(table: Table, stale: Option<OldTable>, from: int, to: int)
    requires from <= to
    ensures Follows(Moment(table, None, from, 1, 1, 0), Passes(to), Moment(table, None, to, 1, 1, 0))
    ensures Follows(Moment(table, stale, from, 1, 1, 0), Reloads, Moment(table, None, from, 1, 1, 0))
  {
  }

  lemma SceneFollows(i: nat)
    requires i < 10
    ensures Follows(Scene(i), SCRIPT[i], Scene(i + 1))
  {
    hide Follows, Moment, Edited;
    if i <= 1 {
      ValidateStep(i);
    } else if i == 2 {
      AdmitStep(BEFORE, HOUR, 0, 1);
    } else if i == 3 {
      RecordStep(BEFORE, HOUR, 0, 1);
    } else if i == 4 {
      QuietSteps(BEFORE, None, HOUR, 23 * HOUR);
    } else if i == 5 {
      EditStep();
    } else if i == 6 {
      QuietSteps(Edited(), Some(OldTable(BEFORE, 23 * HOUR)), 23 * HOUR, 23 * HOUR);
    } else if i == 7 {
      QuietSteps(Edited(), None, 23 * HOUR, LATE);
    } else if i == 8 {
      AdmitStep(Edited(), LATE, 1, 0);
    } else {
      RecordStep(Edited(), LATE, 1, 0);
    }
  }

  lemma SceneUnderQuota(i: nat)
    ensures Limited(AsciiLower, Scene(i).table, "key", LIMIT) && (i == 0 ==> UnderQuota(AsciiLower, Scene(i), "key", LIMIT))
  {
    assert Limited(AsciiLower, BEFORE, "key", LIMIT);
    assert Limited(AsciiLower, Edited(), "key", LIMIT);
    hide Edited, Limited;
  }

  lemma SceneLoad(i: nat)
    ensures QuotaRun.Load(LIMIT.model, InFlight(Scene(i), "key")) <= 1
    ensures i < 10 ==> SmallFor(Scene(i), SCRIPT[i], "key", LIMIT.model, 10)
  {
    QuotaRun.LoadOne(Some("m"), "m");
    assert Models(1) == ["m"] && Models(0) == [];
    assert InFlight(Scene(i), "key") in {Models(0), Models(1)} by {
      hide Edited, Models;
    }
    hide Edited, Scene, Models;
  }

  lemma FirstScene()
    ensures "key" in Scene(0).table.rows && KeyLog(Scene(0).log, "key") == [] && QuotaRun.Sound(CLOCKS, KeyState(CLOCKS, Scene(0), "key"))
  {
    OldRule();
    hide Edited, RuleOf, CalcQuotaWindow;
  }

  /** The window that started at midnight of the first day is running, and `used` tokens count in it. */
  ghost predicate Counts(s: TableState, used: nat) {
    && "key" in s.table.rows
    && QuotaRun.Start(CLOCKS, Daily, KeyState(CLOCKS, s, "key")) == 0
    && QuotaRun.Used(CLOCKS, LIMIT, KeyState(CLOCKS, s, "key")) == used
  }

  lemma CountsFrom(s: TableState, recorded: nat)
    requires recorded <= 2 && s.log == Rows(recorded) && "key" in s.table.rows
    requires QuotaRun.Start(CLOCKS, Daily, KeyState(CLOCKS, s, "key")) == 0
    ensures Counts(s, 10 * recorded)
  {
    assert KeyState(CLOCKS, s, "key").log == KeyLog(s.log, "key");
    hide QuotaRun.Start, KeyLog, KeyState, Entries, Rows, QuotaRun.Usage;
    KeyRows(recorded);
    EntriesUsed(recorded, 0);
  }

  lemma DayOneCounts()
    ensures Counts(Scene(4), 10)
  {
    hide Edited, KeyLog, Rows, Counts, QuotaRun.Start;
    StartEarly(Scene(4));
    CountsFrom(Scene(4), 1);
  }

  lemma DayTwoCounts(i: nat)
    requires i == 8 || i == 10
    ensures Counts(Scene(i), if i == 8 then 10 else 20)
  {
    hide Edited, KeyLog, Rows, Counts, QuotaRun.Start, KeyState;
    StartLate(Scene(i));
    CountsFrom(Scene(i), if i == 8 then 1 else 2);
  }

  lemma StartEarly(s: TableState)
    requires s.table == BEFORE && s.now == HOUR
    ensures "key" in s.table.rows && QuotaRun.Start(CLOCKS, Daily, KeyState(CLOCKS, s, "key")) == 0
  {
    hide RuleOf, CalcQuotaWindow, KeyLog, KeyStale, Snapshots;
    OldRule();
    OldWindow(HOUR, 0);
    var k := KeyState(CLOCKS, s, "key");
    assert k.rule == OLD_RULE && k.now == HOUR;
  }

  lemma StartLate(s: TableState)
    requires s.table == Edited() && s.now == LATE
    ensures "key" in s.table.rows && QuotaRun.Start(CLOCKS, Daily, KeyState(CLOCKS, s, "key")) == 0
  {
    WindowRunsOn();
    hide CalcQuotaWindow, Edited, KeyLog, RuleOf, KeyStale, Snapshots;
  }

  /** A run of the program in which a used-up quota (event 8) lets a request through while its window is still
      running, and ends up at 20 tokens, beyond its limit of 10 less one plus the one request of at most 10
      tokens that was ever in flight. */
  lemma OutdatedRuleLeaks() returns (run: TableRun)
    ensures Regular(CLOCKS) && CaseMapping(AsciiLower) && IsTableRun(CLOCKS, AsciiLower, run) && |run.events| == 10
    ensures KeyStays(AsciiLower, run, "key", LIMIT) && QuotaRun.Enforced(LIMIT) && WithinKeyLoad(run, "key", LIMIT.model, 1, 10)
    ensures var s := run.states[0]; "key" in s.table.rows && KeyLog(s.log, "key") == [] && QuotaRun.Sound(CLOCKS, KeyState(CLOCKS, s, "key"))
    ensures Counts(run.states[4], LIMIT.limit) && Counts(run.states[8], LIMIT.limit)
    ensures run.events[8] == Admits("key", 0, "m", Some("m"))
    ensures Counts(run.states[10], 20) && 20 > LIMIT.limit - 1 + 1 * 10
  {
    hide Scene, Counts, IsTableRun, KeyStays, WithinKeyLoad, Regular, CaseMapping, KeyLog, QuotaRun.Sound, KeyState;
    Clocks();
    FirstScene();
    DayOneCounts();
    DayTwoCounts(8);
    DayTwoCounts(10);
    run := TableRun(seq(11, i requires 0 <= i => Scene(i)), SCRIPT);
    StoryRuns(run);
    StoryStays(run);
    StoryLoad(run);
  }

  ghost predicate IsStory(run: TableRun) {
    run.events == SCRIPT && |run.states| == 11 && forall i :: 0 <= i < 11 ==> run.states[i] == Scene(i)
  }

  lemma StoryRuns(run: TableRun)
    requires IsStory(run)
    ensures IsTableRun(CLOCKS, AsciiLower, run)
  {
    forall i | 0 <= i < 10
      ensures TableStep(CLOCKS, AsciiLower, run.states[i], run.events[i], run.states[i + 1])
    {
      SceneFollows(i);
      hide TableStep, Scene;
    }
  }

  lemma StoryStays(run: TableRun)
    requires IsStory(run)
    ensures KeyStays(AsciiLower, run, "key", LIMIT)
  {
    hide Scene, Limited, UnderQuota;
    SceneUnderQuota(0);
    forall i | 0 <= i < 11 ensures Limited(AsciiLower, run.states[i].table, "key", LIMIT) {
      SceneUnderQuota(i);
    }
  }

  lemma StoryLoad(run: TableRun)
    requires IsStory(run)
    ensures WithinKeyLoad(run, "key", LIMIT.model, 1, 10)
  {
    hide Scene, InFlight, SmallFor, QuotaRun.Load;
    forall i | 0 <= i < 11 ensures QuotaRun.Load(LIMIT.model, InFlight(run.states[i], "key")) <= 1 {
      SceneLoad(i);
    }
    forall i | 0 <= i < 10 ensures SmallFor(run.states[i], run.events[i], "key", LIMIT.model, 10) {
      SceneLoad(i);
    }
  }
}
