/**
 Whole runs of one key: the clock, schedule edits, the reload of the cache after an edit, requests that are
 validated and later checked and admitted, and asynchronous usage records, in any order. What a run keeps:
 each recorded token counts in one window only, and the soft quota gate overshoots by no more than the
 requests in flight, as long as no request is checked under a reset rule that an edit has outdated.
 */
module QuotaRun {
  import opened Wrappers
  import opened Schedule
  import opened Text
  import opened WindowTheorems
  import opened Pins

  /** One traffic log row of the key; a request without a resolved model leaves none. */
  datatype Entry = Entry(model: Option<string>, tokens: nat, at: int)

  /** A reset rule, and the last instant at which it was known to be the stored one. */
  datatype Snapshot = Snapshot(rule: ResetRule, at: int)

  /** `stale` is what the cache still holds after an edit, until it is reloaded. `waiting` are the requests
      validated and not yet checked, each with the rule it was validated with; `inFlight` the models of the
      requests admitted and not yet recorded. */
  datatype State = State(rule: ResetRule, stale: Option<Snapshot>, now: int, log: seq<Entry>,
                         waiting: seq<Snapshot>, inFlight: seq<string>)

  /** Admit: the w-th waiting request is checked for its model and let through. Record: the k-th request in
      flight is recorded. */
  datatype Event =
    | Tick(t: int)
    | Edit(schedule: Option<ResetSchedule>)
    | Reload
    | Validate
    | Admit(w: nat, model: string)
    | Record(k: nat, tokens: nat)

  /** A quota on everything the key does (no model), or on one model; a limit of 0 means no quota. */
  datatype Quota = Quota(period: Period, limit: nat, model: Option<string>)

  function ModelOf(model: string): Option<string> {
    if model == "" then None else Some(model)
  }

  /** What a quota counts; the database compares models in its NOCASE collation. */
  predicate Covers(of: Option<string>, model: Option<string>) {
    of.Some? ==> model.Some? && NoCase(model.value, of.value)
  }

  /** A request without a resolved model counts for the key, and for no model. */
  lemma NoModelCountsForKey(of: Option<string>)
    ensures Covers(of, ModelOf("")) <==> of.None?
  {
  }

  /** The usage query: tokens of the covered rows at or after `start`. */
  function Usage(log: seq<Entry>, of: Option<string>, start: int): nat {
    if log == [] then 0
    else
      var last := log[|log| - 1];
      Usage(log[..|log| - 1], of, start) + if last.at >= start && Covers(of, last.model) then last.tokens else 0
  }

  function Start(tz: TzDb, period: Period, s: State): int {
    CalcQuotaWindow(tz, period, s.rule, s.now).start
  }

  function WindowUsage(tz: TzDb, period: Period, of: Option<string>, s: State): nat {
    Usage(s.log, of, Start(tz, period, s))
  }

  function Used(tz: TzDb, quota: Quota, s: State): nat {
    WindowUsage(tz, quota.period, quota.model, s)
  }

  /** Periods named "none" or "" are not enforced. */
  predicate Enforced(quota: Quota) {
    quota.limit > 0 && quota.period !in {Other("none"), Other("")}
  }

  /** What a request validated now is checked with later. */
  function Seen(s: State): Snapshot {
    if s.stale.Some? then s.stale.value else Snapshot(s.rule, s.now)
  }

  /** The start of the window that a check under a snapshot counts from. */
  function SeenStart(tz: TzDb, period: Period, k: Snapshot, now: int): int {
    CalcQuotaWindow(tz, period, k.rule, now).start
  }

  /** The admission check, at the present time under the rule of the validation. */
  predicate MayAdmit(tz: TzDb, quota: Quota, log: seq<Entry>, now: int, k: Snapshot, model: string) {
    Enforced(quota) && Covers(quota.model, ModelOf(model)) ==>
      Usage(log, quota.model, SeenStart(tz, quota.period, k, now)) < quota.limit
  }

  function Without<T>(all: seq<T>, k: nat): seq<T>
    requires k < |all|
  {
    all[..k] + all[k + 1..]
  }

  ghost predicate Step(tz: TzDb, quota: Quota, s: State, e: Event, s': State) {
    match e
    case Tick(t) => s.now <= t && s' == s.(now := t)
    case Edit(schedule) => s' == s.(rule := ChangeSchedule(tz, s.rule, schedule, s.now), stale := Some(Seen(s)))
    case Reload => s' == s.(stale := None)
    case Validate => s' == s.(waiting := s.waiting + [Seen(s)])
    case Admit(w, model) =>
      && w < |s.waiting| && MayAdmit(tz, quota, s.log, s.now, s.waiting[w], model)
      && s' == s.(waiting := Without(s.waiting, w), inFlight := s.inFlight + [model])
    case Record(k, tokens) =>
      && k < |s.inFlight|
      && s' == s.(inFlight := Without(s.inFlight, k), log := s.log + [Entry(ModelOf(s.inFlight[k]), tokens, s.now)])
  }

  datatype Run = Run(states: seq<State>, events: seq<Event>)

  ghost predicate IsRun(tz: TzDb, quota: Quota, run: Run) {
    && |run.states| == |run.events| + 1
    && forall i {:trigger run.events[i]} :: 0 <= i < |run.events| ==>
         Step(tz, quota, run.states[i], run.events[i], run.states[i + 1])
  }

  /** The clock is past the epoch, no row is dated in the future, the stored rule is settled. */
  ghost predicate Steady(tz: TzDb, s: State) {
    && 0 <= s.now
    && Settled(tz, s.rule, s.now)
    && forall i :: 0 <= i < |s.log| ==> s.log[i].at <= s.now
  }

  /** A rule that was in use: what its windows were then, the present ones are or have passed. */
  ghost predicate WasInUse(tz: TzDb, s: State, k: Snapshot) {
    && k.at <= s.now && Settled(tz, k.rule, k.at)
    && forall period :: Scheduled(period) ==> SeenStart(tz, period, k, k.at) <= Start(tz, period, s)
  }

  /** A state some run can be in. */
  ghost predicate Sound(tz: TzDb, s: State) {
    && Steady(tz, s)
    && (s.stale.Some? ==> WasInUse(tz, s, s.stale.value))
    && forall w :: 0 <= w < |s.waiting| ==> WasInUse(tz, s, s.waiting[w])
  }

  lemma StartInPast(tz: TzDb, period: Period, s: State)
    requires Steady(tz, s)
    ensures Start(tz, period, s) <= s.now
  {
    if Scheduled(period) {
      SettledWindowContainsNow(tz, period, s.rule, s.now);
    }
  }

  /** One step keeps the window of every period, except that time may pass its announced reset; the
      next window starts exactly at that reset. */
  lemma WindowStep(tz: TzDb, quota: Quota, period: Period, s: State, e: Event, s': State)
    requires Regular(tz) && Steady(tz, s) && Step(tz, quota, s, e, s') && Scheduled(period)
    ensures var w, v := CalcQuotaWindow(tz, period, s.rule, s.now), CalcQuotaWindow(tz, period, s'.rule, s'.now);
            || v.start == w.start
            || (&& e.Tick? && w.reset <= e.t && w.reset <= v.start
                && CalcQuotaWindow(tz, period, s.rule, w.reset).start == w.reset)
  {
    match e
    case Tick(t) => TimeKeepsWindows(tz, period, s.rule, s.now, t);
    case Edit(schedule) => ChangeKeepsStart(tz, period, s.rule, schedule, s.now);
    case _ =>
  }

  lemma SteadyStep(tz: TzDb, quota: Quota, period: Period, s: State, e: Event, s': State)
    requires Regular(tz) && Steady(tz, s) && Step(tz, quota, s, e, s')
    ensures Steady(tz, s') && s.now <= s'.now
    ensures Start(tz, period, s') == Start(tz, period, s) || Start(tz, period, s') > s.now
  {
    if e.Edit? {
      ChangeStaysSettled(tz, s.rule, e.schedule, s.now);
    }
    if Scheduled(period) {
      SettledWindowContainsNow(tz, period, s.rule, s.now);
      WindowStep(tz, quota, period, s, e, s');
    }
  }

  lemma InUseNow(tz: TzDb, s: State)
    requires Steady(tz, s)
    ensures WasInUse(tz, s, Snapshot(s.rule, s.now))
  {
  }

  lemma StaysUsed(tz: TzDb, quota: Quota, s: State, e: Event, s': State, k: Snapshot)
    requires Regular(tz) && Steady(tz, s) && Step(tz, quota, s, e, s') && WasInUse(tz, s, k)
    ensures WasInUse(tz, s', k)
  {
    hide Step, Start, SeenStart, Settled, Regular, Steady;
    forall period | Scheduled(period) ensures Start(tz, period, s) <= Start(tz, period, s') {
      SteadyStep(tz, quota, period, s, e, s');
      StartInPast(tz, period, s);
    }
    SteadyStep(tz, quota, quota.period, s, e, s');
  }

  lemma StartStep(tz: TzDb, quota: Quota, period: Period, s: State, e: Event, s': State)
    requires Regular(tz) && Sound(tz, s) && Step(tz, quota, s, e, s')
    ensures Sound(tz, s') && s.now <= s'.now
    ensures Start(tz, period, s') == Start(tz, period, s) || Start(tz, period, s') > s.now
  {
    SteadyStep(tz, quota, period, s, e, s');
    InUseNow(tz, s);
    StaysUsed(tz, quota, s, e, s', Seen(s));
    if s.stale.Some? {
      StaysUsed(tz, quota, s, e, s', s.stale.value);
    }
    hide WasInUse, Regular, Steady, Start;
    forall w | 0 <= w < |s.waiting| ensures WasInUse(tz, s', s.waiting[w]) {
      StaysUsed(tz, quota, s, e, s', s.waiting[w]);
    }
  }

  lemma StepOfRun(tz: TzDb, quota: Quota, run: Run, j: nat)
    requires IsRun(tz, quota, run) && 0 < j < |run.states|
    ensures |run.states| == |run.events| + 1
    ensures Step(tz, quota, run.states[j - 1], run.events[j - 1], run.states[j])
    ensures run.states[j - 1].now <= run.states[j].now
  {
    assert Step(tz, quota, run.states[j - 1], run.events[j - 1], run.states[j - 1 + 1]);
  }

  lemma {:induction false} RunStaysSound(tz: TzDb, quota: Quota, run: Run, i: nat, j: nat)
    requires Regular(tz) && IsRun(tz, quota, run) && i <= j < |run.states|
    requires Sound(tz, run.states[0])
    ensures Sound(tz, run.states[i]) && Sound(tz, run.states[j]) && run.states[i].now <= run.states[j].now
    decreases j
  {
    hide Regular, IsRun, Start, Step, Sound;
    if 0 < j {
      StepOfRun(tz, quota, run, j);
      RunStaysSound(tz, quota, run, if i < j then i else j - 1, j - 1);
      StartStep(tz, quota, quota.period, run.states[j - 1], run.events[j - 1], run.states[j]);
    }
  }

  /** Along a run window starts never move back, and an instant of the run lies in a later window
      exactly if that is still the window it was in. */
  lemma {:induction false} StartsAdvance(tz: TzDb, quota: Quota, run: Run, period: Period, i: nat, j: nat)
    requires Regular(tz) && IsRun(tz, quota, run) && i <= j < |run.states|
    requires Sound(tz, run.states[0])
    ensures var a, b := Start(tz, period, run.states[i]), Start(tz, period, run.states[j]);
            a <= b && (b <= run.states[i].now <==> b == a)
    decreases j - i
  {
    hide Regular, IsRun, Start, Step, Steady, WasInUse;
    RunStaysSound(tz, quota, run, i, j);
    StartInPast(tz, period, run.states[i]);
    if i < j {
      StepOfRun(tz, quota, run, j);
      RunStaysSound(tz, quota, run, i, j - 1);
      StartsAdvance(tz, quota, run, period, i, j - 1);
      StartStep(tz, quota, period, run.states[j - 1], run.events[j - 1], run.states[j]);
      StartInPast(tz, period, run.states[j - 1]);
    }
  }

  /** The covered tokens recorded before step j while the window started at `start`. */
  function RecordedIn(tz: TzDb, run: Run, period: Period, of: Option<string>, start: int, j: nat): nat
    requires j <= |run.events| < |run.states|
  {
    if j == 0 then 0
    else
      RecordedIn(tz, run, period, of, start, j - 1) + RecordedBy(tz, run.states[j - 1], run.events[j - 1], period, of, start)
  }

  function RecordedBy(tz: TzDb, s: State, e: Event, period: Period, of: Option<string>, start: int): nat {
    if e.Record? && e.k < |s.inFlight| && Covers(of, ModelOf(s.inFlight[e.k])) && Start(tz, period, s) == start then e.tokens else 0
  }

  lemma UsageAppend(log: seq<Entry>, entry: Entry, of: Option<string>, start: int)
    ensures Usage(log + [entry], of, start)
         == Usage(log, of, start) + if entry.at >= start && Covers(of, entry.model) then entry.tokens else 0
  {
    assert (log + [entry])[..|log|] == log;
  }

  /** Whether an instant of the run is counted from `start` says which window it was in. */
  ghost predicate Separates(tz: TzDb, run: Run, period: Period, start: int, i: nat)
    requires i < |run.states|
  {
    run.states[i].now >= start <==> Start(tz, period, run.states[i]) == start
  }

  lemma RecordedStep(tz: TzDb, quota: Quota, run: Run, period: Period, of: Option<string>, start: int, m: nat)
    requires |run.states| == |run.events| + 1 && m < |run.events|
    requires Step(tz, quota, run.states[m], run.events[m], run.states[m + 1]) && Separates(tz, run, period, start, m)
    ensures Usage(run.states[m + 1].log, of, start) - Usage(run.states[m].log, of, start)
         == RecordedIn(tz, run, period, of, start, m + 1) - RecordedIn(tz, run, period, of, start, m)
  {
    hide Usage, Covers, Start;
    var s, e := run.states[m], run.events[m];
    if e.Record? {
      UsageAppend(s.log, Entry(ModelOf(s.inFlight[e.k]), e.tokens, s.now), of, start);
    }
  }

  lemma {:induction false} UsageCountsRecorded(tz: TzDb, quota: Quota, run: Run, period: Period, of: Option<string>, start: int, m: nat)
    requires IsRun(tz, quota, run) && m < |run.states| && run.states[0].log == []
    requires forall i :: 0 <= i < m ==> Separates(tz, run, period, start, i)
    ensures Usage(run.states[m].log, of, start) == RecordedIn(tz, run, period, of, start, m)
    decreases m
  {
    hide IsRun, Step, Start, Separates;
    if 0 < m {
      hide Usage, RecordedIn;
      StepOfRun(tz, quota, run, m);
      UsageCountsRecorded(tz, quota, run, period, of, start, m - 1);
      RecordedStep(tz, quota, run, period, of, start, m - 1);
    }
  }

  /** The usage shown at any point of a run, of the key or of one model, is what was recorded while this very
      window was running: every recorded token counts in one window of the run and in no other. */
  lemma UsageIsWindowTotal(tz: TzDb, quota: Quota, run: Run, period: Period, of: Option<string>, j: nat)
    requires Regular(tz) && IsRun(tz, quota, run) && j < |run.states|
    requires Sound(tz, run.states[0]) && run.states[0].log == []
    ensures WindowUsage(tz, period, of, run.states[j])
         == RecordedIn(tz, run, period, of, Start(tz, period, run.states[j]), j)
  {
    var start := Start(tz, period, run.states[j]);
    forall i | 0 <= i < j ensures Separates(tz, run, period, start, i) {
      StartsAdvance(tz, quota, run, period, i, j);
    }
    UsageCountsRecorded(tz, quota, run, period, of, start, j);
  }

  /** All covered tokens recorded before step j. */
  function RecordedSoFar(run: Run, of: Option<string>, j: nat): nat
    requires j <= |run.events| < |run.states|
  {
    if j == 0 then 0 else RecordedSoFar(run, of, j - 1) + TokensOf(run.states[j - 1], run.events[j - 1], of)
  }

  function TokensOf(s: State, e: Event, of: Option<string>): nat {
    if e.Record? && e.k < |s.inFlight| && Covers(of, ModelOf(s.inFlight[e.k])) then e.tokens else 0
  }

  lemma {:induction false} LogHoldsRecorded(tz: TzDb, quota: Quota, run: Run, of: Option<string>, j: nat)
    requires Regular(tz) && IsRun(tz, quota, run) && j < |run.states|
    requires Sound(tz, run.states[0]) && run.states[0].log == []
    ensures Usage(run.states[j].log, of, 0) == RecordedSoFar(run, of, j)
    decreases j
  {
    hide Regular, IsRun, Covers, Sound;
    if 0 < j {
      LogHoldsRecorded(tz, quota, run, of, j - 1);
      StepOfRun(tz, quota, run, j);
      RunStaysSound(tz, quota, run, j - 1, j);
      var s, e := run.states[j - 1], run.events[j - 1];
      NotBeforeEpoch(tz, s);
      hide Usage;
      if e.Record? {
        UsageAppend(s.log, Entry(ModelOf(s.inFlight[e.k]), e.tokens, s.now), of, 0);
      }
    }
  }

  lemma NotBeforeEpoch(tz: TzDb, s: State)
    requires Sound(tz, s)
    ensures s.now >= 0
  {
  }

  lemma StartOfAll(tz: TzDb, period: Period, s: State)
    requires Steady(tz, s) && !Scheduled(period)
    ensures Start(tz, period, s) == 0
  {
    UnscheduledWindow(tz, period, s.rule.schedule, s.now);
  }

  /** A total quota, and any that never resets, counts everything recorded so far, over every run. */
  lemma TotalCountsEverything(tz: TzDb, quota: Quota, run: Run, period: Period, of: Option<string>, j: nat)
    requires Regular(tz) && IsRun(tz, quota, run) && j < |run.states| && !Scheduled(period)
    requires Sound(tz, run.states[0]) && run.states[0].log == []
    ensures WindowUsage(tz, period, of, run.states[j]) == RecordedSoFar(run, of, j)
  {
    RunStaysSound(tz, quota, run, j, j);
    StartOfAll(tz, period, run.states[j]);
    LogHoldsRecorded(tz, quota, run, of, j);
  }

  lemma {:induction false} UsageUpToCase(log: seq<Entry>, a: string, b: string, start: int)
    requires NoCase(a, b)
    ensures Usage(log, Some(a), start) == Usage(log, Some(b), start)
  {
    if log != [] {
      UsageUpToCase(log[..|log| - 1], a, b, start);
    }
  }

  // A check under a snapshot against one under the present rule.

  lemma {:induction false} UsageShrinks(log: seq<Entry>, of: Option<string>, a: int, b: int)
    requires a <= b
    ensures Usage(log, of, b) <= Usage(log, of, a)
  {
    if log != [] {
      UsageShrinks(log[..|log| - 1], of, a, b);
    }
  }

  lemma OneEntry(entry: Entry, of: Option<string>, start: int)
    ensures Usage([entry], of, start) == if entry.at >= start && Covers(of, entry.model) then entry.tokens else 0
  {
    assert [entry] == [] + [entry];
    UsageAppend([], entry, of, start);
  }

  /** A check that counts from `seen` lets nothing through that one from `start` refuses, on every log,
      exactly if it does not count from later. */
  lemma SnapshotStrictExactly(of: Option<string>, limit: nat, seen: int, start: int)
    requires limit > 0
    ensures (forall log :: Usage(log, of, seen) < limit ==> Usage(log, of, start) < limit) <==> seen <= start
  {
    if seen <= start {
      forall log ensures Usage(log, of, start) <= Usage(log, of, seen) {
        UsageShrinks(log, of, seen, start);
      }
    } else {
      var entry := Entry(of, limit, start);
      OneEntry(entry, of, seen);
      OneEntry(entry, of, start);
      assert Usage([entry], of, seen) < limit && Usage([entry], of, start) == limit;
    }
  }

  /** The check comes before the reset announced when the rule was last known to be in use. */
  predicate InTime(tz: TzDb, period: Period, k: Snapshot, now: int) {
    Scheduled(period) ==> now < CalcQuotaWindow(tz, period, k.rule, k.at).reset
  }

  /** The check counts from no later than the running window. */
  predicate NotAhead(tz: TzDb, period: Period, s: State, k: Snapshot) {
    SeenStart(tz, period, k, s.now) <= Start(tz, period, s)
  }

  lemma InTimeIsNotAhead(tz: TzDb, period: Period, s: State, k: Snapshot)
    requires Regular(tz) && Steady(tz, s) && WasInUse(tz, s, k) && InTime(tz, period, k, s.now)
    ensures NotAhead(tz, period, s, k)
  {
    if Scheduled(period) {
      TimeKeepsWindows(tz, period, k.rule, k.at, s.now);
    }
  }

  /** Whatever was edited since instant i of a run: until the reset announced then, the rule of then counts
      from no later than the running window. */
  lemma RuleHoldsUntilReset(tz: TzDb, quota: Quota, run: Run, period: Period, i: nat, j: nat)
    requires Regular(tz) && IsRun(tz, quota, run) && i <= j < |run.states| && Sound(tz, run.states[0])
    requires InTime(tz, period, Snapshot(run.states[i].rule, run.states[i].now), run.states[j].now)
    ensures NotAhead(tz, period, run.states[j], Snapshot(run.states[i].rule, run.states[i].now))
  {
    RunStaysSound(tz, quota, run, i, j);
    StartsAdvance(tz, quota, run, period, i, j);
    if Scheduled(period) {
      TimeKeepsWindows(tz, period, run.states[i].rule, run.states[i].now, run.states[j].now);
    }
  }

  /** A covered request is admitted in time, or under a rule that does not count from later. */
  predicate Timely(tz: TzDb, quota: Quota, s: State, e: Event) {
    e.Admit? && e.w < |s.waiting| && Covers(quota.model, ModelOf(e.model)) ==>
      InTime(tz, quota.period, s.waiting[e.w], s.now) || NotAhead(tz, quota.period, s, s.waiting[e.w])
  }

  ghost predicate AllTimely(tz: TzDb, quota: Quota, run: Run) {
    |run.states| > |run.events| && forall i :: 0 <= i < |run.events| ==> Timely(tz, quota, run.states[i], run.events[i])
  }

  /** A timely admission has found the quota of the running window open. */
  lemma TimelyFindsOpen(tz: TzDb, quota: Quota, s: State, e: Event, s': State)
    requires Regular(tz) && Sound(tz, s) && Step(tz, quota, s, e, s') && Timely(tz, quota, s, e)
    requires Enforced(quota) && e.Admit? && Covers(quota.model, ModelOf(e.model))
    ensures Used(tz, quota, s) < quota.limit
  {
    var k := s.waiting[e.w];
    hide Covers, Start, SeenStart, Regular, Usage, Steady;
    assert WasInUse(tz, s, k);
    hide WasInUse;
    if InTime(tz, quota.period, k, s.now) {
      InTimeIsNotAhead(tz, quota.period, s, k);
    }
    UsageShrinks(s.log, quota.model, SeenStart(tz, quota.period, k, s.now), Start(tz, quota.period, s));
  }

  // The soft gate.

  lemma {:induction false} LogGrows(tz: TzDb, quota: Quota, run: Run, of: Option<string>, start: int, i: nat, j: nat)
    requires IsRun(tz, quota, run) && i <= j < |run.states|
    ensures Usage(run.states[i].log, of, start) <= Usage(run.states[j].log, of, start)
    decreases j - i
  {
    if i < j {
      hide Covers;
      LogGrows(tz, quota, run, of, start, i, j - 1);
      var s, e := run.states[j - 1], run.events[j - 1];
      StepOfRun(tz, quota, run, j);
      if e.Record? {
        UsageAppend(s.log, Entry(ModelOf(s.inFlight[e.k]), e.tokens, s.now), of, start);
      }
    }
  }

  /** Once a window's recorded total reaches the limit, no covered request is admitted in time until the
      window ends. */
  lemma ExhaustedStaysClosed(tz: TzDb, quota: Quota, run: Run, i: nat, j: nat)
    requires Regular(tz) && IsRun(tz, quota, run) && i <= j < |run.events| && Enforced(quota) && Sound(tz, run.states[0])
    requires Used(tz, quota, run.states[i]) >= quota.limit
    requires Start(tz, quota.period, run.states[j]) == Start(tz, quota.period, run.states[i])
    requires Timely(tz, quota, run.states[j], run.events[j])
    ensures run.events[j].Admit? ==> !Covers(quota.model, ModelOf(run.events[j].model))
  {
    hide Covers, Start, Regular, Sound, Timely;
    LogGrows(tz, quota, run, quota.model, Start(tz, quota.period, run.states[i]), i, j);
    StepOfRun(tz, quota, run, j + 1);
    RunStaysSound(tz, quota, run, j, j + 1);
    if run.events[j].Admit? && Covers(quota.model, ModelOf(run.events[j].model)) {
      TimelyFindsOpen(tz, quota, run.states[j], run.events[j], run.states[j + 1]);
    }
  }

  /** How many of the requests a quota covers. */
  function Load(of: Option<string>, inFlight: seq<string>): nat {
    if inFlight == [] then 0
    else Load(of, inFlight[..|inFlight| - 1]) + if Covers(of, ModelOf(inFlight[|inFlight| - 1])) then 1 else 0
  }

  lemma {:induction false} LoadConcat(of: Option<string>, a: seq<string>, b: seq<string>)
    ensures Load(of, a + b) == Load(of, a) + Load(of, b)
    decreases |b|
  {
    if b == [] {
      assert a + b == a;
    } else {
      hide Covers;
      LoadConcat(of, a, b[..|b| - 1]);
      assert (a + b)[..|a + b| - 1] == a + b[..|b| - 1];
    }
  }

  lemma LoadOne(of: Option<string>, model: string)
    ensures Load(of, [model]) == if Covers(of, ModelOf(model)) then 1 else 0
  {
    assert [model][..0] == [];
  }

  lemma LoadWithout(of: Option<string>, inFlight: seq<string>, k: nat)
    requires k < |inFlight|
    ensures Load(of, inFlight) == Load(of, Without(inFlight, k)) + if Covers(of, ModelOf(inFlight[k])) then 1 else 0
  {
    hide Covers, Load;
    assert inFlight == inFlight[..k] + ([inFlight[k]] + inFlight[k + 1..]);
    LoadConcat(of, inFlight[..k], [inFlight[k]] + inFlight[k + 1..]);
    LoadConcat(of, [inFlight[k]], inFlight[k + 1..]);
    LoadOne(of, inFlight[k]);
    LoadConcat(of, inFlight[..k], inFlight[k + 1..]);
  }

  /** At most `requests` covered requests in flight, of at most `tokens` each. */
  ghost predicate WithinLoad(quota: Quota, run: Run, requests: nat, tokens: nat) {
    && |run.states| > |run.events|
    && (forall i :: 0 <= i < |run.states| ==> Load(quota.model, run.states[i].inFlight) <= requests)
    && (forall i :: 0 <= i < |run.events| ==> Small(quota, run.states[i], run.events[i], tokens))
  }

  predicate Small(quota: Quota, s: State, e: Event, tokens: nat) {
    e.Record? && e.k < |s.inFlight| && Covers(quota.model, ModelOf(s.inFlight[e.k])) ==> e.tokens <= tokens
  }

  lemma {:induction false} NothingAhead(log: seq<Entry>, of: Option<string>, start: int)
    requires forall i :: 0 <= i < |log| ==> log[i].at < start
    ensures Usage(log, of, start) == 0
  {
    if log != [] {
      NothingAhead(log[..|log| - 1], of, start);
    }
  }

  lemma TimesSucc(n: nat, t: nat)
    ensures (n + 1) * t == n * t + t
  {
  }

  lemma TimesMonotone(n: nat, m: nat, t: nat)
    requires n <= m
    ensures n * t <= m * t
  {
    if n < m {
      TimesMonotone(n, m - 1, t);
      TimesSucc(m - 1, t);
    }
  }

  /** What is recorded plus what is still in flight stays below the limit plus one full load. */
  ghost predicate Headroom(tz: TzDb, quota: Quota, s: State, requests: nat, tokens: nat) {
    Used(tz, quota, s) + Load(quota.model, s.inFlight) * tokens <= quota.limit - 1 + requests * tokens
  }

  /** Below the limit there is room for a full load. */
  lemma OpenHeadroom(limit: nat, usage: nat, load: nat, requests: nat, tokens: nat)
    requires usage < limit && load <= requests
    ensures usage + load * tokens <= limit - 1 + requests * tokens
  {
    TimesMonotone(load, requests, tokens);
  }

  lemma RecordHeadroom(tz: TzDb, quota: Quota, s: State, e: Event, s': State, requests: nat, tokens: nat)
    requires Step(tz, quota, s, e, s') && e.Record? && Small(quota, s, e, tokens) && Headroom(tz, quota, s, requests, tokens)
    ensures Headroom(tz, quota, s', requests, tokens)
  {
    hide Usage, Covers, Load, Start;
    SameStart(tz, quota.period, s, s');
    UsageAppend(s.log, Entry(ModelOf(s.inFlight[e.k]), e.tokens, s.now), quota.model, Start(tz, quota.period, s));
    LoadWithout(quota.model, s.inFlight, e.k);
    TimesSucc(Load(quota.model, s'.inFlight), tokens);
  }

  lemma AdmitHeadroom(tz: TzDb, quota: Quota, s: State, e: Event, s': State, requests: nat, tokens: nat)
    requires Step(tz, quota, s, e, s') && e.Admit?
    requires Covers(quota.model, ModelOf(e.model)) ==> Used(tz, quota, s) < quota.limit
    requires Load(quota.model, s'.inFlight) <= requests && Headroom(tz, quota, s, requests, tokens)
    ensures Headroom(tz, quota, s', requests, tokens)
  {
    hide Usage, Covers, Load, Start, MayAdmit;
    SameStart(tz, quota.period, s, s');
    LoadConcat(quota.model, s.inFlight, [e.model]);
    LoadOne(quota.model, e.model);
    if Covers(quota.model, ModelOf(e.model)) {
      OpenHeadroom(quota.limit, Used(tz, quota, s), Load(quota.model, s'.inFlight), requests, tokens);
    }
  }

  /** Reloading and validating count nothing. */
  lemma QuietHeadroom(tz: TzDb, quota: Quota, s: State, e: Event, s': State, requests: nat, tokens: nat)
    requires Step(tz, quota, s, e, s') && (e.Reload? || e.Validate?) && Headroom(tz, quota, s, requests, tokens)
    ensures Headroom(tz, quota, s', requests, tokens)
  {
    hide Usage, Covers, Load;
  }

  lemma HeadroomStep(tz: TzDb, quota: Quota, s: State, e: Event, s': State, requests: nat, tokens: nat)
    requires Regular(tz) && Sound(tz, s) && Step(tz, quota, s, e, s') && Timely(tz, quota, s, e)
    requires Enforced(quota) && Load(quota.model, s'.inFlight) <= requests && Small(quota, s, e, tokens)
    requires Headroom(tz, quota, s, requests, tokens)
    ensures Headroom(tz, quota, s', requests, tokens)
  {
    match e
    case Record(_, _) =>
      hide Headroom, Step, Sound, Small, Load, Regular, Timely;
      RecordHeadroom(tz, quota, s, e, s', requests, tokens);
    case Admit(_, _) =>
      hide Headroom, Step, Sound, Load, Enforced, Regular, Timely, Covers;
      if Covers(quota.model, ModelOf(e.model)) {
        TimelyFindsOpen(tz, quota, s, e, s');
      }
      AdmitHeadroom(tz, quota, s, e, s', requests, tokens);
    case Reload =>
      hide Headroom, Step, Sound, Load, Regular, Timely;
      QuietHeadroom(tz, quota, s, e, s', requests, tokens);
    case Validate =>
      hide Headroom, Step, Sound, Load, Regular, Timely;
      QuietHeadroom(tz, quota, s, e, s', requests, tokens);
    case _ =>
      hide Regular, Start, Settled, ChangeSchedule, Usage, Covers, Sound;
      WindowMayChange(tz, quota, s, e, s');
      OpenHeadroom(quota.limit, 0, Load(quota.model, s'.inFlight), requests, tokens);
  }

  /** A tick or an edit either keeps the counted usage or opens a window with none. */
  lemma WindowMayChange(tz: TzDb, quota: Quota, s: State, e: Event, s': State)
    requires Regular(tz) && Sound(tz, s) && Step(tz, quota, s, e, s')
    requires e.Tick? || e.Edit?
    ensures Used(tz, quota, s') in {0, Used(tz, quota, s)}
  {
    hide Regular, Start, Settled, ChangeSchedule, Usage, Covers;
    StartStep(tz, quota, quota.period, s, e, s');
    if Start(tz, quota.period, s') != Start(tz, quota.period, s) {
      NothingAhead(s.log, quota.model, Start(tz, quota.period, s'));
    }
  }

  lemma SameStart(tz: TzDb, period: Period, s: State, s': State)
    requires s'.rule == s.rule && s'.now == s.now
    ensures Start(tz, period, s') == Start(tz, period, s)
  {
  }

  lemma HeadroomAtStart(tz: TzDb, quota: Quota, s: State, requests: nat, tokens: nat)
    requires s.log == [] && Load(quota.model, s.inFlight) <= requests && Enforced(quota)
    ensures Headroom(tz, quota, s, requests, tokens)
  {
    TimesMonotone(Load(quota.model, s.inFlight), requests, tokens);
  }

  lemma HeadroomBounds(tz: TzDb, quota: Quota, s: State, requests: nat, tokens: nat)
    requires Headroom(tz, quota, s, requests, tokens)
    ensures Used(tz, quota, s) <= quota.limit - 1 + requests * tokens
  {
    TimesMonotone(0, Load(quota.model, s.inFlight), tokens);
  }

  lemma {:induction false} HeadroomAlong(tz: TzDb, quota: Quota, run: Run, requests: nat, tokens: nat, j: nat)
    requires Regular(tz) && IsRun(tz, quota, run) && Enforced(quota) && WithinLoad(quota, run, requests, tokens)
    requires Sound(tz, run.states[0]) && run.states[0].log == [] && j < |run.states| && AllTimely(tz, quota, run)
    ensures Headroom(tz, quota, run.states[j], requests, tokens)
    decreases j
  {
    hide Regular, IsRun, Headroom, Step, Sound, Enforced, Load, Small, Timely;
    if j == 0 {
      HeadroomAtStart(tz, quota, run.states[0], requests, tokens);
    } else {
      StepOfRun(tz, quota, run, j);
      RunStaysSound(tz, quota, run, j - 1, j);
      HeadroomAlong(tz, quota, run, requests, tokens, j - 1);
      HeadroomStep(tz, quota, run.states[j - 1], run.events[j - 1], run.states[j], requests, tokens);
    }
  }

  /** With at most `requests` covered requests in flight of at most `tokens` tokens each, all admitted in time,
      a window's recorded total never exceeds the limit by more than that load, whatever the interleaving of
      validations, admissions, late records, clock, schedule edits and reloads. It holds of a key's quota and
      of a quota on one model. */
  lemma OvershootBounded(tz: TzDb, quota: Quota, run: Run, requests: nat, tokens: nat, j: nat)
    requires Regular(tz) && IsRun(tz, quota, run) && Enforced(quota) && WithinLoad(quota, run, requests, tokens)
    requires Sound(tz, run.states[0]) && run.states[0].log == [] && j < |run.states| && AllTimely(tz, quota, run)
    ensures Used(tz, quota, run.states[j]) <= quota.limit - 1 + requests * tokens
  {
    HeadroomAlong(tz, quota, run, requests, tokens, j);
    HeadroomBounds(tz, quota, run.states[j], requests, tokens);
  }
}
