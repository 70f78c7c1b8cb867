/**
 The key table: schedule edits over all keys under the global/own schedule hierarchy, and the
 in-memory cache that client requests are checked against.
 */
module KeyTable {
  import opened Wrappers
  import opened Schedule
  import opened Text
  import opened Windows
  import opened Pins
  import QuotaRun

  type Id = string
  type RawKey = string

  /** A stored schedule column: empty, not a schedule at all, or a schedule (maybe an invalid one). */
  datatype Stored = Empty | Unreadable | Readable(schedule: ResetSchedule)

  datatype Access = Access(mode: string, groups: seq<string>, allowed: seq<string>)

  datatype ModelQuota = ModelQuota(limit: int, period: Period)

  datatype QuotaMode = PerKey | PerModel

  /** The key's quota settings. */
  datatype Limits = Limits(limit: int, period: Period, mode: QuotaMode)

  datatype Row = Row(raw: RawKey, name: string, active: bool, access: Access, limits: Limits,
                     own: Stored, pins: map<Period, Pin>)

  datatype Table = Table(rows: map<Id, Row>, quotas: map<Id, map<string, ModelQuota>>, global: Option<ResetSchedule>)

  datatype Source = FromKey | FromGlobal | FromDefault

  /** A key as requests see it. */
  datatype KeyInfo = KeyInfo(id: Id, row: Row, access: Access, quotas: map<string, ModelQuota>,
                             own: Option<ResetSchedule>, source: Source, rule: ResetRule)

  /** Anything unusable counts as absent. */
  function ParseSchedule(tz: TzDb, stored: Stored): Option<ResetSchedule> {
    if stored.Readable? && Validate(tz, stored.schedule) then Some(stored.schedule) else None
  }

  function EncodeSchedule(s: Option<ResetSchedule>): Stored {
    if s.None? then Empty else Readable(s.value)
  }

  function Effective(own: Option<ResetSchedule>, global: Option<ResetSchedule>): (Option<ResetSchedule>, Source) {
    if own.Some? then (own, FromKey) else if global.Some? then (global, FromGlobal) else (None, FromDefault)
  }

  function EffectiveOf(tz: TzDb, row: Row, global: Option<ResetSchedule>): Option<ResetSchedule> {
    Effective(ParseSchedule(tz, row.own), global).0
  }

  /** The reset rule of a stored row. */
  function RuleOf(tz: TzDb, row: Row, global: Option<ResetSchedule>): ResetRule {
    ResetRule(EffectiveOf(tz, row, global), ParsePins(row.pins))
  }

  function QuotasOf(t: Table, id: Id): map<string, ModelQuota> {
    if id in t.quotas then t.quotas[id] else map[]
  }

  /** Rows older than access modes store none; the cache fills in what they mean. */
  function ResolveAccess(access: Access): Access {
    if access.mode != "" then access
    else access.(mode := if |access.allowed| > 0 then "custom" else "all")
  }

  /** The mode a saved key gets: the one asked for, or the one its groups and allow-list call for. */
  function DeriveAccess(access: Access): (derived: Access)
    ensures derived.mode != ""
  {
    if access.mode != "" then access
    else access.(mode := if |access.groups| > 0 then "group" else if |access.allowed| > 0 then "custom" else "all")
  }

  /** A row without a mode means what saving it would store, exactly if it has no groups. */
  lemma OldRowMeansWhatItSaves(access: Access)
    ensures ResolveAccess(access) == DeriveAccess(access) <==> access.mode != "" || access.groups == []
  {
    assert |access.groups| == 0 <==> access.groups == [];
  }

  function StoredLimit(limit: int): int {
    if limit < 0 then 0 else limit
  }

  function StoredPeriod(period: Period): Period {
    if period == Other("") then Other("none") else period
  }

  function StoredLimits(limits: Limits): Limits {
    Limits(StoredLimit(limits.limit), StoredPeriod(limits.period), limits.mode)
  }

  /** A fresh read of a key. */
  function ReadKey(tz: TzDb, t: Table, id: Id): KeyInfo
    requires id in t.rows
  {
    var row := t.rows[id];
    var own := ParseSchedule(tz, row.own);
    KeyInfo(id, row, ResolveAccess(row.access), QuotasOf(t, id), own, Effective(own, t.global).1, RuleOf(tz, row, t.global))
  }

  /** A read depends on nothing but the key's own row, its quotas and the global schedule. */
  lemma ReadIsLocal(tz: TzDb, t: Table, t': Table, id: Id)
    requires id in t.rows && id in t'.rows && t.rows[id] == t'.rows[id]
    requires QuotasOf(t, id) == QuotasOf(t', id) && t.global == t'.global
    ensures ReadKey(tz, t, id) == ReadKey(tz, t', id)
  {
  }

  /** A read tells where its schedule comes from: the key's own if that is valid, else the global one, else none. */
  lemma ReadTellsSource(tz: TzDb, t: Table, id: Id)
    requires id in t.rows
    ensures var info, own := ReadKey(tz, t, id), t.rows[id].own;
            && info.id == id && info.row == t.rows[id] && info.rule == RuleOf(tz, t.rows[id], t.global)
            && (info.source.FromKey? <==> own.Readable? && Validate(tz, own.schedule))
            && (info.source.FromKey? ==> info.own == info.rule.schedule == Some(own.schedule))
            && (!info.source.FromKey? ==> info.own == None && info.rule.schedule == t.global)
            && (info.source.FromDefault? <==> info.rule.schedule == None)
            && (id in t.quotas ==> info.quotas == t.quotas[id]) && (id !in t.quotas ==> info.quotas == map[])
            && info.access.groups == t.rows[id].access.groups && info.access.allowed == t.rows[id].access.allowed
            && info.access.mode != "" && (t.rows[id].access.mode != "" ==> info.access.mode == t.rows[id].access.mode)
            && forall period :: period in info.rule.pins ==> period in t.rows[id].pins && info.rule.pins[period] == t.rows[id].pins[period]
  {
  }

  /** Raw keys are random and never shared. */
  ghost predicate WellFormed(t: Table) {
    forall i, j :: i in t.rows && j in t.rows && t.rows[i].raw == t.rows[j].raw ==> i == j
  }

  // What each operation stores.

  ghost function ReschedulePins(tz: TzDb, row: Row, oldEff: Option<ResetSchedule>, newEff: Option<ResetSchedule>, now: int): Row {
    row.(pins := PinsAfterChange(tz, oldEff, newEff, ParsePins(row.pins), now))
  }

  ghost function GlobalRow(tz: TzDb, row: Row, oldGlobal: Option<ResetSchedule>, s: Option<ResetSchedule>, now: int): Row {
    if ParseSchedule(tz, row.own).Some? then row else ReschedulePins(tz, row, oldGlobal, s, now)
  }

  ghost function ClearedRow(tz: TzDb, row: Row, global: Option<ResetSchedule>, now: int): Row {
    var own := ParseSchedule(tz, row.own);
    if own.Some? then ReschedulePins(tz, row, own, global, now).(own := Empty)
    else if row.own.Empty? then row
    else row.(own := Empty)
  }

  /** Clear the key's own schedule, or set it; a change with neither re-saves the stored one. */
  datatype ScheduleChange = Clear | Set(value: Option<ResetSchedule>)

  datatype KeyUpdate = KeyUpdate(name: string, access: Access, limit: Option<int>, period: Option<Period>,
                                 mode: Option<QuotaMode>, quotas: Option<map<string, ModelQuota>>,
                                 schedule: Option<ScheduleChange>)

  function NewOwn(oldOwn: Option<ResetSchedule>, change: ScheduleChange): Option<ResetSchedule> {
    match change
    case Clear => None
    case Set(value) => if value.Some? then value else oldOwn
  }

  ghost function RescheduledRow(tz: TzDb, row: Row, change: ScheduleChange, global: Option<ResetSchedule>, now: int): Row {
    var oldOwn := ParseSchedule(tz, row.own);
    var own := NewOwn(oldOwn, change);
    ReschedulePins(tz, row, Effective(oldOwn, global).0, Effective(own, global).0, now).(own := EncodeSchedule(own))
  }

  function WithSettings(row: Row, u: KeyUpdate): Row {
    row.(name := u.name, access := DeriveAccess(u.access),
         limits := Limits(if u.limit.Some? then StoredLimit(u.limit.value) else row.limits.limit,
                          if u.period.Some? then StoredPeriod(u.period.value) else row.limits.period,
                          if u.mode.Some? then u.mode.value else row.limits.mode))
  }

  ghost function UpdatedRow(tz: TzDb, row: Row, u: KeyUpdate, global: Option<ResetSchedule>, now: int): Row {
    WithSettings(if u.schedule.Some? then RescheduledRow(tz, row, u.schedule.value, global, now) else row, u)
  }

  /** One completed operation on the table. */
  datatype Op =
    | SetGlobal(schedule: Option<ResetSchedule>)
    | ClearOverrides
    | Update(id: Id, update: KeyUpdate)
    | SetQuota(id: Id, limit: int, period: Period)
    | Toggle(id: Id, active: bool)
    | Create(id: Id, row: Row, quotas: map<string, ModelQuota>)
    | Delete(id: Id)

  ghost function Apply(tz: TzDb, t: Table, op: Op, now: int): Table {
    match op
    case SetGlobal(s) =>
      t.(rows := map id | id in t.rows :: GlobalRow(tz, t.rows[id], t.global, s, now), global := s)
    case ClearOverrides =>
      t.(rows := map id | id in t.rows :: ClearedRow(tz, t.rows[id], t.global, now))
    case Update(id, u) =>
      if id !in t.rows then t
      else t.(rows := t.rows[id := UpdatedRow(tz, t.rows[id], u, t.global, now)],
              quotas := if u.quotas.Some? then t.quotas[id := u.quotas.value] else t.quotas)
    case SetQuota(id, limit, period) =>
      if id !in t.rows then t
      else t.(rows := t.rows[id := t.rows[id].(limits := StoredLimits(Limits(limit, period, t.rows[id].limits.mode)))])
    case Toggle(id, active) =>
      if id !in t.rows then t else t.(rows := t.rows[id := t.rows[id].(active := active)])
    case Create(id, row, quotas) => t.(rows := t.rows[id := row], quotas := t.quotas[id := quotas])
    case Delete(id) => t.(rows := t.rows - {id}, quotas := t.quotas - {id})
  }

  lemma GlobalTable(tz: TzDb, t: Table, rows: map<Id, Row>, s: Option<ResetSchedule>, now: int)
    requires rows.Keys == t.rows.Keys
    requires forall id :: id in rows ==> rows[id] == GlobalRow(tz, t.rows[id], t.global, s, now)
    ensures t.(rows := rows, global := s) == Apply(tz, t, SetGlobal(s), now)
  {
    hide GlobalRow;
  }

  lemma ClearedTable(tz: TzDb, t: Table, rows: map<Id, Row>, now: int)
    requires rows.Keys == t.rows.Keys
    requires forall id :: id in rows ==> rows[id] == ClearedRow(tz, t.rows[id], t.global, now)
    ensures t.(rows := rows) == Apply(tz, t, ClearOverrides, now)
    ensures forall id :: id in rows ==>
              rows[id].raw == t.rows[id].raw && rows[id].access == t.rows[id].access && rows[id].own.Empty?
  {
  }

  /** The schedules that reach the table have passed the settings form. */
  predicate Checked(tz: TzDb, op: Op) {
    match op
    case SetGlobal(s) => s.Some? ==> Validate(tz, s.value)
    case Update(_, u) =>
      u.schedule.Some? && u.schedule.value.Set? && u.schedule.value.value.Some? ==>
        Validate(tz, u.schedule.value.value.value)
    case Create(_, row, _) => row.own.Readable? ==> Validate(tz, row.own.schedule)
    case _ => true
  }

  ghost function RuleAfter(tz: TzDb, t: Table, op: Op, now: int, id: Id): ResetRule
    requires id in Apply(tz, t, op, now).rows
  {
    RuleOf(tz, Apply(tz, t, op, now).rows[id], Apply(tz, t, op, now).global)
  }

  lemma NewPinsParse(tz: TzDb, rule: ResetRule, newEff: Option<ResetSchedule>, now: int)
    ensures ParsePins(PinsFor(tz, rule, newEff, now)) == PinsFor(tz, rule, newEff, now)
  {
    forall period | Scheduled(period)
      ensures CalcQuotaWindow(tz, period, rule, now).start < ScheduleWindow(tz, period, newEff, now).reset
    {
      SettledWindowContainsNow(tz, period, rule, now);
      SettledWindowContainsNow(tz, period, ResetRule(newEff, map[]), now);
    }
  }

  /** Storing the pins of a schedule change and reading them back gives the changed rule. */
  lemma RescheduleIsChange(tz: TzDb, row: Row, oldEff: Option<ResetSchedule>, newEff: Option<ResetSchedule>, now: int)
    ensures ResetRule(newEff, ParsePins(ReschedulePins(tz, row, oldEff, newEff, now).pins))
         == ChangeSchedule(tz, ResetRule(oldEff, ParsePins(row.pins)), newEff, now)
  {
    NewPinsParse(tz, ResetRule(oldEff, ParsePins(row.pins)), newEff, now);
  }

  /** Every table operation is, for every key it leaves in the table, one change of that key's
      effective schedule: bulk edits, own edits, cleared overrides and unrelated edits alike. */
  lemma OperationIsScheduleChange(tz: TzDb, t: Table, op: Op, now: int, id: Id)
    requires Checked(tz, op) && id in t.rows && id in Apply(tz, t, op, now).rows
    requires op.Create? ==> op.id !in t.rows
    ensures RuleAfter(tz, t, op, now, id)
         == ChangeSchedule(tz, RuleOf(tz, t.rows[id], t.global), RuleAfter(tz, t, op, now, id).schedule, now)
  {
    var t' := Apply(tz, t, op, now);
    var row := t.rows[id];
    RescheduleIsChange(tz, row, EffectiveOf(tz, row, t.global), EffectiveOf(tz, t'.rows[id], t'.global), now);
  }

  /** A global change leaves keys with their own schedule exactly as they were. */
  lemma GlobalChangeSparesOwnSchedules(tz: TzDb, t: Table, s: Option<ResetSchedule>, now: int, id: Id)
    requires id in t.rows && ParseSchedule(tz, t.rows[id].own).Some?
    ensures Apply(tz, t, SetGlobal(s), now).rows[id] == t.rows[id]
    ensures RuleAfter(tz, t, SetGlobal(s), now, id) == RuleOf(tz, t.rows[id], t.global)
  {
  }

  /** No table operation moves the start of a running window, so the usage counted for a key is the
      same right after it: an exhausted key stays exhausted, an open one stays open. */
  lemma OperationKeepsUsage(tz: TzDb, t: Table, op: Op, now: int, id: Id, period: Period, log: seq<QuotaRun.Entry>, of: Option<string>)
    requires Checked(tz, op) && id in t.rows && id in Apply(tz, t, op, now).rows
    requires op.Create? ==> op.id !in t.rows
    requires Settled(tz, RuleOf(tz, t.rows[id], t.global), now)
    ensures var before := CalcQuotaWindow(tz, period, RuleOf(tz, t.rows[id], t.global), now).start;
            var after := CalcQuotaWindow(tz, period, RuleAfter(tz, t, op, now, id), now).start;
            after == before && QuotaRun.Usage(log, of, after) == QuotaRun.Usage(log, of, before)
  {
    OperationIsScheduleChange(tz, t, op, now, id);
    ChangeKeepsStart(tz, period, RuleOf(tz, t.rows[id], t.global), RuleAfter(tz, t, op, now, id).schedule, now);
  }

  // What an administrator asked for is what the table holds.

  predicate HasAccess(row: Row, access: Access) {
    && row.access.groups == access.groups && row.access.allowed == access.allowed
    && row.access.mode == if access.mode != "" then access.mode
                          else if access.groups != [] then "group"
                          else if access.allowed != [] then "custom"
                          else "all"
  }

  /** The row has the limit, unless that is negative, and the period, unless that is the empty word. */
  predicate HasLimits(row: Row, limit: int, period: Period, mode: QuotaMode) {
    && row.limits.limit == (if limit >= 0 then limit else 0)
    && row.limits.period == (if period == Other("") then Other("none") else period)
    && row.limits.mode == mode
  }

  /** The row has the settings of an update, and its former one for each that the update leaves out. */
  predicate HasSettings(was: Row, row: Row, u: KeyUpdate) {
    && row.name == u.name && row.raw == was.raw && row.active == was.active && HasAccess(row, u.access)
    && (u.limit.Some? ==> row.limits.limit == if u.limit.value >= 0 then u.limit.value else 0)
    && (u.limit.None? ==> row.limits.limit == was.limits.limit)
    && (u.period.Some? ==> row.limits.period == if u.period.value == Other("") then Other("none") else u.period.value)
    && (u.period.None? ==> row.limits.period == was.limits.period)
    && row.limits.mode == match u.mode case Some(mode) => mode case None => was.limits.mode
  }

  predicate HasSchedule(tz: TzDb, was: Row, row: Row, change: Option<ScheduleChange>) {
    match change
    case None => row.own == was.own && row.pins == was.pins
    case Some(Clear) => row.own.Empty?
    case Some(Set(Some(schedule))) => row.own == Readable(schedule)
    case Some(Set(None)) => ParseSchedule(tz, row.own) == ParseSchedule(tz, was.own)
  }

  /** Nothing but one key's row and model quotas has changed. */
  predicate SparesOthers(t: Table, t': Table, id: Id) {
    && t'.global == t.global && t'.rows - {id} == t.rows - {id} && t'.quotas - {id} == t.quotas - {id}
  }

  lemma UpdateSaves(tz: TzDb, t: Table, id: Id, u: KeyUpdate, now: int)
    requires id in t.rows
    ensures var t' := Apply(tz, t, Update(id, u), now);
            && t'.rows.Keys == t.rows.Keys && HasSettings(t.rows[id], t'.rows[id], u) && HasSchedule(tz, t.rows[id], t'.rows[id], u.schedule)
            && QuotasOf(t', id) == (match u.quotas case Some(quotas) => quotas case None => QuotasOf(t, id))
            && SparesOthers(t, t', id)
  {
    var row, row' := t.rows[id], UpdatedRow(tz, t.rows[id], u, t.global, now);
    if u.schedule.Some? {
      assert row'.own == RescheduledRow(tz, row, u.schedule.value, t.global, now).own;
    }
  }

  lemma OthersSpared(tz: TzDb, t: Table, id: Id, limit: int, period: Period, active: bool, row: Row, quotas: map<string, ModelQuota>, now: int)
    ensures SparesOthers(t, Apply(tz, t, SetQuota(id, limit, period), now), id)
    ensures SparesOthers(t, Apply(tz, t, Toggle(id, active), now), id)
    ensures SparesOthers(t, Apply(tz, t, Create(id, row, quotas), now), id)
    ensures SparesOthers(t, Apply(tz, t, Delete(id), now), id)
  {
  }

  lemma QuotaSaves(tz: TzDb, t: Table, id: Id, limit: int, period: Period, now: int)
    requires id in t.rows
    ensures var t' := Apply(tz, t, SetQuota(id, limit, period), now);
            && t'.rows.Keys == t.rows.Keys && HasLimits(t'.rows[id], limit, period, t.rows[id].limits.mode)
            && t'.rows[id].(limits := t.rows[id].limits) == t.rows[id] && t'.quotas == t.quotas
  {
  }

  /** The schedule operations touch schedules and pins only. */
  lemma ScheduleEditsSpareRest(tz: TzDb, t: Table, s: Option<ResetSchedule>, now: int, id: Id)
    requires id in t.rows
    ensures var t' := Apply(tz, t, SetGlobal(s), now);
            && t'.rows.Keys == t.rows.Keys && t'.quotas == t.quotas && t'.global == s
            && t'.rows[id].(pins := t.rows[id].pins) == t.rows[id]
    ensures var t' := Apply(tz, t, ClearOverrides, now);
            && t'.rows.Keys == t.rows.Keys && t'.quotas == t.quotas && t'.global == t.global
            && t'.rows[id].(own := t.rows[id].own, pins := t.rows[id].pins) == t.rows[id] && t'.rows[id].own.Empty?
  {
  }

  // Runs of the whole table: the operations, the reload of the cache after them, the clock, and the requests
  // of all keys.

  /** A row of the traffic log. */
  datatype LogRow = LogRow(key: Id, entry: QuotaRun.Entry)

  /** What a request was validated as, and the last instant at which that was known to be stored. */
  datatype Ticket = Ticket(row: Row, quotas: map<string, ModelQuota>, rule: ResetRule, at: int)

  datatype OldTable = OldTable(table: Table, at: int)

  /** `stale` is the table that the cache still shows after an operation, until it is reloaded. For each key,
      `waiting` are its requests validated and not yet checked, `inFlight` the models of its requests admitted
      and not yet recorded. */
  datatype TableState = TableState(table: Table, stale: Option<OldTable>, now: int, log: seq<LogRow>,
                                   waiting: map<Id, seq<Ticket>>, inFlight: map<Id, seq<string>>)

  /** Admits: the w-th waiting request of a key is let through for a model, the quota `found` for it having
      been checked if the key has one per model. Records: the k-th request of those in flight is recorded. */
  datatype TableEvent =
    | Passes(t: int)
    | Does(op: Op)
    | Reloads
    | Validates(id: Id)
    | Admits(id: Id, w: nat, model: string, found: Option<string>)
    | Records(id: Id, k: nat, tokens: nat)

  datatype TableRun = TableRun(states: seq<TableState>, events: seq<TableEvent>)

  function KeyLog(log: seq<LogRow>, id: Id): seq<QuotaRun.Entry> {
    if log == [] then []
    else KeyLog(log[..|log| - 1], id) + if log[|log| - 1].key == id then [log[|log| - 1].entry] else []
  }

  function InFlight(s: TableState, id: Id): seq<string> {
    if id in s.inFlight then s.inFlight[id] else []
  }

  function Waiting(s: TableState, id: Id): seq<Ticket> {
    if id in s.waiting then s.waiting[id] else []
  }

  function TicketOf(tz: TzDb, t: Table, id: Id, at: int): Ticket
    requires id in t.rows
  {
    Ticket(t.rows[id], QuotasOf(t, id), RuleOf(tz, t.rows[id], t.global), at)
  }

  /** What a key is validated as: its entry in the cache, which may lag behind the table, or its row. */
  function Shown(tz: TzDb, s: TableState, id: Id): Option<Ticket> {
    if s.stale.Some? && id in s.stale.value.table.rows then Some(TicketOf(tz, s.stale.value.table, id, s.stale.value.at))
    else if id in s.table.rows then Some(TicketOf(tz, s.table, id, s.now))
    else None
  }

  function SnapshotOf(k: Ticket): QuotaRun.Snapshot {
    QuotaRun.Snapshot(k.rule, k.at)
  }

  function Snapshots(tickets: seq<Ticket>): (snapshots: seq<QuotaRun.Snapshot>)
    ensures |snapshots| == |tickets| && forall w :: 0 <= w < |tickets| ==> snapshots[w] == SnapshotOf(tickets[w])
  {
    seq(|tickets|, w requires 0 <= w < |tickets| => SnapshotOf(tickets[w]))
  }

  function KeyStale(tz: TzDb, s: TableState, id: Id): Option<QuotaRun.Snapshot> {
    if s.stale.Some? && id in s.stale.value.table.rows then Some(SnapshotOf(TicketOf(tz, s.stale.value.table, id, s.stale.value.at)))
    else None
  }

  function KeyState(tz: TzDb, s: TableState, id: Id): QuotaRun.State
    requires id in s.table.rows
  {
    QuotaRun.State(RuleOf(tz, s.table.rows[id], s.table.global), KeyStale(tz, s, id), s.now, KeyLog(s.log, id),
                   Snapshots(Waiting(s, id)), InFlight(s, id))
  }

  function KeyQuota(limits: Limits): QuotaRun.Quota {
    QuotaRun.Quota(limits.period, if limits.limit < 0 then 0 else limits.limit, None)
  }

  /** A stored quota that equals the model up to case, if there is one. */
  predicate IsFound(quotas: map<string, ModelQuota>, model: string, found: Option<string>, fold: char -> char) {
    match found
    case None => forall q :: q in quotas ==> !EqualFold(q, model, fold)
    case Some(q) => q in quotas && EqualFold(q, model, fold)
  }

  /** The proxy lets a request through: the quota it was validated with, or the one of those found for the
      model, is not used up. Usage of a model is summed under the request's own spelling. */
  predicate Serves(tz: TzDb, fold: char -> char, s: TableState, id: Id, k: Ticket, model: string, found: Option<string>) {
    match k.row.limits.mode
    case PerKey => QuotaRun.MayAdmit(tz, KeyQuota(k.row.limits), KeyLog(s.log, id), s.now, SnapshotOf(k), model)
    case PerModel =>
      model != "" ==>
        && IsFound(k.quotas, model, found, fold)
        && (found.Some? ==>
              var quota := k.quotas[found.value];
              QuotaRun.Usage(KeyLog(s.log, id), Some(model), QuotaRun.SeenStart(tz, quota.period, SnapshotOf(k), s.now)) < quota.limit)
  }

  ghost predicate TableStep(tz: TzDb, fold: char -> char, s: TableState, e: TableEvent, s': TableState) {
    match e
    case Passes(t) => s.now <= t && s' == s.(now := t)
    case Does(op) =>
      && Checked(tz, op)
      && (op.Create? ==> op.id !in s.table.rows)
      && s' == s.(table := Apply(tz, s.table, op, s.now),
                  stale := if s.stale.Some? then s.stale else Some(OldTable(s.table, s.now)))
    case Reloads => s' == s.(stale := None)
    case Validates(id) =>
      && Shown(tz, s, id).Some? && Shown(tz, s, id).value.row.active
      && s' == s.(waiting := s.waiting[id := Waiting(s, id) + [Shown(tz, s, id).value]])
    case Admits(id, w, model, found) =>
      && w < |Waiting(s, id)| && Serves(tz, fold, s, id, Waiting(s, id)[w], model, found)
      && s' == s.(waiting := s.waiting[id := QuotaRun.Without(Waiting(s, id), w)],
                  inFlight := s.inFlight[id := InFlight(s, id) + [model]])
    case Records(id, k, tokens) =>
      && k < |InFlight(s, id)|
      && s' == s.(inFlight := s.inFlight[id := QuotaRun.Without(InFlight(s, id), k)],
                  log := s.log + [LogRow(id, QuotaRun.Entry(QuotaRun.ModelOf(InFlight(s, id)[k]), tokens, s.now))])
  }

  ghost predicate IsTableRun(tz: TzDb, fold: char -> char, run: TableRun) {
    && |run.states| == |run.events| + 1
    && forall i {:trigger run.events[i]} :: 0 <= i < |run.events| ==>
         TableStep(tz, fold, run.states[i], run.events[i], run.states[i + 1])
  }

  /** What an event means to one key: to the others a validation, an admission or a record is nothing. */
  function KeyEvent(tz: TzDb, s: TableState, e: TableEvent, s': TableState, id: Id): QuotaRun.Event
    requires id in s'.table.rows
  {
    match e
    case Passes(t) => QuotaRun.Tick(t)
    case Does(op) => QuotaRun.Edit(EffectiveOf(tz, s'.table.rows[id], s'.table.global))
    case Reloads => QuotaRun.Reload
    case Validates(other) => if other == id then QuotaRun.Validate else QuotaRun.Tick(s.now)
    case Admits(other, w, model, _) => if other == id then QuotaRun.Admit(w, model) else QuotaRun.Tick(s.now)
    case Records(other, k, tokens) => if other == id then QuotaRun.Record(k, tokens) else QuotaRun.Tick(s.now)
  }

  /** A key's settings limit it by this quota. A quota on a model has to be the only stored one that equals
      its model up to case. A limit of 0 stands for no quota. */
  predicate InForce(fold: char -> char, row: Row, quotas: map<string, ModelQuota>, quota: QuotaRun.Quota) {
    quota.limit > 0 ==>
      match quota.model
      case None => row.limits.mode.PerKey? && KeyQuota(row.limits) == quota
      case Some(q) =>
        && row.limits.mode.PerModel? && q != ""
        && q in quotas && quotas[q] == ModelQuota(quota.limit, quota.period)
        && forall r :: r in quotas && EqualFold(r, q, fold) ==> r == q
  }

  predicate Limited(fold: char -> char, t: Table, id: Id, quota: QuotaRun.Quota) {
    id in t.rows && InForce(fold, t.rows[id], QuotasOf(t, id), quota)
  }

  /** The quota is in force in the table, in the cache, and for the requests under way. */
  ghost predicate UnderQuota(fold: char -> char, s: TableState, id: Id, quota: QuotaRun.Quota) {
    && Limited(fold, s.table, id, quota)
    && (s.stale.Some? ==> Limited(fold, s.stale.value.table, id, quota))
    && forall w :: 0 <= w < |Waiting(s, id)| ==> InForce(fold, Waiting(s, id)[w].row, Waiting(s, id)[w].quotas, quota)
  }

  lemma KeyLogAppend(log: seq<LogRow>, row: LogRow, id: Id)
    ensures KeyLog(log + [row], id) == KeyLog(log, id) + if row.key == id then [row.entry] else []
  {
    assert (log + [row])[..|log|] == log;
  }

  /** A request let through under the settings it was validated with passes the test of every quota that
      these put in force. */
  lemma AdmitIsKeyStep(tz: TzDb, fold: char -> char, quota: QuotaRun.Quota, s: TableState, id: Id, k: Ticket, model: string, found: Option<string>)
    requires CaseMapping(fold) && Serves(tz, fold, s, id, k, model, found) && InForce(fold, k.row, k.quotas, quota)
    ensures QuotaRun.MayAdmit(tz, quota, KeyLog(s.log, id), s.now, SnapshotOf(k), model)
  {
    hide CaseMapping, NoCase, KeyLog, QuotaRun.SeenStart, SnapshotOf;
    if quota.limit > 0 && quota.model.Some? && QuotaRun.Covers(quota.model, QuotaRun.ModelOf(model)) {
      var q := quota.model.value;
      NoCaseAndMapping(model, q, fold);
      assert found == Some(q);
      QuotaRun.UsageUpToCase(KeyLog(s.log, id), model, q, QuotaRun.SeenStart(tz, quota.period, SnapshotOf(k), s.now));
    }
  }

  lemma DoesIsKeyStep(tz: TzDb, fold: char -> char, quota: QuotaRun.Quota, s: TableState, e: TableEvent, s': TableState, id: Id)
    requires TableStep(tz, fold, s, e, s') && e.Does? && UnderQuota(fold, s, id, quota) && id in s'.table.rows
    ensures QuotaRun.Step(tz, quota, KeyState(tz, s, id), KeyEvent(tz, s, e, s', id), KeyState(tz, s', id))
  {
    OperationIsScheduleChange(tz, s.table, e.op, s.now, id);
    hide Apply, Checked, RuleOf, ChangeSchedule, InForce, KeyLog, Snapshots;
  }

  lemma TakeSnapshot(tickets: seq<Ticket>, w: nat)
    requires w < |tickets|
    ensures Snapshots(QuotaRun.Without(tickets, w)) == QuotaRun.Without(Snapshots(tickets), w)
  {
    hide SnapshotOf;
  }

  lemma RequestIsKeyStep(tz: TzDb, fold: char -> char, quota: QuotaRun.Quota, s: TableState, e: TableEvent, s': TableState, id: Id)
    requires CaseMapping(fold) && TableStep(tz, fold, s, e, s') && UnderQuota(fold, s, id, quota)
    requires e.Admits? && e.id == id
    ensures QuotaRun.Step(tz, quota, KeyState(tz, s, id), KeyEvent(tz, s, e, s', id), KeyState(tz, s', id))
  {
    AdmitIsKeyStep(tz, fold, quota, s, id, Waiting(s, id)[e.w], e.model, e.found);
    TakeSnapshot(Waiting(s, id), e.w);
    hide CaseMapping, RuleOf, InForce, Serves, KeyLog, QuotaRun.MayAdmit, SnapshotOf, KeyStale;
  }

  lemma RecordIsKeyStep(tz: TzDb, fold: char -> char, quota: QuotaRun.Quota, s: TableState, e: TableEvent, s': TableState, id: Id)
    requires TableStep(tz, fold, s, e, s') && e.Records? && id in s.table.rows
    ensures QuotaRun.Step(tz, quota, KeyState(tz, s, id), KeyEvent(tz, s, e, s', id), KeyState(tz, s', id))
  {
    KeyLogAppend(s.log, s'.log[|s.log|], id);
    hide RuleOf, KeyLog, SnapshotOf, Snapshots, KeyStale;
  }

  lemma ValidateIsKeyStep(tz: TzDb, fold: char -> char, quota: QuotaRun.Quota, s: TableState, e: TableEvent, s': TableState, id: Id)
    requires TableStep(tz, fold, s, e, s') && e.Validates? && e.id == id && id in s.table.rows
    ensures QuotaRun.Step(tz, quota, KeyState(tz, s, id), KeyEvent(tz, s, e, s', id), KeyState(tz, s', id))
  {
    hide RuleOf, KeyLog, QuotasOf;
    assert KeyState(tz, s', id).waiting == KeyState(tz, s, id).waiting + [QuotaRun.Seen(KeyState(tz, s, id))];
  }

  /** What happens to other keys is nothing to this one. */
  lemma OtherIsKeyStep(tz: TzDb, fold: char -> char, quota: QuotaRun.Quota, s: TableState, e: TableEvent, s': TableState, id: Id)
    requires TableStep(tz, fold, s, e, s') && id in s.table.rows
    requires e.Passes? || e.Reloads? || ((e.Validates? || e.Admits?) && e.id != id)
    ensures QuotaRun.Step(tz, quota, KeyState(tz, s, id), KeyEvent(tz, s, e, s', id), KeyState(tz, s', id))
  {
    hide RuleOf, KeyLog, SnapshotOf, Snapshots, Serves, Shown;
  }

  lemma TableStepIsKeyStep(tz: TzDb, fold: char -> char, quota: QuotaRun.Quota, s: TableState, e: TableEvent, s': TableState, id: Id)
    requires CaseMapping(fold) && TableStep(tz, fold, s, e, s') && UnderQuota(fold, s, id, quota) && id in s'.table.rows
    ensures QuotaRun.Step(tz, quota, KeyState(tz, s, id), KeyEvent(tz, s, e, s', id), KeyState(tz, s', id))
  {
    assert id in s.table.rows;
    hide CaseMapping, TableStep, UnderQuota, KeyState, KeyEvent, QuotaRun.Step;
    if e.Does? {
      DoesIsKeyStep(tz, fold, quota, s, e, s', id);
    } else if e.Records? {
      RecordIsKeyStep(tz, fold, quota, s, e, s', id);
    } else if e.Admits? && e.id == id {
      RequestIsKeyStep(tz, fold, quota, s, e, s', id);
    } else if e.Validates? && e.id == id {
      ValidateIsKeyStep(tz, fold, quota, s, e, s', id);
    } else {
      OtherIsKeyStep(tz, fold, quota, s, e, s', id);
    }
  }

  /** The key is there throughout, limited by this quota. */
  ghost predicate KeyStays(fold: char -> char, run: TableRun, id: Id, quota: QuotaRun.Quota) {
    && run.states != [] && UnderQuota(fold, run.states[0], id, quota)
    && forall i :: 0 <= i < |run.states| ==> Limited(fold, run.states[i].table, id, quota)
  }

  lemma StaysUnderStep(tz: TzDb, fold: char -> char, quota: QuotaRun.Quota, s: TableState, e: TableEvent, s': TableState, id: Id)
    requires TableStep(tz, fold, s, e, s') && UnderQuota(fold, s, id, quota) && Limited(fold, s'.table, id, quota)
    ensures UnderQuota(fold, s', id, quota)
  {
    hide InForce, Apply, Checked, Serves, QuotasOf;
    var before, after := Waiting(s, id), Waiting(s', id);
    if e.Validates? && e.id == id {
      assert InForce(fold, Shown(tz, s, id).value.row, Shown(tz, s, id).value.quotas, quota);
      assert after == before + [Shown(tz, s, id).value];
    } else if e.Admits? && e.id == id {
      assert after == QuotaRun.Without(before, e.w);
    } else {
      assert after == before;
    }
  }

  lemma {:induction false} StaysUnder(tz: TzDb, fold: char -> char, quota: QuotaRun.Quota, run: TableRun, id: Id, j: nat)
    requires IsTableRun(tz, fold, run) && KeyStays(fold, run, id, quota) && j < |run.states|
    ensures UnderQuota(fold, run.states[j], id, quota)
  {
    if 0 < j {
      hide TableStep, UnderQuota, Limited;
      StaysUnder(tz, fold, quota, run, id, j - 1);
      assert TableStep(tz, fold, run.states[j - 1], run.events[j - 1], run.states[j - 1 + 1]);
      StaysUnderStep(tz, fold, quota, run.states[j - 1], run.events[j - 1], run.states[j], id);
    }
  }

  ghost predicate IsKeyRun(tz: TzDb, run: TableRun, id: Id, keyRun: QuotaRun.Run) {
    && |keyRun.states| == |run.states| == |run.events| + 1 == |keyRun.events| + 1
    && (forall i :: 0 <= i < |run.states| ==> id in run.states[i].table.rows && keyRun.states[i] == KeyState(tz, run.states[i], id))
    && (forall i {:trigger run.events[i]} {:trigger keyRun.events[i]} :: 0 <= i < |run.events| ==>
          keyRun.events[i] == KeyEvent(tz, run.states[i], run.events[i], run.states[i + 1], id))
  }

  function KeyRun(tz: TzDb, run: TableRun, id: Id): QuotaRun.Run
    requires |run.states| == |run.events| + 1 && forall i :: 0 <= i < |run.states| ==> id in run.states[i].table.rows
  {
    QuotaRun.Run(seq(|run.states|, i requires 0 <= i < |run.states| => KeyState(tz, run.states[i], id)),
                 seq(|run.events|, i requires 0 <= i < |run.events| => KeyEvent(tz, run.states[i], run.events[i], run.states[i + 1], id)))
  }

  lemma KeyRunIs(tz: TzDb, run: TableRun, id: Id)
    requires |run.states| == |run.events| + 1 && forall i :: 0 <= i < |run.states| ==> id in run.states[i].table.rows
    ensures IsKeyRun(tz, run, id, KeyRun(tz, run, id))
  {
    hide KeyState, KeyEvent;
    var keyRun := KeyRun(tz, run, id);
    assert forall i :: 0 <= i < |run.states| ==> keyRun.states[i] == KeyState(tz, run.states[i], id);
    forall i | 0 <= i < |run.events|
      ensures keyRun.events[i] == KeyEvent(tz, run.states[i], run.events[i], run.states[i + 1], id)
    {
    }
    hide KeyRun;
  }

  /** A run of the table is, for every key that stays in it, a run of that key alone, with the same usage,
      requests waiting and in flight, and admissions: what holds for all runs of one key holds for every key of
      the table. */
  lemma TableRunIsKeyRun(tz: TzDb, fold: char -> char, quota: QuotaRun.Quota, run: TableRun, id: Id) returns (keyRun: QuotaRun.Run)
    requires CaseMapping(fold) && IsTableRun(tz, fold, run) && KeyStays(fold, run, id, quota)
    ensures QuotaRun.IsRun(tz, quota, keyRun) && IsKeyRun(tz, run, id, keyRun)
  {
    hide KeyState, KeyEvent, KeyRun, TableStep, InForce, UnderQuota, QuotaRun.Step, CaseMapping;
    keyRun := KeyRun(tz, run, id);
    KeyRunIs(tz, run, id);
    forall i | 0 <= i < |keyRun.events|
      ensures QuotaRun.Step(tz, quota, keyRun.states[i], keyRun.events[i], keyRun.states[i + 1])
    {
      assert TableStep(tz, fold, run.states[i], run.events[i], run.states[i + 1]);
      StaysUnder(tz, fold, quota, run, id, i);
      TableStepIsKeyStep(tz, fold, quota, run.states[i], run.events[i], run.states[i + 1], id);
    }
  }

  /** Along every run of the table, in which any administrator edits any keys, the window starts of
      each key never move back and no past instant changes the window it was in. */
  lemma TableStartsAdvance(tz: TzDb, fold: char -> char, run: TableRun, id: Id, period: Period, i: nat, j: nat)
    requires Regular(tz) && CaseMapping(fold) && IsTableRun(tz, fold, run) && i <= j < |run.states|
    requires KeyStays(fold, run, id, QuotaRun.Quota(period, 0, None))
    requires QuotaRun.Sound(tz, KeyState(tz, run.states[0], id))
    ensures var a := CalcQuotaWindow(tz, period, RuleOf(tz, run.states[i].table.rows[id], run.states[i].table.global), run.states[i].now).start;
            var b := CalcQuotaWindow(tz, period, RuleOf(tz, run.states[j].table.rows[id], run.states[j].table.global), run.states[j].now).start;
            a <= b && (b <= run.states[i].now <==> b == a)
  {
    var quota := QuotaRun.Quota(period, 0, None);
    var keyRun := TableRunIsKeyRun(tz, fold, quota, run, id);
    hide IsTableRun, QuotaRun.IsRun, QuotaRun.Sound, Regular, CaseMapping, RuleOf, CalcQuotaWindow;
    QuotaRun.StartsAdvance(tz, quota, keyRun, period, i, j);
  }

  /** The covered tokens recorded for a key before step j while its window started at `start`. */
  function RecordedFor(tz: TzDb, run: TableRun, id: Id, period: Period, of: Option<string>, start: int, j: nat): nat
    requires j <= |run.events| < |run.states|
    requires forall i :: 0 <= i < |run.states| ==> id in run.states[i].table.rows
  {
    if j == 0 then 0
    else
      RecordedFor(tz, run, id, period, of, start, j - 1)
      + RecordedForBy(tz, run.states[j - 1], run.events[j - 1], id, period, of, start)
  }

  function RecordedForBy(tz: TzDb, s: TableState, e: TableEvent, id: Id, period: Period, of: Option<string>, start: int): nat
    requires id in s.table.rows
  {
    if e.Records? && e.id == id && e.k < |InFlight(s, id)| && QuotaRun.Covers(of, QuotaRun.ModelOf(InFlight(s, id)[e.k]))
       && QuotaRun.Start(tz, period, KeyState(tz, s, id)) == start
    then e.tokens else 0
  }

  lemma RecordedForStep(tz: TzDb, s: TableState, e: TableEvent, s': TableState, id: Id, period: Period, of: Option<string>, start: int)
    requires id in s.table.rows && id in s'.table.rows
    ensures RecordedForBy(tz, s, e, id, period, of, start)
         == QuotaRun.RecordedBy(tz, KeyState(tz, s, id), KeyEvent(tz, s, e, s', id), period, of, start)
  {
    hide QuotaRun.Covers, QuotaRun.Start;
  }

  lemma {:induction false} RecordedForIsRecordedIn(tz: TzDb, run: TableRun, id: Id, keyRun: QuotaRun.Run, period: Period,
                                                   of: Option<string>, start: int, j: nat)
    requires IsKeyRun(tz, run, id, keyRun) && j <= |run.events|
    ensures RecordedFor(tz, run, id, period, of, start, j) == QuotaRun.RecordedIn(tz, keyRun, period, of, start, j)
    decreases j
  {
    hide KeyState, KeyEvent, RecordedForBy, QuotaRun.RecordedBy;
    if 0 < j {
      RecordedForIsRecordedIn(tz, run, id, keyRun, period, of, start, j - 1);
      assert keyRun.events[j - 1] == KeyEvent(tz, run.states[j - 1], run.events[j - 1], run.states[j - 1 + 1], id);
      RecordedForStep(tz, run.states[j - 1], run.events[j - 1], run.states[j], id, period, of, start);
    }
  }

  /** Over every run of the table the usage of each key, in all or of one model, is what was recorded for it
      while its present window was running, whatever schedules and settings were edited meanwhile. */
  lemma TableUsageIsWindowTotal(tz: TzDb, fold: char -> char, run: TableRun, id: Id, period: Period, of: Option<string>, j: nat)
    requires Regular(tz) && CaseMapping(fold) && IsTableRun(tz, fold, run) && j < |run.states|
    requires KeyStays(fold, run, id, QuotaRun.Quota(period, 0, None))
    requires QuotaRun.Sound(tz, KeyState(tz, run.states[0], id)) && KeyLog(run.states[0].log, id) == []
    ensures QuotaRun.WindowUsage(tz, period, of, KeyState(tz, run.states[j], id))
         == RecordedFor(tz, run, id, period, of, QuotaRun.Start(tz, period, KeyState(tz, run.states[j], id)), j)
  {
    var quota := QuotaRun.Quota(period, 0, None);
    var keyRun := TableRunIsKeyRun(tz, fold, quota, run, id);
    RecordedForIsRecordedIn(tz, run, id, keyRun, period, of, QuotaRun.Start(tz, period, KeyState(tz, run.states[j], id)), j);
    assert keyRun.states[0].log == KeyLog(run.states[0].log, id);
    hide IsTableRun, QuotaRun.IsRun, QuotaRun.Sound, Regular, CaseMapping, KeyLog, QuotaRun.Start, RecordedFor, QuotaRun.RecordedIn;
    QuotaRun.UsageIsWindowTotal(tz, quota, keyRun, period, of, j);
  }

  /** A request of the key that the quota covers is admitted in time, or under a rule that does not count from
      later than the running window. */
  predicate TimelyFor(tz: TzDb, s: TableState, e: TableEvent, id: Id, quota: QuotaRun.Quota)
    requires id in s.table.rows
  {
    e.Admits? && e.id == id && e.w < |Waiting(s, id)| && QuotaRun.Covers(quota.model, QuotaRun.ModelOf(e.model)) ==>
      var k := SnapshotOf(Waiting(s, id)[e.w]);
      QuotaRun.InTime(tz, quota.period, k, s.now) || QuotaRun.NotAhead(tz, quota.period, KeyState(tz, s, id), k)
  }

  ghost predicate AllTimelyFor(tz: TzDb, run: TableRun, id: Id, quota: QuotaRun.Quota) {
    && |run.states| == |run.events| + 1
    && forall i :: 0 <= i < |run.events| ==> id in run.states[i].table.rows && TimelyFor(tz, run.states[i], run.events[i], id, quota)
  }

  lemma TimelyForIsTimely(tz: TzDb, quota: QuotaRun.Quota, s: TableState, e: TableEvent, s': TableState, id: Id)
    requires id in s.table.rows && id in s'.table.rows && TimelyFor(tz, s, e, id, quota)
    ensures QuotaRun.Timely(tz, quota, KeyState(tz, s, id), KeyEvent(tz, s, e, s', id))
  {
    hide QuotaRun.Covers, QuotaRun.InTime, QuotaRun.NotAhead, RuleOf, KeyLog;
  }

  /** All covered tokens recorded for a key before step j. */
  function RecordedSoFarFor(run: TableRun, id: Id, of: Option<string>, j: nat): nat
    requires j <= |run.events| < |run.states|
  {
    if j == 0 then 0 else RecordedSoFarFor(run, id, of, j - 1) + TokensFor(run.states[j - 1], run.events[j - 1], id, of)
  }

  function TokensFor(s: TableState, e: TableEvent, id: Id, of: Option<string>): nat {
    if e.Records? && e.id == id && e.k < |InFlight(s, id)| && QuotaRun.Covers(of, QuotaRun.ModelOf(InFlight(s, id)[e.k])) then e.tokens
    else 0
  }

  lemma TokensForIsTokensOf(tz: TzDb, s: TableState, e: TableEvent, s': TableState, id: Id, of: Option<string>)
    requires id in s.table.rows && id in s'.table.rows
    ensures TokensFor(s, e, id, of) == QuotaRun.TokensOf(KeyState(tz, s, id), KeyEvent(tz, s, e, s', id), of)
  {
    hide QuotaRun.Covers, RuleOf, KeyLog;
  }

  lemma {:induction false} SoFarForIsSoFar(tz: TzDb, run: TableRun, id: Id, keyRun: QuotaRun.Run, of: Option<string>, j: nat)
    requires IsKeyRun(tz, run, id, keyRun) && j <= |run.events|
    ensures RecordedSoFarFor(run, id, of, j) == QuotaRun.RecordedSoFar(keyRun, of, j)
    decreases j
  {
    hide KeyState, KeyEvent, TokensFor, QuotaRun.TokensOf;
    if 0 < j {
      SoFarForIsSoFar(tz, run, id, keyRun, of, j - 1);
      assert keyRun.events[j - 1] == KeyEvent(tz, run.states[j - 1], run.events[j - 1], run.states[j - 1 + 1], id);
      TokensForIsTokensOf(tz, run.states[j - 1], run.events[j - 1], run.states[j], id, of);
    }
  }

  /** Over every run of the table a key's total usage is everything recorded for it so far. */
  lemma TableTotalCountsEverything(tz: TzDb, fold: char -> char, run: TableRun, id: Id, period: Period, of: Option<string>, j: nat)
    requires Regular(tz) && CaseMapping(fold) && IsTableRun(tz, fold, run) && j < |run.states| && !Scheduled(period)
    requires KeyStays(fold, run, id, QuotaRun.Quota(period, 0, None))
    requires QuotaRun.Sound(tz, KeyState(tz, run.states[0], id)) && KeyLog(run.states[0].log, id) == []
    ensures QuotaRun.WindowUsage(tz, period, of, KeyState(tz, run.states[j], id)) == RecordedSoFarFor(run, id, of, j)
  {
    var quota := QuotaRun.Quota(period, 0, None);
    var keyRun := TableRunIsKeyRun(tz, fold, quota, run, id);
    SoFarForIsSoFar(tz, run, id, keyRun, of, j);
    assert keyRun.states[0].log == KeyLog(run.states[0].log, id);
    hide IsTableRun, QuotaRun.IsRun, QuotaRun.Sound, Regular, CaseMapping, KeyLog, QuotaRun.Start, RecordedSoFarFor, QuotaRun.RecordedSoFar;
    QuotaRun.TotalCountsEverything(tz, quota, keyRun, period, of, j);
  }

  /** Under a quota in force a covered request is let through exactly if the usage counted from the snapshot's
      window is below the limit. */
  lemma ServesIs(tz: TzDb, fold: char -> char, quota: QuotaRun.Quota, s: TableState, id: Id, k: Ticket, model: string, found: Option<string>)
    requires CaseMapping(fold) && InForce(fold, k.row, k.quotas, quota) && QuotaRun.Enforced(quota)
    requires QuotaRun.Covers(quota.model, QuotaRun.ModelOf(model)) && (quota.model.Some? ==> IsFound(k.quotas, model, found, fold))
    ensures Serves(tz, fold, s, id, k, model, found)
       <==> QuotaRun.Usage(KeyLog(s.log, id), quota.model, QuotaRun.SeenStart(tz, quota.period, SnapshotOf(k), s.now)) < quota.limit
  {
    hide CaseMapping, NoCase, KeyLog, QuotaRun.SeenStart, SnapshotOf, QuotaRun.Usage;
    if quota.model.Some? {
      var q := quota.model.value;
      NoCaseAndMapping(model, q, fold);
      assert found == Some(q);
      QuotaRun.UsageUpToCase(KeyLog(s.log, id), model, q, QuotaRun.SeenStart(tz, quota.period, SnapshotOf(k), s.now));
    }
  }

  /** A request that the quota covers never gets past a used-up window, on every log, exactly if the rule it was
      validated with does not count from later than that window. */
  lemma ServesStrictExactly(tz: TzDb, fold: char -> char, quota: QuotaRun.Quota, s: TableState, id: Id, k: Ticket, model: string, found: Option<string>)
    requires CaseMapping(fold) && id in s.table.rows && InForce(fold, k.row, k.quotas, quota) && QuotaRun.Enforced(quota)
    requires QuotaRun.Covers(quota.model, QuotaRun.ModelOf(model)) && (quota.model.Some? ==> IsFound(k.quotas, model, found, fold))
    ensures (forall log :: Serves(tz, fold, s.(log := log), id, k, model, found) ==>
                             QuotaRun.Used(tz, quota, KeyState(tz, s.(log := log), id)) < quota.limit)
       <==> QuotaRun.NotAhead(tz, quota.period, KeyState(tz, s, id), SnapshotOf(k))
  {
    var seen := QuotaRun.SeenStart(tz, quota.period, SnapshotOf(k), s.now);
    var start := QuotaRun.Start(tz, quota.period, KeyState(tz, s, id));
    hide CaseMapping, InForce, IsFound, Serves, KeyLog, QuotaRun.Usage, QuotaRun.Covers, QuotaRun.SeenStart;
    forall log
      ensures Serves(tz, fold, s.(log := log), id, k, model, found) <==> QuotaRun.Usage(KeyLog(log, id), quota.model, seen) < quota.limit
      ensures QuotaRun.Used(tz, quota, KeyState(tz, s.(log := log), id)) == QuotaRun.Usage(KeyLog(log, id), quota.model, start)
    {
      ServesIs(tz, fold, quota, s.(log := log), id, k, model, found);
    }
    if seen <= start {
      forall log ensures QuotaRun.Usage(KeyLog(log, id), quota.model, start) <= QuotaRun.Usage(KeyLog(log, id), quota.model, seen) {
        QuotaRun.UsageShrinks(KeyLog(log, id), quota.model, seen, start);
      }
    } else {
      var entry := QuotaRun.Entry(quota.model, quota.limit, start);
      OneRowLog(id, entry);
      CoversItself(quota.model);
      QuotaRun.OneEntry(entry, quota.model, seen);
      QuotaRun.OneEntry(entry, quota.model, start);
      assert QuotaRun.Usage(KeyLog([LogRow(id, entry)], id), quota.model, seen) == 0;
    }
  }

  /** A limit takes effect: once a key is saved with a limit on all it does, and the cache reloaded, a request
      validated then is served exactly if the usage of the running window is below that limit. */
  lemma SavedLimitDecides(tz: TzDb, fold: char -> char, s: TableState, id: Id, u: KeyUpdate, s1: TableState, s2: TableState,
                          limit: int, period: Period, model: string, found: Option<string>)
    requires TableStep(tz, fold, s, Does(Update(id, u)), s1) && TableStep(tz, fold, s1, Reloads, s2) && id in s.table.rows
    requires u.mode == Some(PerKey) && u.limit == Some(limit) && u.period == Some(period)
    requires limit > 0 && period !in {Other("none"), Other("")}
    ensures id in s2.table.rows && Shown(tz, s2, id).Some?
    ensures Serves(tz, fold, s2, id, Shown(tz, s2, id).value, model, found)
       <==> QuotaRun.Usage(KeyLog(s2.log, id), None, QuotaRun.Start(tz, period, KeyState(tz, s2, id))) < limit
  {
    UpdateSaves(tz, s.table, id, u, s.now);
    hide Apply, RuleOf, KeyLog, QuotaRun.Usage, CalcQuotaWindow;
  }

  /** Without a limit, or with no period to count over, every request is served. */
  lemma SavedWithoutLimit(tz: TzDb, fold: char -> char, s: TableState, id: Id, u: KeyUpdate, s1: TableState, s2: TableState,
                          limit: int, period: Period, model: string, found: Option<string>)
    requires TableStep(tz, fold, s, Does(Update(id, u)), s1) && TableStep(tz, fold, s1, Reloads, s2) && id in s.table.rows
    requires u.mode == Some(PerKey) && u.limit == Some(limit) && u.period == Some(period)
    requires limit <= 0 || period in {Other("none"), Other("")}
    ensures Shown(tz, s2, id).Some? && Serves(tz, fold, s2, id, Shown(tz, s2, id).value, model, found)
  {
    UpdateSaves(tz, s.table, id, u, s.now);
    hide Apply, RuleOf, KeyLog, QuotaRun.Usage, CalcQuotaWindow;
  }

  /** Every operation can happen at any time, as long as the schedules it brings are valid ones and a created
      key is new. */
  lemma OperationsAreOpen(tz: TzDb, fold: char -> char, s: TableState, op: Op)
    requires op.SetGlobal? && op.schedule.Some? ==> Validate(tz, op.schedule.value)
    requires op.Update? && op.update.schedule.Some? && op.update.schedule.value.Set? && op.update.schedule.value.value.Some? ==>
               Validate(tz, op.update.schedule.value.value.value)
    requires op.Create? ==> op.id !in s.table.rows && (op.row.own.Readable? ==> Validate(tz, op.row.own.schedule))
    ensures exists s' :: TableStep(tz, fold, s, Does(op), s')
  {
    hide Apply, Validate;
    assert TableStep(tz, fold, s, Does(op), s.(table := Apply(tz, s.table, op, s.now),
                                               stale := if s.stale.Some? then s.stale else Some(OldTable(s.table, s.now))));
  }

  /** And so does a limit on one model, the only stored one that equals the model up to case. */
  lemma SavedModelLimitDecides(tz: TzDb, fold: char -> char, s: TableState, id: Id, u: KeyUpdate, s1: TableState, s2: TableState,
                               quotas: map<string, ModelQuota>, model: string)
    requires TableStep(tz, fold, s, Does(Update(id, u)), s1) && TableStep(tz, fold, s1, Reloads, s2) && id in s.table.rows
    requires u.mode == Some(PerModel) && u.quotas == Some(quotas) && model in quotas && model != ""
    requires forall q :: q in quotas && EqualFold(q, model, fold) ==> q == model
    ensures id in s2.table.rows && Shown(tz, s2, id).Some?
    ensures (exists found :: Serves(tz, fold, s2, id, Shown(tz, s2, id).value, model, found))
       <==> QuotaRun.Usage(KeyLog(s2.log, id), Some(model), QuotaRun.Start(tz, quotas[model].period, KeyState(tz, s2, id))) < quotas[model].limit
  {
    UpdateSaves(tz, s.table, id, u, s.now);
    hide Apply, RuleOf, KeyLog, QuotaRun.Usage, CalcQuotaWindow;
    if QuotaRun.Usage(KeyLog(s2.log, id), Some(model), QuotaRun.Start(tz, quotas[model].period, KeyState(tz, s2, id))) < quotas[model].limit {
      assert Serves(tz, fold, s2, id, Shown(tz, s2, id).value, model, Some(model));
    }
  }

  /** Switching a key takes effect: it can be validated afterwards exactly if it was switched on. */
  lemma ToggleDecides(tz: TzDb, fold: char -> char, s: TableState, id: Id, active: bool, s1: TableState, s2: TableState)
    requires TableStep(tz, fold, s, Does(Toggle(id, active)), s1) && TableStep(tz, fold, s1, Reloads, s2) && id in s.table.rows
    ensures (exists s3 :: TableStep(tz, fold, s2, Validates(id), s3)) <==> active
  {
    hide RuleOf, Serves;
    var ticket := Shown(tz, s2, id).value;
    if active {
      assert TableStep(tz, fold, s2, Validates(id), s2.(waiting := s2.waiting[id := Waiting(s2, id) + [ticket]]));
    }
  }

  lemma OneRowLog(id: Id, entry: QuotaRun.Entry)
    ensures KeyLog([LogRow(id, entry)], id) == [entry]
  {
    assert [] + [LogRow(id, entry)] == [LogRow(id, entry)];
    KeyLogAppend([], LogRow(id, entry), id);
  }

  lemma CoversItself(of: Option<string>)
    ensures QuotaRun.Covers(of, of)
  {
  }

  /** Once a key's quota is used up, no request it covers is let through in time until the window ends. */
  lemma TableExhaustedStaysClosed(tz: TzDb, fold: char -> char, quota: QuotaRun.Quota, run: TableRun, id: Id, i: nat, j: nat)
    requires Regular(tz) && CaseMapping(fold) && IsTableRun(tz, fold, run) && KeyStays(fold, run, id, quota) && i <= j < |run.events|
    requires QuotaRun.Sound(tz, KeyState(tz, run.states[0], id))
    requires QuotaRun.Enforced(quota) && QuotaRun.Used(tz, quota, KeyState(tz, run.states[i], id)) >= quota.limit
    requires QuotaRun.Start(tz, quota.period, KeyState(tz, run.states[j], id)) == QuotaRun.Start(tz, quota.period, KeyState(tz, run.states[i], id))
    requires TimelyFor(tz, run.states[j], run.events[j], id, quota)
    ensures run.events[j].Admits? && run.events[j].id == id ==> !QuotaRun.Covers(quota.model, QuotaRun.ModelOf(run.events[j].model))
  {
    var keyRun := TableRunIsKeyRun(tz, fold, quota, run, id);
    assert keyRun.events[j] == KeyEvent(tz, run.states[j], run.events[j], run.states[j + 1], id);
    hide IsTableRun, QuotaRun.IsRun, KeyStays, CaseMapping, Regular, QuotaRun.Sound, QuotaRun.Start, QuotaRun.Used, QuotaRun.Covers,
         QuotaRun.Timely, TimelyFor, KeyState;
    TimelyForIsTimely(tz, quota, run.states[j], run.events[j], run.states[j + 1], id);
    QuotaRun.ExhaustedStaysClosed(tz, quota, keyRun, i, j);
  }

  /** At most `requests` covered requests of the key in flight, of at most `tokens` each. */
  ghost predicate WithinKeyLoad(run: TableRun, id: Id, of: Option<string>, requests: nat, tokens: nat) {
    && |run.states| > |run.events|
    && (forall i :: 0 <= i < |run.states| ==> QuotaRun.Load(of, InFlight(run.states[i], id)) <= requests)
    && (forall i :: 0 <= i < |run.events| ==> SmallFor(run.states[i], run.events[i], id, of, tokens))
  }

  predicate SmallFor(s: TableState, e: TableEvent, id: Id, of: Option<string>, tokens: nat) {
    e.Records? && e.id == id && e.k < |InFlight(s, id)| && QuotaRun.Covers(of, QuotaRun.ModelOf(InFlight(s, id)[e.k])) ==>
      e.tokens <= tokens
  }

  lemma SmallForIsSmall(tz: TzDb, quota: QuotaRun.Quota, s: TableState, e: TableEvent, s': TableState, id: Id, tokens: nat)
    requires id in s.table.rows && id in s'.table.rows && SmallFor(s, e, id, quota.model, tokens)
    ensures QuotaRun.Small(quota, KeyState(tz, s, id), KeyEvent(tz, s, e, s', id), tokens)
  {
    hide QuotaRun.Covers;
  }

  lemma KeyLoad(tz: TzDb, quota: QuotaRun.Quota, run: TableRun, id: Id, keyRun: QuotaRun.Run, requests: nat, tokens: nat)
    requires IsKeyRun(tz, run, id, keyRun) && WithinKeyLoad(run, id, quota.model, requests, tokens)
    ensures QuotaRun.WithinLoad(quota, keyRun, requests, tokens)
  {
    forall i | 0 <= i < |run.states| ensures QuotaRun.Load(quota.model, keyRun.states[i].inFlight) <= requests {
      assert keyRun.states[i].inFlight == InFlight(run.states[i], id);
    }
    hide KeyState, KeyEvent, SmallFor, QuotaRun.Small, QuotaRun.Load;
    forall i | 0 <= i < |run.events| ensures QuotaRun.Small(quota, keyRun.states[i], keyRun.events[i], tokens) {
      assert SmallFor(run.states[i], run.events[i], id, quota.model, tokens);
      SmallForIsSmall(tz, quota, run.states[i], run.events[i], run.states[i + 1], id, tokens);
    }
  }

  lemma KeyIsTimely(tz: TzDb, quota: QuotaRun.Quota, run: TableRun, id: Id, keyRun: QuotaRun.Run)
    requires IsKeyRun(tz, run, id, keyRun) && AllTimelyFor(tz, run, id, quota)
    ensures QuotaRun.AllTimely(tz, quota, keyRun)
  {
    hide KeyState, KeyEvent, TimelyFor, QuotaRun.Timely;
    forall i | 0 <= i < |run.events| ensures QuotaRun.Timely(tz, quota, keyRun.states[i], keyRun.events[i]) {
      assert keyRun.events[i] == KeyEvent(tz, run.states[i], run.events[i], run.states[i + 1], id);
      TimelyForIsTimely(tz, quota, run.states[i], run.events[i], run.states[i + 1], id);
    }
  }

  /** Over every run of the table, with any other keys and edits about, each quota in force, on a key or on one
      of its models, is overshot by no more than the load of the requests it covers, if these are admitted in
      time. */
  lemma TableOvershootBounded(tz: TzDb, fold: char -> char, quota: QuotaRun.Quota, run: TableRun, id: Id, requests: nat, tokens: nat, j: nat)
    requires Regular(tz) && CaseMapping(fold) && IsTableRun(tz, fold, run) && KeyStays(fold, run, id, quota) && j < |run.states|
    requires QuotaRun.Enforced(quota) && WithinKeyLoad(run, id, quota.model, requests, tokens) && AllTimelyFor(tz, run, id, quota)
    requires QuotaRun.Sound(tz, KeyState(tz, run.states[0], id)) && KeyLog(run.states[0].log, id) == []
    ensures QuotaRun.Used(tz, quota, KeyState(tz, run.states[j], id)) <= quota.limit - 1 + requests * tokens
  {
    var keyRun := TableRunIsKeyRun(tz, fold, quota, run, id);
    KeyLoad(tz, quota, run, id, keyRun, requests, tokens);
    KeyIsTimely(tz, quota, run, id, keyRun);
    assert keyRun.states[0].log == [];
    hide IsTableRun, QuotaRun.IsRun, KeyStays, CaseMapping, QuotaRun.Used, QuotaRun.Covers, QuotaRun.Sound, Regular, QuotaRun.WithinLoad,
         WithinKeyLoad, KeyLog, AllTimelyFor, QuotaRun.AllTimely;
    QuotaRun.OvershootBounded(tz, quota, keyRun, requests, tokens, j);
  }
}
