/**
 The key manager: the table operations as they run, row by row, with the cache they maintain.
 */
module KeyManager {
  import opened Wrappers
  import opened Schedule
  import opened Windows
  import opened Pins
  import opened KeyTable

  /** How many keys follow the global schedule and how many hold their own. */
  datatype Counts = Counts(following: int, custom: int)

  datatype Preview = Preview(daily: int, weekly: int, monthly: int, transitional: seq<Period>)

  /** An update saves a previewed schedule, whatever else it saves: none means "follow the global schedule". */
  predicate SavesSchedule(u: KeyUpdate, s: Option<ResetSchedule>) {
    u.schedule == Some(if s.None? then Clear else Set(s))
  }

  /** The rule a preview computes with. */
  ghost function PreviewRule(tz: TzDb, row: Row, global: Option<ResetSchedule>, s: Option<ResetSchedule>, now: int): ResetRule {
    var newEff := Effective(s, global).0;
    ResetRule(newEff, PinsAfterChange(tz, EffectiveOf(tz, row, global), newEff, ParsePins(row.pins), now))
  }

  /** What a preview announces is what saving the same schedule at that moment gives. */
  lemma PreviewIsSaving(tz: TzDb, t: Table, id: Id, s: Option<ResetSchedule>, u: KeyUpdate, now: int)
    requires id in t.rows && (s.Some? ==> Validate(tz, s.value)) && SavesSchedule(u, s)
    ensures PreviewRule(tz, t.rows[id], t.global, s, now) == RuleAfter(tz, t, Update(id, u), now, id)
  {
    var row := t.rows[id];
    RescheduleIsChange(tz, row, EffectiveOf(tz, row, t.global), Effective(s, t.global).0, now);
  }

  /** The next resets are those of the rule. */
  predicate Announces(tz: TzDb, p: Preview, rule: ResetRule, now: int) {
    && p.daily == CalcQuotaWindow(tz, Daily, rule, now).reset
    && p.weekly == CalcQuotaWindow(tz, Weekly, rule, now).reset
    && p.monthly == CalcQuotaWindow(tz, Monthly, rule, now).reset
  }

  /** The periods whose pin a change creates or alters. */
  predicate Transitional(period: Period, oldPins: map<Period, Pin>, pins: map<Period, Pin>) {
    period in pins && !(period in oldPins && oldPins[period] == pins[period])
  }

  type Cache = map<RawKey, KeyInfo>

  /** Without filling in the access mode a read is the same exactly if the row stores one. */
  lemma AccessAsStored(tz: TzDb, t: Table, id: Id)
    requires id in t.rows
    ensures ReadKey(tz, t, id).(access := t.rows[id].access) == ReadKey(tz, t, id) <==> t.rows[id].access.mode != ""
  {
  }

  lemma AddKeepsAccurate(tz: TzDb, t: Table, cache: Cache, id: Id, info: KeyInfo)
    requires IsAccurate(tz, t, cache) && id in t.rows && info.id == id
    ensures IsAccurate(tz, t, cache[t.rows[id].raw := info]) <==> info == ReadKey(tz, t, id)
  {
    hide ReadKey;
    assert cache[t.rows[id].raw := info][t.rows[id].raw] == info;
  }

  /** Every cached key is in the table and is what a fresh read gives. */
  ghost predicate IsAccurate(tz: TzDb, t: Table, cache: Cache) {
    HasNoStrays(t, cache) && forall raw :: raw in cache ==> cache[raw] == ReadKey(tz, t, cache[raw].id)
  }

  ghost predicate IsComplete(t: Table, cache: Cache) {
    forall id :: id in t.rows ==> t.rows[id].raw in cache && cache[t.rows[id].raw].id == id
  }

  /** The cache may lag behind the table, but it holds no key the table does not. */
  ghost predicate HasNoStrays(t: Table, cache: Cache) {
    forall raw :: raw in cache ==> cache[raw].id in t.rows && t.rows[cache[raw].id].raw == raw
  }

  ghost predicate HasCurrentRows(t: Table, cache: Cache) {
    HasNoStrays(t, cache) && forall raw :: raw in cache ==> cache[raw].row == t.rows[cache[raw].id]
  }

  lemma CurrentHasNoStrays(t: Table, cache: Cache)
    requires HasCurrentRows(t, cache)
    ensures HasNoStrays(t, cache)
  {
  }

  /** What a cached key says of the table. */
  lemma CachedKey(tz: TzDb, t: Table, cache: Cache, raw: RawKey)
    requires HasCurrentRows(t, cache) && raw in cache
    ensures cache[raw].id in t.rows && t.rows[cache[raw].id].raw == raw && cache[raw].row == t.rows[cache[raw].id]
    ensures IsAccurate(tz, t, cache) ==> cache[raw] == ReadKey(tz, t, cache[raw].id)
  {
    hide ReadKey;
  }

  /** Caching what was read for a key that is not cached, its access mode as stored. */
  lemma FallbackKey(tz: TzDb, t: Table, cache: Cache, id: Id, info: KeyInfo)
    requires HasCurrentRows(t, cache) && id in t.rows && t.rows[id].raw !in cache
    requires info == ReadKey(tz, t, id).(access := t.rows[id].access)
    ensures info.id == id && info.row == t.rows[id] && HasCurrentRows(t, cache[t.rows[id].raw := info]) && !IsComplete(t, cache)
    ensures info == ReadKey(tz, t, id) <==> t.rows[id].access.mode != ""
    ensures IsAccurate(tz, t, cache) ==> (IsAccurate(tz, t, cache[t.rows[id].raw := info]) <==> t.rows[id].access.mode != "")
  {
    AccessAsStored(tz, t, id);
    if IsAccurate(tz, t, cache) {
      AddKeepsAccurate(tz, t, cache, id, info);
    }
  }

  lemma DeleteKeepsAccurate(tz: TzDb, t: Table, cache: Cache, id: Id, t': Table, cache': Cache)
    requires WellFormed(t) && IsAccurate(tz, t, cache)
    requires t' == t.(rows := t.rows - {id}, quotas := t.quotas - {id})
    requires cache' == if id in t.rows then cache - {t.rows[id].raw} else cache
    ensures IsAccurate(tz, t', cache') && (IsComplete(t, cache) ==> IsComplete(t', cache'))
  {
    DeleteLeavesNoStray(t, cache, id, t', cache');
    if IsComplete(t, cache) {
      DeleteStaysComplete(t, cache, id, t', cache');
    }
    hide ReadKey, WellFormed, IsComplete, HasNoStrays;
    forall raw | raw in cache'
      ensures cache'[raw] == ReadKey(tz, t', cache'[raw].id)
    {
      ReadIsLocal(tz, t, t', cache[raw].id);
    }
  }

  lemma DeleteLeavesNoStray(t: Table, cache: Cache, id: Id, t': Table, cache': Cache)
    requires WellFormed(t) && HasNoStrays(t, cache)
    requires t' == t.(rows := t.rows - {id}, quotas := t.quotas - {id})
    requires cache' == if id in t.rows then cache - {t.rows[id].raw} else cache
    ensures HasNoStrays(t', cache')
    ensures forall raw :: raw in cache' ==> raw in cache && cache'[raw] == cache[raw] && cache[raw].id in t'.rows && cache[raw].id in t.rows
  {
  }

  lemma DeleteStaysComplete(t: Table, cache: Cache, id: Id, t': Table, cache': Cache)
    requires WellFormed(t) && IsComplete(t, cache)
    requires t' == t.(rows := t.rows - {id}, quotas := t.quotas - {id})
    requires cache' == if id in t.rows then cache - {t.rows[id].raw} else cache
    ensures IsComplete(t', cache')
  {
  }

  /** Editing a row leaves its raw key in place, and so the cache without strays. */
  lemma EditKeepsKeys(t: Table, cache: Cache, id: Id, row: Row)
    requires WellFormed(t) && HasNoStrays(t, cache) && id in t.rows
    requires row.raw == t.rows[id].raw
    ensures WellFormed(t.(rows := t.rows[id := row])) && HasNoStrays(t.(rows := t.rows[id := row]), cache)
  {
  }

  lemma QuotasAside(t: Table, cache: Cache, quotas: map<Id, map<string, ModelQuota>>)
    requires WellFormed(t) && HasNoStrays(t, cache)
    ensures WellFormed(t.(quotas := quotas)) && HasNoStrays(t.(quotas := quotas), cache)
  {
  }

  ghost predicate Created(t: Table, cache: Cache, id: Id, row: Row, quotas: map<string, ModelQuota>, info: KeyInfo,
                          t': Table, cache': Cache)
  {
    && id !in t.rows && info.id == id
    && t' == t.(rows := t.rows[id := row], quotas := t.quotas[id := quotas])
    && cache' == cache[row.raw := info]
  }

  lemma CreateAddsNoStray(t: Table, cache: Cache, id: Id, row: Row, quotas: map<string, ModelQuota>, info: KeyInfo,
                          t': Table, cache': Cache)
    requires Created(t, cache, id, row, quotas, info, t', cache') && HasNoStrays(t, cache) && WellFormed(t')
    ensures HasNoStrays(t', cache') && (IsComplete(t, cache) ==> IsComplete(t', cache'))
  {
  }

  lemma CreateKeepsAccurate(tz: TzDb, t: Table, cache: Cache, id: Id, row: Row, quotas: map<string, ModelQuota>,
                            info: KeyInfo, t': Table, cache': Cache)
    requires Created(t, cache, id, row, quotas, info, t', cache') && IsAccurate(tz, t, cache) && WellFormed(t')
    ensures IsAccurate(tz, t', cache') <==> info == ReadKey(tz, t', id)
  {
    CreateAddsNoStray(t, cache, id, row, quotas, info, t', cache');
    forall raw | raw in cache' && raw != row.raw
      ensures cache'[raw] == ReadKey(tz, t', cache'[raw].id)
    {
      ReadIsLocal(tz, t, t', cache[raw].id);
    }
    assert row.raw in cache' && cache'[row.raw] == info;
  }

  /** The row of a new key: it has no usage history, so no pins. */
  function NewRow(raw: RawKey, name: string, access: Access, limits: Limits, own: Option<ResetSchedule>): Row {
    Row(raw, if name == "" then "Agent Key" else name, true, DeriveAccess(access), StoredLimits(limits), EncodeSchedule(own), map[])
  }

  /** An unlimited key for all models, under the global schedule. */
  function DefaultRow(raw: RawKey): Row {
    Row(raw, "Default Agent Key", true, Access("all", [], []), Limits(0, Other("none"), PerKey), Empty, map[])
  }

  /** The entry built for a new key is a fresh read of it exactly when its schedule reads back. */
  lemma HandMadeInfo(tz: TzDb, t: Table, id: Id, own: Option<ResetSchedule>, info: KeyInfo)
    requires id in t.rows && t.rows[id].own == EncodeSchedule(own) && t.rows[id].pins == map[] && t.rows[id].access.mode != ""
    requires var (eff, source) := Effective(own, t.global);
             info == KeyInfo(id, t.rows[id], t.rows[id].access, QuotasOf(t, id), own, source, ResetRule(eff, map[]))
    ensures info == ReadKey(tz, t, id) <==> own.None? || Validate(tz, own.value)
  {
    assert ParsePins(map[]) == map[];
  }

  const BAD_CLOCK: ResetSchedule := ResetSchedule("UTC", "24:00", 1, 1)

  /** A key created with a clock out of range is cached under that schedule, where a fresh read follows the
      global one. */
  lemma BadClockMisleads(tz: TzDb, t: Table, id: Id, raw: RawKey, access: Access, limits: Limits, info: KeyInfo)
    requires id in t.rows && t.rows[id] == NewRow(raw, "", access, limits, Some(BAD_CLOCK))
    requires info == KeyInfo(id, t.rows[id], t.rows[id].access, QuotasOf(t, id), Some(BAD_CLOCK), FromKey, ResetRule(Some(BAD_CLOCK), map[]))
    ensures info.rule.schedule == Some(BAD_CLOCK) && ReadKey(tz, t, id).rule.schedule == t.global
    ensures info != ReadKey(tz, t, id)
  {
    assert ParseClock("24:00") == None;
    HandMadeInfo(tz, t, id, Some(BAD_CLOCK), info);
  }

  class Manager {
    const tz: TzDb
    var table: Table
    var cache: Cache

    /** Opens the manager over a table; an empty one gets a first key, with random `id` and `raw`. */
    constructor (tz: TzDb, table: Table, id: Id, raw: RawKey, now: int)
      requires WellFormed(table)
      ensures this.tz == tz && WellFormed(this.table) && Coherent() && this.table.rows != map[]
      ensures this.table == if table.rows == map[] then Apply(tz, table, Create(id, DefaultRow(raw), map[]), now) else table
    {
      this.tz, this.table, this.cache := tz, table, map[];
      new;
      LoadLocalCache();
      if table.rows == map[] {
        CreateKey(id, raw, "Default Agent Key", Access("all", [], []), Limits(0, Other("none"), PerKey), map[], None, now);
        assert id in this.table.rows;
      }
    }

    ghost predicate Accurate()
      reads this
    {
      IsAccurate(tz, table, cache)
    }

    /** Every cached key is in the table, under its present row. */
    ghost predicate RowsCurrent()
      reads this
    {
      HasCurrentRows(table, cache)
    }

    ghost predicate NoStrays()
      reads this
    {
      HasNoStrays(table, cache)
    }

    /** The cache holds exactly the keys of the table, each as a fresh read gives it. */
    ghost predicate Coherent()
      reads this
    {
      Accurate() && IsComplete(table, cache)
    }

    /** Reads every key into the cache. */
    method LoadLocalCache()
      requires WellFormed(table) && NoStrays()
      modifies this`cache
      ensures Coherent()
    {
      var todo := table.rows.Keys;
      while todo != {}
        invariant todo <= table.rows.Keys && NoStrays()
        invariant forall id :: id in table.rows && id !in todo ==>
                    table.rows[id].raw in cache && cache[table.rows[id].raw] == ReadKey(tz, table, id)
        decreases todo
      {
        var id :| id in todo;
        cache := cache[table.rows[id].raw := ReadKey(tz, table, id)];
        todo := todo - {id};
      }
    }

    method PinsAfter(oldEff: Option<ResetSchedule>, newEff: Option<ResetSchedule>, oldPins: map<Period, Pin>, now: int)
      returns (pins: map<Period, Pin>)
      ensures pins == PinsAfterChange(tz, oldEff, newEff, oldPins, now)
    {
      if oldEff == newEff {
        return oldPins;
      }
      pins := PinsForChange(tz, ResetRule(oldEff, oldPins), newEff, now);
    }

    method RowUnderGlobal(row: Row, s: Option<ResetSchedule>, now: int) returns (r: Row)
      ensures r == GlobalRow(tz, row, table.global, s, now)
    {
      if ParseSchedule(tz, row.own).Some? {
        return row;
      }
      var pins := PinsAfter(table.global, s, ParsePins(row.pins), now);
      return row.(pins := pins);
    }

    method RowWithoutOverride(row: Row, now: int) returns (r: Row)
      ensures r == ClearedRow(tz, row, table.global, now)
    {
      var own := ParseSchedule(tz, row.own);
      if own.None? {
        return if row.own.Empty? then row else row.(own := Empty);
      }
      var pins := PinsAfter(own, table.global, ParsePins(row.pins), now);
      return row.(own := Empty, pins := pins);
    }

    method RowRescheduled(row: Row, change: ScheduleChange, now: int) returns (r: Row)
      ensures r == RescheduledRow(tz, row, change, table.global, now)
    {
      var oldOwn := ParseSchedule(tz, row.own);
      var own := NewOwn(oldOwn, change);
      var pins := PinsAfter(Effective(oldOwn, table.global).0, Effective(own, table.global).0, ParsePins(row.pins), now);
      return row.(own := EncodeSchedule(own), pins := pins);
    }

    /** Each key counts once; a stored schedule counts as the key's own, even one that cannot be read. */
    function ScheduleCounts(): (counts: Counts)
      reads this
      ensures counts.following + counts.custom == |table.rows|
      ensures counts.custom == |set id | id in table.rows && table.rows[id].own != Empty|
    {
      assert (set id | id in table.rows && !table.rows[id].own.Empty?) == set id | id in table.rows && table.rows[id].own != Empty;
      var custom := |set id | id in table.rows && !table.rows[id].own.Empty?|;
      Counts(|table.rows| - custom, custom)
    }

    method RowsUnderGlobal(s: Option<ResetSchedule>, now: int) returns (rows: map<Id, Row>)
      ensures rows.Keys == table.rows.Keys
      ensures forall id :: id in rows ==> rows[id] == GlobalRow(tz, table.rows[id], table.global, s, now)
    {
      rows := map[];
      var todo := table.rows.Keys;
      while todo != {}
        invariant todo <= table.rows.Keys && rows.Keys == table.rows.Keys - todo
        invariant forall id :: id in rows ==> rows[id] == GlobalRow(tz, table.rows[id], table.global, s, now)
        decreases todo
      {
        var id :| id in todo;
        var row := RowUnderGlobal(table.rows[id], s, now);
        rows := rows[id := row];
        todo := todo - {id};
      }
    }

    method RowsWithoutOverrides(now: int) returns (rows: map<Id, Row>)
      ensures rows.Keys == table.rows.Keys
      ensures forall id :: id in rows ==> rows[id] == ClearedRow(tz, table.rows[id], table.global, now)
    {
      rows := map[];
      var todo := table.rows.Keys;
      while todo != {}
        invariant todo <= table.rows.Keys && rows.Keys == table.rows.Keys - todo
        invariant forall id :: id in rows ==> rows[id] == ClearedRow(tz, table.rows[id], table.global, now)
        decreases todo
      {
        var id :| id in todo;
        var row := RowWithoutOverride(table.rows[id], now);
        rows := rows[id := row];
        todo := todo - {id};
      }
    }

    /** Sets or removes the global schedule; every key without its own gets the pins it needs. */
    method SetGlobalSchedule(s: Option<ResetSchedule>, now: int) returns (counts: Option<Counts>)
      requires WellFormed(table) && NoStrays()
      modifies this
      ensures counts.None? <==> s.Some? && !Validate(tz, s.value)
      ensures counts.None? ==> table == old(table) && cache == old(cache)
      ensures counts.Some? ==>
                && counts == Some(ScheduleCounts()) && Checked(tz, SetGlobal(s))
                && table == Apply(tz, old(table), SetGlobal(s), now)
                && WellFormed(table) && Coherent()
    {
      if s.Some? && !Validate(tz, s.value) {
        return None;
      }
      var rows := RowsUnderGlobal(s, now);
      ghost var before := table;
      table := table.(rows := rows, global := s);
      GlobalTable(tz, before, rows, s, now);
      ScheduleEditsKeepKeys(before);
      LoadLocalCache();
      counts := Some(ScheduleCounts());
    }

    /** Rewriting schedule columns leaves raw keys as they were. */
    lemma ScheduleEditsKeepKeys(before: Table)
      requires WellFormed(before) && before.rows.Keys == table.rows.Keys
      requires forall id :: id in table.rows ==> table.rows[id].raw == before.rows[id].raw
      requires forall raw :: raw in cache ==> cache[raw].id in before.rows && before.rows[cache[raw].id].raw == raw
      ensures WellFormed(table) && NoStrays()
    {
    }

    /** Removes every key's own schedule, so that all keys follow the global one. */
    method ClearScheduleOverrides(now: int) returns (counts: Counts)
      requires WellFormed(table) && NoStrays()
      modifies this
      ensures table == Apply(tz, old(table), ClearOverrides, now)
      ensures counts == Counts(|table.rows|, 0)
      ensures WellFormed(table) && Coherent()
    {
      hide ClearedRow;
      hide Apply;
      hide ReadKey;
      var rows := RowsWithoutOverrides(now);
      ghost var before := table;
      table := table.(rows := rows);
      ClearedTable(tz, before, rows, now);
      ScheduleEditsKeepKeys(before);
      LoadLocalCache();
      assert (set id | id in table.rows && !table.rows[id].own.Empty?) == {};
      counts := ScheduleCounts();
    }

    /** Saves a key's settings, quotas and schedule together; an unnamed key is refused. */
    method UpdateKeyAll(id: Id, u: KeyUpdate, now: int) returns (ok: bool)
      requires WellFormed(table) && NoStrays()
      modifies this
      ensures ok == (u.name != "" && id in old(table).rows)
      ensures !ok ==> table == old(table) && cache == old(cache)
      ensures ok ==> table == Apply(tz, old(table), Update(id, u), now) && WellFormed(table) && Coherent()
      ensures ok ==>
                && table.rows.Keys == old(table).rows.Keys && SparesOthers(old(table), table, id)
                && HasSettings(old(table).rows[id], table.rows[id], u)
                && HasSchedule(tz, old(table).rows[id], table.rows[id], u.schedule)
                && QuotasOf(table, id) == match u.quotas case Some(quotas) => quotas case None => QuotasOf(old(table), id)
    {
      if id in table.rows {
        UpdateSaves(tz, table, id, u, now);
      }
      hide HasSettings, HasSchedule, SparesOthers, QuotasOf;
      hide ReadKey, WellFormed, HasNoStrays;
      if u.name == "" || id !in table.rows {
        return false;
      }
      var row := table.rows[id];
      if u.schedule.Some? {
        row := RowRescheduled(row, u.schedule.value, now);
      }
      row := WithSettings(row, u);
      EditKeepsKeys(table, cache, id, row);
      table := table.(rows := table.rows[id := row]);
      if u.quotas.Some? {
        QuotasAside(table, cache, table.quotas[id := u.quotas.value]);
        table := table.(quotas := table.quotas[id := u.quotas.value]);
      }
      LoadLocalCache();
      ok := true;
    }

    /** Saves a key's name and access settings alone. */
    method UpdateKey(id: Id, name: string, access: Access, now: int) returns (ok: bool)
      requires WellFormed(table) && NoStrays()
      modifies this
      ensures ok == (name != "" && id in old(table).rows)
      ensures !ok ==> table == old(table) && cache == old(cache)
      ensures ok ==> table == Apply(tz, old(table), Update(id, KeyUpdate(name, access, None, None, None, None, None)), now)
      ensures ok ==> WellFormed(table) && Coherent()
      ensures ok ==>
                var was, row := old(table).rows[id], table.rows[id];
                row.name == name && HasAccess(row, access) && row.(name := was.name, access := was.access) == was
    {
      hide ReadKey, WellFormed, HasNoStrays;
      if name == "" || id !in table.rows {
        return false;
      }
      var row := table.rows[id].(name := name, access := DeriveAccess(access));
      EditKeepsKeys(table, cache, id, row);
      table := table.(rows := table.rows[id := row]);
      LoadLocalCache();
      return true;
    }

    /** Saves a key's limit and period alone. */
    method UpdateKeyQuota(id: Id, limit: int, period: Period, now: int) returns (ok: bool)
      requires WellFormed(table) && NoStrays()
      modifies this
      ensures ok == (id in old(table).rows)
      ensures !ok ==> table == old(table) && cache == old(cache)
      ensures ok ==> table == Apply(tz, old(table), SetQuota(id, limit, period), now) && WellFormed(table) && Coherent()
      ensures ok ==>
                var was, row := old(table).rows[id], table.rows[id];
                HasLimits(row, limit, period, was.limits.mode) && row.(limits := was.limits) == was && SparesOthers(old(table), table, id)
    {
      if id in table.rows {
        QuotaSaves(tz, table, id, limit, period, now);
        OthersSpared(tz, table, id, limit, period, true, table.rows[id], map[], now);
      }
      hide ReadKey, WellFormed, HasNoStrays;
      if id !in table.rows {
        return false;
      }
      var limits := StoredLimits(Limits(limit, period, table.rows[id].limits.mode));
      var row := table.rows[id].(limits := limits);
      EditKeepsKeys(table, cache, id, row);
      table := table.(rows := table.rows[id := row]);
      LoadLocalCache();
      return true;
    }

    method ToggleKey(id: Id, active: bool, now: int)
      requires WellFormed(table) && NoStrays()
      modifies this
      ensures table == Apply(tz, old(table), Toggle(id, active), now)
      ensures id in table.rows ==> id in old(table).rows && table.rows[id] == old(table).rows[id].(active := active)
      ensures WellFormed(table) && Coherent()
    {
      if id in table.rows {
        table := table.(rows := table.rows[id := table.rows[id].(active := active)]);
      }
      LoadLocalCache();
    }

    /** Issues a key. `id` and the raw key are random. The cache entry is built by hand, not read back:
        it matches a fresh read as long as the key's own schedule has passed the settings form. Model quotas
        are a map here: the program's entry keeps them in the order of the form until a reload sorts them, so
        of two that are equal up to Unicode case another one may be found before than after. */
    method CreateKey(id: Id, raw: RawKey, name: string, access: Access, limits: Limits, quotas: map<string, ModelQuota>,
                     own: Option<ResetSchedule>, now: int)
      requires WellFormed(table) && NoStrays() && id !in table.rows
      requires forall other :: other in table.rows ==> table.rows[other].raw != raw
      modifies this
      ensures table == Apply(tz, old(table), Create(id, NewRow(raw, name, access, limits, own), quotas), now)
      ensures id in table.rows && QuotasOf(table, id) == quotas && SparesOthers(old(table), table, id)
      ensures var row := table.rows[id];
              && row.raw == raw && row.active && row.pins == map[] && row.name == (if name != "" then name else "Agent Key")
              && HasAccess(row, access) && HasLimits(row, limits.limit, limits.period, limits.mode)
              && row.own == if own.Some? then Readable(own.value) else Empty
      ensures WellFormed(table) && NoStrays()
      ensures old(RowsCurrent()) ==> RowsCurrent()
      ensures old(Coherent()) ==> (Coherent() <==> own.None? || Validate(tz, own.value))
    {
      hide ReadKey, HasNoStrays, IsAccurate, IsComplete;
      var row := NewRow(raw, name, access, limits, own);
      ghost var before, cached := table, cache;
      table := table.(rows := table.rows[id := row], quotas := table.quotas[id := quotas]);
      var (eff, source) := Effective(own, table.global);
      var info := KeyInfo(id, row, row.access, quotas, own, source, ResetRule(eff, map[]));
      cache := cache[raw := info];
      HandMadeInfo(tz, table, id, own, info);
      CreateAddsNoStray(before, cached, id, row, quotas, info, table, cache);
      if IsAccurate(tz, before, cached) {
        CreateKeepsAccurate(tz, before, cached, id, row, quotas, info, table, cache);
      }
    }

    method DeleteKey(id: Id, now: int)
      requires WellFormed(table) && NoStrays()
      modifies this
      ensures table == Apply(tz, old(table), Delete(id), now)
      ensures id !in table.rows && QuotasOf(table, id) == map[] && SparesOthers(old(table), table, id)
      ensures id in old(table).rows ==> old(table).rows[id].raw !in cache
      ensures WellFormed(table) && NoStrays() && (old(RowsCurrent()) ==> RowsCurrent()) && (old(Coherent()) ==> Coherent())
    {
      ghost var before, cached := table, cache;
      if id in table.rows {
        cache := cache - {table.rows[id].raw};
      }
      table := table.(rows := table.rows - {id}, quotas := table.quotas - {id});
      if IsAccurate(tz, before, cached) {
        DeleteKeepsAccurate(tz, before, cached, id, table, cache);
      }
    }

    /** Looks a raw key up in the cache, then in the table. If no more than the rows in the cache are those of
        the table, it accepts exactly the keys that the table says are active, with the cached entry or what a
        fresh read gives. Only the access mode of a fresh one may differ, exactly if its row, older than access
        modes, stores none: it is not filled in. */
    method ValidateClientKey(raw: RawKey) returns (key: Option<KeyInfo>)
      requires WellFormed(table) && RowsCurrent()
      modifies this`cache
      ensures RowsCurrent() && NoStrays() && (old(Coherent()) ==> Coherent())
      ensures old(Accurate()) ==>
                (Accurate() <==> raw in old(cache)
                                 || forall id :: id in table.rows && table.rows[id].raw == raw ==> table.rows[id].access.mode != "")
      ensures key.Some? <==> exists id :: id in table.rows && table.rows[id].raw == raw && table.rows[id].active
      ensures key.Some? ==>
                && key.value.id in table.rows && table.rows[key.value.id].raw == raw
                && key.value.row == table.rows[key.value.id]
                && (raw in old(cache) ==> key.value == old(cache)[raw])
                && var again := ReadKey(tz, table, key.value.id);
                (old(Accurate()) || raw !in old(cache) ==>
                  && key.value.(access := again.access) == again
                  && (key.value == again <==> raw in old(cache) || table.rows[key.value.id].access.mode != ""))
    {
      hide ReadKey, IsAccurate, IsComplete, HasCurrentRows;
      CurrentHasNoStrays(table, cache);
      if raw in cache {
        CachedKey(tz, table, cache, raw);
        return if cache[raw].row.active then Some(cache[raw]) else None;
      }
      if id :| id in table.rows && table.rows[id].raw == raw {
        var info := ReadKey(tz, table, id).(access := table.rows[id].access);
        ghost var before := cache;
        cache := cache[raw := info];
        FallbackKey(tz, table, before, id, info);
        CurrentHasNoStrays(table, cache);
        return if table.rows[id].active then Some(info) else None;
      }
      return None;
    }

    /** The next resets under a proposed schedule. For a key it announces exactly the resets that saving
        the schedule now would give, and lists the periods whose pin saving would create or alter. */
    method PreviewReset(s: Option<ResetSchedule>, id: Option<Id>, now: int) returns (preview: Option<Preview>)
      ensures preview.None? <==> (s.Some? && !Validate(tz, s.value)) || (id.Some? && id.value !in table.rows)
      ensures preview.Some? && id.Some? ==>
                forall u {:trigger SavesSchedule(u, s)} :: SavesSchedule(u, s) ==>
                  var before, saved := ParsePins(table.rows[id.value].pins), RuleAfter(tz, table, Update(id.value, u), now, id.value);
                  Announces(tz, preview.value, saved, now)
                  && forall period :: period in preview.value.transitional <==>
                       Scheduled(period) && period in saved.pins && (period in before ==> before[period] != saved.pins[period])
      ensures preview.Some? && id.None? ==>
                preview.value == Preview(ScheduleWindow(tz, Daily, s, now).reset, ScheduleWindow(tz, Weekly, s, now).reset,
                                         ScheduleWindow(tz, Monthly, s, now).reset, [])
    {
      if s.Some? && !Validate(tz, s.value) {
        return None;
      }
      var rule := ResetRule(s, map[]);
      var transitional := [];
      if id.Some? {
        if id.value !in table.rows {
          return None;
        }
        var row := table.rows[id.value];
        var newEff := Effective(s, table.global).0;
        var oldPins := ParsePins(row.pins);
        var pins := PinsAfter(EffectiveOf(tz, row, table.global), newEff, oldPins, now);
        rule := ResetRule(newEff, pins);
        forall u | SavesSchedule(u, s) ensures rule == RuleAfter(tz, table, Update(id.value, u), now, id.value) {
          PreviewIsSaving(tz, table, id.value, s, u, now);
        }
        for i := 0 to |SCHEDULED|
          invariant forall period :: period in transitional <==>
                      period in SCHEDULED[..i] && Transitional(period, oldPins, pins)
        {
          var period := SCHEDULED[i];
          assert SCHEDULED[..i + 1] == SCHEDULED[..i] + [period];
          if Transitional(period, oldPins, pins) {
            transitional := transitional + [period];
          }
        }
        assert SCHEDULED[..|SCHEDULED|] == SCHEDULED;
      }
      preview := Some(Preview(CalcQuotaWindow(tz, Daily, rule, now).reset, CalcQuotaWindow(tz, Weekly, rule, now).reset,
                              CalcQuotaWindow(tz, Monthly, rule, now).reset, transitional));
    }
  }
}
