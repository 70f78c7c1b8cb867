/**
 Model Quotas: the usage shown for each of a key's quotas comes from one grouped query per period, the
 usage that a request is checked against from a query for its model alone.
 */
module ModelUsage {
  import opened Wrappers
  import opened Schedule
  import opened Text
  import opened Pins

  /** One traffic log row; rejected requests may have no model. */
  datatype Entry = Entry(key: string, model: Option<string>, tokens: nat, at: int)

  function Tokens(log: seq<Entry>, counted: Entry -> bool): nat {
    if log == [] then 0
    else Tokens(log[..|log| - 1], counted) + if counted(log[|log| - 1]) then log[|log| - 1].tokens else 0
  }

  /** The rows of a key with a model, at or after `start`. */
  predicate InWindow(e: Entry, key: string, start: int) {
    e.key == key && e.model.Some? && e.at >= start
  }

  /** What a request for the model is checked against; the database compares ids in its NOCASE collation. */
  function Enforced(log: seq<Entry>, key: string, model: string, start: int): nat {
    Tokens(log, (e: Entry) => InWindow(e, key, start) && NoCase(e.model.value, model))
  }

  /** The tokens whose lower-cased model is `name`. */
  function Shown(log: seq<Entry>, key: string, name: string, start: int, lower: char -> char): nat {
    Tokens(log, (e: Entry) => InWindow(e, key, start) && Map(e.model.value, lower) == name)
  }

  /** The tokens that are shown for a model although the database counts them for another one. */
  function Strays(log: seq<Entry>, key: string, model: string, start: int, lower: char -> char): nat {
    Tokens(log, (e: Entry) => InWindow(e, key, start) && Map(e.model.value, lower) == Map(model, lower) && !NoCase(e.model.value, model))
  }

  // The grouped query.

  datatype Group = Group(model: string, tokens: nat)

  /** An answer of the database, in any order: one group for each model used, named by any of its
      spellings, with the tokens of all of them. */
  ghost predicate IsGrouping(log: seq<Entry>, key: string, start: int, groups: seq<Group>) {
    && (forall i :: 0 <= i < |groups| ==> groups[i].tokens == Enforced(log, key, groups[i].model, start))
    && (forall i, j :: 0 <= i < j < |groups| ==> !NoCase(groups[i].model, groups[j].model))
    && (forall e :: e in log && InWindow(e, key, start) ==> Grouped(e, groups))
  }

  predicate Grouped(e: Entry, groups: seq<Group>) {
    e.model.Some? && exists i :: 0 <= i < |groups| && NoCase(e.model.value, groups[i].model)
  }

  function Get(usage: map<string, nat>, name: string): nat {
    if name in usage then usage[name] else 0
  }

  function Accumulated(groups: seq<Group>, lower: char -> char): map<string, nat> {
    if groups == [] then map[]
    else
      var usage, g := Accumulated(groups[..|groups| - 1], lower), groups[|groups| - 1];
      usage[Map(g.model, lower) := Get(usage, Map(g.model, lower)) + g.tokens]
  }

  method GetModelUsageSince(groups: seq<Group>, lower: char -> char) returns (usage: map<string, nat>)
    ensures usage == Accumulated(groups, lower)
  {
    usage := map[];
    for i := 0 to |groups|
      invariant usage == Accumulated(groups[..i], lower)
    {
      var name := Map(groups[i].model, lower);
      assert groups[..i + 1][..i] == groups[..i];
      usage := usage[name := Get(usage, name) + groups[i].tokens];
    }
    assert groups[..|groups|] == groups;
  }

  lemma {:induction false} TokensAgree(log: seq<Entry>, p: Entry -> bool, q: Entry -> bool)
    requires forall e :: e in log ==> p(e) == q(e)
    ensures Tokens(log, p) == Tokens(log, q)
  {
    if log != [] {
      TokensAgree(log[..|log| - 1], p, q);
    }
  }

  lemma {:induction false} TokensSplit(log: seq<Entry>, whole: Entry -> bool, p: Entry -> bool, q: Entry -> bool)
    requires forall e :: e in log ==> (whole(e) <==> p(e) || q(e)) && !(p(e) && q(e))
    ensures Tokens(log, whole) == Tokens(log, p) + Tokens(log, q)
  {
    if log != [] {
      TokensSplit(log[..|log| - 1], whole, p, q);
    }
  }

  lemma {:induction false} NoTokens(log: seq<Entry>, p: Entry -> bool)
    requires forall e :: e in log ==> !p(e)
    ensures Tokens(log, p) == 0
  {
    if log != [] {
      NoTokens(log[..|log| - 1], p);
    }
  }

  function Collected(key: string, start: int, name: string, groups: seq<Group>, lower: char -> char): Entry -> bool {
    (e: Entry) => InWindow(e, key, start) && Map(e.model.value, lower) == name && Grouped(e, groups)
  }

  lemma NoCaseEquivalence(a: string, b: string, c: string)
    requires NoCase(a, b) && NoCase(a, c)
    ensures NoCase(b, c)
  {
  }

  lemma GroupedStep(e: Entry, groups: seq<Group>)
    requires e.model.Some? && groups != []
    ensures Grouped(e, groups) <==> Grouped(e, groups[..|groups| - 1]) || NoCase(e.model.value, groups[|groups| - 1].model)
    ensures (forall i, j :: 0 <= i < j < |groups| ==> !NoCase(groups[i].model, groups[j].model)) ==>
              !(Grouped(e, groups[..|groups| - 1]) && NoCase(e.model.value, groups[|groups| - 1].model))
  {
    hide NoCase;
    var front, last := groups[..|groups| - 1], groups[|groups| - 1];
    if Grouped(e, front) && NoCase(e.model.value, last.model) {
      var i :| 0 <= i < |front| && NoCase(e.model.value, front[i].model);
      NoCaseEquivalence(e.model.value, groups[i].model, last.model);
    }
    if Grouped(e, front) {
      var i :| 0 <= i < |front| && NoCase(e.model.value, front[i].model);
      assert NoCase(e.model.value, groups[i].model);
    }
    if NoCase(e.model.value, last.model) {
      assert NoCase(e.model.value, groups[|groups| - 1].model);
    }
  }

  lemma {:induction false} AccumulatedCollects(log: seq<Entry>, key: string, start: int, groups: seq<Group>, lower: char -> char, name: string)
    requires CaseMapping(lower)
    requires forall i :: 0 <= i < |groups| ==> groups[i].tokens == Enforced(log, key, groups[i].model, start)
    requires forall i, j :: 0 <= i < j < |groups| ==> !NoCase(groups[i].model, groups[j].model)
    ensures Get(Accumulated(groups, lower), name) == Tokens(log, Collected(key, start, name, groups, lower))
  {
    hide NoCase, Grouped;
    if groups == [] {
      NoTokens(log, Collected(key, start, name, groups, lower)) by {
        NoneGrouped();
      }
    } else {
      var front, last := groups[..|groups| - 1], groups[|groups| - 1];
      AccumulatedCollects(log, key, start, front, lower, name);
      var own := (e: Entry) => InWindow(e, key, start) && NoCase(e.model.value, last.model);
      var whole, before := Collected(key, start, name, groups, lower), Collected(key, start, name, front, lower);
      forall e | e in log && e.model.Some?
        ensures Grouped(e, groups) <==> Grouped(e, front) || NoCase(e.model.value, last.model)
        ensures !(Grouped(e, front) && NoCase(e.model.value, last.model))
        ensures NoCase(e.model.value, last.model) ==> Map(e.model.value, lower) == Map(last.model, lower)
      {
        GroupedStep(e, groups);
        NoCaseAndMapping(e.model.value, last.model, lower);
      }
      if Map(last.model, lower) == name {
        TokensSplit(log, whole, before, own);
      } else {
        TokensAgree(log, whole, before);
      }
    }
  }

  lemma NoneGrouped()
    ensures forall e :: !Grouped(e, [])
  {
  }

  /** Accumulated by lower-cased name, the grouped query gives the tokens of all rows with that name. */
  lemma GroupedQueryShows(log: seq<Entry>, key: string, start: int, groups: seq<Group>, lower: char -> char, name: string)
    requires CaseMapping(lower) && IsGrouping(log, key, start, groups)
    ensures Get(Accumulated(groups, lower), name) == Shown(log, key, name, start, lower)
  {
    hide NoCase, Grouped, Accumulated;
    AccumulatedCollects(log, key, start, groups, lower, name);
    TokensAgree(log, Collected(key, start, name, groups, lower),
                (e: Entry) => InWindow(e, key, start) && Map(e.model.value, lower) == name);
  }

  /** The usage shown for a model is the usage enforced plus the strays. */
  lemma ShownIsEnforcedAndStrays(log: seq<Entry>, key: string, model: string, start: int, lower: char -> char)
    requires CaseMapping(lower)
    ensures Shown(log, key, Map(model, lower), start, lower) == Enforced(log, key, model, start) + Strays(log, key, model, start, lower)
  {
    hide NoCase;
    forall e | e in log && e.model.Some?
      ensures NoCase(e.model.value, model) ==> Map(e.model.value, lower) == Map(model, lower)
    {
      NoCaseAndMapping(e.model.value, model, lower);
    }
    TokensSplit(log, (e: Entry) => InWindow(e, key, start) && Map(e.model.value, lower) == Map(model, lower),
                (e: Entry) => InWindow(e, key, start) && NoCase(e.model.value, model),
                (e: Entry) => InWindow(e, key, start) && Map(e.model.value, lower) == Map(model, lower) && !NoCase(e.model.value, model));
  }

  /** Model ids of ASCII have no strays. */
  lemma AsciiHasNoStrays(log: seq<Entry>, key: string, model: string, start: int, lower: char -> char)
    requires CaseMapping(lower) && IsAscii(model)
    requires forall e :: e in log && e.model.Some? ==> IsAscii(e.model.value)
    ensures Strays(log, key, model, start, lower) == 0
  {
    hide NoCase;
    forall e | e in log && e.model.Some?
      ensures Map(e.model.value, lower) == Map(model, lower) ==> NoCase(e.model.value, model)
    {
      NoCaseAndMapping(e.model.value, model, lower);
    }
    NoTokens(log, (e: Entry) => InWindow(e, key, start) && Map(e.model.value, lower) == Map(model, lower) && !NoCase(e.model.value, model));
  }

  // A key's quotas, annotated and enforced.

  datatype Status = Unset | Fine | Near | Exhausted | Inactive

  datatype Reason = Active | Removed | Disabled | NoAccess

  datatype QuotaRow = QuotaRow(model: string, limit: int, period: Period,
                               usage: nat, percent: int, status: Status, resetAt: Option<int>, reason: Reason)

  /** What the model table and the key's access settings say about a model. */
  datatype Standing = Standing(found: bool, enabled: bool, removed: bool, allowed: bool)

  function InactiveReason(s: Standing): Reason {
    if !s.found || s.removed then Removed else if !s.enabled then Disabled else if !s.allowed then NoAccess else Active
  }

  /** Whole percents of the limit, rounded down, not capped; nothing used or no limit is 0. */
  function QuotaPercent(usage: int, limit: int): (percent: int)
    ensures limit > 0 && usage > 0 ==> percent * limit <= 100 * usage < (percent + 1) * limit
    ensures limit <= 0 || usage <= 0 ==> percent == 0
  {
    if limit <= 0 || usage <= 0 then 0 else usage * 100 / limit
  }

  function QuotaStatus(usage: int, limit: int, warn: int): Status {
    if limit > 0 && usage >= limit then Exhausted
    else if QuotaPercent(usage, limit) >= warn then Near
    else Fine
  }

  lemma Scale(a: int, b: int, n: int)
    requires a <= b && n >= 0
    ensures a * n <= b * n
  {
  }

  /** A quota in use is near its limit exactly from the warning percent of it on, up to the limit. */
  lemma NearExactly(usage: int, limit: int, warn: int)
    requires usage > 0
    ensures limit <= 0 ==> QuotaStatus(usage, limit, warn) == if warn <= 0 then Near else Fine
    ensures limit > 0 ==> QuotaStatus(usage, limit, warn) == if usage >= limit then Exhausted else if 100 * usage >= warn * limit then Near else Fine
  {
    hide QuotaPercent;
    var percent := QuotaPercent(usage, limit);
    if limit > 0 && percent >= warn {
      Scale(warn, percent, limit);
    } else if limit > 0 {
      Scale(percent + 1, warn, limit);
    }
  }

  /** Everything an annotation is computed from. */
  datatype Context = Context(tz: TzDb, key: string, rule: ResetRule, now: int, warn: int, lower: char -> char, standing: string -> Standing)
  {
    function Start(period: Period): int {
      CalcQuotaWindow(tz, period, rule, now).start
    }
  }

  ghost function Annotated(row: QuotaRow, log: seq<Entry>, c: Context): QuotaRow {
    var usage := Shown(log, c.key, Map(row.model, c.lower), c.Start(row.period), c.lower);
    var reason := InactiveReason(c.standing(row.model));
    row.(usage := usage, percent := QuotaPercent(usage, row.limit), reason := reason,
         resetAt := if row.period.Total? then None else Some(CalcQuotaWindow(c.tz, row.period, c.rule, c.now).reset),
         status := if reason.Active? then QuotaStatus(usage, row.limit, c.warn) else Inactive)
  }

  /** Fills in the computed fields of a key's quotas in place, with one query per distinct period. */
  method AnnotateModelQuotas(quotas: array<QuotaRow>, c: Context, ghost log: seq<Entry>, query: int -> seq<Group>)
    requires CaseMapping(c.lower) && forall start :: IsGrouping(log, c.key, start, query(start))
    modifies quotas
    ensures forall i :: 0 <= i < quotas.Length ==> quotas[i] == Annotated(old(quotas[i]), log, c)
  {
    hide IsGrouping, CaseMapping, Shown, Accumulated, CalcQuotaWindow;
    var usageByPeriod: map<Period, map<string, nat>> := map[];
    for i := 0 to quotas.Length
      invariant forall p, name :: p in usageByPeriod ==>
                  Get(usageByPeriod[p], name) == Shown(log, c.key, name, c.Start(p), c.lower)
      invariant forall j :: 0 <= j < i ==> quotas[j] == Annotated(old(quotas[j]), log, c)
      invariant forall j :: i <= j < quotas.Length ==> quotas[j] == old(quotas[j])
    {
      var row := quotas[i];
      if row.period !in usageByPeriod {
        var start := c.Start(row.period);
        var found := GetModelUsageSince(query(start), c.lower);
        forall name ensures Get(found, name) == Shown(log, c.key, name, start, c.lower) {
          GroupedQueryShows(log, c.key, start, query(start), c.lower, name);
        }
        usageByPeriod := usageByPeriod[row.period := found];
      }
      var usage := Get(usageByPeriod[row.period], Map(row.model, c.lower));
      var reason := InactiveReason(c.standing(row.model));
      quotas[i] := row.(usage := usage, percent := QuotaPercent(usage, row.limit), reason := reason,
                        resetAt := if row.period.Total? then None else Some(CalcQuotaWindow(c.tz, row.period, c.rule, c.now).reset),
                        status := if reason.Active? then QuotaStatus(usage, row.limit, c.warn) else Inactive);
    }
  }

  /** The first quota whose model equals the request's up to case. */
  function FirstQuota(quotas: seq<QuotaRow>, model: string, fold: char -> char): Option<QuotaRow> {
    if quotas == [] then None
    else if EqualFold(quotas[0].model, model, fold) then Some(quotas[0])
    else FirstQuota(quotas[1..], model, fold)
  }

  method ModelQuotaFor(quotas: seq<QuotaRow>, model: string, fold: char -> char) returns (row: Option<QuotaRow>)
    ensures row == FirstQuota(quotas, model, fold)
  {
    for i := 0 to |quotas|
      invariant FirstQuota(quotas, model, fold) == FirstQuota(quotas[i..], model, fold)
    {
      if EqualFold(quotas[i].model, model, fold) {
        return Some(quotas[i]);
      }
    }
    return None;
  }

  /** The proxy answers 429 to a request of a key that is limited per model. */
  predicate Denied(quotas: seq<QuotaRow>, model: string, fold: char -> char, log: seq<Entry>, c: Context) {
    model != "" &&
    var row := FirstQuota(quotas, model, fold);
    row.Some? && Enforced(log, c.key, model, c.Start(row.value.period)) >= row.value.limit
  }

  lemma EnforcedUpToCase(log: seq<Entry>, key: string, a: string, b: string, start: int)
    requires NoCase(a, b)
    ensures Enforced(log, key, a, start) == Enforced(log, key, b, start)
  {
    TokensAgree(log, (e: Entry) => InWindow(e, key, start) && NoCase(e.model.value, a),
                (e: Entry) => InWindow(e, key, start) && NoCase(e.model.value, b));
  }

  /** However a request came to its quota: it is denied by the usage under its own spelling, and the quota is
      shown as exhausted by the usage of the stored id and its strays. If the database takes the two ids for
      one, a denied quota is always shown as exhausted. */
  lemma ExhaustedAgainstDenied(quotas: seq<QuotaRow>, row: QuotaRow, model: string, fold: char -> char, log: seq<Entry>, c: Context)
    requires CaseMapping(c.lower) && FirstQuota(quotas, model, fold) == Some(row) && model != ""
    requires InactiveReason(c.standing(row.model)).Active? && row.limit > 0
    ensures Denied(quotas, model, fold, log, c) <==> Enforced(log, c.key, model, c.Start(row.period)) >= row.limit
    ensures Annotated(row, log, c).status.Exhausted?
       <==> Enforced(log, c.key, row.model, c.Start(row.period)) + Strays(log, c.key, row.model, c.Start(row.period), c.lower) >= row.limit
    ensures NoCase(model, row.model) && Denied(quotas, model, fold, log, c) ==> Annotated(row, log, c).status.Exhausted?
  {
    hide NoCase, CaseMapping, Enforced, Strays, Shown, FirstQuota, CalcQuotaWindow;
    ShownIsEnforcedAndStrays(log, c.key, row.model, c.Start(row.period), c.lower);
    if NoCase(model, row.model) {
      EnforcedUpToCase(log, c.key, model, row.model, c.Start(row.period));
    }
  }

  // Exactly when the two usages agree, whatever the log: a condition on the ids alone.

  /** The ids that lower-case like the stored id are the ids that the database takes for the requested one. */
  ghost predicate SameIds(stored: string, model: string, lower: char -> char) {
    forall x :: Map(x, lower) == Map(stored, lower) <==> NoCase(x, model)
  }

  /** A log that tells the two usages apart. */
  lemma OneRowTells(key: string, x: string, tokens: nat, stored: string, model: string, start: int, lower: char -> char)
    ensures var log := [Entry(key, Some(x), tokens, start)];
            && Shown(log, key, Map(stored, lower), start, lower) == (if Map(x, lower) == Map(stored, lower) then tokens else 0)
            && Enforced(log, key, model, start) == if NoCase(x, model) then tokens else 0
  {
    hide Map, NoCase;
    OneRow(Entry(key, Some(x), tokens, start), (e: Entry) => InWindow(e, key, start) && Map(e.model.value, lower) == Map(stored, lower));
    OneRow(Entry(key, Some(x), tokens, start), (e: Entry) => InWindow(e, key, start) && NoCase(e.model.value, model));
  }

  lemma SameIdsSameUsage(stored: string, model: string, log: seq<Entry>, key: string, start: int, lower: char -> char)
    requires SameIds(stored, model, lower)
    ensures Shown(log, key, Map(stored, lower), start, lower) == Enforced(log, key, model, start)
  {
    hide Map, NoCase;
    TokensAgree(log, (e: Entry) => InWindow(e, key, start) && Map(e.model.value, lower) == Map(stored, lower),
                (e: Entry) => InWindow(e, key, start) && NoCase(e.model.value, model));
  }

  /** The usage shown for a stored id is the usage enforced for a request, on every log, exactly if the ids are
      the same to both. */
  lemma ShownIsEnforcedExactly(stored: string, model: string, lower: char -> char)
    ensures (forall log, key, start :: Shown(log, key, Map(stored, lower), start, lower) == Enforced(log, key, model, start))
       <==> SameIds(stored, model, lower)
  {
    hide Map, NoCase, Shown, Enforced;
    if SameIds(stored, model, lower) {
      forall log, key, start ensures Shown(log, key, Map(stored, lower), start, lower) == Enforced(log, key, model, start) {
        SameIdsSameUsage(stored, model, log, key, start, lower);
      }
    } else {
      var x :| Map(x, lower) == Map(stored, lower) <==> !NoCase(x, model);
      OneRowTells("", x, 1, stored, model, 0, lower);
    }
  }

  /** A quota found for a request is shown as exhausted exactly when the request is denied, on every log,
      exactly if the ids of the two are the same to the lower-casing and to the database. */
  lemma ExhaustedIsDeniedExactly(quotas: seq<QuotaRow>, row: QuotaRow, model: string, fold: char -> char, c: Context)
    requires FirstQuota(quotas, model, fold) == Some(row) && model != ""
    requires InactiveReason(c.standing(row.model)).Active? && row.limit > 0
    ensures (forall log :: Annotated(row, log, c).status.Exhausted? <==> Denied(quotas, model, fold, log, c))
       <==> SameIds(row.model, model, c.lower)
  {
    hide Map, NoCase, Shown, Enforced, FirstQuota, CalcQuotaWindow;
    var start := c.Start(row.period);
    if SameIds(row.model, model, c.lower) {
      forall log ensures Annotated(row, log, c).status.Exhausted? <==> Denied(quotas, model, fold, log, c) {
        SameIdsSameUsage(row.model, model, log, c.key, start, c.lower);
      }
    } else {
      var x :| Map(x, c.lower) == Map(row.model, c.lower) <==> !NoCase(x, model);
      OneRowTells(c.key, x, row.limit, row.model, model, start, c.lower);
      var log := [Entry(c.key, Some(x), row.limit, start)];
      assert Annotated(row, log, c).status.Exhausted? <==> !Denied(quotas, model, fold, log, c);
    }
  }

  /** No character outside its ASCII case pair folds like a character of the id. */
  ghost predicate NoTwins(id: string, f: char -> char) {
    forall i, c :: 0 <= i < |id| && f(c) == f(id[i]) ==> AsciiLower(c) == AsciiLower(id[i])
  }

  /** The condition, character by character, for a case mapping and an id that the database finds. */
  lemma NoTwinsExactly(id: string, f: char -> char)
    requires CaseMapping(f)
    ensures NoTwins(id, f) <==> SameIds(id, id, f)
  {
    if NoTwins(id, f) {
      forall x ensures Map(x, f) == Map(id, f) <==> NoCase(x, id) {
        NoCaseAndMapping(x, id, f);
        if Map(x, f) == Map(id, f) {
          TwinlessFolds(x, id, f);
        }
      }
    }
    if SameIds(id, id, f) {
      forall i, c | 0 <= i < |id| && f(c) == f(id[i]) ensures AsciiLower(c) == AsciiLower(id[i]) {
        var x := id[i := c];
        assert Map(x, f) == Map(id, f);
        assert Map(x, AsciiLower)[i] == Map(id, AsciiLower)[i];
      }
    }
  }

  lemma TwinlessFolds(x: string, id: string, f: char -> char)
    requires NoTwins(id, f) && Map(x, f) == Map(id, f)
    ensures NoCase(x, id)
  {
    assert |x| == |id| by {
      assert |Map(x, f)| == |Map(id, f)|;
    }
    forall i | 0 <= i < |x| ensures AsciiLower(x[i]) == AsciiLower(id[i]) {
      assert Map(x, f)[i] == Map(id, f)[i];
    }
    assert Map(x, AsciiLower) == Map(id, AsciiLower);
  }

  lemma {:induction false} FirstQuotaAt(quotas: seq<QuotaRow>, model: string, fold: char -> char, i: nat) returns (j: nat)
    requires i < |quotas| && EqualFold(quotas[i].model, model, fold)
    ensures j <= i && FirstQuota(quotas, model, fold) == Some(quotas[j]) && EqualFold(quotas[j].model, model, fold)
  {
    hide EqualFold;
    if EqualFold(quotas[0].model, model, fold) {
      j := 0;
    } else {
      j := FirstQuotaAt(quotas[1..], model, fold, i - 1);
      j := j + 1;
    }
  }

  lemma {:induction false} FoundFolds(quotas: seq<QuotaRow>, model: string, fold: char -> char)
    ensures var row := FirstQuota(quotas, model, fold); row.Some? ==> EqualFold(row.value.model, model, fold)
  {
    if quotas != [] {
      FoundFolds(quotas[1..], model, fold);
    }
  }

  /** A stored quota is found for its own ids and for no others exactly if none of its characters has a twin,
      that is if nothing but its own ids equals it up to case. */
  lemma FindsOwnExactly(quotas: seq<QuotaRow>, i: nat, fold: char -> char)
    requires CaseMapping(fold) && i < |quotas|
    requires forall j, k :: 0 <= j < k < |quotas| ==> !NoCase(quotas[j].model, quotas[k].model)
    ensures (forall model :: FirstQuota(quotas, model, fold) == Some(quotas[i]) <==> NoCase(model, quotas[i].model))
       <==> NoTwins(quotas[i].model, fold)
  {
    var id := quotas[i].model;
    NoTwinsExactly(id, fold);
    hide NoTwins, CaseMapping;
    if SameIds(id, id, fold) {
      forall model ensures FirstQuota(quotas, model, fold) == Some(quotas[i]) <==> NoCase(model, id) {
        FoundFolds(quotas, model, fold);
        if NoCase(model, id) {
          var j := FirstQuotaAt(quotas, model, fold, i);
          assert NoCase(quotas[j].model, id);
        }
      }
    }
    if forall model :: FirstQuota(quotas, model, fold) == Some(quotas[i]) <==> NoCase(model, id) {
      forall x ensures Map(x, fold) == Map(id, fold) <==> NoCase(x, id) {
        if NoCase(x, id) {
          FoundFolds(quotas, x, fold);
        } else if Map(x, fold) == Map(id, fold) {
          var j := FirstQuotaAt(quotas, x, fold, i);
          assert FirstQuota(quotas, quotas[j].model, fold) == Some(quotas[j]) by {
            FoldsAlike(quotas, x, quotas[j].model, fold);
          }
          assert FirstQuota(quotas, id, fold) == Some(quotas[j]) by {
            FoldsAlike(quotas, x, id, fold);
          }
        }
      }
    }
  }

  /** Requests that are equal up to case find the same quota. */
  lemma {:induction false} FoldsAlike(quotas: seq<QuotaRow>, a: string, b: string, fold: char -> char)
    requires Map(a, fold) == Map(b, fold)
    ensures FirstQuota(quotas, a, fold) == FirstQuota(quotas, b, fold)
  {
    if quotas != [] {
      FoldsAlike(quotas[1..], a, b, fold);
    }
  }

  /** With ids of ASCII, unique up to case as the table keeps them, a request finds its own quota. */
  lemma {:induction false} FindsOwnQuota(quotas: seq<QuotaRow>, i: nat, model: string, fold: char -> char)
    requires CaseMapping(fold) && i < |quotas| && NoCase(model, quotas[i].model) && IsAscii(model)
    requires forall j :: 0 <= j < |quotas| ==> IsAscii(quotas[j].model)
    requires forall j, k :: 0 <= j < k < |quotas| ==> !NoCase(quotas[j].model, quotas[k].model)
    ensures FirstQuota(quotas, model, fold) == Some(quotas[i])
  {
    hide CaseMapping;
    NoCaseAndMapping(quotas[0].model, model, fold);
    if 0 < i {
      FindsOwnQuota(quotas[1..], i - 1, model, fold);
    }
  }

  /** For every traffic log, key and instant, with model ids of ASCII: an active quota is shown as
      exhausted exactly when the proxy would answer 429 for its model. */
  lemma ExhaustedIsDenied(quotas: seq<QuotaRow>, i: nat, model: string, fold: char -> char, log: seq<Entry>, c: Context)
    requires CaseMapping(c.lower) && CaseMapping(fold)
    requires i < |quotas| && NoCase(model, quotas[i].model) && IsAscii(model) && model != ""
    requires forall j :: 0 <= j < |quotas| ==> IsAscii(quotas[j].model)
    requires forall j, k :: 0 <= j < k < |quotas| ==> !NoCase(quotas[j].model, quotas[k].model)
    requires forall e :: e in log && e.model.Some? ==> IsAscii(e.model.value)
    requires InactiveReason(c.standing(quotas[i].model)).Active? && quotas[i].limit > 0
    ensures Annotated(quotas[i], log, c).status.Exhausted? <==> Denied(quotas, model, fold, log, c)
  {
    hide CaseMapping, NoCase, CalcQuotaWindow;
    FindsOwnQuota(quotas, i, model, fold);
    AsciiHasNoStrays(log, c.key, quotas[i].model, c.Start(quotas[i].period), c.lower);
    ExhaustedAgainstDenied(quotas, quotas[i], model, fold, log, c);
    EnforcedUpToCase(log, c.key, model, quotas[i].model, c.Start(quotas[i].period));
  }

  lemma OneRow(e: Entry, counted: Entry -> bool)
    ensures Tokens([e], counted) == if counted(e) then e.tokens else 0
  {
    assert [e][..0] == [];
  }

  /** The Kelvin sign lower-cases to "k" but the database keeps the two apart: its tokens are strays. */
  lemma KelvinStrays(key: string, tokens: nat, start: int, lower: char -> char)
    requires lower('\U{212A}') == lower('k')
    ensures var log := [Entry(key, Some("\U{212A}"), tokens, start)];
            Strays(log, key, "k", start, lower) == tokens && Enforced(log, key, "k", start) == 0
  {
    var e := Entry(key, Some("\U{212A}"), tokens, start);
    assert Map("\U{212A}", lower) == [lower('k')] == Map("k", lower);
    assert Map("\U{212A}", AsciiLower)[0] != Map("k", AsciiLower)[0];
    hide Map;
    OneRow(e, (e: Entry) => InWindow(e, key, start) && Map(e.model.value, lower) == Map("k", lower) && !NoCase(e.model.value, "k"));
    OneRow(e, (e: Entry) => InWindow(e, key, start) && NoCase(e.model.value, "k"));
  }

  /** An exhausted quota walked past: a request spelled with the Kelvin sign finds the quota of "k", which is
      used up and shown so, but its own usage is zero. */
  lemma KelvinWalksPast(row: QuotaRow, fold: char -> char, log: seq<Entry>, c: Context)
    requires row.model == "k" && row.limit == 10 && InactiveReason(c.standing("k")).Active?
    requires fold('\U{212A}') == fold('k') && log == [Entry(c.key, Some("k"), 10, c.Start(row.period))]
    ensures FirstQuota([row], "\U{212A}", fold) == Some(row) && Annotated(row, log, c).status.Exhausted?
    ensures !Denied([row], "\U{212A}", fold, log, c)
  {
    assert Map("\U{212A}", fold) == [fold('k')] == Map("k", fold);
    assert Map("\U{212A}", AsciiLower)[0] != Map("k", AsciiLower)[0];
    hide Map, CalcQuotaWindow;
    OneRowTells(c.key, "k", 10, "k", "\U{212A}", c.Start(row.period), c.lower);
  }

  // The smaller pieces.

  /** Why a quota does not apply: removed comes first, then disabled, then no access. */
  lemma ReasonExactly(s: Standing)
    ensures InactiveReason(s).Removed? <==> !s.found || s.removed
    ensures InactiveReason(s).Disabled? <==> s.found && !s.removed && !s.enabled
    ensures InactiveReason(s).NoAccess? <==> s.found && !s.removed && s.enabled && !s.allowed
    ensures InactiveReason(s).Active? <==> s.found && !s.removed && s.enabled && s.allowed
  {
  }

  /** An annotation keeps the quota and tells its usage; an inactive one says so, a total has no reset, any
      other the end of its window. */
  lemma AnnotationTells(row: QuotaRow, log: seq<Entry>, c: Context)
    ensures var a := Annotated(row, log, c);
            && a.model == row.model && a.limit == row.limit && a.period == row.period
            && a.usage == Shown(log, c.key, Map(row.model, c.lower), c.Start(row.period), c.lower)
            && (a.status.Inactive? <==> !a.reason.Active?) && a.reason == InactiveReason(c.standing(row.model))
            && (row.limit > 0 && a.usage > 0 ==> a.percent * row.limit <= 100 * a.usage < (a.percent + 1) * row.limit)
            && (a.resetAt.None? <==> row.period == Total)
            && (a.resetAt.Some? ==> a.resetAt.value == CalcQuotaWindow(c.tz, row.period, c.rule, c.now).reset)
  {
    hide CalcQuotaWindow, Shown, Map, QuotaPercent;
  }

  /** A request without a resolved model is never denied for one. */
  lemma NoModelNoDenial(quotas: seq<QuotaRow>, fold: char -> char, log: seq<Entry>, c: Context)
    ensures !Denied(quotas, "", fold, log, c)
  {
  }
}
