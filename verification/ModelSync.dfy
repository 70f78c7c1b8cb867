/**
 The model table and its sync with an upstream listing: listed models are registered, models that a
 provider no longer lists are marked removed, and a sync that would mark most of a provider's models
 waits until the next one agrees.
 */
module ModelSync {
  import opened Text

  datatype Model = Model(provider: string, enabled: bool, removed: bool)

  type Rows = map<string, Model>

  /** One entry of an aggregated listing; a missing field is empty. */
  datatype Item = Item(id: string, provider: string)

  /** The part of an id before its first slash; without one there is none. */
  function BeforeSlash(id: string): (part: string)
    ensures if '/' in id then |part| < |id| && id[..|part|] == part && '/' !in part && id[|part|] == '/' else part == ""
  {
    if '/' !in id then "" else if id[0] == '/' then "" else [id[0]] + BeforeSlash(id[1..])
  }

  function ProviderOf(item: Item): string {
    if item.provider != "" then item.provider else BeforeSlash(item.id)
  }

  /** The database's LIKE: '%' is any text, '_' any character, letters of ASCII fold. */
  predicate Like(s: string, pattern: string)
    decreases |pattern|, |s|
  {
    if pattern == "" then s == ""
    else if pattern[0] == '%' then Like(s, pattern[1..]) || (s != "" && Like(s[1..], pattern))
    else s != "" && (pattern[0] == '_' || AsciiLower(pattern[0]) == AsciiLower(s[0])) && Like(s[1..], pattern[1..])
  }

  predicate Belongs(rows: Rows, id: string, provider: string)
    requires id in rows
  {
    rows[id].provider == provider || Like(id, provider + "/%")
  }

  /** `known` are the ids and the prefixes of the providers that exist. */
  predicate Orphan(m: Model, known: set<string>) {
    m.provider == "" || m.provider !in known
  }

  function Prune(rows: Rows, known: set<string>): Rows {
    map id | id in rows && !Orphan(rows[id], known) :: rows[id]
  }

  /** A new model starts enabled; one that returns keeps its flag and is no longer removed. */
  function Register(rows: Rows, item: Item): Rows {
    if item.id == "" then rows
    else if item.id in rows then rows[item.id := rows[item.id].(provider := ProviderOf(item), removed := false)]
    else rows[item.id := Model(ProviderOf(item), true, false)]
  }

  function RegisterAll(rows: Rows, items: seq<Item>): Rows {
    if items == [] then rows else Register(RegisterAll(rows, items[..|items| - 1]), items[|items| - 1])
  }

  function Listed(items: seq<Item>): set<string> {
    set item | item in items && item.id != "" :: item.id
  }

  function Synced(items: seq<Item>): set<string> {
    set item | item in items && item.id != "" && ProviderOf(item) != "" :: ProviderOf(item)
  }

  /** How many entries of a listing name a model. */
  function Named(items: seq<Item>): nat {
    if items == [] then 0 else Named(items[..|items| - 1]) + if items[|items| - 1].id != "" then 1 else 0
  }

  function Present(rows: Rows, provider: string): set<string> {
    set id | id in rows && Belongs(rows, id, provider) && !rows[id].removed
  }

  function Missing(rows: Rows, provider: string, valid: set<string>): set<string> {
    Present(rows, provider) - valid
  }

  function Mark(rows: Rows, ids: set<string>): Rows {
    map id | id in rows :: if id in ids then rows[id].(removed := true) else rows[id]
  }

  /** `pending` are the providers whose mass removal waits for a second sync. */
  datatype State = State(rows: Rows, pending: set<string>)

  /** The missing models are more than half of the present ones, for the first time in a row. */
  predicate HoldsBack(s: State, provider: string, valid: set<string>) {
    2 * |Missing(s.rows, provider, valid)| > |Present(s.rows, provider)| && provider !in s.pending
  }

  function SyncProvider(s: State, provider: string, valid: set<string>): State {
    if Missing(s.rows, provider, valid) != {} && HoldsBack(s, provider, valid) then s.(pending := s.pending + {provider})
    else State(Mark(s.rows, Missing(s.rows, provider, valid)), s.pending - {provider})
  }

  function SyncInOrder(s: State, order: seq<string>, valid: set<string>): State {
    if order == [] then s else SyncProvider(SyncInOrder(s, order[..|order| - 1], valid), order[|order| - 1], valid)
  }

  ghost predicate IsOrder(order: seq<string>, providers: set<string>) {
    && (forall p :: p in order <==> p in providers)
    && (forall i, j :: 0 <= i < j < |order| ==> order[i] != order[j])
  }

  /** The state after a listing has been registered, before anything is marked. */
  function Registered(s: State, known: set<string>, items: seq<Item>): State {
    s.(rows := RegisterAll(Prune(s.rows, known), items))
  }

  /** One sync; the order in which the providers come up is the map's. */
  function Sync(s: State, known: set<string>, items: seq<Item>, order: seq<string>): State {
    SyncInOrder(Registered(s, known, items), order, Listed(items))
  }

  function Orphans(rows: Rows, known: set<string>): set<string> {
    set id | id in rows && Orphan(rows[id], known)
  }

  /** The models that were present and are marked removed now. */
  function NewlyRemoved(before: Rows, after: Rows): set<string> {
    set id | id in before && id in after && !before[id].removed && after[id].removed
  }

  lemma NoEmptyNames(items: seq<Item>)
    ensures "" !in Listed(items) && "" !in Synced(items)
  {
  }

  lemma NoListing(rows: Rows)
    ensures RegisterAll(rows, []) == rows && Named([]) == 0 && Listed([]) == {} && Synced([]) == {}
  {
  }

  /** What one more entry of a listing adds. */
  lemma ListingStep(rows: Rows, items: seq<Item>, i: nat)
    requires i < |items|
    ensures var before, upTo, item := items[..i], items[..i + 1], items[i];
            if item.id == "" then
              && RegisterAll(rows, upTo) == RegisterAll(rows, before) && Named(upTo) == Named(before)
              && Listed(upTo) == Listed(before) && Synced(upTo) == Synced(before)
            else
              && RegisterAll(rows, upTo) == Register(RegisterAll(rows, before), item) && Named(upTo) == Named(before) + 1
              && Listed(upTo) == Listed(before) + {item.id}
              && Synced(upTo) == Synced(before) + if ProviderOf(item) == "" then {} else {ProviderOf(item)}
  {
    var upTo := items[..i + 1];
    assert upTo[..i] == items[..i] && upTo == items[..i] + [items[i]];
    hide ProviderOf;
  }

  class Manager {
    var rows: Rows
    var pending: set<string>

    constructor ()
      ensures Table() == State(map[], {})
    {
      rows, pending := map[], {};
    }

    ghost function Table(): State
      reads this
    {
      State(rows, pending)
    }

    method RegisterListing(items: seq<Item>) returns (added: nat, valid: set<string>, synced: set<string>)
      modifies this`rows
      ensures rows == RegisterAll(old(rows), items)
      ensures added == Named(items) && valid == Listed(items) && synced == Synced(items)
      ensures "" !in valid && "" !in synced
    {
      hide RegisterAll, Register, ProviderOf, Named, Listed, Synced;
      NoListing(rows);
      NoEmptyNames(items);
      added, valid, synced := 0, {}, {};
      for i := 0 to |items|
        invariant rows == RegisterAll(old(rows), items[..i])
        invariant added == Named(items[..i]) && valid == Listed(items[..i]) && synced == Synced(items[..i])
      {
        var item := items[i];
        ListingStep(old(rows), items, i);
        if item.id == "" {
          continue;
        }
        valid := valid + {item.id};
        if ProviderOf(item) != "" {
          synced := synced + {ProviderOf(item)};
        }
        rows := Register(rows, item);
        added := added + 1;
      }
      assert items[..|items|] == items;
    }

    method SyncOne(provider: string, valid: set<string>) returns (removed: nat)
      modifies this
      ensures Table() == SyncProvider(old(Table()), provider, valid)
      ensures removed == |NewlyRemoved(old(rows), rows)|
    {
      var present := Present(rows, provider);
      var missing := present - valid;
      ghost var before := rows;
      if missing == {} {
        pending := pending - {provider};
        assert Mark(rows, {}) == rows && NewlyRemoved(before, rows) == {};
        return 0;
      }
      if 2 * |missing| > |present| && provider !in pending {
        pending := pending + {provider};
        assert NewlyRemoved(before, rows) == {};
        return 0;
      }
      pending := pending - {provider};
      rows := Mark(rows, missing);
      assert NewlyRemoved(before, rows) == missing;
      removed := |missing|;
    }

    /** Applies a listing. `removed` counts the rows deleted as orphans and the models newly marked. */
    method ApplyListing(items: seq<Item>, known: set<string>) returns (added: nat, removed: nat, ghost order: seq<string>)
      modifies this
      ensures IsOrder(order, Synced(items))
      ensures Table() == Sync(old(Table()), known, items, order)
      ensures added == Named(items)
      ensures removed == |Orphans(old(rows), known)|
                         + |NewlyRemoved(Registered(old(Table()), known, items).rows, rows)|
    {
      hide Register, Listed, Synced, SyncProvider, Evolves, NewlyRemoved;
      removed := |Orphans(rows, known)|;
      ghost var orphans := removed;
      rows := Prune(rows, known);
      var valid, synced;
      added, valid, synced := RegisterListing(items);
      ghost var registered := Table();
      order := [];
      var todo := synced;
      NothingRemoved(rows, valid);
      while todo != {}
        invariant todo <= synced && IsOrder(order, synced - todo)
        invariant Table() == SyncInOrder(registered, order, valid) && Evolves(registered.rows, rows, valid)
        invariant removed == orphans + |NewlyRemoved(registered.rows, rows)|
        decreases todo
      {
        var provider :| provider in todo;
        ghost var before := Table();
        var n := SyncOne(provider, valid);
        StepEvolves(before, provider, valid);
        RemovalsAdd(registered.rows, before.rows, rows, valid);
        assert (order + [provider])[..|order|] == order;
        order := order + [provider];
        todo := todo - {provider};
        removed := removed + n;
      }
    }
  }

  /** Marking: rows keep everything but their removed flag, which only unlisted ones may gain. */
  ghost predicate Evolves(a: Rows, b: Rows, valid: set<string>) {
    && b.Keys == a.Keys
    && forall id :: id in a ==> b[id] == a[id] || (b[id] == a[id].(removed := true) && id !in valid)
  }

  lemma NothingRemoved(rows: Rows, valid: set<string>)
    ensures Evolves(rows, rows, valid) && NewlyRemoved(rows, rows) == {}
  {
  }

  lemma StepEvolves(s: State, provider: string, valid: set<string>)
    ensures Evolves(s.rows, SyncProvider(s, provider, valid).rows, valid)
  {
  }

  lemma RemovalsAdd(a: Rows, b: Rows, c: Rows, valid: set<string>)
    requires Evolves(a, b, valid) && Evolves(b, c, valid)
    ensures Evolves(a, c, valid)
    ensures |NewlyRemoved(a, c)| == |NewlyRemoved(a, b)| + |NewlyRemoved(b, c)|
  {
    assert NewlyRemoved(a, c) == NewlyRemoved(a, b) + NewlyRemoved(b, c);
    assert NewlyRemoved(a, b) !! NewlyRemoved(b, c);
  }

  lemma {:induction false} OrderEvolves(s: State, order: seq<string>, valid: set<string>)
    ensures Evolves(s.rows, SyncInOrder(s, order, valid).rows, valid)
  {
    if order == [] {
      NothingRemoved(s.rows, valid);
    } else {
      var before := SyncInOrder(s, order[..|order| - 1], valid);
      OrderEvolves(s, order[..|order| - 1], valid);
      StepEvolves(before, order[|order| - 1], valid);
      RemovalsAdd(s.rows, before.rows, SyncInOrder(s, order, valid).rows, valid);
    }
  }

  // What registering does to one row.

  /** The provider of the last entry that lists a model. */
  function LastProvider(items: seq<Item>, id: string): string
    requires id != "" && id in Listed(items)
  {
    var last := items[|items| - 1];
    if last.id == id then ProviderOf(last) else LastProvider(items[..|items| - 1], id)
  }

  lemma {:induction false} RegisteredRow(rows: Rows, items: seq<Item>, id: string)
    ensures id in RegisterAll(rows, items) <==> id in rows || id in Listed(items)
    ensures id in Listed(items) ==>
              id != "" && RegisterAll(rows, items)[id] == Model(LastProvider(items, id), id in rows ==> rows[id].enabled, false)
    ensures id !in Listed(items) && id in rows ==> RegisterAll(rows, items)[id] == rows[id]
  {
    if items != [] {
      var front, last := items[..|items| - 1], items[|items| - 1];
      RegisteredRow(rows, front, id);
      assert items == front + [last];
      assert id in Listed(items) <==> id in Listed(front) || (id != "" && id == last.id);
    }
  }

  /** What a sync leaves of every row: a listed model is there, present and with the provider that listed
      it last; an orphan goes, and comes back enabled if it is listed; every other row stays. */
  lemma SyncedRow(s: State, known: set<string>, items: seq<Item>, order: seq<string>, id: string)
    ensures var t := Sync(s, known, items, order).rows;
            var stays := id in s.rows && !Orphan(s.rows[id], known);
            && (id in t <==> stays || id in Listed(items))
            && (id in Listed(items) ==> id != "" && t[id] == Model(LastProvider(items, id), stays ==> s.rows[id].enabled, false))
            && (stays && id !in Listed(items) ==> t[id] in {s.rows[id], s.rows[id].(removed := true)})
  {
    var registered := Registered(s, known, items);
    RegisteredRow(Prune(s.rows, known), items, id);
    OrderEvolves(registered, order, Listed(items));
  }

  // The guard.

  /** No present model belongs to two of the providers. */
  ghost predicate Disjoint(rows: Rows, providers: set<string>) {
    forall id, p, q :: p in providers && q in providers && id in Present(rows, p) && id in Present(rows, q) ==> p == q
  }

  /** A provider's turn takes from another's present models only what it misses itself. */
  lemma StepTakes(s: State, p: string, q: string, valid: set<string>, id: string)
    ensures var after := Present(SyncProvider(s, p, valid).rows, q);
            && (id in after ==> id in Present(s.rows, q))
            && (id in Present(s.rows, q) && id !in after ==> id in Missing(s.rows, p, valid))
  {
    hide Like;
  }

  lemma StepSpares(s: State, p: string, q: string, valid: set<string>)
    requires p != q && Present(s.rows, p) !! Present(s.rows, q)
    ensures var t := SyncProvider(s, p, valid);
            Present(t.rows, q) == Present(s.rows, q) && (q in t.pending <==> q in s.pending)
  {
    hide Belongs, Present;
    forall id ensures id in Present(SyncProvider(s, p, valid).rows, q) <==> id in Present(s.rows, q) {
      StepTakes(s, p, q, valid, id);
    }
  }

  /** A provider that has not come up yet is as it was. */
  lemma {:induction false} NotYet(s: State, order: seq<string>, q: string, valid: set<string>)
    requires q !in order && forall p :: p in order ==> Present(s.rows, p) !! Present(s.rows, q)
    ensures var t := SyncInOrder(s, order, valid);
            Present(t.rows, q) == Present(s.rows, q) && (q in t.pending <==> q in s.pending)
  {
    if order != [] {
      var front, p := order[..|order| - 1], order[|order| - 1];
      NotYet(s, front, q, valid);
      PresentShrinks(s, front, p, valid);
      StepSpares(SyncInOrder(s, front, valid), p, q, valid);
    }
  }

  lemma PresentShrinks(s: State, order: seq<string>, p: string, valid: set<string>)
    ensures Present(SyncInOrder(s, order, valid).rows, p) <= Present(s.rows, p)
  {
    hide Like, SyncInOrder;
    OrderEvolves(s, order, valid);
  }

  lemma StepOutcome(s: State, p: string, valid: set<string>)
    ensures var t := SyncProvider(s, p, valid);
            && (p in t.pending <==> HoldsBack(s, p, valid))
            && Present(t.rows, p) == Present(s.rows, p) - if HoldsBack(s, p, valid) then {} else Missing(s.rows, p, valid)
  {
    hide Like;
    if Missing(s.rows, p, valid) == {} {
      assert |Missing(s.rows, p, valid)| == 0;
    }
  }

  /** For providers with disjoint models, whatever the order: a provider's missing models are marked all
      together or not at all, and not at all exactly if they are more than half of its present models and
      it was not already pending; it is pending afterwards in that case only. */
  lemma {:induction false} ProviderOutcome(s: State, order: seq<string>, p: string, valid: set<string>)
    requires p in order && IsOrder(order, set q | q in order) && Disjoint(s.rows, set q | q in order)
    ensures var t := SyncInOrder(s, order, valid);
            && (p in t.pending <==> HoldsBack(s, p, valid))
            && Present(t.rows, p) == Present(s.rows, p) - if HoldsBack(s, p, valid) then {} else Missing(s.rows, p, valid)
  {
    hide Like, Present, SyncProvider, Belongs;
    var front, last := order[..|order| - 1], order[|order| - 1];
    var before := SyncInOrder(s, front, valid);
    assert forall q :: q in front ==> q in order && q != last;
    if p == last {
      NotYet(s, front, p, valid);
      StepOutcome(before, p, valid);
    } else {
      ProviderOutcome(s, front, p, valid);
      PresentShrinks(s, front, last, valid);
      PresentShrinks(s, front, p, valid);
      StepSpares(before, last, p, valid);
    }
  }

  /** A sync marks at most half of a provider's present models unless that provider was already pending. */
  lemma MassRemovalGuard(s: State, known: set<string>, items: seq<Item>, order: seq<string>, p: string)
    requires IsOrder(order, Synced(items)) && p in Synced(items) && p !in s.pending
    requires Disjoint(Registered(s, known, items).rows, Synced(items))
    ensures var before, after := Registered(s, known, items).rows, Sync(s, known, items, order).rows;
            2 * |Present(before, p) - Present(after, p)| <= |Present(before, p)|
  {
    hide Present, Belongs;
    var registered := Registered(s, known, items);
    assert (set q | q in order) == Synced(items);
    ProviderOutcome(registered, order, p, Listed(items));
    var before, after := Present(registered.rows, p), Present(Sync(s, known, items, order).rows, p);
    var missing := Missing(registered.rows, p, Listed(items));
    if HoldsBack(registered, p, Listed(items)) {
      assert before - after == {};
    } else {
      assert before - after == missing;
    }
  }

  /** With shared models the guard can be passed by: the one model of "b" also lies under "a/", where it
      is only half of the present models. */
  lemma SharedModelsDefeatGuard()
    ensures exists s: State, known: set<string>, items: seq<Item>, order: seq<string>, p: string ::
              && IsOrder(order, Synced(items)) && p in Synced(items) && p !in s.pending
              && GuardFails(Registered(s, known, items).rows, Sync(s, known, items, order).rows, p)
  {
    hide Like, Sync, Registered, Present;
    var items, order := [Item("a/y", "b"), Item("a/y", "a")], ["a", "b"];
    var s, known := State(map["a/x" := Model("b", true, false)], {}), {"a", "b"};
    SharedModels(s, known, items, order);
    assert Synced(items) == {"a", "b"};
    assert IsOrder(order, Synced(items)) && "b" in Synced(items) && "b" !in s.pending;
  }

  ghost predicate GuardFails(before: Rows, after: Rows, p: string) {
    2 * |Present(before, p) - Present(after, p)| > |Present(before, p)|
  }

  lemma SharedModels(s: State, known: set<string>, items: seq<Item>, order: seq<string>)
    requires items == [Item("a/y", "b"), Item("a/y", "a")] && order == ["a", "b"]
    requires s == State(map["a/x" := Model("b", true, false)], {}) && known == {"a", "b"}
    ensures GuardFails(Registered(s, known, items).rows, Sync(s, known, items, order).rows, "b")
  {
    hide Like, Present, Registered, RegisterAll;
    var r, valid := Registered(s, known, items), Listed(items);
    RegisteredShared(s, known, items);
    PresentShared(r.rows);
    assert valid == {"a/y"};
    var once := SyncInOrder(r, order[..1], valid);
    assert order[..1] == ["a"] && order[..1][..0] == [];
    assert SyncInOrder(r, [], valid) == r;
    FirstMarks(r, valid);
    assert once == SyncProvider(r, "a", valid);
    StepOutcome(once, "b", valid);
    assert Present(SyncInOrder(r, order, valid).rows, "b") == {};
    assert |Present(r.rows, "b") - {}| == 1;
  }

  lemma PresentShared(rows: Rows)
    requires rows == map["a/x" := Model("b", true, false), "a/y" := Model("a", true, false)]
    ensures Present(rows, "a") == {"a/x", "a/y"} && Present(rows, "b") == {"a/x"}
  {
    hide Like;
    UnderA("x");
    UnderA("y");
    assert "a/" + "x" == "a/x" && "a/" + "y" == "a/y";
    NotUnderB("a/x");
    NotUnderB("a/y");
  }

  lemma FirstMarks(r: State, valid: set<string>)
    requires r == State(map["a/x" := Model("b", true, false), "a/y" := Model("a", true, false)], {}) && valid == {"a/y"}
    ensures Present(SyncProvider(r, "a", valid).rows, "b") == {}
  {
    hide Like, Belongs;
    PresentShared(r.rows);
    assert Missing(r.rows, "a", valid) == {"a/x"};
    StepEvolves(r, "a", valid);
    PresentShrinks(r, ["a"], "b", valid);
    assert ["a"][..0] == [] && SyncInOrder(r, ["a"], valid) == SyncProvider(r, "a", valid);
  }

  lemma UnderA(name: string)
    requires |name| == 1
    ensures Like("a/" + name, "a" + "/%")
  {
    var id, pattern := "a/" + name, "a" + "/%";
    assert id[1..][1..] == name && pattern[1..][1..] == "%" && name[1..] == "" && "%"[1..] == "";
    assert Like("", "%") && Like(name, "%");
    assert Like(id[1..], pattern[1..]);
  }

  lemma NotUnderB(id: string)
    requires id != "" && id[0] == 'a'
    ensures !Like(id, "b" + "/%")
  {
  }

  lemma RegisteredShared(s: State, known: set<string>, items: seq<Item>)
    requires items == [Item("a/y", "b"), Item("a/y", "a")]
    requires s == State(map["a/x" := Model("b", true, false)], {}) && known == {"a", "b"}
    ensures Registered(s, known, items) == State(map["a/x" := Model("b", true, false), "a/y" := Model("a", true, false)], {})
  {
    var first := items[..1];
    assert first == [items[0]] && first[..0] == [];
    assert RegisterAll(s.rows, []) == s.rows;
    assert Prune(s.rows, known) == s.rows;
    assert RegisterAll(s.rows, first) == s.rows["a/y" := Model("b", true, false)];
    assert RegisterAll(s.rows, items) == Register(RegisterAll(s.rows, first), items[1]);
  }

  // The guard for providers that share models: exactly when it can be passed by.

  /** The missing models of p that another of the providers misses too. */
  ghost function SharedMissing(rows: Rows, providers: set<string>, p: string, valid: set<string>): (shared: set<string>)
    ensures shared <= Missing(rows, p, valid)
  {
    set id | id in Missing(rows, p, valid) && exists q :: q in providers && q != p && id in Missing(rows, q, valid)
  }

  /** More than half of the present models are missing, and so many of those are missing elsewhere too that
      their removal there alone is more than half, or lets the rest pass for at most half. */
  ghost predicate CanSlipThrough(rows: Rows, providers: set<string>, p: string, valid: set<string>) {
    var present, missing := |Present(rows, p)|, |Missing(rows, p, valid)|;
    var shared := |SharedMissing(rows, providers, p, valid)|;
    2 * missing > present && (2 * shared > present || shared >= 2 * missing - present)
  }

  /** What the others and p itself may have taken from the present models so far, if `now` are left. */
  ghost predicate MayBeLeft(present: set<string>, missing: set<string>, shared: set<string>, now: set<string>) {
    && now <= present && present - now <= missing
    && (present - now <= shared || 2 * |missing| <= |present| || |shared| >= 2 * |missing| - |present|)
  }

  ghost predicate TakenFrom(rows: Rows, t: State, providers: set<string>, p: string, valid: set<string>) {
    MayBeLeft(Present(rows, p), Missing(rows, p, valid), SharedMissing(rows, providers, p, valid), Present(t.rows, p))
  }

  /** What was missing later was missing before. */
  lemma MissingBefore(a: Rows, b: Rows, q: string, valid: set<string>, id: string)
    requires Evolves(a, b, valid) && id in Missing(b, q, valid)
    ensures id in Missing(a, q, valid)
  {
    hide Like;
  }

  /** Another provider takes shared missing models only. */
  lemma OtherStep(s: State, t: State, providers: set<string>, p: string, q: string, valid: set<string>)
    requires q in providers && q != p && Evolves(s.rows, t.rows, valid)
    ensures var u := SyncProvider(t, q, valid);
            && Present(u.rows, p) <= Present(t.rows, p)
            && Present(t.rows, p) - Present(u.rows, p) <= SharedMissing(s.rows, providers, p, valid)
            && (p in u.pending <==> p in t.pending)
  {
    var u := SyncProvider(t, q, valid);
    assert p in u.pending <==> p in t.pending;
    hide Belongs, Present, SyncProvider, Evolves;
    forall id ensures id in Present(u.rows, p) ==> id in Present(t.rows, p)
              ensures id in Present(t.rows, p) && id !in Present(u.rows, p) ==> id in SharedMissing(s.rows, providers, p, valid)
    {
      StepTakes(t, q, p, valid, id);
      if id in Present(t.rows, p) && id !in Present(u.rows, p) {
        MissingBefore(s.rows, t.rows, q, valid, id);
        MissingBefore(s.rows, t.rows, p, valid, id);
      }
    }
  }

  lemma OtherTakes(s: State, t: State, providers: set<string>, p: string, q: string, valid: set<string>)
    requires q in providers && q != p && Evolves(s.rows, t.rows, valid) && TakenFrom(s.rows, t, providers, p, valid)
    ensures TakenFrom(s.rows, SyncProvider(t, q, valid), providers, p, valid)
    ensures p in SyncProvider(t, q, valid).pending <==> p in t.pending
  {
    hide Present, Missing, SharedMissing, SyncProvider, Evolves;
    OtherStep(s, t, providers, p, q, valid);
  }

  lemma Removing(all: set<string>, some: set<string>)
    requires some <= all
    ensures |all - some| == |all| - |some|
  {
    assert all == (all - some) + some;
  }

  lemma Within(some: set<string>, all: set<string>)
    requires some <= all
    ensures |some| <= |all|
  {
    Removing(all, some);
  }

  /** Marking the rest of the missing models, at most half of what is left. */
  lemma MarkRest(present: set<string>, missing: set<string>, shared: set<string>, now: set<string>)
    requires missing <= present && MayBeLeft(present, missing, shared, now) && 2 * |missing * now| <= |now|
    ensures MayBeLeft(present, missing, shared, now - missing)
  {
    var taken := present - now;
    assert now == present - taken && missing * now == missing - taken;
    Removing(present, taken);
    Removing(missing, taken);
    if taken <= shared {
      Within(taken, shared);
    }
  }

  lemma OwnTakes(s: State, t: State, providers: set<string>, p: string, valid: set<string>)
    requires p !in t.pending && Evolves(s.rows, t.rows, valid) && TakenFrom(s.rows, t, providers, p, valid)
    ensures TakenFrom(s.rows, SyncProvider(t, p, valid), providers, p, valid)
  {
    StepOutcome(t, p, valid);
    hide Present, SyncProvider, SharedMissing;
    var present, missing, now := Present(s.rows, p), Missing(s.rows, p, valid), Present(t.rows, p);
    hide MayBeLeft;
    if HoldsBack(t, p, valid) {
      assert now - {} == now;
    } else {
      assert now <= present by {
        KeepsLeft(s, t, providers, p, valid);
      }
      assert Missing(t.rows, p, valid) == missing * now && now - Missing(t.rows, p, valid) == now - missing;
      MarkRest(present, missing, SharedMissing(s.rows, providers, p, valid), now);
    }
  }

  lemma KeepsLeft(s: State, t: State, providers: set<string>, p: string, valid: set<string>)
    requires TakenFrom(s.rows, t, providers, p, valid)
    ensures Present(t.rows, p) <= Present(s.rows, p)
  {
    hide Present, SharedMissing, Missing;
  }

  lemma {:induction false} TakenAlong(s: State, order: seq<string>, providers: set<string>, p: string, valid: set<string>)
    requires p !in s.pending && IsOrder(order, set q | q in order) && forall q :: q in order ==> q in providers
    ensures var t := SyncInOrder(s, order, valid);
            && TakenFrom(s.rows, t, providers, p, valid)
            && (p !in order ==> p !in t.pending)
  {
    hide Like, Belongs, Present, Missing, SharedMissing, SyncProvider;
    if order == [] {
      assert Present(s.rows, p) - Present(s.rows, p) == {};
    } else {
      var front, q := order[..|order| - 1], order[|order| - 1];
      var t := SyncInOrder(s, front, valid);
      assert forall r :: r in order <==> r in front || r == q;
      assert q !in front;
      TakenAlong(s, front, providers, p, valid);
      OrderEvolves(s, front, valid);
      hide TakenFrom, Evolves;
      if q == p {
        OwnTakes(s, t, providers, p, valid);
      } else {
        OtherTakes(s, t, providers, p, q, valid);
      }
    }
  }

  /** When every other provider confirms a removal of its own, all shared missing models go. */
  lemma {:induction false} PendingTake(s: State, order: seq<string>, p: string, valid: set<string>)
    requires p !in order && IsOrder(order, set q | q in order) && forall q :: q in order ==> q in s.pending
    ensures var t := SyncInOrder(s, order, valid);
            && Present(t.rows, p) == Present(s.rows, p) - SharedMissing(s.rows, (set q | q in order), p, valid)
            && t.pending == s.pending - set q | q in order
  {
    hide Like, Belongs, Present, Missing, SyncProvider;
    if order == [] {
      assert SharedMissing(s.rows, (set q | q in order), p, valid) == {} && s.pending - (set q | q in order) == s.pending;
    } else {
      hide SharedMissing, Evolves;
      var front, q := order[..|order| - 1], order[|order| - 1];
      var before, all := set r | r in front, set r | r in order;
      assert all == before + {q} && q !in before && q in s.pending - before && IsOrder(front, before) by {
        assert forall r :: r in order <==> r in front || r == q;
      }
      hide IsOrder;
      PendingTake(s, front, p, valid);
      OrderEvolves(s, front, valid);
      PendingStep(s, SyncInOrder(s, front, valid), before, all, p, q, valid);
    }
  }

  lemma PendingStep(s: State, t: State, front: set<string>, providers: set<string>, p: string, q: string, valid: set<string>)
    requires q != p && q in t.pending && Evolves(s.rows, t.rows, valid) && providers == front + {q}
    requires Present(t.rows, p) == Present(s.rows, p) - SharedMissing(s.rows, front, p, valid)
    ensures Present(SyncProvider(t, q, valid).rows, p) == Present(s.rows, p) - SharedMissing(s.rows, providers, p, valid)
    ensures SyncProvider(t, q, valid).pending == t.pending - {q}
  {
    hide Like;
    var u := SyncProvider(t, q, valid);
    assert u == State(Mark(t.rows, Missing(t.rows, q, valid)), t.pending - {q});
    forall id ensures id in Present(u.rows, p) <==> id in Present(s.rows, p) && id !in SharedMissing(s.rows, providers, p, valid) {
      if id in Present(t.rows, p) {
        assert id in Missing(t.rows, q, valid) <==> id in Missing(s.rows, q, valid);
        assert id in Missing(s.rows, p, valid) <==> id !in valid;
      }
    }
  }

  lemma SomeOrder(providers: set<string>) returns (order: seq<string>)
    ensures IsOrder(order, providers)
  {
    order := [];
    var todo := providers;
    while todo != {}
      invariant todo <= providers && IsOrder(order, providers - todo)
      decreases todo
    {
      var q :| q in todo;
      order := order + [q];
      todo := todo - {q};
    }
  }

  /** The sync of a listing, from the rows as registered, in which p is marked by more than half. */
  ghost predicate SlipsThrough(rows: Rows, pending: set<string>, order: seq<string>, p: string, valid: set<string>) {
    p !in pending && GuardFails(rows, SyncInOrder(State(rows, pending), order, valid).rows, p)
  }

  lemma SlipNeedsShares(rows: Rows, pending: set<string>, order: seq<string>, providers: set<string>, p: string, valid: set<string>)
    requires IsOrder(order, providers) && SlipsThrough(rows, pending, order, p, valid)
    ensures CanSlipThrough(rows, providers, p, valid)
  {
    hide Like, Belongs, Present, SharedMissing, SyncInOrder;
    var s := State(rows, pending);
    assert (set q | q in order) == providers;
    TakenAlong(s, order, providers, p, valid);
    var taken := Present(rows, p) - Present(SyncInOrder(s, order, valid).rows, p);
    Within(taken, Missing(rows, p, valid));
    if taken <= SharedMissing(rows, providers, p, valid) {
      Within(taken, SharedMissing(rows, providers, p, valid));
    }
  }

  /** p comes last, after its shared missing models have gone. */
  lemma LastTakes(rows: Rows, t: State, providers: set<string>, p: string, valid: set<string>)
    requires CanSlipThrough(rows, providers, p, valid) && p !in t.pending && Evolves(rows, t.rows, valid)
    requires Present(t.rows, p) == Present(rows, p) - SharedMissing(rows, providers, p, valid)
    ensures GuardFails(rows, SyncProvider(t, p, valid).rows, p)
  {
    StepOutcome(t, p, valid);
    hide Like, Belongs, Present, SyncProvider, SharedMissing, Evolves;
    var present, missing, shared := Present(rows, p), Missing(rows, p, valid), SharedMissing(rows, providers, p, valid);
    assert Missing(t.rows, p, valid) == missing - shared;
    Removing(present, shared);
    Removing(missing, shared);
    var after := Present(SyncProvider(t, p, valid).rows, p);
    if HoldsBack(t, p, valid) {
      assert present - after == shared;
    } else {
      assert present - after == missing;
    }
  }

  lemma OthersShare(rows: Rows, providers: set<string>, p: string, valid: set<string>)
    ensures SharedMissing(rows, providers - {p}, p, valid) == SharedMissing(rows, providers, p, valid)
  {
  }

  /** The worst case: every other provider comes first and is pending. */
  lemma SharesSlip(rows: Rows, providers: set<string>, p: string, valid: set<string>) returns (pending: set<string>, order: seq<string>)
    requires p in providers && CanSlipThrough(rows, providers, p, valid)
    ensures IsOrder(order, providers) && SlipsThrough(rows, pending, order, p, valid)
  {
    hide Like, Belongs, Present, Missing, SharedMissing, SyncProvider, CanSlipThrough, GuardFails, Evolves;
    pending := providers - {p};
    var others := SomeOrder(pending);
    order := others + [p];
    assert (set q | q in others) == pending && order[..|order| - 1] == others;
    var s := State(rows, pending);
    assert SyncInOrder(s, order, valid) == SyncProvider(SyncInOrder(s, others, valid), p, valid);
    hide SyncInOrder;
    OthersShare(rows, providers, p, valid);
    PendingTake(s, others, p, valid);
    OrderEvolves(s, others, valid);
    LastTakes(rows, SyncInOrder(s, others, valid), providers, p, valid);
  }

  /** A sync can mark more than half of the present models of a provider that was not pending, for some order
      of the providers and some of the others pending, exactly if enough of its missing models are missing
      from another synced provider as well. */
  lemma GuardFailsExactly(s: State, known: set<string>, items: seq<Item>, p: string)
    requires p in Synced(items)
    ensures (exists pending, order :: p !in pending && IsOrder(order, Synced(items))
               && GuardFails(Registered(s, known, items).rows, Sync(s.(pending := pending), known, items, order).rows, p))
       <==> CanSlipThrough(Registered(s, known, items).rows, Synced(items), p, Listed(items))
  {
    hide Like, Present, Missing, SharedMissing, RegisterAll, Listed, SyncInOrder;
    var rows, valid := Registered(s, known, items).rows, Listed(items);
    if pending, order :| p !in pending && IsOrder(order, Synced(items)) && GuardFails(rows, Sync(s.(pending := pending), known, items, order).rows, p) {
      assert Registered(s.(pending := pending), known, items) == State(rows, pending);
      SlipNeedsShares(rows, pending, order, Synced(items), p, valid);
    }
    if CanSlipThrough(rows, Synced(items), p, valid) {
      var pending, order := SharesSlip(rows, Synced(items), p, valid);
      assert Registered(s.(pending := pending), known, items) == State(rows, pending);
      assert p !in pending && IsOrder(order, Synced(items)) && GuardFails(rows, Sync(s.(pending := pending), known, items, order).rows, p);
    }
  }

  // Two syncs of one listing settle it.

  lemma StepSettles(s: State, q: string, p: string, valid: set<string>)
    ensures var t := SyncProvider(s, q, valid);
            && Missing(t.rows, p, valid) <= Missing(s.rows, p, valid)
            && (p != q ==> (p in t.pending <==> p in s.pending))
            && (p == q && !HoldsBack(s, p, valid) ==> Missing(t.rows, p, valid) == {} && p !in t.pending)
            && (p == q && HoldsBack(s, p, valid) ==> p in t.pending && Missing(s.rows, p, valid) != {})
  {
    hide Like;
    StepOutcome(s, q, valid);
    if Missing(s.rows, p, valid) == {} {
      assert |Missing(s.rows, p, valid)| == 0;
    }
  }

  /** One sync leaves a provider with nothing missing, or pending; with nothing missing and not pending
      if it was so or pending before. */
  lemma {:induction false} Settles(s: State, order: seq<string>, p: string, valid: set<string>)
    requires IsOrder(order, set q | q in order)
    ensures var t := SyncInOrder(s, order, valid);
            && Missing(t.rows, p, valid) <= Missing(s.rows, p, valid)
            && (p !in order ==> (p in t.pending <==> p in s.pending))
            && (p in order ==> if Missing(s.rows, p, valid) == {} || p in s.pending
                               then Missing(t.rows, p, valid) == {} && p !in t.pending
                               else Missing(t.rows, p, valid) == {} || p in t.pending)
  {
    hide Like, Missing, SyncProvider;
    if order != [] {
      var front, last := order[..|order| - 1], order[|order| - 1];
      assert forall q :: q in order <==> q in front || q == last;
      assert last !in front;
      Settles(s, front, p, valid);
      StepSettles(SyncInOrder(s, front, valid), last, p, valid);
    }
  }

  /** Registering the listing again leaves no model missing that was not missing before. */
  lemma RegisteringMissesNothing(s: State, known: set<string>, items: seq<Item>, p: string)
    ensures Missing(Registered(s, known, items).rows, p, Listed(items)) <= Missing(s.rows, p, Listed(items))
  {
    hide Like, Listed;
    forall id | id in Missing(Registered(s, known, items).rows, p, Listed(items))
      ensures id in Missing(s.rows, p, Listed(items))
    {
      RegisteredRow(Prune(s.rows, known), items, id);
    }
  }

  /** After a sync every listed model is present. */
  lemma ListedArePresent(s: State, known: set<string>, items: seq<Item>, order: seq<string>)
    ensures var t := Sync(s, known, items, order).rows;
            forall id :: id in Listed(items) ==> id in t && !t[id].removed
  {
    hide Sync, Listed;
    forall id | id in Listed(items)
      ensures id in Sync(s, known, items, order).rows && !Sync(s, known, items, order).rows[id].removed
    {
      SyncedRow(s, known, items, order, id);
    }
  }

  lemma NothingMissing(rows: Rows, p: string, valid: set<string>)
    requires Missing(rows, p, valid) == {} && forall id :: id in valid ==> id in rows && !rows[id].removed
    ensures Present(rows, p) == set id | id in valid && id in rows && Belongs(rows, id, p)
  {
    hide Belongs;
    forall id | id in Present(rows, p) ensures id in valid {
      assert id in valid || id in Missing(rows, p, valid);
    }
  }

  /** Two consecutive syncs of one listing leave, for each synced provider, exactly its listed models
      present, and none pending. */
  lemma TwoSyncsSettle(s: State, known: set<string>, items: seq<Item>, o1: seq<string>, o2: seq<string>, p: string)
    requires IsOrder(o1, Synced(items)) && IsOrder(o2, Synced(items)) && p in Synced(items)
    ensures var t := Sync(Sync(s, known, items, o1), known, items, o2);
            && p !in t.pending
            && Present(t.rows, p) == set id | id in Listed(items) && id in t.rows && Belongs(t.rows, id, p)
  {
    hide Like, Belongs, SyncInOrder, RegisterAll;
    var valid, s1 := Listed(items), Sync(s, known, items, o1);
    var t := Sync(s1, known, items, o2);
    assert (set q | q in o1) == Synced(items) == (set q | q in o2);
    Settles(Registered(s, known, items), o1, p, valid);
    RegisteringMissesNothing(s1, known, items, p);
    Settles(Registered(s1, known, items), o2, p, valid);
    ListedArePresent(s1, known, items, o2);
    NothingMissing(t.rows, p, valid);
  }

  lemma {:induction false} NothingToDo(s: State, order: seq<string>, valid: set<string>)
    requires forall p :: p in order ==> Missing(s.rows, p, valid) == {} && p !in s.pending
    ensures SyncInOrder(s, order, valid) == s
  {
    hide Like, Missing;
    if order != [] {
      NothingToDo(s, order[..|order| - 1], valid);
      assert Mark(s.rows, {}) == s.rows;
      assert |Missing(s.rows, order[|order| - 1], valid)| == 0;
    }
  }

  lemma RegisteredAgain(s: State, known: set<string>, items: seq<Item>, o1: seq<string>, o2: seq<string>)
    ensures var t := Sync(Sync(s, known, items, o1), known, items, o2); Registered(t, known, items) == t
  {
    hide Listed, RegisterAll, Sync;
    var s1 := Sync(s, known, items, o1);
    var t := Sync(s1, known, items, o2);
    var again := RegisterAll(Prune(t.rows, known), items);
    forall id ensures id in again <==> id in t.rows
              ensures id in t.rows ==> id in again && again[id] == t.rows[id]
    {
      SyncedRow(s, known, items, o1, id);
      SyncedRow(s1, known, items, o2, id);
      RegisteredRow(Prune(t.rows, known), items, id);
    }
    assert again == t.rows;
  }

  /** A third sync of the same listing changes nothing. */
  lemma ThirdSyncChangesNothing(s: State, known: set<string>, items: seq<Item>, o1: seq<string>, o2: seq<string>, o3: seq<string>)
    requires IsOrder(o1, Synced(items)) && IsOrder(o2, Synced(items)) && IsOrder(o3, Synced(items))
    ensures var t := Sync(Sync(s, known, items, o1), known, items, o2); Sync(t, known, items, o3) == t
  {
    var t := Sync(Sync(s, known, items, o1), known, items, o2);
    RegisteredAgain(s, known, items, o1, o2);
    forall p | p in o3 ensures Missing(t.rows, p, Listed(items)) == {} && p !in t.pending {
      TwoSyncsSettle(s, known, items, o1, o2, p);
    }
    NothingToDo(t, o3, Listed(items));
  }

  // Runs.

  /** `providers` are the ids and prefixes at the time of a sync. */
  datatype Event =
    | SyncWith(known: set<string>, items: seq<Item>, order: seq<string>)
    | SetEnabled(id: string, enabled: bool)
    | DeleteModel(id: string)
    | DropProvider(provider: string, prefix: string)
    | ClearRemoved

  /** Deleting a provider deletes the rows under its id, and those under its prefix if it has one. */
  predicate Dropped(rows: Rows, id: string, provider: string, prefix: string)
    requires id in rows
  {
    rows[id].provider == provider || (prefix != "" && Belongs(rows, id, prefix))
  }

  function Next(s: State, e: Event): State {
    match e
    case SyncWith(known, items, order) => Sync(s, known, items, order)
    case SetEnabled(id, enabled) =>
      s.(rows := s.rows[id := if id in s.rows then s.rows[id].(enabled := enabled) else Model(BeforeSlash(id), enabled, false)])
    case DeleteModel(id) => s.(rows := s.rows - {id})
    case DropProvider(provider, prefix) => s.(rows := map id | id in s.rows && !Dropped(s.rows, id, provider, prefix) :: s.rows[id])
    case ClearRemoved => s.(rows := map id | id in s.rows && !s.rows[id].removed :: s.rows[id])
  }

  function Final(s: State, events: seq<Event>): State {
    if events == [] then s else Next(Final(s, events[..|events| - 1]), events[|events| - 1])
  }

  /** The event does not delete the row of the model. */
  predicate Spares(s: State, e: Event, id: string)
    requires id in s.rows
  {
    match e
    case SyncWith(known, _, _) => !Orphan(s.rows[id], known)
    case SetEnabled(_, _) => true
    case DeleteModel(other) => other != id
    case DropProvider(provider, prefix) => !Dropped(s.rows, id, provider, prefix)
    case ClearRemoved => !s.rows[id].removed
  }

  /** The flag the administrator set last. */
  function LastFlag(events: seq<Event>, id: string, first: bool): bool {
    if events == [] then first
    else match events[|events| - 1]
      case SetEnabled(other, enabled) => if other == id then enabled else LastFlag(events[..|events| - 1], id, first)
      case _ => LastFlag(events[..|events| - 1], id, first)
  }

  /** Over every run of syncs and administrator's edits that does not delete a model's row, the model
      keeps the enabled flag the administrator gave it last, removed or listed again in between. */
  lemma {:induction false} FlagsSurvive(s: State, events: seq<Event>, id: string)
    requires id in s.rows
    requires forall i :: 0 <= i < |events| && id in Final(s, events[..i]).rows ==> Spares(Final(s, events[..i]), events[i], id)
    ensures id in Final(s, events).rows && Final(s, events).rows[id].enabled == LastFlag(events, id, s.rows[id].enabled)
  {
    if events != [] {
      hide Final, Spares;
      var front, e := events[..|events| - 1], events[|events| - 1];
      assert forall i :: 0 <= i < |front| ==> front[..i] == events[..i] && front[i] == events[i];
      FlagsSurvive(s, front, id);
      FlagStep(Final(s, front), e, id);
      FinalStep(s, events);
    }
  }

  lemma FlagStep(s: State, e: Event, id: string)
    requires id in s.rows && Spares(s, e, id)
    ensures id in Next(s, e).rows
    ensures Next(s, e).rows[id].enabled == if e.SetEnabled? && e.id == id then e.enabled else s.rows[id].enabled
  {
    hide Sync, Listed;
    if e.SyncWith? {
      SyncedRow(s, e.known, e.items, e.order, id);
    }
  }

  lemma FinalStep(s: State, events: seq<Event>)
    requires events != []
    ensures Final(s, events) == Next(Final(s, events[..|events| - 1]), events[|events| - 1])
  {
  }

  /** A disabled model whose provider is gone comes back enabled when another provider lists it. */
  lemma ListedOrphanStartsOver(order: seq<string>)
    ensures var s, items := State(map["a/x" := Model("gone", false, false)], {}), [Item("a/x", "a")];
            var t := Sync(s, {"a"}, items, order).rows;
            "a/x" in t && t["a/x"] == Model("a", true, false)
  {
    var s, items := State(map["a/x" := Model("gone", false, false)], {}), [Item("a/x", "a")];
    assert items[0].id in Listed(items);
    SyncedRow(s, {"a"}, items, order, "a/x");
  }

  /** One sync keeps a model's flag exactly if its provider exists, or it is listed and was enabled: an
      orphan's row is deleted, and a listed orphan starts over enabled. */
  lemma FlagKeptExactly(s: State, known: set<string>, items: seq<Item>, order: seq<string>, id: string)
    requires id in s.rows
    ensures var t := Sync(s, known, items, order).rows;
            (id in t && t[id].enabled == s.rows[id].enabled)
            <==> !Orphan(s.rows[id], known) || (id in Listed(items) && s.rows[id].enabled)
  {
    hide Sync, Listed;
    SyncedRow(s, known, items, order, id);
  }

  // The smaller pieces.

  /** An entry belongs to the provider it names, or to the part of its id before the first slash. */
  lemma EntryProvider(item: Item, provider: string, name: string)
    ensures item.provider != "" ==> ProviderOf(item) == item.provider
    ensures item.provider == "" && item.id == provider + "/" + name && '/' !in provider ==> ProviderOf(item) == provider
    ensures item.provider == "" && '/' !in item.id ==> ProviderOf(item) == ""
  {
    if item.provider == "" && item.id == provider + "/" + name && '/' !in provider {
      var part := BeforeSlash(item.id);
      assert item.id[|provider|] == '/' && forall i :: 0 <= i < |provider| ==> item.id[i] == provider[i];
      assert forall i :: 0 <= i < |part| ==> part[i] == item.id[i];
    }
  }

  /** Under a prefix without wildcards lie exactly the ids that start with it and a slash, up to ASCII case. */
  lemma {:induction false} UnderPrefix(id: string, prefix: string)
    requires '%' !in prefix && '_' !in prefix
    ensures Like(id, prefix + "/%") <==> |id| > |prefix| && NoCase(id[..|prefix| + 1], prefix + "/")
    decreases |prefix|
  {
    var pattern := prefix + "/%";
    if prefix == "" {
      assert pattern[1..] == "%";
      if id != "" {
        AnyTail(id[1..]);
        OneFolds(id[0], '/');
        assert id[..1] == [id[0]];
      }
    } else {
      assert pattern[1..] == prefix[1..] + "/%" && pattern[0] == prefix[0];
      if id != "" {
        UnderPrefix(id[1..], prefix[1..]);
        if |id| > |prefix| {
          FoldsByFirst(id[..|prefix| + 1], prefix + "/");
          assert id[..|prefix| + 1][1..] == id[1..][..|prefix|] && (prefix + "/")[1..] == prefix[1..] + "/";
        }
      }
    }
  }

  lemma {:induction false} AnyTail(s: string)
    ensures Like(s, "%")
  {
    if s != "" {
      AnyTail(s[1..]);
    }
  }

  lemma OneFolds(c: char, d: char)
    ensures NoCase([c], [d]) <==> AsciiLower(c) == AsciiLower(d)
  {
    assert Map([c], AsciiLower) == [AsciiLower(c)] && Map([d], AsciiLower) == [AsciiLower(d)];
  }

  lemma FoldsByFirst(a: string, b: string)
    requires a != "" && b != ""
    ensures NoCase(a, b) <==> AsciiLower(a[0]) == AsciiLower(b[0]) && NoCase(a[1..], b[1..])
  {
    assert Map(a, AsciiLower) == [AsciiLower(a[0])] + Map(a[1..], AsciiLower);
    assert Map(b, AsciiLower) == [AsciiLower(b[0])] + Map(b[1..], AsciiLower);
    assert Map(a, AsciiLower)[1..] == Map(a[1..], AsciiLower) && Map(b, AsciiLower)[1..] == Map(b[1..], AsciiLower);
  }

  /** An underscore in a prefix stands for any character: a provider "a_b" claims the models under "axb". */
  lemma UnderscoreClaims(name: string)
    ensures Like("axb/" + name, "a_b" + "/%")
  {
    var id, pattern := "axb/" + name, "a_b/%";
    assert "a_b" + "/%" == pattern;
    AnyTail(name);
    assert id[1..][1..][1..][1..] == name && pattern[1..][1..][1..][1..] == "%";
    assert Like(id[1..][1..][1..], pattern[1..][1..][1..]);
    assert Like(id[1..][1..], pattern[1..][1..]);
    assert Like(id[1..], pattern[1..]);
  }

  predicate IsUnder(id: string, prefix: string) {
    |id| > |prefix| && NoCase(id[..|prefix| + 1], prefix + "/")
  }

  predicate IsWildcard(c: char) {
    c == '%' || c == '_'
  }

  /** Every text is like itself, and like itself with any character put in for a wildcard. */
  lemma {:induction false} LikeItself(s: string, i: nat, c: char)
    requires i < |s| ==> IsWildcard(s[i])
    ensures Like((if i < |s| then s[i := c] else s) + "/", s + "/%")
    decreases |s|
  {
    var t := if i < |s| then s[i := c] else s;
    if s == "" {
      assert ("/%")[1..] == "%" && ("/")[1..] == "" && "%"[1..] == "";
      assert Like("", "%");
    } else {
      assert (s + "/%")[1..] == s[1..] + "/%";
      if i == 0 {
        LikeItself(s[1..], |s|, c);
        assert (t + "/")[1..] == s[1..] + "/";
      } else {
        LikeItself(s[1..], i - 1, c);
        assert (t + "/")[1..] == (if i - 1 < |s[1..]| then s[1..][i - 1 := c] else s[1..]) + "/";
      }
      if s[0] == '%' {
        assert Like((t + "/")[1..], s + "/%");
      }
    }
  }

  lemma OtherLetter(prefix: string, i: nat)
    requires i < |prefix| && IsWildcard(prefix[i])
    ensures !IsUnder(prefix[i := 'x'] + "/", prefix)
  {
    var id := prefix[i := 'x'] + "/";
    assert id[..|prefix| + 1] == id && id[i] == 'x' && (prefix + "/")[i] == prefix[i];
    assert Map(id, AsciiLower)[i] == 'x' && Map(prefix + "/", AsciiLower)[i] == prefix[i];
    hide Map;
  }

  /** A provider claims just the models under its prefix exactly if that has no wildcard in it. */
  lemma ClaimsOwnExactly(prefix: string)
    ensures (forall id :: Like(id, prefix + "/%") <==> IsUnder(id, prefix)) <==> forall i :: 0 <= i < |prefix| ==> !IsWildcard(prefix[i])
  {
    if forall i :: 0 <= i < |prefix| ==> !IsWildcard(prefix[i]) {
      forall id ensures Like(id, prefix + "/%") <==> IsUnder(id, prefix) {
        UnderPrefix(id, prefix);
      }
    } else {
      var i :| 0 <= i < |prefix| && IsWildcard(prefix[i]);
      var id := prefix[i := 'x'] + "/";
      LikeItself(prefix, i, 'x');
      hide Like, IsUnder;
      OtherLetter(prefix, i);
    }
  }

  /** What belongs to a provider without wildcards in its name. */
  lemma BelongsExactly(rows: Rows, id: string, provider: string)
    requires id in rows && '%' !in provider && '_' !in provider
    ensures Belongs(rows, id, provider) <==>
              rows[id].provider == provider || (|id| > |provider| && NoCase(id[..|provider| + 1], provider + "/"))
  {
    UnderPrefix(id, provider);
  }

  /** Every row without a provider goes, even where a provider has no prefix. */
  lemma NoProviderIsOrphan(m: Model, known: set<string>)
    requires m.provider == ""
    ensures Orphan(m, known)
  {
  }

  lemma OrphanExactly(m: Model, known: set<string>)
    requires m.provider != ""
    ensures Orphan(m, known) <==> m.provider !in known
  {
  }

  /** The guard in numbers: a provider not pending has its missing models marked, all of them, exactly if they
      are at most half of its present ones. */
  lemma GuardInNumbers(s: State, p: string, valid: set<string>)
    ensures var t := SyncProvider(s, p, valid);
            var present, missing := Present(s.rows, p), Present(s.rows, p) - valid;
            && Present(t.rows, p) == (if 2 * |missing| <= |present| || p in s.pending then present - missing else present)
            && (p in t.pending <==> p !in s.pending && 2 * |missing| > |present|)
  {
    StepOutcome(s, p, valid);
    hide Present, SyncProvider;
    assert Present(s.rows, p) - {} == Present(s.rows, p);
  }

  lemma {:induction false} NamedCounts(items: seq<Item>)
    ensures Named(items) == |set i | 0 <= i < |items| && items[i].id != ""|
  {
    if items != [] {
      var n := |items| - 1;
      var front := items[..n];
      NamedCounts(front);
      var before, all := set i | 0 <= i < |front| && front[i].id != "", set i | 0 <= i < |items| && items[i].id != "";
      assert all == before + if items[n].id != "" then {n} else {};
    }
  }

  /** The administrator's edits: what each leaves of any row. */
  lemma EditsExactly(s: State, id: string, other: string, enabled: bool, provider: string, prefix: string)
    ensures var t := Next(s, SetEnabled(other, enabled)).rows;
            && other in t && t[other].enabled == enabled
            && (other in s.rows ==> t[other].(enabled := s.rows[other].enabled) == s.rows[other])
            && (other !in s.rows ==> !t[other].removed && t[other].provider == BeforeSlash(other))
            && (id != other ==> (id in t <==> id in s.rows) && (id in t ==> t[id] == s.rows[id]))
    ensures var t := Next(s, DeleteModel(other)).rows; t == s.rows - {other}
    ensures var t := Next(s, ClearRemoved).rows;
            && (id in t <==> id in s.rows && !s.rows[id].removed) && (id in t ==> t[id] == s.rows[id])
    ensures var t := Next(s, DropProvider(provider, prefix)).rows;
            && (id in t ==> id in s.rows && t[id] == s.rows[id] && t[id].provider != provider && (prefix != "" ==> t[id].provider != prefix))
            && (id in s.rows && id !in t ==> s.rows[id].provider == provider || (prefix != "" && Belongs(s.rows, id, prefix)))
            && (id in s.rows && prefix != "" && Like(id, prefix + "/%") ==> id !in t)
    ensures forall e: Event :: !e.SyncWith? ==> Next(s, e).pending == s.pending
  {
    hide Like;
  }
}
