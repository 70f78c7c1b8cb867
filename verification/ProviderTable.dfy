/**
 The table of providers: creating, editing, making one the default, switching and deleting keep at most one
 default, which is what routing relies on.
 */
module ProviderTable {
  import opened Wrappers
  import opened Text
  import opened Providers

  predicate IsSlash(c: char) {
    c == '/'
  }

  /** A prefix as it is stored: trimmed, without outer slashes, in lower case. */
  function StoredPrefix(s: string, lower: char -> char): string {
    Map(Trim(TrimSpace(s), IsSlash), lower)
  }

  /** What the form gives; `rejected` stands for a bad icon, backend or connection type. */
  datatype Form = Form(name: string, prefix: string, isDefault: bool, isActive: bool, rejected: bool)

  predicate Accepted(f: Form) {
    TrimSpace(f.name) != "" && !f.rejected
  }

  predicate HasDefault(rows: Rows) {
    exists id :: id in rows && rows[id].isDefault
  }

  /** The rows without their default flags, except at `kept`. */
  function Undefaulted(rows: Rows, kept: Option<string>): (r: Rows)
    ensures r.Keys == rows.Keys
    ensures forall id :: id in rows && rows[id].isDefault && kept != Some(id) ==> !r[id].isDefault
    ensures forall id :: id in rows && (!rows[id].isDefault || kept == Some(id)) ==> r[id] == rows[id]
    ensures forall id :: id in rows ==> r[id].(isDefault := false) == rows[id].(isDefault := false)
  {
    map id | id in rows :: if kept == Some(id) then rows[id] else rows[id].(isDefault := false)
  }

  /** A saved row is the default if the form says so, or if no other row is. */
  function Saved(rows: Rows, p: Provider): Rows {
    var others := rows - {p.id};
    if p.isDefault then Undefaulted(rows, None)[p.id := p]
    else rows[p.id := p.(isDefault := !HasDefault(others))]
  }

  lemma KeptIsOverwritten(rows: Rows, p: Provider)
    ensures Undefaulted(rows, Some(p.id))[p.id := p] == Undefaulted(rows, None)[p.id := p]
  {
  }

  function NewId(rows: Rows, prefix: string, random: string): string
    requires |random| >= 8
  {
    if prefix == "" then random
    else if prefix in rows then prefix + "-" + random[..8]
    else prefix
  }

  /** The rows that may take over from a deleted default: the oldest active ones. */
  predicate IsHeir(rows: Rows, heir: Option<string>) {
    match heir
    case None => forall id :: id in rows ==> !rows[id].isActive
    case Some(h) =>
      && h in rows && rows[h].isActive
      && forall id :: id in rows && rows[id].isActive ==> rows[h].created <= rows[id].created
  }

  function Deleted(rows: Rows, id: string, heir: Option<string>): Rows {
    var rest := rows - {id};
    if id in rows && rows[id].isDefault && heir.Some? && heir.value in rest
    then rest[heir.value := rest[heir.value].(isDefault := true)]
    else rest
  }

  function MadeDefault(rows: Rows, id: string): Rows {
    map k | k in rows :: rows[k].(isDefault := k == id)
  }

  function Toggled(rows: Rows, id: string, active: bool): Rows {
    if id in rows then rows[id := rows[id].(isActive := active)] else rows
  }

  /** Every row left is as it was, but for which is the default. */
  predicate OnlyDefaultsDiffer(before: Rows, after: Rows) {
    forall k :: k in after ==> k in before && after[k].(isDefault := false) == before[k].(isDefault := false)
  }

  class Manager {
    var rows: Rows

    constructor ()
      ensures rows == map[]
    {
      rows := map[];
    }

    method Create(f: Form, lower: char -> char, random: string, now: int) returns (created: Option<Provider>)
      requires |random| >= 8
      modifies this
      ensures var id := NewId(old(rows), StoredPrefix(f.prefix, lower), random);
              if Accepted(f) && id !in old(rows) then
                && created.Some? && id in rows && rows[id] == created.value
                && created.value.isDefault == (f.isDefault || !HasDefault(old(rows)))
                && rows == Saved(old(rows), Provider(id, TrimSpace(f.name), StoredPrefix(f.prefix, lower), f.isDefault, f.isActive, now))
              else created.None? && rows == old(rows)
      ensures created.Some? ==>
                && TrimSpace(f.name) != "" && !f.rejected && created.value.id !in old(rows) && created.value.isActive == f.isActive
                && var prefix := created.value.prefix;
                   created.value.id == if prefix == "" then random else if prefix !in old(rows) then prefix else prefix + "-" + random[..8]
      ensures TrimSpace(f.name) == "" || f.rejected ==> created.None?
      ensures created.Some? ==> rows.Keys == old(rows).Keys + {created.value.id} && OnlyDefaultsDiffer(old(rows), rows - {created.value.id})
    {
      hide StoredPrefix, TrimSpace, Undefaulted;
      if !Accepted(f) {
        return None;
      }
      var prefix := StoredPrefix(f.prefix, lower);
      var id := prefix;
      if id == "" {
        id := random;
      } else if id in rows {
        id := id + "-" + random[..8];
      }
      if id in rows {
        return None;
      }
      assert rows - {id} == rows;
      var isDefault := f.isDefault;
      var cleared := rows;
      if isDefault {
        cleared := Undefaulted(rows, None);
      } else if !HasDefault(rows) {
        isDefault := true;
      }
      created := Some(Provider(id, TrimSpace(f.name), prefix, isDefault, f.isActive, now));
      rows := cleared[id := created.value];
    }

    method Update(id: string, f: Form, lower: char -> char) returns (ok: bool)
      modifies this
      ensures ok == (id in old(rows) && Accepted(f))
      ensures ok == (id in old(rows) && TrimSpace(f.name) != "" && !f.rejected)
      ensures ok ==> id in rows && rows[id].name == TrimSpace(f.name) && rows[id].prefix == StoredPrefix(f.prefix, lower)
      ensures ok ==> id in rows && rows[id].id == id && rows[id].isActive == f.isActive && rows[id].created == old(rows)[id].created
                     && rows.Keys == old(rows).Keys && OnlyDefaultsDiffer(old(rows), rows - {id})
      ensures !ok ==> rows == old(rows)
      ensures ok ==> rows == Saved(old(rows), old(rows)[id].(id := id, name := TrimSpace(f.name),
                                prefix := StoredPrefix(f.prefix, lower), isDefault := f.isDefault, isActive := f.isActive))
    {
      hide StoredPrefix, TrimSpace, Undefaulted;
      if id !in rows || !Accepted(f) {
        return false;
      }
      var isDefault := f.isDefault;
      var others := rows;
      if isDefault {
        others := Undefaulted(rows, Some(id));
      } else if !HasDefault(rows - {id}) {
        isDefault := true;
      }
      var row := rows[id].(id := id, name := TrimSpace(f.name), prefix := StoredPrefix(f.prefix, lower),
                           isDefault := isDefault, isActive := f.isActive);
      if f.isDefault {
        KeptIsOverwritten(rows, row);
      }
      rows := others[id := row];
      return true;
    }

    method SetDefault(id: string) returns (ok: bool)
      modifies this
      ensures ok == (id in old(rows))
      ensures rows == if ok then MadeDefault(old(rows), id) else old(rows)
      ensures ok ==> OneDefault(rows) && rows[id].isDefault
      ensures rows.Keys == old(rows).Keys && forall k :: k in rows ==> rows[k].(isDefault := false) == old(rows)[k].(isDefault := false)
    {
      if id !in rows {
        return false;
      }
      rows := map k | k in rows :: rows[k].(isDefault := k == id);
      assert rows[id].isDefault;
      return true;
    }

    method Toggle(id: string, active: bool)
      modifies this
      ensures rows == Toggled(old(rows), id, active)
      ensures HasDefault(rows) == HasDefault(old(rows))
      ensures forall k :: k in rows ==> (rows[k].isActive <==> if k == id then active else old(rows)[k].isActive)
    {
      if id in rows {
        rows := rows[id := rows[id].(isActive := active)];
      }
      assert rows.Keys == old(rows).Keys && forall k :: k in rows ==> rows[k].isDefault == old(rows)[k].isDefault;
      assert forall k :: k in old(rows) && old(rows)[k].isDefault ==> k in rows && rows[k].isDefault;
    }

    /** `engineOk` is whether the engine let go of the provider first. */
    method Delete(id: string, engineOk: bool) returns (ok: bool, ghost heir: Option<string>)
      modifies this
      ensures ok == engineOk && (!ok ==> rows == old(rows))
      ensures IsHeir(old(rows) - {id}, heir)
      ensures ok ==> rows == Deleted(old(rows), id, heir)
      ensures ok ==> rows.Keys == old(rows).Keys - {id} && OnlyDefaultsDiffer(old(rows), rows)
      ensures ok && id in old(rows) && old(rows)[id].isDefault && (exists k :: k in rows && old(rows)[k].isActive) ==>
                && heir.Some? && heir.value in rows && rows[heir.value].isDefault && old(rows)[heir.value].isActive
                && forall k :: k in rows && old(rows)[k].isActive ==> old(rows)[heir.value].created <= old(rows)[k].created
    {
      ghost var all := rows;
      var rest := rows - {id};
      var oldest := OldestActive(rest);
      heir := oldest;
      if !engineOk {
        return false, heir;
      }
      var wasDefault := id in rows && rows[id].isDefault;
      rows := rest;
      if wasDefault && oldest.Some? {
        rows := rows[oldest.value := rows[oldest.value].(isDefault := true)];
      }
      return true, heir;
    }

    static method OldestActive(rest: Rows) returns (heir: Option<string>)
      ensures IsHeir(rest, heir)
    {
      heir := None;
      var todo := rest.Keys;
      while todo != {}
        invariant todo <= rest.Keys
        invariant IsHeir(rest - todo, heir)
        decreases |todo|
      {
        var id :| id in todo;
        ghost var seen := rest - todo;
        if rest[id].isActive && (heir.None? || rest[id].created < rest[heir.value].created) {
          heir := Some(id);
        }
        todo := todo - {id};
        assert forall k :: k in rest - todo <==> k in seen || k == id;
      }
      assert rest - todo == rest;
    }
  }

  // Every operation at once.

  datatype Op =
    | Create(row: Provider)
    | Update(row: Provider)
    | SetDefault(id: string)
    | Toggle(id: string, active: bool)
    | Delete(id: string, heir: Option<string>)

  /** An operation as the methods above carry it out; one they refuse leaves the table as it is. */
  predicate Allowed(rows: Rows, op: Op) {
    match op
    case Create(p) => p.id !in rows
    case Update(p) => p.id in rows
    case SetDefault(id) => id in rows
    case Toggle(_, _) => true
    case Delete(id, heir) => IsHeir(rows - {id}, heir)
  }

  function Next(rows: Rows, op: Op): Rows {
    match op
    case Create(p) => Saved(rows, p)
    case Update(p) => Saved(rows, p)
    case SetDefault(id) => MadeDefault(rows, id)
    case Toggle(id, active) => Toggled(rows, id, active)
    case Delete(id, heir) => Deleted(rows, id, heir)
  }

  ghost predicate OneDefault(rows: Rows) {
    AtMostOneDefault(rows) && HasDefault(rows)
  }

  lemma SavedHasOneDefault(rows: Rows, p: Provider)
    requires AtMostOneDefault(rows)
    ensures OneDefault(Saved(rows, p))
    ensures p.isDefault ==> Saved(rows, p)[p.id].isDefault
  {
    var saved, others := Saved(rows, p), rows - {p.id};
    assert p.id in saved;
    if !p.isDefault && HasDefault(others) {
      var d :| d in others && others[d].isDefault;
      assert saved[d].isDefault;
    } else {
      assert saved[p.id].isDefault;
      assert !p.isDefault ==> forall k :: k in rows && k != p.id ==> k in others && !others[k].isDefault;
    }
  }

  lemma StepKeepsDefault(rows: Rows, op: Op)
    requires AtMostOneDefault(rows) && Allowed(rows, op)
    ensures AtMostOneDefault(Next(rows, op))
    ensures HasDefault(rows) && !HasDefault(Next(rows, op))
       <==> op.Delete? && op.id in rows && rows[op.id].isDefault && forall k :: k in rows && k != op.id ==> !rows[k].isActive
  {
    var next := Next(rows, op);
    match op
    case Create(p) => SavedHasOneDefault(rows, p);
    case Update(p) => SavedHasOneDefault(rows, p);
    case SetDefault(id) => assert next[id].isDefault;
    case Toggle(id, active) =>
      if HasDefault(rows) {
        var d :| d in rows && rows[d].isDefault;
        assert next[d].isDefault;
      }
    case Delete(id, heir) =>
      if HasDefault(rows) {
        var d :| d in rows && rows[d].isDefault;
        if d != id {
          assert next[d].isDefault;
        } else if heir.Some? {
          assert next[heir.value].isDefault && heir.value in rows && heir.value != id;
        } else {
          assert forall k :: k in rows && k != id ==> k in rows - {id};
        }
      }
  }

  function Run(rows: Rows, ops: seq<Op>): Rows
    decreases |ops|
  {
    if ops == [] then rows else Run(Next(rows, ops[0]), ops[1..])
  }

  predicate IsRun(rows: Rows, ops: seq<Op>)
    decreases |ops|
  {
    ops == [] || (Allowed(rows, ops[0]) && IsRun(Next(rows, ops[0]), ops[1..]))
  }

  /** However the operations follow one another, there is never a second default. */
  lemma {:induction false} RunKeepsDefault(rows: Rows, ops: seq<Op>)
    requires AtMostOneDefault(rows) && IsRun(rows, ops)
    ensures AtMostOneDefault(Run(rows, ops))
    decreases |ops|
  {
    if ops != [] {
      StepKeepsDefault(rows, ops[0]);
      RunKeepsDefault(Next(rows, ops[0]), ops[1..]);
    }
  }

  /** In a table that the operations built, resolving a canonical id is stable. */
  lemma ResolutionIsStable(ops: seq<Op>, list: seq<Provider>, requested: string)
    requires IsRun(map[], ops) && IsListing(Run(map[], ops), list)
    requires Resolve(list, requested).Some?
    requires var prefix := Resolve(list, requested).value.provider.prefix; prefix == "" || !IsSpace(prefix[0])
    ensures Resolve(list, Resolve(list, requested).value.id) == Resolve(list, requested)
  {
    RunKeepsDefault(map[], ops);
    ResolveIsIdempotent(Run(map[], ops), list, requested);
  }

  /** A slash before a space shields the space from trimming: such a prefix is stored. */
  lemma PrefixMayStartWithSpace(lower: char -> char)
    requires lower(' ') == ' '
    ensures |StoredPrefix("/ a", lower)| == 2 && StoredPrefix("/ a", lower)[0] == ' '
  {
    var slash := IsSlash;
    assert TrimSpace("/ a") == "/ a";
    hide TrimSpace;
    assert TrimLeft("/ a", slash) == " a" by {
      assert "/ a"[1..] == " a";
    }
    assert TrimRight(" a", slash) == " a";
  }

  /** Its provider then has no stable ids: resolving "m" twice puts the prefix on twice. */
  lemma SpacedPrefixBreaks(p: Provider, lower: char -> char)
    requires lower(' ') == ' ' && p.prefix == StoredPrefix("/ a", lower) && p.isActive && p.isDefault
    ensures Resolve([p], "m").Some? && Resolve([p], Resolve([p], "m").value.id) != Resolve([p], "m")
  {
    hide Active, Find, FirstMatch, DefaultOf, StoredPrefix, TrimSpace;
    PrefixMayStartWithSpace(lower);
    LoneProvider(p);
    hide Resolve;
    assert IsListing(map[p.id := p], [p]);
    ResolveIsIdempotent(map[p.id := p], [p], "m");
  }

  lemma LoneProvider(p: Provider)
    requires p.isActive && p.isDefault
    ensures TrimSpace("m") == "m"
    ensures Resolve([p], "m").Some? && Resolve([p], "m").value.provider == p
  {
    assert TrimSpace("m") == "m";
    hide TrimSpace;
    assert Active([p]) == [p];
  }

  /** A stored prefix is in the case that the mapping gives and has no slash at either end. */
  lemma StoredPrefixShape(s: string, lower: char -> char)
    requires forall c :: lower(c) == '/' <==> c == '/'
    ensures var p := StoredPrefix(s, lower);
            && (forall c :: c in p ==> exists d :: lower(d) == c)
            && (p != "" ==> p[0] != '/' && p[|p| - 1] != '/')
  {
    var inner := Trim(TrimSpace(s), IsSlash);
    hide TrimSpace, Trim;
    forall c | c in StoredPrefix(s, lower) ensures exists d :: lower(d) == c {
      var i :| 0 <= i < |inner| && StoredPrefix(s, lower)[i] == c;
      assert lower(inner[i]) == c;
    }
  }

  lemma PlainPrefixIsLowered(s: string, lower: char -> char)
    requires s != "" && !IsSpace(s[0]) && !IsSpace(s[|s| - 1]) && s[0] != '/' && s[|s| - 1] != '/'
    ensures StoredPrefix(s, lower) == Map(s, lower) && StoredPrefix("/" + s + "/", lower) == Map(s, lower)
  {
    hide IsSpace, Trim, TrimSpace, Map;
    SlashIsNoSpace();
    var t := ['/'] + (s + ['/']);
    assert "/" + s + "/" == t;
    TrimmedStays(s);
    TrimmedStays(t);
    TrimEnds('/', s, IsSlash);
  }

  lemma SlashIsNoSpace()
    ensures !IsSpace('/')
  {
  }

  lemma TrimmedStays(s: string)
    requires s != "" && !IsSpace(s[0]) && !IsSpace(s[|s| - 1])
    ensures TrimSpace(s) == s
  {
    hide IsSpace;
  }

  /** Cutting a character takes it off both ends. */
  lemma TrimEnds(c: char, s: string, cut: char -> bool)
    requires s != "" && cut(c) && !cut(s[0]) && !cut(s[|s| - 1])
    ensures Trim(s, cut) == s && Trim([c] + (s + [c]), cut) == s
  {
    hide TrimLeft, TrimRight;
    TrimLeftOne(c, s + [c], cut);
    TrimRightOne(c, s, cut);
    assert (s + [c])[0] == s[0];
  }

  lemma TrimLeftOne(c: char, s: string, cut: char -> bool)
    requires cut(c)
    ensures TrimLeft([c] + s, cut) == TrimLeft(s, cut)
  {
    assert ([c] + s)[1..] == s;
  }

  lemma TrimRightOne(c: char, s: string, cut: char -> bool)
    requires cut(c)
    ensures TrimRight(s + [c], cut) == TrimRight(s, cut)
  {
    assert (s + [c])[..|s|] == s;
  }
}
