/**
 Upstream providers: which one is the default, and which one a requested model goes to.
 */
module Providers {
  import opened Wrappers
  import opened Text

  datatype Provider = Provider(id: string, name: string, prefix: string, isDefault: bool, isActive: bool, created: int)

  // Routing.

  predicate Matches(p: Provider, model: string) {
    p.prefix != "" && p.prefix + "/" <= model
  }

  function Active(list: seq<Provider>): (active: seq<Provider>)
    ensures forall p :: p in active <==> p in list && p.isActive
  {
    if list == [] then []
    else
      var before, last := Active(list[..|list| - 1]), list[|list| - 1];
      if last.isActive then before + [last] else before
  }

  /** The last default in the list, as the scan overwrites the earlier ones. */
  function DefaultOf(active: seq<Provider>): (d: Option<Provider>)
    ensures d.Some? ==> d.value in active && d.value.isDefault
    ensures d.None? ==> forall p :: p in active ==> !p.isDefault
  {
    if active == [] then None
    else if active[|active| - 1].isDefault then Some(active[|active| - 1])
    else DefaultOf(active[..|active| - 1])
  }

  function FirstMatch(active: seq<Provider>, model: string): (m: Option<Provider>)
    ensures m.Some? ==> m.value in active && Matches(m.value, model)
    ensures m.None? ==> forall p :: p in active ==> !Matches(p, model)
  {
    if active == [] then None
    else if Matches(active[0], model) then Some(active[0])
    else FirstMatch(active[1..], model)
  }

  datatype Route = Route(provider: Provider, actual: string)

  /** A prefix match goes first, then the default, then the first active provider. */
  function Find(list: seq<Provider>, requested: string): Option<Route> {
    var model, active := TrimSpace(requested), Active(list);
    if active == [] then None
    else match FirstMatch(active, model)
      case Some(p) => Some(Route(p, model[|p.prefix| + 1..]))
      case None => Some(Route(match DefaultOf(active) case Some(d) => d case None => active[0], model))
  }

  lemma ActiveStep(list: seq<Provider>, i: nat)
    requires i < |list|
    ensures Active(list[..i + 1]) == if list[i].isActive then Active(list[..i]) + [list[i]] else Active(list[..i])
  {
    assert list[..i + 1][..i] == list[..i];
  }

  lemma DefaultStep(active: seq<Provider>, p: Provider)
    ensures DefaultOf(active + [p]) == if p.isDefault then Some(p) else DefaultOf(active)
  {
    assert (active + [p])[..|active|] == active;
  }

  /** One pass over the listing: the active providers, and the default among them. */
  method ActiveProviders(list: seq<Provider>) returns (active: seq<Provider>, fallback: Option<Provider>)
    ensures active == Active(list) && fallback == DefaultOf(active)
  {
    active, fallback := [], None;
    assert Active(list[..0]) == [];
    hide Active;
    for i := 0 to |list|
      invariant active == Active(list[..i]) && fallback == DefaultOf(active)
    {
      ActiveStep(list, i);
      if list[i].isActive {
        DefaultStep(active, list[i]);
        active := active + [list[i]];
        if list[i].isDefault {
          fallback := Some(list[i]);
        }
      }
    }
    assert list[..|list|] == list;
  }

  lemma MatchStep(active: seq<Provider>, i: nat, model: string)
    requires i < |active|
    ensures FirstMatch(active[i..], model) == if Matches(active[i], model) then Some(active[i]) else FirstMatch(active[i + 1..], model)
  {
    assert active[i..][0] == active[i] && active[i..][1..] == active[i + 1..];
  }

  method MatchPrefix(active: seq<Provider>, model: string) returns (m: Option<Provider>)
    ensures m == FirstMatch(active, model)
  {
    assert active[0..] == active;
    hide FirstMatch;
    for i := 0 to |active|
      invariant FirstMatch(active, model) == FirstMatch(active[i..], model)
    {
      MatchStep(active, i, model);
      if active[i].prefix != "" {
        var pattern := active[i].prefix + "/";
        if pattern <= model {
          return Some(active[i]);
        }
      }
    }
    m := None;
    NoMatch(model);
  }

  lemma NoMatch(model: string)
    ensures FirstMatch([], model) == None
  {
  }

  method FindProviderForModel(list: seq<Provider>, requested: string) returns (r: Option<Route>)
    ensures r == Find(list, requested)
  {
    hide TrimSpace, Active, DefaultOf, FirstMatch;
    var model := TrimSpace(requested);
    var active, fallback := ActiveProviders(list);
    if active == [] {
      return None;
    }
    var found := MatchPrefix(active, model);
    if found.Some? {
      return Some(Route(found.value, model[|found.value.prefix + "/"|..]));
    }
    if fallback.Some? {
      return Some(Route(fallback.value, model));
    }
    return Some(Route(active[0], model));
  }

  /** Either the request starts with the provider's prefix, or it goes out as it is. */
  lemma FindKinds(list: seq<Provider>, requested: string)
    requires Find(list, requested).Some?
    ensures var r, model := Find(list, requested).value, TrimSpace(requested);
            if FirstMatch(Active(list), model) == Some(r.provider)
            then r.provider.prefix != "" && model == r.provider.prefix + "/" + r.actual
            else r.actual == model && !Matches(r.provider, model)
  {
    hide TrimSpace;
    var model := TrimSpace(requested);
    var p := Find(list, requested).value.provider;
    if FirstMatch(Active(list), model) == Some(p) {
      assert (p.prefix + "/")[..|p.prefix| + 1] == p.prefix + "/";
    }
  }

  datatype Resolution = Resolution(provider: Provider, actual: string, id: string)

  /** The route of a request together with its canonical model id. */
  function Resolve(list: seq<Provider>, requested: string): Option<Resolution> {
    match Find(list, requested)
    case None => None
    case Some(Route(p, actual)) =>
      if TrimSpace(requested) == "" then Some(Resolution(p, actual, ""))
      else if p.prefix != "" then Some(Resolution(p, actual, p.prefix + "/" + actual))
      else Some(Resolution(p, actual, actual))
  }

  predicate IsCanonical(list: seq<Provider>, id: string, fold: char -> char) {
    var r := Resolve(list, id);
    r.Some? && r.value.id != "" && EqualFold(r.value.id, TrimSpace(id), fold)
  }

  /** Case never decides: an id is canonical only if resolving gives back its very characters. */
  lemma CanonicalIsFixed(list: seq<Provider>, id: string, fold: char -> char)
    ensures IsCanonical(list, id, fold)
       <==> Resolve(list, id).Some? && TrimSpace(id) != "" && Resolve(list, id).value.id == TrimSpace(id)
  {
    hide TrimSpace, Active, FirstMatch, Find;
    if Find(list, id).Some? {
      FindKinds(list, id);
    }
  }

  // Listings.

  function Rank(p: Provider): nat {
    (if p.isDefault then 0 else 2) + (if p.isActive then 0 else 1)
  }

  predicate NameAtMost(a: string, b: string) {
    if a == [] then true
    else if b == [] then false
    else a[0] < b[0] || (a[0] == b[0] && NameAtMost(a[1..], b[1..]))
  }

  /** The order of a listing: the default first, then the active ones, then by name. */
  ghost predicate Ordered(list: seq<Provider>) {
    forall i, j :: 0 <= i < j < |list| ==>
      Rank(list[i]) < Rank(list[j]) || (Rank(list[i]) == Rank(list[j]) && NameAtMost(list[i].name, list[j].name))
  }

  type Rows = map<string, Provider>

  ghost predicate IsListing(rows: Rows, list: seq<Provider>) {
    && (forall p :: p in list ==> p.id in rows && rows[p.id] == p)
    && (forall id :: id in rows ==> rows[id] in list)
    && (forall i, j :: 0 <= i < j < |list| ==> list[i].id != list[j].id)
    && Ordered(list)
  }

  ghost predicate AtMostOneDefault(rows: Rows) {
    forall a, b :: a in rows && b in rows && rows[a].isDefault && rows[b].isDefault ==> a == b
  }

  lemma {:induction false} ActiveHead(list: seq<Provider>)
    requires Ordered(list) && Active(list) != []
    ensures forall p :: p in list && p.isActive ==> Rank(Active(list)[0]) <= Rank(p)
  {
    var n := |list| - 1;
    var before := list[..n];
    assert forall p :: p in list ==> p in before || p == list[n];
    if Active(before) != [] {
      ActiveHead(before);
      assert Active(list)[0] == Active(before)[0];
    }
  }

  /** An unmatched request goes to the first active provider of the listing. */
  lemma FallbackIsFirst(rows: Rows, list: seq<Provider>)
    requires IsListing(rows, list) && AtMostOneDefault(rows) && Active(list) != []
    ensures match DefaultOf(Active(list)) case Some(d) => d == Active(list)[0] case None => true
  {
    ActiveHead(list);
    var d := DefaultOf(Active(list));
    if d.Some? {
      assert Rank(d.value) == 0;
      assert Active(list)[0].isDefault;
    }
  }

  /** Trimming takes the white space off a prefix that starts with it, so the prefix no longer matches. */
  lemma SpacedPrefixIsLost(list: seq<Provider>, p: Provider, model: string)
    requires p.prefix != "" && IsSpace(p.prefix[0]) && model != "" && TrimSpace(model) == model
    ensures var r := Resolve(list, p.prefix + "/" + model);
            r.Some? && r.value.provider == p ==> r.value.actual != model
  {
    var id := p.prefix + "/" + model;
    hide TrimSpace, Active, FirstMatch, Find;
    assert |TrimSpace(id)| > |model| && TrimSpace(id)[0] != p.prefix[0] by {
      LongTrim(id, |p.prefix|);
    }
    hide IsSpace;
    if Find(list, id).Some? {
      FindKinds(list, id);
    }
  }

  /** A trimmed request that starts with the prefix of the first active provider goes there. */
  lemma GoesToFirst(list: seq<Provider>, p: Provider, model: string)
    requires Active(list) != [] && Active(list)[0] == p && p.prefix != ""
    requires TrimSpace(p.prefix + "/" + model) == p.prefix + "/" + model
    ensures Resolve(list, p.prefix + "/" + model) == Some(Resolution(p, model, p.prefix + "/" + model))
  {
    hide TrimSpace, Active;
    var id := p.prefix + "/" + model;
    assert id[|p.prefix| + 1..] == model && id[..|p.prefix| + 1] == p.prefix + "/";
    assert FirstMatch(Active(list), id) == Some(p);
  }

  lemma OuterStay(prefix: string, model: string)
    requires prefix != "" && model != "" && !IsSpace(prefix[0]) && TrimSpace(model) == model
    ensures TrimSpace(prefix + "/" + model) == prefix + "/" + model
  {
    hide IsSpace;
    var id := prefix + "/" + model;
    assert id[0] == prefix[0] && id[|id| - 1] == model[|model| - 1];
  }

  /** Trimming on the left stops at the first character that is not white space. */
  lemma LongTrim(s: string, i: nat)
    requires i < |s| - 1 && !IsSpace(s[i]) && !IsSpace(s[|s| - 1])
    ensures |TrimSpace(s)| >= |s| - i
  {
    hide IsSpace;
    TrimLeftStops(s, IsSpace, i);
  }

  /** Resolving a canonical id gives the same provider, the same upstream model and the same id, exactly
      unless the provider's prefix starts with white space. */
  lemma ResolveIsIdempotent(rows: Rows, list: seq<Provider>, requested: string)
    requires IsListing(rows, list) && AtMostOneDefault(rows) && Resolve(list, requested).Some?
    ensures var r := Resolve(list, requested).value;
            Resolve(list, r.id) == Some(r)
            <==> TrimSpace(requested) == "" || r.provider.prefix == "" || !IsSpace(r.provider.prefix[0])
  {
    var r, model, active := Resolve(list, requested).value, TrimSpace(requested), Active(list);
    var p := r.provider;
    FallbackIsFirst(rows, list);
    FindKinds(list, requested);
    hide TrimSpace, IsSpace, Active;
    if model == "" || FirstMatch(active, model) == Some(p) {
      assert model != "" ==> r.id == model;
    } else {
      assert p == active[0] && r.actual == model;
      hide FirstMatch, Find, Resolve;
      if p.prefix == "" {
        assert r.id == model;
      } else if IsSpace(p.prefix[0]) {
        SpacedPrefixIsLost(list, p, model);
      } else {
        OuterStay(p.prefix, model);
        GoesToFirst(list, p, model);
      }
    }
  }

  /** A request that no prefix claims goes to an active default if there is one, and out as it is. */
  lemma UnclaimedGoesToDefault(list: seq<Provider>, requested: string)
    requires Find(list, requested).Some? && forall p :: p in list && p.isActive ==> !(p.prefix != "" && p.prefix + "/" <= TrimSpace(requested))
    ensures var r := Find(list, requested).value;
            && r.provider in list && r.provider.isActive && r.actual == TrimSpace(requested)
            && ((exists p :: p in list && p.isActive && p.isDefault) ==> r.provider.isDefault)
  {
    hide TrimSpace;
    if p :| p in list && p.isActive && p.isDefault {
      assert p in Active(list);
    }
  }

  /** Only without an active provider there is no route. */
  lemma NoRouteExactly(list: seq<Provider>, requested: string)
    ensures Find(list, requested).None? <==> forall p :: p in list ==> !p.isActive
  {
    hide TrimSpace, FirstMatch, DefaultOf;
    if Active(list) != [] {
      assert Active(list)[0] in Active(list);
    }
    if p :| p in list && p.isActive {
      assert p in Active(list);
    }
  }

  /** The empty request has the empty id, which is canonical for no one. */
  lemma EmptyRequest(list: seq<Provider>, requested: string, fold: char -> char)
    requires TrimSpace(requested) == ""
    ensures Resolve(list, requested).Some? ==> Resolve(list, requested).value.id == ""
    ensures !IsCanonical(list, requested, fold)
  {
    hide TrimSpace, Active, FirstMatch, Find;
  }

  /** The order of two providers in a listing, criterion by criterion. */
  lemma ListingOrder(list: seq<Provider>, i: nat, j: nat)
    requires Ordered(list) && i < j < |list|
    ensures list[j].isDefault ==> list[i].isDefault
    ensures list[i].isDefault == list[j].isDefault && list[j].isActive ==> list[i].isActive
    ensures list[i].isDefault == list[j].isDefault && list[i].isActive == list[j].isActive ==> NameAtMost(list[i].name, list[j].name)
  {
  }

  /** Names are ordered, by their first difference. */
  lemma {:induction false} NamesOrdered(a: string, b: string)
    ensures NameAtMost(a, b) || NameAtMost(b, a)
    ensures NameAtMost(a, b) && NameAtMost(b, a) <==> a == b
    ensures forall front: string, c: char, d: char :: c < d && a == front + [c] && b == front + [d] ==> NameAtMost(a, b)
    decreases |a|
  {
    if a != [] && b != [] {
      NamesOrdered(a[1..], b[1..]);
      assert a == [a[0]] + a[1..] && b == [b[0]] + b[1..];
      forall front: string, c: char, d: char | c < d && a == front + [c] && b == front + [d] ensures NameAtMost(a, b) {
        if front != [] {
          assert a[0] == b[0] == front[0] && a[1..] == front[1..] + [c] && b[1..] == front[1..] + [d];
        }
      }
    }
  }
}
