/**
 Tool names come back from some providers with cloak suffixes; they are stripped back to the names the
 client offered.
 */
module Decloak {
  import opened Wrappers

  const SUFFIXES: seq<string> := ["_ide", "_cc"]

  predicate EndsWith(s: string, suffix: string) {
    |suffix| < |s| && s[|s| - |suffix|..] == suffix
  }

  /** The name without its last cloak suffix, if it has one and something is left. */
  function StripOne(cur: string): (r: Option<string>)
    ensures r.Some? ==> |r.value| < |cur|
  {
    if EndsWith(cur, SUFFIXES[0]) then Some(cur[..|cur| - |SUFFIXES[0]|])
    else if EndsWith(cur, SUFFIXES[1]) then Some(cur[..|cur| - |SUFFIXES[1]|])
    else None
  }

  /** Strips suffix after suffix until an offered name appears. */
  function StripFrom(cur: string, name: string, offered: set<string>): string
    decreases |cur|
  {
    var next := StripOne(cur);
    if next.None? then (if offered == {} then cur else name)
    else if next.value in offered then next.value
    else StripFrom(next.value, name, offered)
  }

  function Decloak(name: string, offered: set<string>): string {
    if name in offered then name else StripFrom(name, name, offered)
  }

  lemma StripsFirst(cur: string, i: nat, name: string, offered: set<string>)
    requires i < |SUFFIXES| && EndsWith(cur, SUFFIXES[i]) && forall j :: 0 <= j < i ==> !EndsWith(cur, SUFFIXES[j])
    ensures var next := cur[..|cur| - |SUFFIXES[i]|];
            StripFrom(cur, name, offered) == if next in offered then next else StripFrom(next, name, offered)
  {
    assert StripOne(cur) == Some(cur[..|cur| - |SUFFIXES[i]|]);
  }

  lemma StripsNothing(cur: string, name: string, offered: set<string>)
    requires forall j :: 0 <= j < |SUFFIXES| ==> !EndsWith(cur, SUFFIXES[j])
    ensures StripFrom(cur, name, offered) == if offered == {} then cur else name
  {
  }

  method StripCloakSuffix(name: string, offered: set<string>) returns (r: string)
    ensures r == Decloak(name, offered)
  {
    hide StripFrom;
    if name in offered {
      return name;
    }
    var cur := name;
    var stripped := true;
    while stripped
      invariant stripped ==> StripFrom(name, name, offered) == StripFrom(cur, name, offered)
      invariant !stripped ==> StripFrom(name, name, offered) == if offered == {} then cur else name
      decreases |cur|, stripped
    {
      stripped := false;
      for i := 0 to |SUFFIXES|
        invariant !stripped && forall j :: 0 <= j < i ==> !EndsWith(cur, SUFFIXES[j])
      {
        if EndsWith(cur, SUFFIXES[i]) {
          StripsFirst(cur, i, name, offered);
          cur := cur[..|cur| - |SUFFIXES[i]|];
          stripped := true;
          if cur in offered {
            return cur;
          }
          break;
        }
      }
      if !stripped {
        StripsNothing(cur, name, offered);
      }
    }
    return if offered == {} then cur else name;
  }

  /** With names on offer the result is the input or an offered name. */
  lemma {:induction false} NameOrOffered(cur: string, name: string, offered: set<string>)
    requires offered != {}
    ensures StripFrom(cur, name, offered) == name || StripFrom(cur, name, offered) in offered
    decreases |cur|
  {
    if StripOne(cur).Some? {
      NameOrOffered(StripOne(cur).value, name, offered);
    }
  }

  lemma {:induction false} BareAtTheEnd(cur: string, name: string)
    ensures StripOne(StripFrom(cur, name, {})).None?
    decreases |cur|
  {
    if StripOne(cur).Some? {
      BareAtTheEnd(StripOne(cur).value, name);
    }
  }

  /** Decloaking twice is decloaking once, and with names on offer it gives the input or one of them. */
  lemma DecloakIsIdempotent(name: string, offered: set<string>)
    ensures Decloak(Decloak(name, offered), offered) == Decloak(name, offered)
    ensures offered != {} ==> Decloak(name, offered) == name || Decloak(name, offered) in offered
  {
    if offered == {} {
      BareAtTheEnd(name, name);
    } else {
      NameOrOffered(name, name, offered);
    }
  }

  /** A word of cloak suffixes, as a provider appends them. */
  function Word(w: seq<bool>): string {
    if w == [] then "" else Word(w[..|w| - 1]) + (if w[|w| - 1] then SUFFIXES[0] else SUFFIXES[1])
  }

  lemma StripLast(n: string, w: seq<bool>)
    requires n != "" && w != []
    ensures StripOne(n + Word(w)) == Some(n + Word(w[..|w| - 1]))
  {
    var shorter, suffix := Word(w[..|w| - 1]), if w[|w| - 1] then SUFFIXES[0] else SUFFIXES[1];
    assert Word(w) == shorter + suffix;
    hide Word, StripOne;
    assert n + (shorter + suffix) == (n + shorter) + suffix;
    StripSuffix(n + shorter, w[|w| - 1]);
  }

  lemma StripSuffix(front: string, first: bool)
    requires front != ""
    ensures StripOne(front + if first then SUFFIXES[0] else SUFFIXES[1]) == Some(front)
  {
    var suffix := if first then SUFFIXES[0] else SUFFIXES[1];
    var s := front + suffix;
    assert s[|s| - |suffix|..] == suffix && s[..|s| - |suffix|] == front;
    assert s[|s| - 4..][3] == s[|s| - 1];
  }

  lemma {:induction false} StripToLongest(n: string, w: seq<bool>, k: nat, name: string, offered: set<string>)
    requires n != "" && k < |w| && n + Word(w[..k]) in offered
    requires forall m :: k < m < |w| ==> n + Word(w[..m]) !in offered
    ensures StripFrom(n + Word(w), name, offered) == n + Word(w[..k])
    decreases |w|
  {
    StripLast(n, w);
    var shorter := w[..|w| - 1];
    if k < |shorter| {
      assert forall m :: 0 <= m <= |shorter| ==> shorter[..m] == w[..m];
      StripToLongest(n, shorter, k, name, offered);
    }
  }

  /** Whatever cloak suffixes a provider appends to a name, decloaking gives the longest offered name
      among its uncloakings; so an offered name comes back exactly if no longer one is on offer too. */
  lemma DecloakFindsLongest(n: string, w: seq<bool>, k: nat, offered: set<string>)
    requires n != "" && k <= |w| && n + Word(w[..k]) in offered
    requires forall m :: k < m <= |w| ==> n + Word(w[..m]) !in offered
    ensures Decloak(n + Word(w), offered) == n + Word(w[..k])
  {
    hide StripFrom, Word;
    assert w[..|w|] == w;
    if k < |w| {
      assert n + Word(w[..|w|]) !in offered;
      StripToLongest(n, w, k, n + Word(w), offered);
    }
  }

  lemma LongestOffered(n: string, w: seq<bool>, offered: set<string>) returns (k: nat)
    requires n in offered
    ensures k <= |w| && n + Word(w[..k]) in offered
    ensures forall m :: k < m <= |w| ==> n + Word(w[..m]) !in offered
  {
    k := |w|;
    assert n + Word(w[..0]) == n;
    while n + Word(w[..k]) !in offered
      invariant k <= |w| && forall m :: k < m <= |w| ==> n + Word(w[..m]) !in offered
      decreases k
    {
      k := k - 1;
    }
  }

  lemma {:induction false} WordGrows(w: seq<bool>, k: nat)
    requires k <= |w|
    ensures |Word(w)| >= |Word(w[..k])| + |w| - k
    decreases |w|
  {
    if k < |w| {
      WordGrows(w[..|w| - 1], k);
      assert w[..|w| - 1][..k] == w[..k];
    } else {
      assert w[..k] == w;
    }
  }

  /** An offered name survives any cloaking exactly if none of its own cloaked forms on the way is
      offered as well. */
  lemma OfferedNameSurvives(n: string, w: seq<bool>, offered: set<string>)
    requires n != "" && n in offered
    ensures Decloak(n + Word(w), offered) == n <==> forall m :: 0 < m <= |w| ==> n + Word(w[..m]) !in offered
  {
    var k := LongestOffered(n, w, offered);
    DecloakFindsLongest(n, w, k, offered);
    WordGrows(w[..k], 0);
    assert w[..k][..0] == [];
    if k == 0 {
      assert n + Word(w[..0]) == n;
    } else {
      assert n + Word(w[..k]) in offered;
    }
  }

  /** Something of a name is always left. */
  lemma NeverEmpty(name: string, offered: set<string>)
    requires name != "" && "" !in offered
    ensures Decloak(name, offered) != ""
  {
    StripsNonEmpty(name, name, offered);
  }

  lemma {:induction false} StripsNonEmpty(cur: string, name: string, offered: set<string>)
    requires cur != "" && name != "" && "" !in offered
    ensures StripFrom(cur, name, offered) != ""
    decreases |cur|
  {
    if StripOne(cur).Some? {
      StripsNonEmpty(StripOne(cur).value, name, offered);
    }
  }

  /** The two suffixes, on their own and after one another. */
  lemma KnownSuffixes(n: string, offered: set<string>)
    requires n != "" && offered == {n}
    ensures Decloak(n + "_ide", offered) == n && Decloak(n + "_cc", offered) == n && Decloak(n + "_ide" + "_cc", offered) == n
  {
    hide Decloak;
    assert Word([]) == "" && [true][..0] == [] && [false][..0] == [] && [true, false][..1] == [true];
    assert Word([true]) == "_ide" && Word([false]) == "_cc" && Word([true, false]) == "_ide" + "_cc";
    assert n + ("_ide" + "_cc") == n + "_ide" + "_cc";
    forall w: seq<bool> | w in {[true], [false], [true, false]} ensures Decloak(n + Word(w), offered) == n {
      forall m | 0 < m <= |w| ensures n + Word(w[..m]) !in offered {
        WordGrows(w[..m], 0);
        assert w[..m][..0] == [];
      }
      OfferedNameSurvives(n, w, offered);
    }
  }
}
