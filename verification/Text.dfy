/** Strings as the program compares and trims them. */
module Text {
  /** The white space that trimming removes. */
  predicate IsSpace(c: char) {
    || c == ' ' || '\t' <= c <= '\r' || c == '\U{85}' || c == '\U{A0}' || c == '\U{1680}'
    || '\U{2000}' <= c <= '\U{200A}' || c == '\U{2028}' || c == '\U{2029}' || c == '\U{202F}'
    || c == '\U{205F}' || c == '\U{3000}'
  }

  function TrimLeft(s: string, cut: char -> bool): (t: string)
    ensures t == [] || !cut(t[0])
    ensures |t| <= |s| && t == s[|s| - |t|..]
    ensures s == [] || !cut(s[0]) ==> t == s
  {
    if s != [] && cut(s[0]) then TrimLeft(s[1..], cut) else s
  }

  lemma {:induction false} TrimLeftStops(s: string, cut: char -> bool, i: nat)
    requires i < |s| && !cut(s[i])
    ensures |TrimLeft(s, cut)| >= |s| - i
  {
    if cut(s[0]) {
      TrimLeftStops(s[1..], cut, i - 1);
    }
  }

  function TrimRight(s: string, cut: char -> bool): (t: string)
    ensures t == [] || !cut(t[|t| - 1])
    ensures |t| <= |s| && t == s[..|t|]
    ensures s == [] || !cut(s[|s| - 1]) ==> t == s
  {
    if s != [] && cut(s[|s| - 1]) then TrimRight(s[..|s| - 1], cut) else s
  }

  function Trim(s: string, cut: char -> bool): (t: string)
    ensures t == [] || (!cut(t[0]) && !cut(t[|t| - 1]))
    ensures s == [] || (!cut(s[0]) && !cut(s[|s| - 1])) ==> t == s
  {
    TrimRight(TrimLeft(s, cut), cut)
  }

  function TrimSpace(s: string): (t: string)
    ensures t == [] || (!IsSpace(t[0]) && !IsSpace(t[|t| - 1]))
    ensures s == [] || (!IsSpace(s[0]) && !IsSpace(s[|s| - 1])) ==> t == s
  {
    Trim(s, IsSpace)
  }

  function Map(s: string, f: char -> char): (t: string)
    ensures |t| == |s| && forall i :: 0 <= i < |s| ==> t[i] == f(s[i])
  {
    if s == [] then [] else [f(s[0])] + Map(s[1..], f)
  }

  function AsciiLower(c: char): char {
    if 'A' <= c <= 'Z' then c + 32 as char else c
  }

  /** The database's NOCASE collation: only the letters of ASCII fold. */
  predicate NoCase(a: string, b: string) {
    Map(a, AsciiLower) == Map(b, AsciiLower)
  }

  /** Equality up to case, with any simple case folding. */
  predicate EqualFold(a: string, b: string, fold: char -> char) {
    Map(a, fold) == Map(b, fold)
  }

  /** A case mapping of all of Unicode: on the letters of ASCII it does what ASCII folding does. */
  ghost predicate CaseMapping(f: char -> char) {
    && (forall c :: f(AsciiLower(c)) == f(c))
    && (forall c, d :: c < 128 as char && d < 128 as char && f(c) == f(d) ==> AsciiLower(c) == AsciiLower(d))
  }

  predicate IsAscii(s: string) {
    forall i :: 0 <= i < |s| ==> s[i] < 128 as char
  }

  /** What folds alike in ASCII maps alike; the converse holds for ASCII texts. */
  lemma NoCaseAndMapping(a: string, b: string, f: char -> char)
    requires CaseMapping(f)
    ensures NoCase(a, b) ==> Map(a, f) == Map(b, f)
    ensures IsAscii(a) && IsAscii(b) && Map(a, f) == Map(b, f) ==> NoCase(a, b)
  {
    if NoCase(a, b) {
      NoCaseMaps(a, b, f);
    }
    if IsAscii(a) && IsAscii(b) && Map(a, f) == Map(b, f) {
      MappingFolds(a, b, f);
    }
  }

  lemma {:induction false} NoCaseMaps(a: string, b: string, f: char -> char)
    requires CaseMapping(f) && NoCase(a, b)
    ensures Map(a, f) == Map(b, f)
  {
    assert |a| == |b| by {
      assert |Map(a, AsciiLower)| == |Map(b, AsciiLower)|;
    }
    if a != [] {
      assert f(AsciiLower(a[0])) == f(a[0]) && f(AsciiLower(b[0])) == f(b[0]);
      TailsAlike(a, b, AsciiLower);
      NoCaseMaps(a[1..], b[1..], f);
    }
  }

  lemma {:induction false} MappingFolds(a: string, b: string, f: char -> char)
    requires CaseMapping(f) && IsAscii(a) && IsAscii(b) && Map(a, f) == Map(b, f)
    ensures NoCase(a, b)
  {
    assert |a| == |b| by {
      assert |Map(a, f)| == |Map(b, f)|;
    }
    if a != [] {
      TailsAlike(a, b, f);
      MappingFolds(a[1..], b[1..], f);
    }
  }

  lemma TailsAlike(a: string, b: string, f: char -> char)
    requires a != [] && b != [] && Map(a, f) == Map(b, f)
    ensures f(a[0]) == f(b[0]) && Map(a[1..], f) == Map(b[1..], f)
  {
    assert Map(a, f)[0] == Map(b, f)[0] && Map(a, f)[1..] == Map(b, f)[1..];
  }

  /** The letters that ASCII folding folds, and no others. */
  lemma AsciiLetters(i: nat, c: char)
    ensures var upper, lower := "ABCDEFGHIJKLMNOPQRSTUVWXYZ", "abcdefghijklmnopqrstuvwxyz";
            && (i < 26 ==> AsciiLower(upper[i]) == lower[i])
            && (c !in upper ==> AsciiLower(c) == c)
  {
    var upper := "ABCDEFGHIJKLMNOPQRSTUVWXYZ";
    assert forall j :: 0 <= j < 26 ==> upper[j] as int == 'A' as int + j;
    if 'A' <= c <= 'Z' {
      assert upper[c as int - 'A' as int] == c;
    }
  }
}
