/** The subdomains the API admits against those the jprq server accepts. */
module SubdomainGrammar {
  import opened Prelude

  datatype Regex =
    | Class(chars: set<char>)
    | Then(first: Regex, second: Regex)
    | Or(left: Regex, right: Regex)
    | Repeat(unit: Regex, lo: nat, hi: nat)

  /** The whole of s matches the expression. */
  ghost predicate Matches(r: Regex, s: string) {
    match r
    case Class(chars) => |s| == 1 && s[0] in chars
    case Then(a, b) => exists k :: 0 <= k <= |s| && Matches(a, s[..k]) && Matches(b, s[k..])
    case Or(a, b) => Matches(a, s) || Matches(b, s)
    case Repeat(unit, lo, hi) => exists parts: seq<string> ::
      lo <= |parts| <= hi && Concat(parts) == s && forall p :: p in parts ==> Matches(unit, p)
  }

  const ALNUM: set<char> := set c: char | 'a' <= c <= 'z' || '0' <= c <= '9'
  const UNIT := Or(Class(ALNUM), Then(Class({'-'}), Class(ALNUM)))

  /** One letter or digit, then between lo and hi letters or digits, each with at most one dash before it. */
  function Pattern(lo: nat, hi: nat): Regex {
    Then(Class(ALNUM), Repeat(UNIT, lo, hi))
  }

  const RESERVED := {"www", "jprq"}

  /** Schema bounds, schema pattern, and the reserved names of the validation rule. */
  ghost predicate ApiAccepts(s: string) {
    3 <= |s| <= 38 && Matches(Pattern(2, 37), s) && s !in RESERVED
  }

  /** The server's own rule. */
  ghost predicate ServerAccepts(s: string) {
    3 <= |s| <= 38 && Matches(Pattern(0, 38), s) && s !in RESERVED
  }

  predicate Alnum(c: char) { 'a' <= c <= 'z' || '0' <= c <= '9' }

  function Dashes(s: string): (n: nat)
    ensures n <= |s|
  {
    if s == "" then 0 else (if s[0] == '-' then 1 else 0) + Dashes(s[1..])
  }

  /** Letters, digits and single dashes between them. */
  predicate WellSpelled(s: string) {
    && s != "" && Alnum(s[0]) && Alnum(s[|s| - 1])
    && (forall i :: 0 <= i < |s| ==> Alnum(s[i]) || s[i] == '-')
    && (forall i :: 0 <= i < |s| - 1 ==> !(s[i] == '-' && s[i + 1] == '-'))
  }

  /** A run of units. */
  predicate Units(s: string) {
    s == ""
    || (Alnum(s[0]) && Units(s[1..]))
    || (|s| >= 2 && s[0] == '-' && Alnum(s[1]) && Units(s[2..]))
  }

  lemma UnitMatch(p: string)
    ensures Matches(UNIT, p) <==> (|p| == 1 && Alnum(p[0])) || (|p| == 2 && p[0] == '-' && Alnum(p[1]))
  {
    var dash, alnum := Class({'-'}), Class(ALNUM);
    assert Matches(UNIT, p) <==> Matches(alnum, p) || Matches(Then(dash, alnum), p);
    if Matches(Then(dash, alnum), p) {
      var k :| 0 <= k <= |p| && Matches(dash, p[..k]) && Matches(alnum, p[k..]);
      assert k == 1 && p[..1][0] == p[0] && p[1..][0] == p[1];
    }
    if |p| == 2 && p[0] == '-' && Alnum(p[1]) {
      assert Matches(dash, p[..1]) && Matches(alnum, p[1..]);
      ThenIntro(dash, alnum, p, 1);
    }
  }

  /** Concatenated units are a run of units, and there are as many as characters less dashes. */
  lemma {:induction false} PartsAreUnits(parts: seq<string>)
    requires forall p :: p in parts ==> Matches(UNIT, p)
    ensures Units(Concat(parts)) && |parts| == |Concat(parts)| - Dashes(Concat(parts))
  {
    hide Matches;
    if parts != [] {
      var p, s, rest := parts[0], Concat(parts), Concat(parts[1..]);
      UnitMatch(p);
      PartsAreUnits(parts[1..]);
      assert s == p + rest;
      if |p| == 1 {
        assert s[1..] == rest;
      } else {
        assert s[1..][1..] == rest && s[2..] == rest && s[1..][0] == p[1];
      }
    }
  }

  /** The parts of a run of units. */
  function Split(s: string): seq<string>
    requires Units(s)
  {
    if s == "" then [] else if Alnum(s[0]) then [s[..1]] + Split(s[1..]) else [s[..2]] + Split(s[2..])
  }

  lemma {:induction false} SplitIsParts(s: string)
    requires Units(s)
    ensures Concat(Split(s)) == s
    ensures forall p :: p in Split(s) ==> Matches(UNIT, p)
  {
    hide Matches;
    if s != "" {
      var k := if Alnum(s[0]) then 1 else 2;
      SplitIsParts(s[k..]);
      assert Split(s) == [s[..k]] + Split(s[k..]);
      assert Split(s)[1..] == Split(s[k..]);
      assert s == s[..k] + s[k..];
      UnitMatch(s[..k]);
    }
  }

  /** A run of units, character by character: what may stand at each position, no trailing dash,
      no two dashes in a row. */
  lemma {:induction false} UnitsSpelling(s: string)
    ensures Units(s) <==>
      (&& (s != "" ==> Alnum(s[|s| - 1]))
       && (forall i :: 0 <= i < |s| ==> Alnum(s[i]) || s[i] == '-')
       && (forall i :: 0 <= i < |s| - 1 ==> !(s[i] == '-' && s[i + 1] == '-')))
    ensures Units(s) ==> 2 * Dashes(s) <= |s|
  {
    if s != "" {
      var a := s[1..];
      assert forall i :: 0 <= i < |a| ==> a[i] == s[i + 1];
      assert forall i :: 1 <= i < |s| ==> s[i] == a[i - 1];
      UnitsSpelling(a);
      if |s| >= 2 {
        var b := s[2..];
        assert a[1..] == b;
        assert forall i :: 0 <= i < |b| ==> b[i] == s[i + 2];
        assert forall i :: 2 <= i < |s| ==> s[i] == b[i - 2];
        UnitsSpelling(b);
        assert Dashes(s) == (if s[0] == '-' then 1 else 0) + (if s[1] == '-' then 1 else 0) + Dashes(b);
      }
    }
  }

  /** The counted pattern says exactly: well spelled, with between lo and hi letters and digits
      after the first. */
  lemma PatternMeaning(lo: nat, hi: nat, s: string)
    ensures Matches(Pattern(lo, hi), s) <==> (WellSpelled(s) && lo <= |s| - 1 - Dashes(s) <= hi)
  {
    hide WellSpelled;
    if Matches(Pattern(lo, hi), s) {
      var parts := PatternElim(lo, hi, s);
      PartsAreUnits(parts);
      SpellingFromTail(s);
    }
    if WellSpelled(s) && lo <= |s| - 1 - Dashes(s) <= hi {
      SpellingFromTail(s);
      var parts := Split(s[1..]);
      SplitIsParts(s[1..]);
      PartsAreUnits(parts);
      RepeatIntro(UNIT, lo, hi, s[1..], parts);
      ThenIntro(Class(ALNUM), Repeat(UNIT, lo, hi), s, 1);
    }
  }

  lemma PatternElim(lo: nat, hi: nat, s: string) returns (parts: seq<string>)
    requires Matches(Pattern(lo, hi), s)
    ensures s != "" && Alnum(s[0]) && lo <= |parts| <= hi && Concat(parts) == s[1..]
    ensures forall p :: p in parts ==> Matches(UNIT, p)
  {
    var k :| 0 <= k <= |s| && Matches(Class(ALNUM), s[..k]) && Matches(Repeat(UNIT, lo, hi), s[k..]);
    assert k == 1 && s[..1][0] == s[0];
    parts :| lo <= |parts| <= hi && Concat(parts) == s[1..] && forall p :: p in parts ==> Matches(UNIT, p);
  }

  lemma RepeatIntro(unit: Regex, lo: nat, hi: nat, s: string, parts: seq<string>)
    requires lo <= |parts| <= hi && Concat(parts) == s && forall p :: p in parts ==> Matches(unit, p)
    ensures Matches(Repeat(unit, lo, hi), s)
  {
  }

  lemma ThenIntro(a: Regex, b: Regex, s: string, k: nat)
    requires k <= |s| && Matches(a, s[..k]) && Matches(b, s[k..])
    ensures Matches(Then(a, b), s)
  {
  }

  lemma SpellingFromTail(s: string)
    requires s != ""
    ensures WellSpelled(s) <==> Alnum(s[0]) && Units(s[1..])
    ensures Alnum(s[0]) ==> Dashes(s) == Dashes(s[1..])
  {
    hide Units;
    hide Dashes;
    UnitsSpelling(s[1..]);
    WellSpelledTail(s);
    if Alnum(s[0]) { DashesTail(s); }
  }

  lemma DashesTail(s: string)
    requires s != "" && Alnum(s[0])
    ensures Dashes(s) == Dashes(s[1..])
  {
  }

  /** What the first character adds to the spelling of the rest. */
  lemma WellSpelledTail(s: string)
    requires s != ""
    ensures var a := s[1..];
      WellSpelled(s) <==>
        (&& Alnum(s[0])
         && (a != "" ==> Alnum(a[|a| - 1]))
         && (forall i :: 0 <= i < |a| ==> Alnum(a[i]) || a[i] == '-')
         && (forall i :: 0 <= i < |a| - 1 ==> !(a[i] == '-' && a[i + 1] == '-')))
  {
    var a := s[1..];
    assert forall i :: 0 <= i < |a| ==> a[i] == s[i + 1];
    assert forall i :: 1 <= i < |s| ==> s[i] == a[i - 1];
  }

  /** What the API admits, character by character: 3 to 38 lower-case letters, digits and dashes, no
      dash at an end or beside another, at least two letters or digits after the first, and neither
      reserved name. */
  lemma ApiGrammar(s: string)
    ensures ApiAccepts(s) <==>
      (&& 3 <= |s| <= 38
       && (forall i :: 0 <= i < |s| ==> 'a' <= s[i] <= 'z' || '0' <= s[i] <= '9' || s[i] == '-')
       && s[0] != '-' && s[|s| - 1] != '-'
       && (forall i :: 0 <= i < |s| - 1 ==> s[i] != '-' || s[i + 1] != '-')
       && |s| - 1 - Dashes(s) >= 2
       && s != "www" && s != "jprq")
  {
    hide Matches;
    hide Dashes;
    PatternMeaning(2, 37, s);
  }

  /** The number of dashes, as a count of places. */
  lemma {:induction false} DashCount(s: string)
    ensures Dashes(s) == |set i | 0 <= i < |s| && s[i] == '-'|
  {
    if s != "" {
      var last := |s| - 1;
      var front := s[..last];
      DashCount(front);
      DashesAtEnd(s);
      var here, before := set i | 0 <= i < |s| && s[i] == '-', set i | 0 <= i < |front| && front[i] == '-';
      assert here == before + (if s[last] == '-' then {last} else {});
      assert last !in before;
    }
  }

  lemma {:induction false} DashesAtEnd(s: string)
    requires s != ""
    ensures Dashes(s) == Dashes(s[..|s| - 1]) + if s[|s| - 1] == '-' then 1 else 0
  {
    if |s| > 1 {
      DashesAtEnd(s[1..]);
      assert s[1..][..|s| - 2] == s[..|s| - 1][1..];
    }
  }

  /** Every subdomain the API admits is one the server accepts, and the only ones the server
      accepts beyond those are the three-character names with a dash in the middle. */
  lemma GrammarGap(s: string)
    ensures ApiAccepts(s) ==> ServerAccepts(s)
    ensures (ServerAccepts(s) && !ApiAccepts(s)) <==>
      (&& |s| == 3 && s[1] == '-'
       && ('a' <= s[0] <= 'z' || '0' <= s[0] <= '9') && ('a' <= s[2] <= 'z' || '0' <= s[2] <= '9'))
  {
    hide Matches;
    PatternMeaning(2, 37, s);
    PatternMeaning(0, 38, s);
    if s != "" {
      SpellingFromTail(s);
      UnitsSpelling(s[1..]);
    }
    if |s| == 3 {
      var a := s[1..];
      assert a[0] == s[1] && a[1] == s[2] && a[1..][1..] == "" && a[1..][0] == s[2];
      assert Dashes(a) == (if s[1] == '-' then 1 else 0) + (if s[2] == '-' then 1 else 0);
    }
  }
}
