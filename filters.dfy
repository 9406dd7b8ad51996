/** The two list comprehensions of `AttackHunter.search_techniques`: the keyword filter
    (applied before caching) and the severity filter (applied after). */
module Filters {
  import opened Attack
  import opened Text
  import Seqs
  import Severity

  /** `keyword.lower()` occurs in the lower-cased name or description (a missing field
      reads as the empty string). */
  predicate MatchesKeyword(t: StixObject, keyword: string)
  {
    Contains(Lower(GetOr(t.name, "")), Lower(keyword)) ||
    Contains(Lower(GetOr(t.description, "")), Lower(keyword))
  }

  function MatchingKeyword(keyword: string): StixObject -> bool
  {
    t => MatchesKeyword(t, keyword)
  }

  /** The keyword filter; a falsy keyword (absent or empty) filters nothing. */
  function KeywordFilter(techniques: seq<StixObject>, keyword: Option<string>): seq<StixObject>
  {
    if TruthyString(keyword) then Seqs.Filter(techniques, MatchingKeyword(keyword.value)) else techniques
  }

  function AtLevel(level: string): StixObject -> bool
  {
    t => Severity.SeverityLevel(t) == level
  }

  /** The severity filter: keeps the techniques whose tier EQUALS the requested one (it is
      not a threshold); a falsy severity filters nothing. */
  function SeverityFilter(techniques: seq<StixObject>, minSeverity: Option<string>): seq<StixObject>
  {
    if TruthyString(minSeverity) then Seqs.Filter(techniques, AtLevel(minSeverity.value)) else techniques
  }

  /** With a truthy keyword: a technique survives iff it was in the input and its name or
      description contains the keyword, case-insensitively, and it survives as often as it
      occurs; order is kept. With a falsy
      keyword the list is unchanged. */
  lemma KeywordFilterSpec(techniques: seq<StixObject>, keyword: Option<string>, t: StixObject)
    ensures !TruthyString(keyword) ==> KeywordFilter(techniques, keyword) == techniques
    ensures TruthyString(keyword) ==>
      (t in KeywordFilter(techniques, keyword) <==> t in techniques && MatchesKeyword(t, keyword.value))
    ensures TruthyString(keyword) ==>
      multiset(KeywordFilter(techniques, keyword))[t] == if MatchesKeyword(t, keyword.value) then multiset(techniques)[t] else 0
    ensures Seqs.IsSubsequence(KeywordFilter(techniques, keyword), techniques)
  {
    if TruthyString(keyword) {
      Seqs.FilterMembership(techniques, MatchingKeyword(keyword.value), t);
      Seqs.FilterMultiplicity(techniques, MatchingKeyword(keyword.value), t);
      Seqs.FilterIsSubsequence(techniques, MatchingKeyword(keyword.value));
    } else {
      Seqs.FilterKeepsAll(techniques, t => true);
      assert Seqs.Filter(techniques, t => true) == techniques;
      Seqs.FilterIsSubsequence(techniques, t => true);
    }
  }

  /** With a truthy severity: a technique survives iff it was in the input and its computed
      tier equals the requested label, and it survives as often as it occurs; order is kept. */
  lemma SeverityFilterSpec(techniques: seq<StixObject>, minSeverity: Option<string>, t: StixObject)
    ensures !TruthyString(minSeverity) ==> SeverityFilter(techniques, minSeverity) == techniques
    ensures TruthyString(minSeverity) ==>
      (t in SeverityFilter(techniques, minSeverity) <==> t in techniques && Severity.SeverityLevel(t) == minSeverity.value)
    ensures TruthyString(minSeverity) ==>
      multiset(SeverityFilter(techniques, minSeverity))[t] ==
        if Severity.SeverityLevel(t) == minSeverity.value then multiset(techniques)[t] else 0
    ensures Seqs.IsSubsequence(SeverityFilter(techniques, minSeverity), techniques)
  {
    if TruthyString(minSeverity) {
      Seqs.FilterMembership(techniques, AtLevel(minSeverity.value), t);
      Seqs.FilterMultiplicity(techniques, AtLevel(minSeverity.value), t);
      Seqs.FilterIsSubsequence(techniques, AtLevel(minSeverity.value));
    } else {
      Seqs.FilterKeepsAll(techniques, t => true);
      Seqs.FilterIsSubsequence(techniques, t => true);
    }
  }

  /** Exact match, not a threshold: asking for "CRÍTICO" drops a technique classified
      "ALTO", even though "ALTO" ranks below it. */
  lemma SeverityFilterIsNotThreshold(techniques: seq<StixObject>, t: StixObject)
    requires Severity.SeverityLevel(t) == Severity.High
    ensures t !in SeverityFilter(techniques, Some(Severity.Critical))
  {
    Severity.TierThresholds(Severity.Score(t));
    Seqs.FilterMembership(techniques, AtLevel(Severity.Critical), t);
  }

  /** "phish" matches a description that starts "Phishing" in any case, but not a
      technique whose only text is "Password", despite the shared first letters. */
  lemma PhishScenario()
    ensures MatchesKeyword(StixObject(Some("attack-pattern"), Some("Spearphishing Link"),
      Some("Phishing emails with links"), None, None, None, None, None, None, None), "phish")
    ensures !MatchesKeyword(StixObject(Some("attack-pattern"), Some("Password"),
      None, None, None, None, None, None, None, None), "phish")
  {
    var hit := Lower("Phishing emails with links");
    assert hit[..5] == "phish";
    assert OccursAt(hit, Lower("phish"), 0);
    var miss := Lower("Password");
    assert miss == "password";
    forall i ensures !OccursAt(miss, "phish", i) {
      if 0 <= i && i + 5 <= |miss| {
        assert miss[i..i + 5][0] == miss[i];
        assert miss[i..i + 5][1] == miss[i + 1];
      }
    }
    assert Lower("") == "";
    assert Lower("phish") == "phish";
  }
}
