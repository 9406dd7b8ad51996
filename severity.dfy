/** The additive severity heuristic of `AttackHunter.get_severity_level`. */
module Severity {
  import opened Attack

  // The four tier labels, exactly as the command line's `--min-severity` choices spell them.
  const Critical: string := "CRÍTICO"
  const High: string := "ALTO"
  const Medium: string := "MÉDIO"
  const Low: string := "BAIXO"

  /** `technique.get('x_mitre_deprecated', False)` is truthy. */
  predicate IsDeprecated(t: StixObject)
  {
    t.deprecated == Some(true)
  }

  function Platforms(t: StixObject): seq<string>
  {
    GetOr(t.platforms, [])
  }

  function DefensesBypassed(t: StixObject): seq<string>
  {
    GetOr(t.defenseBypassed, [])
  }

  function PermissionsRequired(t: StixObject): seq<string>
  {
    GetOr(t.permissionsRequired, [])
  }

  /** The four independent contributions, added up. */
  function Score(t: StixObject): int
  {
    (if IsDeprecated(t) then 1 else 0)
    + (if |Platforms(t)| > 3 then 2 else 0)
    + (if DefensesBypassed(t) != [] then 2 else 0)
    + (if PermissionsRequired(t) == [] then 1 else 0)
  }

  /** The label of a score: the first threshold it reaches, from the top. */
  function Tier(score: int): string
  {
    if score >= 4 then Critical
    else if score >= 3 then High
    else if score >= 2 then Medium
    else Low
  }

  /** The tier a technique is classified in; recomputed from its current fields. */
  function SeverityLevel(t: StixObject): string
  {
    Tier(Score(t))
  }

  /** `get_severity_level`: accumulates the score factor by factor, then maps it to a tier. */
  method GetSeverityLevel(t: StixObject) returns (level: string)
    ensures level == SeverityLevel(t)
    ensures level == Critical || level == High || level == Medium || level == Low
  {
    var score := 0;
    if t.deprecated.Some? && t.deprecated.value {
      score := score + 1;
    }
    var platforms := GetOr(t.platforms, []);
    if |platforms| > 3 {
      score := score + 2;
    }
    if GetOr(t.defenseBypassed, []) != [] {
      score := score + 2;
    }
    if GetOr(t.permissionsRequired, []) == [] {
      score := score + 1;
    }
    if score >= 4 {
      return Critical;
    } else if score >= 3 {
      return High;
    } else if score >= 2 {
      return Medium;
    }
    return Low;
  }

  /** The score lies between 0 and 6, and each end is reached exactly when every factor is
      off, or every factor is on. */
  lemma ScoreBounds(t: StixObject)
    ensures 0 <= Score(t) <= 6
    ensures Score(t) == 0 <==>
      !IsDeprecated(t) && |Platforms(t)| <= 3 && DefensesBypassed(t) == [] && PermissionsRequired(t) != []
    ensures Score(t) == 6 <==>
      IsDeprecated(t) && |Platforms(t)| > 3 && DefensesBypassed(t) != [] && PermissionsRequired(t) == []
  {
  }

  /** The four labels are distinct, so the tier of a score is determined by its label. */
  lemma TierThresholds(score: int)
    ensures Tier(score) == Critical <==> score >= 4
    ensures Tier(score) == High <==> score == 3
    ensures Tier(score) == Medium <==> score == 2
    ensures Tier(score) == Low <==> score <= 1
  {
  }

  /** A technique that runs on many platforms and bypasses a defence is critical whatever
      else holds of it; one on few platforms that bypasses nothing is at most medium. */
  lemma PlatformsAndBypassDecideExtremes(t: StixObject)
    ensures |Platforms(t)| > 3 && DefensesBypassed(t) != [] ==> SeverityLevel(t) == Critical
    ensures |Platforms(t)| <= 3 && DefensesBypassed(t) == [] ==> SeverityLevel(t) != Critical && SeverityLevel(t) != High
  {
    TierThresholds(Score(t));
  }

  /** Four platforms, a bypassed defence and no required permission, not deprecated:
      2 + 2 + 1 = 5, which is critical. */
  lemma CriticalScenario()
    ensures SeverityLevel(StixObject(
      Some("attack-pattern"), Some("Example"), None, None, None,
      Some(["Windows", "Linux", "macOS", "Cloud"]), Some(["Anti-virus"]), Some([]), Some(false), None))
      == Critical
  {
  }
}
