/** `AttackHunter.prepare_technique_data`: flattens a technique into the row shape that
    the table and the CSV export share. */
module Rows {
  import opened Attack
  import opened Text
  import Severity

  /** One result row. `techniqueId` is `None` when the chosen reference has no
      `external_id` (Python's `None`). */
  datatype Row = Row(
    techniqueId: Option<string>,  // Technique_ID
    name: string,                 // Name
    tactic: string,               // Tactic
    severity: string,             // Severity
    platforms: string,            // Platforms
    detection: string,            // Detection
    description: string)          // Description

  predicate IsMitreReference(r: Reference)
  {
    r.sourceName == Some("mitre-attack")
  }

  /** Every kill-chain phase has a `phase_name` (`phase['phase_name']` raises otherwise). */
  predicate AllPhasesNamed(phases: seq<Phase>)
  {
    forall k :: 0 <= k < |phases| ==> phases[k].phaseName.Some?
  }

  function PhaseNames(phases: seq<Phase>): seq<string>
    requires AllPhasesNamed(phases)
  {
    seq(|phases|, k requires 0 <= k < |phases| && AllPhasesNamed(phases) => phases[k].phaseName.value)
  }

  /** `prepare_technique_data(technique)`; `None` stands for the `KeyError` raised by a
      kill-chain phase without a `phase_name`. */
  method PrepareTechniqueData(t: StixObject) returns (row: Option<Row>)
    ensures row.None? <==> !AllPhasesNamed(GetOr(t.killChainPhases, []))
    ensures row.Some? ==>
      var refs := GetOr(t.externalReferences, []);
      && ((forall k :: 0 <= k < |refs| ==> !IsMitreReference(refs[k])) ==> row.value.techniqueId == Some("N/A"))
      && (forall k :: 0 <= k < |refs| && IsMitreReference(refs[k]) && (forall j :: 0 <= j < k ==> !IsMitreReference(refs[j]))
            ==> row.value.techniqueId == refs[k].externalId)
    ensures row.Some? ==>
      && row.value.name == GetOr(t.name, "N/A")
      && row.value.tactic == Join(PhaseNames(GetOr(t.killChainPhases, [])), ", ")
      && row.value.severity == Severity.SeverityLevel(t)
      && row.value.platforms == Join(GetOr(t.platforms, []), ", ")
      && row.value.detection == GetOr(t.detection, "N/A")
      && row.value.description == GetOr(t.description, "No description available")
  {
    var techniqueId: Option<string> := Some("N/A");
    var refs := GetOr(t.externalReferences, []);
    var i := 0;
    while i < |refs|
      invariant 0 <= i <= |refs|
      invariant forall j :: 0 <= j < i ==> !IsMitreReference(refs[j])
      invariant techniqueId == Some("N/A")
    {
      if refs[i].sourceName == Some("mitre-attack") {
        techniqueId := refs[i].externalId;
        break;
      }
      i := i + 1;
    }

    var phases := GetOr(t.killChainPhases, []);
    if !AllPhasesNamed(phases) {
      return None;
    }
    var severity := Severity.GetSeverityLevel(t);
    row := Some(Row(
      techniqueId,
      GetOr(t.name, "N/A"),
      Join(PhaseNames(phases), ", "),
      severity,
      Join(GetOr(t.platforms, []), ", "),
      GetOr(t.detection, "N/A"),
      GetOr(t.description, "No description available")));
  }
}
