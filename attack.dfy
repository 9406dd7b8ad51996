/** The slice of the MITRE ATT&CK Enterprise STIX bundle that the search engine reads.

    Every field of a JSON object is optional: `None` stands for a key that is absent
    from the object (Python's `dict.get` then yields its default). */
module Attack {

  datatype Option<+T> = None | Some(value: T)

  /** `o.get(key, default)` */
  function GetOr<T>(o: Option<T>, default: T): T
  {
    match o
    case Some(v) => v
    case None => default
  }

  /** Python truthiness of an optional string: present and non-empty. */
  predicate TruthyString(s: Option<string>)
  {
    s.Some? && s.value != ""
  }

  /** One entry of an object's `external_references` list. */
  datatype Reference = Reference(sourceName: Option<string>, externalId: Option<string>)

  /** One entry of a technique's `kill_chain_phases` list. */
  datatype Phase = Phase(phaseName: Option<string>)

  /** A STIX object of the bundle (a tactic, a technique or anything else). */
  datatype StixObject = StixObject(
    objType: Option<string>,                     // type
    name: Option<string>,                        // name
    description: Option<string>,                 // description
    externalReferences: Option<seq<Reference>>,  // external_references
    killChainPhases: Option<seq<Phase>>,         // kill_chain_phases
    platforms: Option<seq<string>>,              // x_mitre_platforms
    defenseBypassed: Option<seq<string>>,        // x_mitre_defense_bypassed
    permissionsRequired: Option<seq<string>>,    // x_mitre_permissions_required
    deprecated: Option<bool>,                    // x_mitre_deprecated
    detection: Option<string>)                   // x_mitre_detection

  /** The downloaded bundle: its `objects` list, in document order. */
  datatype Document = Document(objects: seq<StixObject>)
}
