/** `AttackHunter.get_techniques`: the techniques of the bundle, optionally restricted to
    one tactic. Techniques name their tactics by phase name, not by code, so the tactic
    code is first resolved to a name by scanning the tactic objects. */
module Extraction {
  import opened Attack
  import Seqs

  predicate IsAttackPattern(o: StixObject)
  {
    o.objType == Some("attack-pattern")
  }

  /** A tactic object with a non-empty `external_references` list: the only objects the
      name scan looks into. */
  predicate IsTacticWithReferences(o: StixObject)
  {
    o.objType == Some("x-mitre-tactic") && o.externalReferences.Some? && o.externalReferences.value != []
  }

  predicate HasExternalId(refs: seq<Reference>, id: string)
  {
    exists k :: 0 <= k < |refs| && refs[k].externalId == Some(id)
  }

  /** `o` is a tactic object one of whose references carries the code `id`. */
  predicate IsTacticFor(o: StixObject, id: string)
  {
    IsTacticWithReferences(o) && HasExternalId(o.externalReferences.value, id)
  }

  /** The name scan over `objs`, having captured `name` so far: every matching tactic
      overwrites the captured name with its own `name` field, and the scan stops as soon
      as the captured name is truthy. */
  function TacticNameFrom(objs: seq<StixObject>, id: string, name: Option<string>): Option<string>
    decreases |objs|
  {
    if objs == [] then name
    else
      var name' := if IsTacticFor(objs[0], id) then objs[0].name else name;
      if TruthyString(name') then name' else TacticNameFrom(objs[1..], id, name')
  }

  /** The tactic name a code resolves to; `None` when no tactic carries the code. */
  function TacticName(objs: seq<StixObject>, id: string): Option<string>
  {
    TacticNameFrom(objs, id, None)
  }

  /** The technique has a kill-chain phase whose `phase_name` equals `name` (`None`
      equals only a phase without a `phase_name`). */
  predicate HasPhaseNamed(o: StixObject, name: Option<string>)
  {
    o.killChainPhases.Some? &&
    exists k :: 0 <= k < |o.killChainPhases.value| && o.killChainPhases.value[k].phaseName == name
  }

  /** Whether the second loop appends `o`, given the tactic argument and resolved name. */
  predicate Included(o: StixObject, tacticId: Option<string>, name: Option<string>)
  {
    IsAttackPattern(o) && (TruthyString(tacticId) ==> HasPhaseNamed(o, name))
  }

  function IncludedIn(tacticId: Option<string>, name: Option<string>): StixObject -> bool
  {
    o => Included(o, tacticId, name)
  }

  /** The name the tactic code resolves to, `None` when there is no (truthy) code. */
  function ResolvedName(objs: seq<StixObject>, tacticId: Option<string>): Option<string>
  {
    if TruthyString(tacticId) then TacticName(objs, tacticId.value) else None
  }

  /** What `get_techniques(attack_data, tactic_id)` returns; `None` is a falsy dataset. */
  function Techniques(data: Option<Document>, tacticId: Option<string>): seq<StixObject>
  {
    match data
    case None => []
    case Some(doc) => Seqs.Filter(doc.objects, IncludedIn(tacticId, ResolvedName(doc.objects, tacticId)))
  }

  /** `get_techniques`: one loop resolves the tactic name, a second collects techniques. */
  method GetTechniques(attackData: Option<Document>, tacticId: Option<string>)
    returns (techniques: seq<StixObject>)
    ensures techniques == Techniques(attackData, tacticId)
    ensures attackData.None? ==> techniques == []
  {
    if attackData.None? {
      return [];
    }
    var objects := attackData.value.objects;
    techniques := [];
    var tacticName: Option<string> := None;

    if TruthyString(tacticId) {
      var id := tacticId.value;
      var i := 0;
      while i < |objects|
        invariant 0 <= i <= |objects|
        invariant !TruthyString(tacticName)
        invariant TacticNameFrom(objects[i..], id, tacticName) == TacticName(objects, id)
      {
        var obj := objects[i];
        assert objects[i..][0] == obj && objects[i..][1..] == objects[i + 1..];
        if obj.objType == Some("x-mitre-tactic") && obj.externalReferences.Some? && obj.externalReferences.value != [] {
          var refs := obj.externalReferences.value;
          ghost var before := tacticName;
          var j := 0;
          while j < |refs|
            invariant 0 <= j <= |refs|
            invariant tacticName == before
            invariant forall k :: 0 <= k < j ==> refs[k].externalId != Some(id)
          {
            if refs[j].externalId == Some(id) {
              tacticName := obj.name;
              break;
            }
            j := j + 1;
          }
          assert tacticName == if IsTacticFor(obj, id) then obj.name else before;
          if TruthyString(tacticName) {
            break;
          }
        }
        i := i + 1;
      }
    }
    assert tacticName == ResolvedName(objects, tacticId);

    var i := 0;
    while i < |objects|
      invariant 0 <= i <= |objects|
      invariant techniques == Seqs.Filter(objects[..i], IncludedIn(tacticId, tacticName))
    {
      var obj := objects[i];
      ghost var before := techniques;
      if obj.objType == Some("attack-pattern") {
        if TruthyString(tacticId) {
          if obj.killChainPhases.Some? && obj.killChainPhases.value != [] {
            var phases := obj.killChainPhases.value;
            var j := 0;
            while j < |phases|
              invariant 0 <= j <= |phases|
              invariant techniques == before
              invariant forall k :: 0 <= k < j ==> phases[k].phaseName != tacticName
            {
              if phases[j].phaseName == tacticName {
                techniques := techniques + [obj];
                break;
              }
              j := j + 1;
            }
          }
        } else {
          techniques := techniques + [obj];
        }
      }
      assert techniques == before + if Included(obj, tacticId, tacticName) then [obj] else [];
      Seqs.FilterAppend(objects[..i], obj, IncludedIn(tacticId, tacticName));
      assert objects[..i + 1] == objects[..i] + [obj];
      i := i + 1;
    }
    assert objects[..i] == objects;
  }

  /** No tactic object carries the code: the name stays `None`. */
  lemma {:induction false} UnknownTacticHasNoName(objs: seq<StixObject>, id: string)
    requires forall k :: 0 <= k < |objs| ==> !IsTacticFor(objs[k], id)
    ensures TacticName(objs, id) == None
  {
    UnknownTacticKeepsName(objs, id, None);
  }

  lemma {:induction false} UnknownTacticKeepsName(objs: seq<StixObject>, id: string, name: Option<string>)
    requires !TruthyString(name)
    requires forall k :: 0 <= k < |objs| ==> !IsTacticFor(objs[k], id)
    ensures TacticNameFrom(objs, id, name) == name
    decreases |objs|
  {
    if objs != [] {
      UnknownTacticKeepsName(objs[1..], id, name);
    }
  }

  /** The first tactic object carrying the code that has a truthy name gives the name the
      code resolves to; earlier tactic objects carrying the code with an absent or empty
      name are passed over. */
  lemma {:induction false} FirstMatchingTacticNamed(objs: seq<StixObject>, id: string, k: nat)
    requires k < |objs| && IsTacticFor(objs[k], id) && TruthyString(objs[k].name)
    requires forall j :: 0 <= j < k && IsTacticFor(objs[j], id) ==> !TruthyString(objs[j].name)
    ensures TacticName(objs, id) == objs[k].name
  {
    FirstMatchFrom(objs, id, k, None);
  }

  lemma {:induction false} FirstMatchFrom(objs: seq<StixObject>, id: string, k: nat, name: Option<string>)
    requires !TruthyString(name)
    requires k < |objs| && IsTacticFor(objs[k], id) && TruthyString(objs[k].name)
    requires forall j :: 0 <= j < k && IsTacticFor(objs[j], id) ==> !TruthyString(objs[j].name)
    ensures TacticNameFrom(objs, id, name) == objs[k].name
    decreases k
  {
    if k > 0 {
      var name' := if IsTacticFor(objs[0], id) then objs[0].name else name;
      FirstMatchFrom(objs[1..], id, k - 1, name');
    }
  }

  /** A truthy resolved name is the name of some tactic object that carries the code. */
  lemma {:induction false} TacticNameComesFromTactic(objs: seq<StixObject>, id: string, name: Option<string>)
    requires !TruthyString(name)
    requires TruthyString(TacticNameFrom(objs, id, name))
    ensures exists k :: 0 <= k < |objs| && IsTacticFor(objs[k], id) && objs[k].name == TacticNameFrom(objs, id, name)
    decreases |objs|
  {
    var name' := if IsTacticFor(objs[0], id) then objs[0].name else name;
    if !TruthyString(name') {
      TacticNameComesFromTactic(objs[1..], id, name');
      var k :| 0 <= k < |objs[1..]| && IsTacticFor(objs[1..][k], id) && objs[1..][k].name == TacticNameFrom(objs[1..], id, name');
      assert objs[k + 1] == objs[1..][k];
    }
  }

  /** Membership: an object is extracted iff it is in the bundle and passes the test of the
      second loop; without a tactic that test is just "is an attack-pattern". */
  lemma TechniquesMembership(doc: Document, tacticId: Option<string>, o: StixObject)
    ensures o in Techniques(Some(doc), tacticId) <==>
      o in doc.objects && IsAttackPattern(o) &&
      (TruthyString(tacticId) ==> HasPhaseNamed(o, TacticName(doc.objects, tacticId.value)))
  {
    Seqs.FilterMembership(doc.objects, IncludedIn(tacticId, ResolvedName(doc.objects, tacticId)), o);
  }

  /** The result is a subsequence of the bundle's objects (document order is kept), every
      element is an attack-pattern, and every occurrence of an object that passes the test
      is emitted exactly once, however many of its phases match. */
  lemma TechniquesAreOrderedAttackPatterns(doc: Document, tacticId: Option<string>, o: StixObject)
    ensures Seqs.IsSubsequence(Techniques(Some(doc), tacticId), doc.objects)
    ensures forall i :: 0 <= i < |Techniques(Some(doc), tacticId)| ==> IsAttackPattern(Techniques(Some(doc), tacticId)[i])
    ensures multiset(Techniques(Some(doc), tacticId))[o] ==
      if Included(o, tacticId, ResolvedName(doc.objects, tacticId)) then multiset(doc.objects)[o] else 0
  {
    var p := IncludedIn(tacticId, ResolvedName(doc.objects, tacticId));
    Seqs.FilterIsSubsequence(doc.objects, p);
    Seqs.FilterMultiplicity(doc.objects, p, o);
  }

  /** Without a (truthy) tactic code, the result is exactly the attack-patterns of the
      bundle, in document order, each occurrence kept: a subsequence of the objects in which
      every attack-pattern occurs as often as in the bundle and nothing else occurs. */
  lemma NoTacticKeepsAllAttackPatterns(doc: Document, tacticId: Option<string>, o: StixObject)
    requires !TruthyString(tacticId)
    ensures Seqs.IsSubsequence(Techniques(Some(doc), tacticId), doc.objects)
    ensures multiset(Techniques(Some(doc), tacticId))[o] == if IsAttackPattern(o) then multiset(doc.objects)[o] else 0
  {
    var p := IncludedIn(tacticId, ResolvedName(doc.objects, tacticId));
    Seqs.FilterIsSubsequence(doc.objects, p);
    Seqs.FilterMultiplicity(doc.objects, p, o);
  }

  /** An unknown tactic code resolves to no name, so only techniques that have a phase
      lacking `phase_name` are kept (usually none): not an error, just a short result. */
  lemma UnknownTacticKeepsOnlyUnnamedPhases(doc: Document, id: string, o: StixObject)
    requires id != ""
    requires forall k :: 0 <= k < |doc.objects| ==> !IsTacticFor(doc.objects[k], id)
    ensures o in Techniques(Some(doc), Some(id)) <==>
      o in doc.objects && IsAttackPattern(o) && HasPhaseNamed(o, None)
  {
    UnknownTacticHasNoName(doc.objects, id);
    TechniquesMembership(doc, Some(id), o);
  }

  /** With a tactic code, a technique is extracted iff it is an attack-pattern of the
      bundle with a kill-chain phase named as the first tactic object that carries the code
      and has a truthy name. */
  lemma TacticFilterUsesFirstTacticName(doc: Document, id: string, k: nat, o: StixObject)
    requires id != ""
    requires k < |doc.objects| && IsTacticFor(doc.objects[k], id) && TruthyString(doc.objects[k].name)
    requires forall j :: 0 <= j < k && IsTacticFor(doc.objects[j], id) ==> !TruthyString(doc.objects[j].name)
    ensures o in Techniques(Some(doc), Some(id)) <==>
      o in doc.objects && IsAttackPattern(o) && HasPhaseNamed(o, doc.objects[k].name)
  {
    FirstMatchingTacticNamed(doc.objects, id, k);
    TechniquesMembership(doc, Some(id), o);
  }
}
