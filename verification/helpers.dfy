/**
  The fake relation of the charm test helpers: a read-only snapshot of
  relation data that stands in for the relation-query client in unit
  tests. The data is one dict in one of two shapes — flat
  (attribute -> value) or nested (relation id -> unit id -> attribute ->
  value) — and the shape a query uses is chosen by the relation id passed.
 */
module Helpers {
  import opened Wrappers
  import opened PyValue

  /** The relation id a flat fixture answers for. */
  const DefaultRelationId: string := "foo:0"

  /** The snapshot; nothing in this module ever builds a changed copy of it. */
  datatype FakeRelation = FakeRelation(relationData: map<string, Val>)

  /** The dispatch test of `get`: an unset or empty relation id, or the default one. */
  predicate UsesFlatShape(rid: Option<string>)
  {
    rid.None? || rid.value == "" || rid.value == DefaultRelationId
  }

  /** `data` stores `v` under relation id `rid`, unit `unit`, attribute `attr`. */
  ghost predicate Stores(data: map<string, Val>, rid: string, unit: string, attr: string, v: Val)
  {
    && rid in data && data[rid].Obj?
    && unit in data[rid].fields && data[rid].fields[unit].Obj?
    && attr in data[rid].fields[unit].fields
    && data[rid].fields[unit].fields[attr] == v
  }

  /**
    The walk `data[rid][unit]` meets a string where a dict is needed: either
    the relation id names a string, or the unit names one.
   */
  ghost predicate PathHitsString(data: map<string, Val>, rid: string, unit: Option<string>)
  {
    rid in data &&
    (data[rid].Str? ||
     (unit.Some? && unit.value in data[rid].fields && data[rid].fields[unit.value].Str?))
  }

  /**
    `get(attr, unit, rid)`. The flat branch never raises, returns the whole
    data for an unset attribute and the attribute's value otherwise. The
    nested branch returns exactly the value stored at rid/unit/attr, absence
    for a missing relation id, unit or attribute, and never the whole unit
    mapping; it raises a TypeError whenever the relation id names a string,
    and it raises nothing else and nowhere else than on a walk that meets a
    string (the case of a unit naming a string is `GetOnStringUnit`).
   */
  function Get(rel: FakeRelation, attr: Option<string>, unit: Option<string>, rid: Option<string>)
    : (r: Outcome<Option<Val>>)
    ensures UsesFlatShape(rid) ==> r.Returned?
    ensures UsesFlatShape(rid) && attr.None? ==> r.value == Some(Obj(rel.relationData))
    ensures UsesFlatShape(rid) && attr.Some? ==>
      (r.value.Some? <==> attr.value in rel.relationData) &&
      (r.value.Some? ==> r.value.value == rel.relationData[attr.value])
    ensures !UsesFlatShape(rid) && rid.value !in rel.relationData ==> r == Returned(None)
    ensures !UsesFlatShape(rid) && r.Returned? && r.value.Some? ==>
      attr.Some? && unit.Some? && Stores(rel.relationData, rid.value, unit.value, attr.value, r.value.value)
    ensures !UsesFlatShape(rid) && attr.Some? && unit.Some? ==>
      forall v :: Stores(rel.relationData, rid.value, unit.value, attr.value, v) ==> r == Returned(Some(v))
    ensures !UsesFlatShape(rid) && attr.None? && r.Returned? ==> r.value.None?
    ensures !UsesFlatShape(rid) && rid.value in rel.relationData && rel.relationData[rid.value].Str? ==>
      r == Raised(TypeError)
    ensures r.Raised? ==>
      r.error == TypeError && !UsesFlatShape(rid) && PathHitsString(rel.relationData, rid.value, unit)
  {
    var data := rel.relationData;
    if UsesFlatShape(rid) then
      if attr.None? then Returned(Some(Obj(data)))
      else if attr.value in data then Returned(Some(data[attr.value]))
      else Returned(None)
    else if rid.value !in data then
      Returned(None)
    else
      match Subscript(data[rid.value], unit)
      case Raised(e) => if e == KeyError then Returned(None) else Raised(e)
      case Returned(relation) =>
        match Contains(relation, attr)
        case Raised(e) => Raised(e)
        case Returned(found) =>
          if !found then Returned(None)
          else
            match Subscript(relation, attr)
            case Raised(e) => Raised(e)
            case Returned(v) => Returned(Some(v))
  }

  /** `relation_ids(relation)`: the top-level keys, whatever relation name is passed. */
  function RelationIds(rel: FakeRelation, relation: Option<string>): (ids: set<string>)
    ensures forall k :: k in ids <==> k in rel.relationData
  {
    rel.relationData.Keys
  }

  /**
    `related_units(relid)`: the unit ids under a relation id, an empty
    collection when the id is unset or missing, and an AttributeError when
    the id names a string (only the KeyError is caught).
   */
  function RelatedUnits(rel: FakeRelation, relid: Option<string>): (r: Outcome<set<string>>)
    ensures relid.None? || relid.value !in rel.relationData ==> r == Returned({})
    ensures relid.Some? && relid.value in rel.relationData && rel.relationData[relid.value].Obj? ==>
      r.Returned? && forall u :: u in r.value <==> u in rel.relationData[relid.value].fields
    ensures r.Raised? <==>
      relid.Some? && relid.value in rel.relationData && rel.relationData[relid.value].Str?
    ensures r.Raised? ==> r.error == AttributeError
  {
    var attempt :=
      match Subscript(Obj(rel.relationData), relid)
      case Returned(units) => KeySet(units)
      case Raised(e) => Raised(e);
    if attempt.Raised? && attempt.error == KeyError then Returned({}) else attempt
  }

  /**
    `relation_units(relation_id)`: the unit ids under a relation id, `None`
    when the id is missing, and an AttributeError when the id names a string.
   */
  function RelationUnits(rel: FakeRelation, relationId: string): (r: Outcome<Option<set<string>>>)
    ensures relationId !in rel.relationData <==> r == Returned(None)
    ensures relationId in rel.relationData && rel.relationData[relationId].Obj? ==>
      r.Returned? && r.value.Some? &&
      forall u :: u in r.value.value <==> u in rel.relationData[relationId].fields
    ensures r.Raised? <==> relationId in rel.relationData && rel.relationData[relationId].Str?
    ensures r.Raised? ==> r.error == AttributeError
  {
    if Contains(Obj(rel.relationData), Some(relationId)) == Returned(false) then
      Returned(None)
    else
      match Subscript(Obj(rel.relationData), Some(relationId))
      case Raised(e) => Raised(e)
      case Returned(units) =>
        match KeySet(units)
        case Raised(e) => Raised(e)
        case Returned(keys) => Returned(Some(keys))
  }

  /** The default relation id and the empty one behave exactly as an unset one, and the unit is ignored. */
  lemma DefaultRidIsUnsetRid(rel: FakeRelation, attr: Option<string>, unit: Option<string>, unit': Option<string>)
    ensures Get(rel, attr, unit, Some(DefaultRelationId)) == Get(rel, attr, unit', None)
    ensures Get(rel, attr, unit, Some("")) == Get(rel, attr, unit', None)
  {
  }

  /**
    Asking for the whole mapping only works in the flat branch: with a
    relation id that selects the nested branch, an unset attribute yields
    absence even when the unit's mapping exists.
   */
  lemma UnsetAttrAsymmetry(rel: FakeRelation, unit: string, rid: string)
    requires !UsesFlatShape(Some(rid))
    requires rid in rel.relationData && rel.relationData[rid].Obj?
    requires unit in rel.relationData[rid].fields && rel.relationData[rid].fields[unit].Obj?
    ensures Get(rel, None, Some(unit), Some(rid)) == Returned(None)
    ensures Get(rel, None, Some(unit), None) == Returned(Some(Obj(rel.relationData)))
  {
  }

  /**
    When the unit names a string, Python's `attr in relation` is a substring
    test: an attribute that occurs in the string goes on to `relation[attr]`,
    which raises a TypeError; one that does not yields absence; an unset
    attribute raises at the `in` test.
   */
  lemma GetOnStringUnit(rel: FakeRelation, attr: Option<string>, unit: string, rid: string, s: string)
    requires !UsesFlatShape(Some(rid))
    requires rid in rel.relationData && rel.relationData[rid].Obj?
    requires unit in rel.relationData[rid].fields && rel.relationData[rid].fields[unit] == Str(s)
    ensures attr.None? ==> Get(rel, attr, Some(unit), Some(rid)) == Raised(TypeError)
    ensures attr.Some? ==>
      Get(rel, attr, Some(unit), Some(rid)) ==
        (if exists i :: OccursAt(attr.value, s, i) then Raised(TypeError) else Returned(None))
  {
  }

  /**
    `relation_units` and `related_units` agree on every present relation id;
    on a missing one `relation_units` says `None` where `related_units` says
    empty, and the `None` happens exactly for ids outside `relation_ids`.
   */
  lemma UnitsAbsentVersusEmpty(rel: FakeRelation, id: string, relation: Option<string>)
    ensures RelationUnits(rel, id) == Returned(None) <==> id !in RelationIds(rel, relation)
    ensures RelationUnits(rel, id) == Returned(None) ==> RelatedUnits(rel, Some(id)) == Returned({})
    ensures RelationUnits(rel, id).Returned? && RelationUnits(rel, id).value.Some? ==>
      RelatedUnits(rel, Some(id)) == Returned(RelationUnits(rel, id).value.value)
    ensures RelationUnits(rel, id).Raised? <==> RelatedUnits(rel, Some(id)).Raised?
  {
  }

  /** `related_units` cannot tell a missing relation id from one with no units; `relation_units` can. */
  lemma RelatedUnitsConflatesAbsentAndEmpty(rel: FakeRelation, missing: string, empty: string)
    requires missing !in rel.relationData
    requires empty in rel.relationData && rel.relationData[empty] == Obj(map[])
    ensures RelatedUnits(rel, Some(missing)) == RelatedUnits(rel, Some(empty))
    ensures RelationUnits(rel, missing) != RelationUnits(rel, empty)
  {
    assert rel.relationData[empty].fields.Keys == {};
  }

  /** `relation_ids` does not depend on the relation name it is given. */
  lemma RelationIdsIgnoresName(rel: FakeRelation, a: Option<string>, b: Option<string>)
    ensures RelationIds(rel, a) == RelationIds(rel, b)
  {
  }
}
