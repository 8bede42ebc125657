/**
  The two fixture shapes tests hand to the fake relation, as a tagged
  variant, with the untyped dict each one stands for. `Classify` recovers the
  shape from the dict, and the lemmas state what each query answers for each
  shape.
 */
module Fixtures {
  import opened Wrappers
  import opened PyValue
  import opened Helpers

  /** A flat fixture (attribute -> value) or a nested one (relation id -> unit id -> attribute -> value). */
  datatype Fixture =
    | Flat(attrs: map<string, string>)
    | Nested(relations: map<string, map<string, map<string, string>>>)

  /** The dict of one unit's attributes. */
  function AttrsVal(attrs: map<string, string>): Val
  {
    Obj(map a | a in attrs :: Str(attrs[a]))
  }

  /** The dict of one relation's units. */
  function UnitsVal(units: map<string, map<string, string>>): Val
  {
    Obj(map u | u in units :: AttrsVal(units[u]))
  }

  /** The dict a test passes to the constructor for a fixture. */
  function ToRelationData(f: Fixture): (data: map<string, Val>)
    ensures f.Flat? ==> data.Keys == f.attrs.Keys && IsFlatData(data)
    ensures f.Nested? ==> data.Keys == f.relations.Keys && IsNestedData(data)
  {
    match f
    case Flat(attrs) => map a | a in attrs :: Str(attrs[a])
    case Nested(relations) => map r | r in relations :: UnitsVal(relations[r])
  }

  /** Every value is a string. */
  predicate IsFlatData(data: map<string, Val>)
  {
    forall k :: k in data ==> data[k].Str?
  }

  predicate IsAttrMap(v: Val)
  {
    v.Obj? && forall a :: a in v.fields ==> v.fields[a].Str?
  }

  predicate IsUnitMap(v: Val)
  {
    v.Obj? && forall u :: u in v.fields ==> IsAttrMap(v.fields[u])
  }

  /** Every value is a dict of units, each a dict of string attributes. */
  predicate IsNestedData(data: map<string, Val>)
  {
    forall r :: r in data ==> IsUnitMap(data[r])
  }

  function AttrsOf(v: Val): map<string, string>
    requires IsAttrMap(v)
  {
    map a | a in v.fields :: v.fields[a].text
  }

  function UnitsOf(v: Val): map<string, map<string, string>>
    requires IsUnitMap(v)
  {
    map u | u in v.fields :: AttrsOf(v.fields[u])
  }

  /**
    The shape of an untyped dict: flat when every value is a string (the
    empty dict included), nested when every value is a dict of attribute
    dicts, and neither otherwise.
   */
  function Classify(data: map<string, Val>): (f: Option<Fixture>)
    ensures f.Some? <==> IsFlatData(data) || IsNestedData(data)
    ensures f.Some? && f.value.Flat? ==> f.value.attrs.Keys == data.Keys
    ensures f.Some? && f.value.Nested? ==> f.value.relations.Keys == data.Keys
  {
    if IsFlatData(data) then Some(Flat(map k | k in data :: data[k].text))
    else if IsNestedData(data) then Some(Nested(map r | r in data :: UnitsOf(data[r])))
    else None
  }

  lemma AttrsRoundTrip(attrs: map<string, string>)
    ensures IsAttrMap(AttrsVal(attrs)) && AttrsOf(AttrsVal(attrs)) == attrs
  {
  }

  lemma UnitsRoundTrip(units: map<string, map<string, string>>)
    ensures IsUnitMap(UnitsVal(units)) && UnitsOf(UnitsVal(units)) == units
  {
    forall u | u in units {
      AttrsRoundTrip(units[u]);
    }
  }

  /**
    Classifying the dict of a fixture gives the fixture back, except that
    the empty nested fixture and the empty flat one are the same dict.
   */
  lemma ClassifyInvertsToRelationData(f: Fixture)
    requires f.Flat? || f.relations != map[]
    ensures Classify(ToRelationData(f)) == Some(f)
  {
    var data := ToRelationData(f);
    match f
    case Flat(attrs) =>
      assert (map k | k in data :: data[k].text) == attrs;
    case Nested(relations) =>
      var r :| r in relations;
      assert !data[r].Str?;
      forall r' | r' in relations {
        UnitsRoundTrip(relations[r']);
      }
      assert (map r' | r' in data :: UnitsOf(data[r'])) == relations;
  }

  lemma AttrsValOf(v: Val)
    requires IsAttrMap(v)
    ensures AttrsVal(AttrsOf(v)) == v
  {
  }

  lemma UnitsValOf(v: Val)
    requires IsUnitMap(v)
    ensures UnitsVal(UnitsOf(v)) == v
  {
    forall u | u in v.fields {
      AttrsValOf(v.fields[u]);
    }
  }

  /** Every dict that has a shape is the dict of the fixture it classifies as. */
  lemma ToRelationDataInvertsClassify(data: map<string, Val>)
    requires Classify(data).Some?
    ensures ToRelationData(Classify(data).value) == data
  {
    if !IsFlatData(data) {
      forall r | r in data {
        UnitsValOf(data[r]);
      }
    }
  }

  /** A flat fixture answers `get` under the default relation id by attribute alone, whatever the unit. */
  lemma FlatFixtureGet(attrs: map<string, string>, attr: string, unit: Option<string>, rid: Option<string>)
    requires UsesFlatShape(rid)
    ensures Get(FakeRelation(ToRelationData(Flat(attrs))), Some(attr), unit, rid) ==
      Returned(if attr in attrs then Some(Str(attrs[attr])) else None)
  {
  }

  /**
    A flat fixture queried with any other relation id: a relation id that
    is not an attribute yields absence, and one that is an attribute reaches
    a string, so `get` raises a TypeError and `related_units` an
    AttributeError.
   */
  lemma FlatFixtureWithOtherRid(attrs: map<string, string>, attr: Option<string>, unit: Option<string>, rid: string)
    requires !UsesFlatShape(Some(rid))
    ensures Get(FakeRelation(ToRelationData(Flat(attrs))), attr, unit, Some(rid)) ==
      (if rid in attrs then Raised(TypeError) else Returned(None))
    ensures RelatedUnits(FakeRelation(ToRelationData(Flat(attrs))), Some(rid)) ==
      (if rid in attrs then Raised(AttributeError) else Returned({}))
  {
  }

  /**
    The enumeration queries on a flat fixture: its attribute names read as
    relation ids, and every one of them names a string, so both unit
    queries raise an AttributeError on it; any other id is missing.
   */
  lemma FlatFixtureUnits(attrs: map<string, string>, rid: string, relation: Option<string>)
    ensures RelationIds(FakeRelation(ToRelationData(Flat(attrs))), relation) == attrs.Keys
    ensures RelatedUnits(FakeRelation(ToRelationData(Flat(attrs))), Some(rid)) ==
      (if rid in attrs then Raised(AttributeError) else Returned({}))
    ensures RelationUnits(FakeRelation(ToRelationData(Flat(attrs))), rid) ==
      (if rid in attrs then Raised(AttributeError) else Returned(None))
  {
  }

  /**
    A nested fixture answers `get` under a non-default relation id with the
    stored string, and with absence when the relation id, unit or
    attribute is unset or missing; it never raises.
   */
  lemma NestedFixtureGet(relations: map<string, map<string, map<string, string>>>,
                         attr: Option<string>, unit: Option<string>, rid: string)
    requires !UsesFlatShape(Some(rid))
    ensures Get(FakeRelation(ToRelationData(Nested(relations))), attr, unit, Some(rid)) ==
      Returned(
        if attr.Some? && unit.Some? && rid in relations && unit.value in relations[rid]
           && attr.value in relations[rid][unit.value]
        then Some(Str(relations[rid][unit.value][attr.value]))
        else None)
  {
    var data := ToRelationData(Nested(relations));
    if rid in relations && unit.Some? && unit.value in relations[rid] {
      assert data[rid].fields[unit.value] == AttrsVal(relations[rid][unit.value]);
    }
  }

  /** The enumeration queries on a nested fixture: its relation ids, and each relation's unit ids. */
  lemma NestedFixtureUnits(relations: map<string, map<string, map<string, string>>>,
                           rid: string, relation: Option<string>)
    ensures RelationIds(FakeRelation(ToRelationData(Nested(relations))), relation) == relations.Keys
    ensures RelatedUnits(FakeRelation(ToRelationData(Nested(relations))), Some(rid)) ==
      Returned(if rid in relations then relations[rid].Keys else {})
    ensures RelationUnits(FakeRelation(ToRelationData(Nested(relations))), rid) ==
      Returned(if rid in relations then Some(relations[rid].Keys) else None)
  {
    var data := ToRelationData(Nested(relations));
    if rid in relations {
      assert data[rid].fields.Keys == relations[rid].Keys;
    }
  }

  /**
    A nested fixture that uses the default relation id as a key can never
    have that relation's attributes read back: the default id routes `get`
    to the flat branch, which looks the attribute up among relation ids.
   */
  lemma NestedDefaultIdShadowed(relations: map<string, map<string, map<string, string>>>,
                                attr: string, unit: string)
    requires DefaultRelationId in relations && unit in relations[DefaultRelationId]
    requires attr in relations[DefaultRelationId][unit]
    ensures Get(FakeRelation(ToRelationData(Nested(relations))), Some(attr), Some(unit), Some(DefaultRelationId)) ==
      Returned(if attr in relations then Some(UnitsVal(relations[attr])) else None)
    ensures var g := Get(FakeRelation(ToRelationData(Nested(relations))), Some(attr), Some(unit), Some(DefaultRelationId));
      g.Returned? && !(g.value.Some? && g.value.value.Str?)
  {
  }

  /**
    The two fixtures of the class documentation with its two queries
    (`password` on each), plus further queries whose answers follow from
    the code: a missing attribute, unit and relation id, and the
    enumeration queries.
   */
  lemma DocumentedFixtures()
    ensures var flat := FakeRelation(map["private-address" := Str("foo"), "password" := Str("passwd")]);
      && Get(flat, Some("password"), None, None) == Returned(Some(Str("passwd")))
      && Get(flat, Some("password"), None, Some(DefaultRelationId)) == Returned(Some(Str("passwd")))
      && Get(flat, Some("missing"), None, None) == Returned(None)
      && Get(flat, None, None, None) == Returned(Some(Obj(flat.relationData)))
    ensures var unitAttrs := Obj(map["private-address" := Str("foo"), "password" := Str("passwd")]);
      var nested := FakeRelation(map["mysql:0" := Obj(map["mysql/0" := unitAttrs])]);
      && Get(nested, Some("password"), Some("mysql/0"), Some("mysql:0")) == Returned(Some(Str("passwd")))
      && Get(nested, Some("password"), Some("mysql/1"), Some("mysql:0")) == Returned(None)
      && Get(nested, Some("password"), Some("mysql/0"), Some("pgsql:0")) == Returned(None)
      && RelationIds(nested, None) == {"mysql:0"}
      && RelatedUnits(nested, Some("mysql:0")) == Returned({"mysql/0"})
      && RelatedUnits(nested, Some("unknown:0")) == Returned({})
      && RelationUnits(nested, "mysql:0") == Returned(Some({"mysql/0"}))
      && RelationUnits(nested, "unknown:0") == Returned(None)
  {
    var unitAttrs := Obj(map["private-address" := Str("foo"), "password" := Str("passwd")]);
    var units := map["mysql/0" := unitAttrs];
    var data := map["mysql:0" := Obj(units)];
    assert "mysql/1" != "mysql/0" && "pgsql:0" != "mysql:0" && "unknown:0" != "mysql:0";
    assert data.Keys == {"mysql:0"};
    assert units.Keys == {"mysql/0"};
  }
}
