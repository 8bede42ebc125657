# FakeRelation — a verified model of the charm-helpers relation test double

The charm-helpers test suite replaces the relation-query client
(`relation_get`, `relation_ids`, `related_units`, `relation_units`) with a
`FakeRelation`. This object is a read-only snapshot of fixture relation data.
The data is a single dict in one of two shapes:

- **flat:** attribute → value. This is the data of the default relation `foo:0`.
- **nested:** relation id → unit id → attribute → value.

`get(attr, unit, rid)` picks the shape from `rid`:

- An unset rid, an empty rid, or `foo:0` gives a flat lookup.
- Any other rid walks the nested structure.

The model is written in Dafny, in four modules:

- `Wrappers` (`wrappers.dfy`): `Option`, standing for Python's `None`.
- `PyValue` (`py_value.dfy`): the Python 2 behaviour the class relies on.
  - Fixture values are either strings or string-keyed dicts.
  - `key in container` is modelled, including the substring test on strings.
  - `container[key]` is modelled, with KeyError and TypeError.
  - `.keys()` is modelled, with AttributeError on strings.
  - `Outcome` is either a returned value or a raised exception.
- `Helpers` (`helpers.dfy`): the `FakeRelation` snapshot and its four queries, as pure functions.
- `Fixtures` (`fixtures.dfy`): the two fixture shapes as a tagged variant.
  - `ToRelationData` gives the dict for a fixture.
  - `Classify` recovers the shape from a dict. The two are proved inverse to each other.
  - Lemmas state what `get`, `related_units`, `relation_units` and `relation_ids` answer on each shape.

Exceptions are modelled rather than excluded. Only the KeyError of the
nested walk and of `related_units` is caught (tests/helpers.py:78-81,
90-93). Ill-shaped data therefore makes the code raise:

- `get` with a non-default relation id that names a string raises TypeError
  (`'x'['u']`, tests/helpers.py:79).
- `get` whose unit names a string runs Python's substring test
  `attr in relation` (tests/helpers.py:82). An attribute that occurs in the
  string goes on to `relation[attr]` and raises TypeError; an unset
  attribute raises TypeError at the test itself; any other attribute yields
  `None`.
- `related_units` and `relation_units` on an id that names a string raise
  AttributeError (`.keys()` on a string, tests/helpers.py:91, 98). So
  `related_units` on a flat fixture returns `[]` for a missing id and raises
  when the id is an attribute key (`Fixtures.FlatFixtureUnits`).

The snapshot is an immutable value and every query is a function of it.
So the model cannot mutate the data, and repeated calls with equal
arguments give equal results.

## Model

| member | source | states |
|---|---|---|
| `Helpers.Get` | tests/helpers.py:68-84 | The flat branch (unset, empty or `foo:0` rid) never raises. With no attribute it returns the whole data. With an attribute it returns that attribute's value exactly when it is a key, and absence otherwise. In the nested branch a missing rid gives absence. A returned value is exactly the one stored at rid/unit/attr, and any stored value is what is returned. An unset attribute never yields a value. A non-default rid naming a string always raises TypeError. The only exception is TypeError, raised only when the walk meets a string. |
| `Helpers.RelationIds` | tests/helpers.py:86-87 | The result is exactly the set of top-level keys. |
| `Helpers.RelatedUnits` | tests/helpers.py:89-93 | An unset or missing relation id gives the empty set. A relation id naming a dict gives exactly that dict's unit ids. It raises (AttributeError) exactly when the id names a string. |
| `Helpers.RelationUnits` | tests/helpers.py:95-98 | The result is `None` exactly when the id is missing. For an id naming a dict it is exactly that dict's unit ids. It raises (AttributeError) exactly when the id names a string. |
| `Helpers.DefaultRidIsUnsetRid` | tests/helpers.py:69-74 | `rid='foo:0'` and `rid=''` answer exactly as an unset rid does, and the unit is ignored. |
| `Helpers.UnsetAttrAsymmetry` | tests/helpers.py:69-84 | Take an existing unit mapping reached through the nested branch. With no attribute, the nested branch returns absence for it. The flat branch returns the whole data. |
| `Helpers.GetOnStringUnit` | tests/helpers.py:78-84 | Suppose the unit names a string. An attribute that occurs in it as a substring raises TypeError. One that does not occur yields absence. An unset attribute raises TypeError. |
| `Helpers.UnitsAbsentVersusEmpty` | tests/helpers.py:86-98 | `relation_units` says `None` exactly for ids outside `relation_ids`, and `related_units` says empty there. On present ids the two return the same units. They raise on the same ids. |
| `Helpers.RelatedUnitsConflatesAbsentAndEmpty` | tests/helpers.py:89-98 | `related_units` gives the same answer for a missing relation and for one with no units. `relation_units` tells them apart. |
| `Helpers.RelationIdsIgnoresName` | tests/helpers.py:86-87 | The relation name argument has no effect on `relation_ids`. |
| `PyValue.Occurs` | tests/helpers.py:82 | Python's `attr in relation` on a string holds exactly when the attribute is a slice of the string at some index. |
| `PyValue.Contains` | tests/helpers.py:76-82 | `key in container`: on a dict, exactly whether the key is set and is a key; on a string, exactly whether the key occurs as a substring; an unset key on a string raises TypeError, and nothing else raises. |
| `PyValue.KeySet` | tests/helpers.py:86-98 | `.keys()` on a dict gives exactly its keys; on a string it raises AttributeError. |
| `PyValue.Subscript` | tests/helpers.py:79-81 | `container[key]` succeeds exactly on a dict holding the key, with that key's value. A string raises TypeError and a dict raises KeyError. |
| `Fixtures.ToRelationData` | tests/helpers.py:38-63 | A flat fixture gives a dict of strings with the same keys. A nested fixture gives a dict of unit dicts of attribute strings with the same relation ids. |
| `Fixtures.Classify` | tests/helpers.py:38-63 | A dict has a shape exactly when it is flat (all strings) or nested (all unit dicts of attribute strings). The shape keeps its keys. |
| `Fixtures.ClassifyInvertsToRelationData` | tests/helpers.py:38-63 | Classifying a fixture's dict gives the fixture back. The exception is the empty nested fixture, which has the same dict as the empty flat one. |
| `Fixtures.ToRelationDataInvertsClassify` | tests/helpers.py:38-63 | Every dict that has a shape is the dict of the fixture it classifies as. |
| `Fixtures.FlatFixtureGet` | tests/helpers.py:69-74 | With the flat-branch rid, a flat fixture answers `get` with the attribute's string, or with absence. |
| `Fixtures.FlatFixtureWithOtherRid` | tests/helpers.py:75-93 | A flat fixture queried with another rid gives absence when the rid is not an attribute. When the rid is an attribute, `get` raises TypeError and `related_units` raises AttributeError. |
| `Fixtures.FlatFixtureUnits` | tests/helpers.py:86-98 | For a flat fixture, `relation_ids` gives its attribute names. An attribute name passed as a relation id makes `related_units` and `relation_units` raise AttributeError; any other id gives empty and `None`. |
| `Fixtures.NestedFixtureGet` | tests/helpers.py:75-84 | With a non-default rid, a nested fixture answers with the stored string. A missing or unset rid, unit or attribute gives absence. It never raises. |
| `Fixtures.NestedFixtureUnits` | tests/helpers.py:86-98 | For a nested fixture, `relation_ids` gives its relation ids. `related_units` gives a relation's units, or empty. `relation_units` gives a relation's units, or `None`. |
| `Fixtures.NestedDefaultIdShadowed` | tests/helpers.py:69-74 | Suppose a nested fixture stores data under `foo:0`. `get` with `rid='foo:0'` never returns those strings. It looks the attribute up among the relation ids instead. |
| `Fixtures.DocumentedFixtures` | tests/helpers.py:42-98 | The documentation's two fixtures answer its two `password` queries with `passwd`. Further queries, whose answers follow from the code, give absence for a missing attribute, unit or relation id, and the expected ids and units from the enumeration queries. |

## Left out

- `patch_open` and `mock_open` (tests/helpers.py:7-34): they patch the builtin `open` through the mock library and fall back to real file I/O. They are thin wrappers over foreign code.
- Key order of Python 2's `.keys()` lists: results are modelled as sets.
- Non-string keys and values other than strings and dicts: fixtures hold only those.
- Identity of the returned dict: `get` with no attribute returns the very dict the test passed in. The model returns an equal value, since the model has no aliasing.
- Repeated-call equality and read-only access (tests/helpers.py:65-98): these hold by construction. The snapshot is an immutable value, and Dafny functions are deterministic. So no separate member states them; such a lemma would be proved with an empty body.
- The `side_affect` misspelling in the class documentation (tests/helpers.py:62): documentation only.
