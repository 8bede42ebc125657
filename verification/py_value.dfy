/**
  The slice of Python 2 that the fake relation relies on: fixture values
  (strings and string-keyed dicts), the three exceptions its lookups can
  raise, and the `in`, `[]` and `.keys()` operations on those values.
 */
module PyValue {
  import opened Wrappers

  /** A fixture value: a string, or a dict keyed by strings. */
  datatype Val = Str(text: string) | Obj(fields: map<string, Val>)

  /** The exceptions a lookup on a fixture value can raise. */
  datatype PyError = KeyError | TypeError | AttributeError

  /** The result of a Python expression: a value, or an exception propagating out of it. */
  datatype Outcome<+T> = Returned(value: T) | Raised(error: PyError)

  /** `needle` is the slice of `hay` that starts at index `i`. */
  ghost predicate OccursAt(needle: string, hay: string, i: int)
  {
    0 <= i && i + |needle| <= |hay| && hay[i..i + |needle|] == needle
  }

  lemma OccursTail(needle: string, hay: string)
    requires |hay| > 0 && !(needle <= hay)
    ensures (exists i :: OccursAt(needle, hay, i)) <==> (exists i :: OccursAt(needle, hay[1..], i))
  {
    if exists i :: OccursAt(needle, hay, i) {
      var i :| OccursAt(needle, hay, i);
      assert hay[1..][i - 1..i - 1 + |needle|] == hay[i..i + |needle|];
      assert OccursAt(needle, hay[1..], i - 1);
    }
    if exists i :: OccursAt(needle, hay[1..], i) {
      var i :| OccursAt(needle, hay[1..], i);
      assert hay[1..][i..i + |needle|] == hay[i + 1..i + 1 + |needle|];
      assert OccursAt(needle, hay, i + 1);
    }
  }

  /**
    Python's `needle in hay` on two strings: a substring test, under which
    the empty string occurs in every string.
   */
  function Occurs(needle: string, hay: string): (r: bool)
    ensures r <==> exists i :: OccursAt(needle, hay, i)
    decreases |hay|
  {
    if needle <= hay then
      assert OccursAt(needle, hay, 0);
      true
    else if |hay| == 0 then
      false
    else
      OccursTail(needle, hay);
      Occurs(needle, hay[1..])
  }

  /** Python's `key in container`, `None` standing for an unset key. */
  function Contains(container: Val, key: Option<string>): (r: Outcome<bool>)
    ensures r.Raised? <==> container.Str? && key.None?
    ensures r.Raised? ==> r.error == TypeError
    ensures container.Obj? ==> r == Returned(key.Some? && key.value in container.fields)
    ensures container.Str? && key.Some? ==>
      r == Returned(exists i :: OccursAt(key.value, container.text, i))
  {
    match container
    case Obj(fields) => Returned(key.Some? && key.value in fields)
    case Str(s) => if key.None? then Raised(TypeError) else Returned(Occurs(key.value, s))
  }

  /** Python's `container[key]`: a missing key raises KeyError, a string refuses string indices. */
  function Subscript(container: Val, key: Option<string>): (r: Outcome<Val>)
    ensures r.Returned? <==> container.Obj? && key.Some? && key.value in container.fields
    ensures r.Returned? ==> r.value == container.fields[key.value]
    ensures r.Raised? ==> (r.error == TypeError <==> container.Str?)
    ensures r.Raised? ==> r.error in {KeyError, TypeError}
  {
    match container
    case Obj(fields) =>
      if key.Some? && key.value in fields then Returned(fields[key.value]) else Raised(KeyError)
    case Str(_) => Raised(TypeError)
  }

  /** Python's `container.keys()`, read as a set: a string has no such method. */
  function KeySet(container: Val): (r: Outcome<set<string>>)
    ensures r.Returned? <==> container.Obj?
    ensures r.Returned? ==> forall k :: k in r.value <==> k in container.fields
    ensures r.Raised? ==> r.error == AttributeError
  {
    match container
    case Obj(fields) => Returned(fields.Keys)
    case Str(_) => Raised(AttributeError)
  }
}
