/**
 * `getSetFromObjectAttributes` (src/utils/index.ts): the set of one
 * attribute's values over a collection. The attribute is given as the
 * function that reads it from an element.
 */
module AttributeSets {

  /** The two shapes the input may have: an array, or a `Map` keyed by strings. */
  datatype Input<T> = ArrayInput(elements: seq<T>) | MapInput(entries: map<string, T>)

  /** The attribute's values over a sequence of elements. */
  ghost function AttributeSet<T, A>(elements: seq<T>, attribute: T -> A): set<A>
  {
    set e | e in elements :: attribute(e)
  }

  /**
   * `Object.values(input)`: the elements of an array; a `Map` keeps its
   * entries outside its own properties, so it has none.
   */
  function ObjectValues<T>(input: Input<T>): seq<T>
  {
    if input.ArrayInput? then input.elements else []
  }

  /**
   * As written: for an array, exactly the attribute values of its elements;
   * for a `Map`, the empty set, since the non-array branch iterates
   * `Object.values` of it.
   */
  method GetSetFromObjectAttributes<T, A>(input: Input<T>, attribute: T -> A) returns (s: set<A>)
    ensures input.ArrayInput? ==> s == AttributeSet(input.elements, attribute)
    ensures input.MapInput? ==> s == {}
  {
    s := {};
    var elements := ObjectValues(input);
    var i := 0;
    while i < |elements|
      invariant 0 <= i <= |elements|
      invariant s == AttributeSet(elements[..i], attribute)
    {
      assert elements[..i + 1] == elements[..i] + [elements[i]];
      s := s + {attribute(elements[i])};
      i := i + 1;
    }
    assert elements[..i] == elements;
  }

  /** As intended: for a `Map`, the attribute values of its entries. */
  method GetSetFromObjectAttributesIntended<T, A>(input: Input<T>, attribute: T -> A) returns (s: set<A>)
    ensures input.ArrayInput? ==> s == AttributeSet(input.elements, attribute)
    ensures input.MapInput? ==> s == set k | k in input.entries :: attribute(input.entries[k])
  {
    if input.ArrayInput? {
      s := GetSetFromObjectAttributes(input, attribute);
    } else {
      s := {};
      var keys := input.entries.Keys;
      ghost var done: set<string> := {};
      while keys != {}
        invariant keys + done == input.entries.Keys && keys !! done
        invariant s == set k | k in done :: attribute(input.entries[k])
        decreases keys
      {
        var k :| k in keys;
        s := s + {attribute(input.entries[k])};
        keys := keys - {k};
        done := done + {k};
      }
    }
  }

  /** The empty array gives the empty set. */
  lemma EmptyArrayEmptySet<T, A>(attribute: T -> A)
    ensures AttributeSet([], attribute) == {}
  {
  }

  /** Equal attribute values collapse: there are never more values than elements. */
  lemma {:induction false} AttributeSetSize<T, A>(elements: seq<T>, attribute: T -> A)
    ensures |AttributeSet(elements, attribute)| <= |elements|
  {
    if |elements| > 0 {
      var rest := elements[1..];
      AttributeSetSize(rest, attribute);
      assert AttributeSet(elements, attribute) == {attribute(elements[0])} + AttributeSet(rest, attribute) by {
        assert forall e | e in elements :: e == elements[0] || e in rest;
      }
    }
  }

  /**
   * A `Map` holding one element with attribute value 1 yields the empty
   * set as written, and `{1}` as intended.
   */
  method MapBranchDropsValues() returns (asWritten: set<int>, intended: set<int>)
    ensures asWritten == {}
    ensures intended == {1}
  {
    var input := MapInput(map["a" := 1]);
    var attribute := (n: int) => n;
    asWritten := GetSetFromObjectAttributes(input, attribute);
    intended := GetSetFromObjectAttributesIntended(input, attribute);
    assert intended == set k | k in input.entries :: attribute(input.entries[k]);
    assert input.entries.Keys == {"a"};
  }
}
