/** Documents as the stores write them: JavaScript objects whose
    properties may hold `undefined`, and the loop that drops those
    properties before a write. */
module Records {
  import opened Types

  /** The values a stored property can hold. */
  datatype Value = Undefined | Text(text: string) | Number(number: real) | Recipe(items: seq<RecipeItem>)

  /** One own property of an object. */
  datatype Property = Property(key: string, value: Value)

  /** An object: its own properties in enumeration order. */
  type Object = seq<Property>

  /** A stored document: property name to value. */
  type Document = map<string, Value>

  /** An object has each property once. */
  predicate DistinctKeys(obj: Object) {
    forall i, j :: 0 <= i < j < |obj| ==> obj[i].key != obj[j].key
  }

  /** The property names of an object. */
  function Keys(obj: Object): (r: set<string>)
    ensures forall i :: 0 <= i < |obj| ==> obj[i].key in r
    ensures forall k :: k in r ==> exists i :: 0 <= i < |obj| && obj[i].key == k
  {
    set i | 0 <= i < |obj| :: obj[i].key
  }

  /** `obj[key]`: the first property with that name, `undefined` when
      there is none. */
  function Get(obj: Object, key: string): (v: Value)
    ensures key !in Keys(obj) ==> v == Undefined
    ensures forall i :: 0 <= i < |obj| && obj[i].key == key && DistinctKeys(obj) ==> v == obj[i].value
  {
    if obj == [] then Undefined
    else if obj[0].key == key then obj[0].value
    else
      assert forall i :: 1 <= i < |obj| ==> obj[1..][i - 1] == obj[i];
      Get(obj[1..], key)
  }

  /** The document keeping exactly the properties whose value is defined. */
  function Defined(obj: Object): (d: Document)
    ensures forall k :: k in d <==> Get(obj, k) != Undefined
    ensures forall k :: k in d ==> d[k] == Get(obj, k)
  {
    map k | k in Keys(obj) && Get(obj, k) != Undefined :: Get(obj, k)
  }

  /** Appending a property with a new name adds it to the object's
      reads and leaves the others alone. */
  lemma {:induction false} GetSnoc(obj: Object, p: Property, key: string)
    requires p.key !in Keys(obj)
    ensures Get(obj + [p], key) == if key == p.key then p.value else Get(obj, key)
  {
    if obj != [] {
      assert (obj + [p])[1..] == obj[1..] + [p];
      GetSnoc(obj[1..], p, key);
    }
  }

  /** Cleaning an object with one more property, of a new name, adds
      that property when its value is defined. */
  lemma {:induction false} DefinedSnoc(obj: Object, p: Property)
    requires p.key !in Keys(obj)
    ensures Defined(obj + [p]) == if p.value == Undefined then Defined(obj) else Defined(obj)[p.key := p.value]
  {
    forall k
      ensures Get(obj + [p], k) == if k == p.key then p.value else Get(obj, k)
    {
      GetSnoc(obj, p, k);
    }
  }

  /** `removeUndefined` and the cleaning loops of the update operations:
      copy every own property whose value is not `undefined`. */
  method RemoveUndefined(obj: Object) returns (cleaned: Document)
    requires DistinctKeys(obj)
    ensures cleaned == Defined(obj)
  {
    cleaned := map[];
    var i := 0;
    while i < |obj|
      invariant 0 <= i <= |obj|
      invariant cleaned == Defined(obj[..i])
    {
      var p := obj[i];
      assert obj[..i + 1] == obj[..i] + [p];
      DefinedSnoc(obj[..i], p);
      if p.value != Undefined {
        cleaned := cleaned[p.key := p.value];
      }
      i := i + 1;
    }
    assert obj[..i] == obj;
  }
}
