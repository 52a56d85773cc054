/**
 * The reflection-based mapper: every public property of the source type is looked up among the
 * destination type's properties by name and declared type, and copied when the destination
 * property has a setter. A type's properties are a list of descriptions; an object of that type
 * is a `Record` holding one value per property.
 */
module Mappers {
  import opened Wrappers

  /** A boxed property value. */
  datatype Value = NullValue | Text(s: string) | Number(n: int) | Flag(b: bool)

  /** A public property of a type: name, declared type, whether it has a setter, and the value a parameterless constructor leaves in it. */
  datatype Property = Property(name: string, typ: string, writable: bool, default: Value)

  /** A property of the source object together with its current value. */
  datatype Field = Field(property: Property, value: Value)

  /** The values a new object of the type starts with. */
  function Defaults(properties: seq<Property>): (r: seq<Value>)
    ensures |r| == |properties|
    ensures forall i :: 0 <= i < |r| ==> r[i] == properties[i].default
  {
    seq(|properties|, i requires 0 <= i < |properties| => properties[i].default)
  }

  predicate SameSignature(p: Property, name: string, typ: string)
  {
    p.name == name && p.typ == typ
  }

  /** `destinationProperties.FirstOrDefault(p => p.Name == name && p.PropertyType == typ)`, as an index, or -1. */
  function FirstMatch(properties: seq<Property>, name: string, typ: string): (r: int)
    ensures -1 <= r < |properties|
    ensures r >= 0 ==> SameSignature(properties[r], name, typ)
    ensures forall k :: 0 <= k < |properties| && (r == -1 || k < r) ==> !SameSignature(properties[k], name, typ)
  {
    if properties == [] then -1
    else if SameSignature(properties[0], name, typ) then 0
    else
      var r := FirstMatch(properties[1..], name, typ);
      assert forall k :: 1 <= k < |properties| ==> properties[k] == properties[1..][k - 1];
      if r == -1 then -1 else r + 1
  }

  /** Copying `f` writes destination property `j`. */
  predicate Targets(destination: seq<Property>, f: Field, j: int)
  {
    0 <= j < |destination|
    && FirstMatch(destination, f.property.name, f.property.typ) == j
    && destination[j].writable
  }

  /** One iteration of the mapping loop. */
  function Assign(values: seq<Value>, destination: seq<Property>, f: Field): seq<Value>
    requires |values| == |destination|
  {
    var j := FirstMatch(destination, f.property.name, f.property.typ);
    if j >= 0 && destination[j].writable then values[j := f.value] else values
  }

  /** The destination values after the loop has visited every field of `source`, in order. */
  function Copied(source: seq<Field>, destination: seq<Property>, initial: seq<Value>): (r: seq<Value>)
    requires |initial| == |destination|
    ensures |r| == |destination|
  {
    if source == [] then initial
    else Assign(Copied(source[..|source| - 1], destination, initial), destination, source[|source| - 1])
  }

  /** A destination property no source field targets keeps its initial value. */
  lemma {:induction false} CopiedKeepsUntargeted(source: seq<Field>, destination: seq<Property>, initial: seq<Value>, j: int)
    requires |initial| == |destination| && 0 <= j < |destination|
    requires forall i :: 0 <= i < |source| ==> !Targets(destination, source[i], j)
    ensures Copied(source, destination, initial)[j] == initial[j]
  {
    if source != [] {
      var front := source[..|source| - 1];
      assert forall i :: 0 <= i < |front| ==> front[i] == source[i];
      CopiedKeepsUntargeted(front, destination, initial, j);
    }
  }

  /** A destination property ends up with the value of the last source field that targets it. */
  lemma {:induction false} CopiedTakesLastMatch(source: seq<Field>, destination: seq<Property>, initial: seq<Value>, i: int, j: int)
    requires |initial| == |destination| && 0 <= i < |source|
    requires Targets(destination, source[i], j)
    requires forall k :: i < k < |source| ==> !Targets(destination, source[k], j)
    ensures Copied(source, destination, initial)[j] == source[i].value
  {
    var front := source[..|source| - 1];
    if i < |source| - 1 {
      assert forall k :: i < k < |front| ==> front[k] == source[k];
      CopiedTakesLastMatch(front, destination, initial, i, j);
    }
  }

  predicate DistinctNames(properties: seq<Property>)
  {
    forall a, b :: 0 <= a < b < |properties| ==> properties[a].name != properties[b].name
  }

  function PropertiesOf(fields: seq<Field>): (r: seq<Property>)
    ensures |r| == |fields|
    ensures forall i :: 0 <= i < |r| ==> r[i] == fields[i].property
  {
    seq(|fields|, i requires 0 <= i < |fields| => fields[i].property)
  }

  /**
   * For types whose property names are unique, a destination property receives the source
   * value exactly when a source property has the same name and type and the destination one
   * has a setter; every other destination property keeps its initial value.
   */
  lemma CopiedExactly(source: seq<Field>, destination: seq<Property>, initial: seq<Value>, j: int)
    requires |initial| == |destination| && 0 <= j < |destination|
    requires DistinctNames(PropertiesOf(source)) && DistinctNames(destination)
    ensures forall i :: 0 <= i < |source| && SameSignature(source[i].property, destination[j].name, destination[j].typ) && destination[j].writable
              ==> Copied(source, destination, initial)[j] == source[i].value
    ensures (!destination[j].writable || forall i :: 0 <= i < |source| ==> !SameSignature(source[i].property, destination[j].name, destination[j].typ))
              ==> Copied(source, destination, initial)[j] == initial[j]
  {
    var ps := PropertiesOf(source);
    forall i | 0 <= i < |source| && SameSignature(source[i].property, destination[j].name, destination[j].typ) && destination[j].writable
      ensures Copied(source, destination, initial)[j] == source[i].value
    {
      var m := FirstMatch(destination, source[i].property.name, source[i].property.typ);
      assert SameSignature(destination[j], source[i].property.name, source[i].property.typ);
      assert 0 <= m <= j;
      assert m == j;
      forall k | i < k < |source| ensures !Targets(destination, source[k], j) {
        assert ps[i].name != ps[k].name;
      }
      CopiedTakesLastMatch(source, destination, initial, i, j);
    }
    if !destination[j].writable || forall i :: 0 <= i < |source| ==> !SameSignature(source[i].property, destination[j].name, destination[j].typ) {
      CopiedKeepsUntargeted(source, destination, initial, j);
    }
  }

  /** An object: its type's properties and one current value per property. */
  class Record {
    const properties: seq<Property>
    var values: seq<Value>

    predicate Valid()
      reads this
    {
      |values| == |properties|
    }

    /** The object's properties with their current values, as `GetValue` reads them. */
    function Fields(): (r: seq<Field>)
      reads this
      requires Valid()
      ensures |r| == |properties|
      ensures forall i :: 0 <= i < |r| ==> r[i] == Field(properties[i], values[i])
    {
      var ps, vs := properties, values;
      seq(|ps|, i requires 0 <= i < |ps| => Field(ps[i], vs[i]))
    }

    /** `new T()`. */
    constructor (properties: seq<Property>)
      ensures Valid()
      ensures this.properties == properties && values == Defaults(properties)
    {
      this.properties := properties;
      values := Defaults(properties);
    }
  }

  /** `Mapper.Map<TSource, TDestination>(source)`: the values of the new destination object. */
  method Map(source: Record?, destination: seq<Property>) returns (r: Result<seq<Value>>)
    requires source != null ==> source.Valid()
    ensures source == null <==> r == Fail(ArgumentNull)
    ensures source != null ==> r == Ok(Copied(source.Fields(), destination, Defaults(destination)))
  {
    if source == null {
      return Fail(ArgumentNull);
    }
    var fields := source.Fields();
    var values := Defaults(destination);
    for i := 0 to |fields|
      invariant values == Copied(fields[..i], destination, Defaults(destination))
    {
      assert fields[..i + 1][..i] == fields[..i];
      values := Assign(values, destination, fields[i]);
    }
    assert fields[..|fields|] == fields;
    return Ok(values);
  }

  /**
   * `Mapper.MapUpdate(source, destination)`. The source's fields are read once, before any
   * write; when both arguments are the same object every write puts a property's own value back.
   */
  method MapUpdate(source: Record?, destination: Record?) returns (o: Outcome)
    requires source != null ==> source.Valid()
    requires destination != null ==> destination.Valid()
    modifies destination
    ensures source == null || destination == null ==> o == Failed(ArgumentNull)
    ensures destination != null && (source == null || o.Failed?) ==> unchanged(destination)
    ensures source != null && destination != null ==>
      o == Done && destination.Valid()
      && destination.values == Copied(old(source.Fields()), destination.properties, old(destination.values))
  {
    if source == null || destination == null {
      return Failed(ArgumentNull);
    }
    var fields := source.Fields();
    ghost var initial := destination.values;
    for i := 0 to |fields|
      invariant destination.Valid()
      invariant destination.values == Copied(fields[..i], destination.properties, initial)
    {
      assert fields[..i + 1][..i] == fields[..i];
      destination.values := Assign(destination.values, destination.properties, fields[i]);
    }
    assert fields[..|fields|] == fields;
    return Done;
  }
}
