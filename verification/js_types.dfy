/** The static schema of a home listing that completion walks: the
    `TypeStructure` record shape and the `HOME_TYPE_STRUCTURE` constant of
    src/components/jsTypes.ts.

    A `TypeStructure` object literal is modelled as an ordered association
    list from field name to field descriptor, in declaration order: the order
    `Object.entries` reports, since no key of the schema is an array index. */
module JsTypes {
  import opened Wrappers

  type Key = string

  /** The names leading from the root to a field. */
  type Path = seq<Key>

  /** One field descriptor. `kind` is the source's `type` and `enumValues`
      its `enum`; the other members keep their source names. An absent
      optional member is `None`. */
  datatype Field = Field(
    kind: string,
    isOptional: Option<bool>,
    isArray: Option<bool>,
    arrayType: Option<string>,
    properties: Option<TypeStructure>,
    enumValues: Option<seq<string>>)

  /** An object literal `{ key: field, ...rest }`. */
  datatype TypeStructure =
    | Nil
    | Cons(key: Key, field: Field, rest: TypeStructure)

  /** `{ type: kind }` */
  function Prim(kind: string): Field {
    Field(kind, None, None, None, None, None)
  }

  /** `{ type: 'array', arrayType: elem }` */
  function ArrayOf(elem: string): Field {
    Field("array", None, None, Some(elem), None, None)
  }

  /** `{ type: 'object', properties: children }` */
  function Object(children: TypeStructure): Field {
    Field("object", None, None, None, Some(children), None)
  }

  /** `HOME_TYPE_STRUCTURE`. Each nested object is a constant of its own,
      named after its key. */
  const HomeTypeStructure: TypeStructure :=
    Cons("bedrooms", Bedrooms,
    Cons("bathrooms", Bathrooms,
    Cons("area", Area,
    Cons("price", Price,
    Cons("location", Location,
    Cons("amenities", Amenities,
    Cons("yearBuilt", Prim("number"),
    Cons("utilities", Utilities,
    Nil))))))))

  const Bedrooms: Field := Object(
    Cons("count", Prim("number"),
    Cons("master", Master,
    Cons("additional", ArrayOf("Room"),
    Nil))))

  const Master: Field := Object(
    Cons("dimensions", Dimensions,
    Cons("windows", Prim("number"),
    Cons("features", ArrayOf("string"),
    Nil))))

  const Dimensions: Field := Object(
    Cons("width", Prim("number"),
    Cons("length", Prim("number"),
    Cons("height", Prim("number"),
    Nil))))

  const Bathrooms: Field := Object(
    Cons("full", Prim("number"),
    Cons("half", Prim("number"),
    Cons("features", ArrayOf("string"),
    Nil))))

  const Area: Field := Object(
    Cons("interior", Prim("number"),
    Cons("exterior", Prim("number"),
    Cons("units", Units,
    Nil))))

  /** `{ type: 'string', enum: ['sqft', 'sqm'] }` */
  const Units: Field := Field("string", None, None, None, None, Some(["sqft", "sqm"]))

  const Price: Field := Object(
    Cons("amount", Prim("number"),
    Cons("currency", Prim("string"),
    Cons("history", History,
    Nil))))

  /** Declared an array of objects, and also lists those objects' fields
      under `properties`. */
  const History: Field := Field("array", None, None, Some("object"), Some(
    Cons("date", Prim("string"),
    Cons("value", Prim("number"),
    Nil))), None)

  const Location: Field := Object(
    Cons("street", Prim("string"),
    Cons("city", Prim("string"),
    Cons("state", Prim("string"),
    Cons("zipCode", Prim("string"),
    Cons("coordinates", Coordinates,
    Nil))))))

  const Coordinates: Field := Object(
    Cons("latitude", Prim("number"),
    Cons("longitude", Prim("number"),
    Nil)))

  const Amenities: Field := Object(
    Cons("indoor", ArrayOf("string"),
    Cons("outdoor", ArrayOf("string"),
    Cons("community", ArrayOf("string"),
    Nil))))

  const Utilities: Field := Object(
    Cons("heating", Heating,
    Cons("cooling", Cooling,
    Cons("internet", Internet,
    Nil))))

  const Heating: Field := Object(
    Cons("type", Prim("string"),
    Cons("fuelSource", Prim("string"),
    Nil)))

  const Cooling: Field := Object(
    Cons("type", Prim("string"),
    Cons("zones", Prim("number"),
    Nil)))

  const Internet: Field := Object(
    Cons("available", Prim("boolean"),
    Cons("providers", ArrayOf("string"),
    Cons("maxSpeed", Prim("number"),
    Nil))))

  /** One `[key, value]` pair of `Object.entries`. */
  datatype Entry = Entry(key: Key, field: Field)

  /** `Object.entries(st)`: the pairs in declaration order. */
  function Entries(st: TypeStructure): seq<Entry> {
    match st
    case Nil => []
    case Cons(k, f, rest) => [Entry(k, f)] + Entries(rest)
  }

  /** `Object.keys(st)`. */
  function Keys(st: TypeStructure): (ks: seq<Key>)
    ensures |ks| == |Entries(st)|
    ensures forall i :: 0 <= i < |ks| ==> ks[i] == Entries(st)[i].key
  {
    match st
    case Nil => []
    case Cons(k, _, rest) => [k] + Keys(rest)
  }

  /** Whether some entry of the literal is named `key`. */
  predicate HasKey(st: TypeStructure, key: Key) {
    match st
    case Nil => false
    case Cons(k, _, rest) => k == key || HasKey(rest, key)
  }

  /** `HasKey` is membership in `Object.keys`. */
  lemma {:induction false} HasKeyIsKeyOf(st: TypeStructure, key: Key)
    ensures HasKey(st, key) <==> key in Keys(st)
  {
    match st
    case Nil =>
    case Cons(k, f, rest) =>
      HasKeyIsKeyOf(rest, key);
      assert Keys(st) == [k] + Keys(rest);
  }

  /** No key is declared twice in the literal itself. */
  predicate DistinctKeys(st: TypeStructure) {
    match st
    case Nil => true
    case Cons(k, _, rest) => !HasKey(rest, k) && DistinctKeys(rest)
  }

  /** No name occurs twice in `ks`. */
  predicate NoRepeats(ks: seq<Key>) {
    forall i, j :: 0 <= i < j < |ks| ==> ks[i] != ks[j]
  }

  /** A sequence with a head has no repeats exactly when the head does not
      recur and the tail has none. */
  lemma NoRepeatsCons(k: Key, tail: seq<Key>)
    ensures NoRepeats([k] + tail) <==> k !in tail && NoRepeats(tail)
  {
    var ks := [k] + tail;
    if k in tail {
      var j :| 0 <= j < |tail| && tail[j] == k;
      assert ks[0] == ks[j + 1];
    } else if !NoRepeats(tail) {
      var i, j :| 0 <= i < j < |tail| && tail[i] == tail[j];
      assert ks[i + 1] == ks[j + 1];
    } else {
      forall i, j | 0 <= i < j < |ks| ensures ks[i] != ks[j] {
        assert ks[j] == tail[j - 1];
        if i > 0 {
          assert ks[i] == tail[i - 1];
        }
      }
    }
  }

  /** `DistinctKeys` says what its name says: the keys are pairwise different. */
  lemma {:induction false} DistinctKeysPairwise(st: TypeStructure)
    ensures DistinctKeys(st) <==> NoRepeats(Keys(st))
  {
    match st
    case Nil =>
    case Cons(k, f, rest) =>
      DistinctKeysPairwise(rest);
      HasKeyIsKeyOf(rest, k);
      NoRepeatsCons(k, Keys(rest));
      assert Keys(st) == [k] + Keys(rest);
  }

  /** `st[key]`, restricted to the literal's own entries: the descriptor
      of the first entry named `key`. */
  function Lookup(st: TypeStructure, key: Key): Option<Field> {
    match st
    case Nil => None
    case Cons(k, f, rest) => if k == key then Some(f) else Lookup(rest, key)
  }

  /** Lookup finds nothing exactly when no entry has the name, and what it
      finds is declared under that name. */
  lemma {:induction false} LookupFindsEntry(st: TypeStructure, key: Key)
    ensures Lookup(st, key).None? <==> key !in Keys(st)
    ensures Lookup(st, key).Some? ==> Entry(key, Lookup(st, key).value) in Entries(st)
  {
    match st
    case Nil =>
    case Cons(k, f, rest) =>
      LookupFindsEntry(rest, key);
      assert Keys(st) == [k] + Keys(rest);
      assert Entries(st) == [Entry(k, f)] + Entries(rest);
  }

  /** With distinct keys, looking a declared key up finds the field declared
      under it: lookup by name is well defined. */
  lemma {:induction false} LookupDeclared(st: TypeStructure, i: nat)
    requires DistinctKeys(st)
    requires i < |Entries(st)|
    ensures Lookup(st, Entries(st)[i].key) == Some(Entries(st)[i].field)
  {
    match st
    case Cons(k, f, rest) =>
      if i > 0 {
        assert Entries(st)[i] == Entries(rest)[i - 1];
        assert Keys(rest)[i - 1] == Entries(rest)[i - 1].key;
        HasKeyIsKeyOf(rest, k);
        LookupDeclared(rest, i - 1);
      }
  }

  /** The field a non-empty path addresses: each name is looked up in the
      literal reached so far, and every name but the last must lead to a
      field with `properties`. */
  function At(st: TypeStructure, path: Path): Option<Field>
    decreases |path|
  {
    if |path| == 0 then None
    else match Lookup(st, path[0])
      case None => None
      case Some(f) =>
        if |path| == 1 then Some(f)
        else match f.properties
          case None => None
          case Some(children) => At(children, path[1..])
  }

  /** The shape every field of `HOME_TYPE_STRUCTURE` keeps: an array names
      its element type, an object lists its fields, a `properties` literal
      declares each key once, and the two optional flags are left unset. */
  predicate Regular(f: Field) {
    && (f.kind == "array" ==> f.arrayType.Some?)
    && (f.kind == "object" ==> f.properties.Some?)
    && (f.properties.Some? ==> DistinctKeys(f.properties.value))
    && f.isOptional.None?
    && f.isArray.None?
  }

  /** The kinds of field counted across the schema. */
  datatype FieldClass =
    | Irregular            // breaks `Regular`
    | ArrayWithProperties  // an array that also lists fields under `properties`
    | WithEnum             // carries an `enum`

  predicate InClass(c: FieldClass, f: Field) {
    match c
    case Irregular => !Regular(f)
    case ArrayWithProperties => f.kind == "array" && f.properties.Some?
    case WithEnum => f.enumValues.Some?
  }

  /** How many fields of the literal, at any depth, are in class `c`. */
  function Count(st: TypeStructure, c: FieldClass): nat {
    match st
    case Nil => 0
    case Cons(_, f, rest) => FieldCount(f, c) + Count(rest, c)
  }

  /** The field itself, if it is in class `c`, plus the fields nested in it. */
  function FieldCount(f: Field, c: FieldClass): nat {
    (if InClass(c, f) then 1 else 0)
    + match f.properties
      case Some(children) => Count(children, c)
      case None => 0
  }

  /** A field found by name is part of its literal's count. */
  lemma {:induction false} LookupIsCounted(st: TypeStructure, key: Key, c: FieldClass)
    requires Lookup(st, key).Some?
    ensures FieldCount(Lookup(st, key).value, c) <= Count(st, c)
  {
    match st
    case Cons(k, f, rest) =>
      if k != key {
        LookupIsCounted(rest, key, c);
      }
  }

  /** Fields found under two different names are counted separately. */
  lemma {:induction false} TwoLookupsAreCounted(st: TypeStructure, a: Key, b: Key, c: FieldClass)
    requires a != b
    requires Lookup(st, a).Some? && Lookup(st, b).Some?
    ensures FieldCount(Lookup(st, a).value, c) + FieldCount(Lookup(st, b).value, c) <= Count(st, c)
  {
    match st
    case Cons(k, f, rest) =>
      if k == a {
        LookupIsCounted(rest, b, c);
      } else if k == b {
        LookupIsCounted(rest, a, c);
      } else {
        TwoLookupsAreCounted(rest, a, b, c);
      }
  }

  /** Every field a path addresses is counted: a zero count means that no
      field anywhere in the literal is in the class. */
  lemma {:induction false} AtIsCounted(st: TypeStructure, c: FieldClass, path: Path)
    requires At(st, path).Some?
    requires InClass(c, At(st, path).value)
    ensures Count(st, c) >= 1
    decreases |path|
  {
    var f := Lookup(st, path[0]).value;
    LookupIsCounted(st, path[0], c);
    if |path| > 1 {
      AtIsCounted(f.properties.value, c, path[1..]);
    }
  }

  /** The field a path addresses counts inside the field its first name
      selects. */
  lemma {:induction false} AtCountedUnderFirst(st: TypeStructure, c: FieldClass, path: Path)
    requires At(st, path).Some?
    requires InClass(c, At(st, path).value)
    ensures FieldCount(Lookup(st, path[0]).value, c) >= 1
  {
    var f := Lookup(st, path[0]).value;
    if |path| > 1 {
      AtIsCounted(f.properties.value, c, path[1..]);
    }
  }

  /** Fields of the class under two different top-level names count twice. */
  lemma {:induction false} DifferentFirstNamesCountTwice(st: TypeStructure, c: FieldClass, p: Path, q: Path)
    requires At(st, p).Some? && InClass(c, At(st, p).value)
    requires At(st, q).Some? && InClass(c, At(st, q).value)
    requires p[0] != q[0]
    ensures Count(st, c) >= 2
  {
    AtCountedUnderFirst(st, c, p);
    AtCountedUnderFirst(st, c, q);
    TwoLookupsAreCounted(st, p[0], q[0], c);
  }

  /** A field of the class with another one of the class nested in it
      counts twice. */
  lemma {:induction false} NestedCountsTwice(st: TypeStructure, c: FieldClass, key: Key, rest: Path)
    requires At(st, [key]).Some? && InClass(c, At(st, [key]).value)
    requires At(st, [key] + rest).Some? && InClass(c, At(st, [key] + rest).value)
    requires |rest| > 0
    ensures Count(st, c) >= 2
  {
    var f := Lookup(st, key).value;
    assert ([key] + rest)[1..] == rest;
    AtIsCounted(f.properties.value, c, rest);
    LookupIsCounted(st, key, c);
  }

  /** Two different paths addressing fields of the class count twice: so
      when the count is one, a single path addresses a field of the class. */
  lemma {:induction false} CountOneIsUnique(st: TypeStructure, c: FieldClass, p: Path, q: Path)
    requires At(st, p).Some? && InClass(c, At(st, p).value)
    requires At(st, q).Some? && InClass(c, At(st, q).value)
    requires Count(st, c) <= 1
    ensures p == q
    decreases |p|
  {
    if p[0] != q[0] {
      DifferentFirstNamesCountTwice(st, c, p, q);
      assert false;
    }
    assert p == [p[0]] + p[1..] && q == [q[0]] + q[1..];
    if |p| == 1 && |q| > 1 {
      NestedCountsTwice(st, c, p[0], q[1..]);
      assert false;
    } else if |q| == 1 && |p| > 1 {
      NestedCountsTwice(st, c, q[0], p[1..]);
      assert false;
    } else if |p| > 1 {
      var f := Lookup(st, p[0]).value;
      LookupIsCounted(st, p[0], c);
      CountOneIsUnique(f.properties.value, c, p[1..], q[1..]);
    }
  }

  /** How many `properties` literals can be entered one inside the other,
      starting from `st`. */
  function Depth(st: TypeStructure): nat {
    match st
    case Nil => 0
    case Cons(_, f, rest) =>
      var here, later := FieldDepth(f), Depth(rest);
      if here < later then later else here
  }

  function FieldDepth(f: Field): nat {
    match f.properties
    case Some(children) => 1 + Depth(children)
    case None => 0
  }

  /** A field found by name is no deeper than its literal. */
  lemma {:induction false} LookupWithinDepth(st: TypeStructure, key: Key)
    requires Lookup(st, key).Some?
    ensures FieldDepth(Lookup(st, key).value) <= Depth(st)
  {
    match st
    case Cons(k, f, rest) =>
      if k != key {
        LookupWithinDepth(rest, key);
      }
  }
}
