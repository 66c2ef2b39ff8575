/** JSON Schema documents (Draft 2020-12, the fragment delegation works on) and what they accept. */
module Schemas {
  import opened JsonValues

  datatype JsonType = TNull | TBoolean | TInteger | TNumber | TString | TArray | TObject

  /** Keywords whose meaning does not depend on their neighbours. */
  datatype Assertion =
    | Type(only: JsonType)             // "type": "object"
    | Types(allowed: seq<JsonType>)    // "type": ["object", "null"]
    | Minimum(bound: real)
    | Maximum(bound: real)
    | ExclusiveMinimum(bound: real)
    | ExclusiveMaximum(bound: real)
    | MinLength(size: nat)
    | MaxLength(size: nat)
    | MinItems(size: nat)
    | MaxItems(size: nat)
    | Const(literal: Json)
    | AnyOf(options: seq<Schema>)
    | Not(excluded: Schema)

  datatype Literals = AnyValue | OneOf(values: seq<Json>)
  datatype Properties = NoProperties | Named(schemas: map<string, Schema>)
  datatype Names = NoNames | AllOf(names: seq<string>)
  datatype Sub = Absent | Given(schema: Schema)
  datatype Conjuncts = NoConjuncts | Every(schemas: seq<Schema>)

  datatype Schema =
    | Always(accepts: bool)
    | Doc(
        asserts: map<string, Assertion>,
        literals: Literals,
        properties: Properties,
        required: Names,
        items: Sub,
        additional: Sub,
        allOf: Conjuncts,
        notes: map<string, Json>) // description, title, default, examples
  {
    /** The property table, empty when the document has none. */
    function PropertyTable(): map<string, Schema>
      requires Doc?
    {
      if properties.Named? then properties.schemas else map[]
    }

    /** The schema every property outside the table has to meet. */
    function Additional(): Schema
      requires Doc?
    {
      if additional.Given? then additional.schema else Always(true)
    }

    /** The schema the value of property `name` has to meet. */
    function At(name: string): Schema
      requires Doc?
    {
      if name in PropertyTable() then PropertyTable()[name] else Additional()
    }

    function RequiredNames(): set<string>
      requires Doc?
    {
      set n | n in NamesIn(required)
    }
  }

  function NamesIn(required: Names): seq<string> {
    if required.AllOf? then required.names else []
  }

  const ANYTHING := Always(true)
  const EMPTY_DOC := Doc(map[], AnyValue, NoProperties, NoNames, Absent, Absent, NoConjuncts, map[])

  predicate HasType(t: JsonType, v: Json) {
    match t
    case TNull => v.Null?
    case TBoolean => v.Bool?
    case TInteger => v.Num? && v.value == v.value.Floor as real
    case TNumber => v.Num?
    case TString => v.Str?
    case TArray => v.Arr?
    case TObject => v.Obj?
  }

  /** Assertions about numbers, strings, arrays say nothing about values of other types. */
  predicate Holds(a: Assertion, v: Json)
    decreases a
  {
    match a
    case Type(t) => HasType(t, v)
    case Types(ts) => exists t | t in ts :: HasType(t, v)
    case Minimum(x) => v.Num? ==> x <= v.value
    case Maximum(x) => v.Num? ==> v.value <= x
    case ExclusiveMinimum(x) => v.Num? ==> x < v.value
    case ExclusiveMaximum(x) => v.Num? ==> v.value < x
    case MinLength(n) => v.Str? ==> n <= |v.text|
    case MaxLength(n) => v.Str? ==> |v.text| <= n
    case MinItems(n) => v.Arr? ==> n <= |v.elements|
    case MaxItems(n) => v.Arr? ==> |v.elements| <= n
    case Const(j) => v == j
    case AnyOf(options) => exists i | 0 <= i < |options| :: Valid(options[i], v)
    case Not(excluded) => !Valid(excluded, v)
  }

  predicate Valid(s: Schema, v: Json)
    decreases s
  {
    match s
    case Always(b) => b
    case Doc(asserts, literals, properties, required, items, additional, allOf, _) =>
      && (forall k | k in asserts :: Holds(asserts[k], v))
      && (literals.OneOf? ==> v in literals.values)
      && (v.Obj? ==>
            && (forall n | n in NamesIn(required) :: n in v.members)
            && (forall n | n in v.members ::
                  if properties.Named? && n in properties.schemas then Valid(properties.schemas[n], v.members[n])
                  else additional.Given? ==> Valid(additional.schema, v.members[n])))
      && (v.Arr? && items.Given? ==> forall i | 0 <= i < |v.elements| :: Valid(items.schema, v.elements[i]))
      && (allOf.Every? ==> forall i | 0 <= i < |allOf.schemas| :: Valid(allOf.schemas[i], v))
  }

  /** `r` accepts exactly the values both `s` and `p` accept. */
  ghost predicate Meet(r: Schema, s: Schema, p: Schema) {
    forall v :: Valid(r, v) <==> Valid(s, v) && Valid(p, v)
  }

  // ---- Python's == on schema documents -------------------------------------------------

  function CanonAssertion(a: Assertion): Assertion
    decreases a
  {
    match a
    case Const(j) => Const(Canon(j))
    case AnyOf(options) => AnyOf(seq(|options|, i requires 0 <= i < |options| => CanonSchema(options[i])))
    case Not(s) => Not(CanonSchema(s))
    case _ => a
  }

  function CanonSchema(s: Schema): Schema
    decreases s
  {
    match s
    case Always(_) => s
    case Doc(asserts, literals, properties, required, items, additional, allOf, notes) =>
      Doc(
        map k | k in asserts :: CanonAssertion(asserts[k]),
        if literals.OneOf? then OneOf(Canon(Arr(literals.values)).elements) else AnyValue,
        if properties.Named? then Named(map n | n in properties.schemas :: CanonSchema(properties.schemas[n])) else NoProperties,
        required,
        if items.Given? then Given(CanonSchema(items.schema)) else Absent,
        if additional.Given? then Given(CanonSchema(additional.schema)) else Absent,
        if allOf.Every? then Every(seq(|allOf.schemas|, i requires 0 <= i < |allOf.schemas| => CanonSchema(allOf.schemas[i])))
        else NoConjuncts,
        map k | k in notes :: Canon(notes[k]))
  }

  /** Python's `s == p` on two schema documents. */
  predicate SameDocument(s: Schema, p: Schema) {
    CanonSchema(s) == CanonSchema(p)
  }

  // ---- Annotations do not matter --------------------------------------------------------

  function BareAssertion(a: Assertion): Assertion
    decreases a
  {
    match a
    case AnyOf(options) => AnyOf(seq(|options|, i requires 0 <= i < |options| => Bare(options[i])))
    case Not(s) => Not(Bare(s))
    case _ => a
  }

  /** The document without its annotations, at every depth. */
  function Bare(s: Schema): Schema
    decreases s
  {
    match s
    case Always(_) => s
    case Doc(asserts, literals, properties, required, items, additional, allOf, _) =>
      Doc(
        map k | k in asserts :: BareAssertion(asserts[k]),
        literals,
        if properties.Named? then Named(map n | n in properties.schemas :: Bare(properties.schemas[n])) else NoProperties,
        required,
        if items.Given? then Given(Bare(items.schema)) else Absent,
        if additional.Given? then Given(Bare(additional.schema)) else Absent,
        if allOf.Every? then Every(seq(|allOf.schemas|, i requires 0 <= i < |allOf.schemas| => Bare(allOf.schemas[i])))
        else NoConjuncts,
        map[])
  }

  lemma {:induction false} BareHolds(a: Assertion, v: Json)
    ensures Holds(BareAssertion(a), v) <==> Holds(a, v)
    decreases a, 1
  {
    match a
    case AnyOf(options) =>
      forall i | 0 <= i < |options| ensures Valid(BareAssertion(a).options[i], v) <==> Valid(options[i], v) {
        BareValid(options[i], v);
      }
    case Not(s) => BareValid(s, v);
    case _ =>
  }

  /** A document and its bare form accept the same values. */
  lemma {:induction false} BareValid(s: Schema, v: Json)
    ensures Valid(Bare(s), v) <==> Valid(s, v)
    decreases s, 1
  {
    if s.Doc? {
      var b := Bare(s);
      forall k | k in s.asserts ensures Holds(b.asserts[k], v) <==> Holds(s.asserts[k], v) { BareHolds(s.asserts[k], v); }
      if s.allOf.Every? { BareConjuncts(s, v); }
      if v.Obj? {
        forall n | n in v.members && s.properties.Named? && n in s.properties.schemas
          ensures Valid(b.properties.schemas[n], v.members[n]) <==> Valid(s.properties.schemas[n], v.members[n])
        {
          BareValid(s.properties.schemas[n], v.members[n]);
        }
        forall n | n in v.members && s.additional.Given?
          ensures Valid(b.additional.schema, v.members[n]) <==> Valid(s.additional.schema, v.members[n])
        {
          BareValid(s.additional.schema, v.members[n]);
        }
      }
      if v.Arr? && s.items.Given? {
        forall i | 0 <= i < |v.elements| ensures Valid(b.items.schema, v.elements[i]) <==> Valid(s.items.schema, v.elements[i]) {
          BareValid(s.items.schema, v.elements[i]);
        }
      }
      assert b.asserts.Keys == s.asserts.Keys;
    }
  }

  lemma {:induction false} BareConjuncts(s: Schema, v: Json)
    requires s.Doc? && s.allOf.Every?
    ensures forall i | 0 <= i < |s.allOf.schemas| :: Valid(Bare(s).allOf.schemas[i], v) <==> Valid(s.allOf.schemas[i], v)
    decreases s, 0
  {
    forall i | 0 <= i < |s.allOf.schemas| ensures Valid(Bare(s).allOf.schemas[i], v) <==> Valid(s.allOf.schemas[i], v) {
      BareValid(s.allOf.schemas[i], v);
    }
  }

  /** Documents that differ in annotations only accept the same values. */
  lemma SameButNotes(s: Schema, p: Schema)
    requires Bare(s) == Bare(p)
    ensures Meet(s, s, p)
  {
    forall v ensures Valid(s, v) <==> Valid(p, v) {
      BareValid(s, v);
      BareValid(p, v);
    }
  }

  /** `{"enum": [literal]}` */
  function LiteralOnly(literal: Json): Schema {
    EMPTY_DOC.(literals := OneOf([literal]))
  }

  /** Python calls these two documents equal, and they accept different values. */
  lemma EqualDocumentsCanDiffer()
    ensures SameDocument(LiteralOnly(Num(1.0)), LiteralOnly(Bool(true)))
    ensures Valid(LiteralOnly(Num(1.0)), Num(1.0)) && !Valid(LiteralOnly(Bool(true)), Num(1.0))
  {
    assert Canon(Arr([Num(1.0)])).elements == [Num(1.0)] == Canon(Arr([Bool(true)])).elements;
  }
}
