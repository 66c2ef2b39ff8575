/** Intersection of a scoped tool schema with the schema its parent holds (child_policy.py). */
module SchemaMeet {
  import opened JsonValues
  import opened Schemas

  /** A schema, or the refusal "empty literal intersection". */
  datatype Outcome = Met(schema: Schema) | Refused

  // ---- When the code refuses --------------------------------------------------------------

  predicate Candidate(s: Schema, p: Schema, v: Json)
    requires s.Doc? && p.Doc?
  {
    var literals := if s.literals.OneOf? then s.literals else p.literals;
    literals.OneOf? && v in literals.values && Valid(s, v) && Valid(p, v)
  }

  /** The equality and boolean shortcuts do not apply. */
  predicate Compared(s: Schema, p: Schema) {
    s.Doc? && p.Doc? && !SameDocument(s, p)
  }

  /** One side lists literals and none of them satisfies both sides. */
  ghost predicate LiteralClash(s: Schema, p: Schema) {
    && Compared(s, p)
    && (s.literals.OneOf? || p.literals.OneOf?)
    && !exists v :: Candidate(s, p, v)
  }

  /** Both sides are merged field by field. */
  predicate Merged(s: Schema, p: Schema) {
    Compared(s, p) && s.literals.AnyValue? && p.literals.AnyValue?
  }

  /** Some pair of subschemas the code visits has a literal clash. */
  ghost predicate Clash(s: Schema, p: Schema)
    decreases p
  {
    || LiteralClash(s, p)
    || (Merged(s, p) &&
        (|| (p.properties.Named? && exists n | n in p.properties.schemas ::
               Clash(s.At(n), p.properties.schemas[n]))
         || (s.items.Given? && p.items.Given? && Clash(s.items.schema, p.items.schema))
         || (p.additional.Given? &&
             ((s.additional.Given? && Clash(s.additional.schema, p.additional.schema))
              || exists n | n in s.PropertyTable() && n !in p.PropertyTable() ::
                   Clash(s.PropertyTable()[n], p.additional.schema)))))
  }

  // ---- What the equality shortcuts can get wrong -------------------------------------------

  predicate AssertsHold(s: Schema, v: Json)
    requires s.Doc?
  {
    forall k | k in s.asserts :: Holds(s.asserts[k], v)
  }

  predicate AllValid(schemas: seq<Schema>, v: Json) {
    forall i | 0 <= i < |schemas| :: Valid(schemas[i], v)
  }

  predicate ConjunctsOk(c: Conjuncts, v: Json) {
    c.Every? ==> AllValid(c.schemas, v)
  }

  /** Python's `==` on two allOf lists. */
  predicate SameConjunctLists(s: Conjuncts, p: Conjuncts) {
    SameDocument(EMPTY_DOC.(allOf := s), EMPTY_DOC.(allOf := p))
  }

  /** Where Python calls two assertions under one keyword equal, `v` cannot tell them apart. */
  predicate AssertsAgree(s: Schema, p: Schema, v: Json)
    requires s.Doc? && p.Doc?
  {
    forall k | k in s.asserts && k in p.asserts && CanonAssertion(s.asserts[k]) == CanonAssertion(p.asserts[k]) ::
      Holds(s.asserts[k], v) ==> Holds(p.asserts[k], v)
  }

  predicate ConjunctsAgree(s: Conjuncts, p: Conjuncts, v: Json) {
    s.Every? && p.Every? && SameConjunctLists(s, p) && ConjunctsOk(s, v) ==> ConjunctsOk(p, v)
  }

  /**
    * Every comparison the intersection makes at a position of `v` that comes out equal keeps, of the two
    * equal pieces, the scoped one; on `v` that loses nothing of the parent's.
    */
  predicate AgreesOn(s: Schema, p: Schema, v: Json)
    decreases v
  {
    if SameDocument(s, p) then Valid(s, v) ==> Valid(p, v)
    else if Merged(s, p) then
      && AssertsAgree(s, p, v)
      && ConjunctsAgree(s.allOf, p.allOf, v)
      && (v.Obj? ==> forall n | n in v.members :: AgreesOn(s.At(n), p.At(n), v.members[n]))
      && (v.Arr? ==> forall i | 0 <= i < |v.elements| :: AgreesOn(SubSchema(s.items), SubSchema(p.items), v.elements[i]))
    else true
  }

  /**
    * The result accepts nothing the scoped side refuses, and on every value it is the meet exactly when
    * the comparisons made along that value were harmless.
    */
  ghost predicate Exact(r: Schema, s: Schema, p: Schema) {
    forall v ::
      && (Valid(r, v) ==> Valid(s, v))
      && (Valid(s, v) && Valid(p, v) <==> Valid(r, v) && AgreesOn(s, p, v))
  }

  // ---- Putting the fields of the result together ------------------------------------------

  /** `r`'s fields, each exact for the two originals' fields. */
  ghost predicate FieldwiseExact(r: Schema, s: Schema, p: Schema) {
    && r.Doc? && r.literals.AnyValue? && Merged(s, p)
    && (forall n :: Exact(r.At(n), s.At(n), p.At(n)))
    && r.RequiredNames() == s.RequiredNames() + p.RequiredNames()
    && Exact(SubSchema(r.items), SubSchema(s.items), SubSchema(p.items))
    && (forall v :: OwnExact(r, s, p, v))
  }

  /** The assertions and conjuncts of a document, without its properties and items. */
  predicate OwnHold(s: Schema, v: Json)
    requires s.Doc?
  {
    AssertsHold(s, v) && ConjunctsOk(s.allOf, v)
  }

  predicate OwnExact(r: Schema, s: Schema, p: Schema, v: Json)
    requires r.Doc? && s.Doc? && p.Doc?
  {
    && (OwnHold(r, v) ==> OwnHold(s, v))
    && (OwnHold(s, v) && OwnHold(p, v) <==>
        OwnHold(r, v) && AssertsAgree(s, p, v) && ConjunctsAgree(s.allOf, p.allOf, v))
  }

  /** `Valid` on the members and elements of a value. */
  predicate InsideValid(s: Schema, v: Json)
    requires s.Doc?
  {
    && (v.Obj? ==> s.RequiredNames() <= v.members.Keys)
    && (v.Obj? ==> forall n | n in v.members :: Valid(s.At(n), v.members[n]))
    && (v.Arr? ==> forall i | 0 <= i < |v.elements| :: Valid(SubSchema(s.items), v.elements[i]))
  }

  /** `Valid` on a document without a literal list, field by field. */
  lemma ValidByFields(s: Schema, v: Json)
    requires s.Doc? && s.literals.AnyValue?
    ensures Valid(s, v) <==> OwnHold(s, v) && InsideValid(s, v)
  {
  }

  predicate InsideAgrees(s: Schema, p: Schema, v: Json)
    requires s.Doc? && p.Doc?
  {
    && (v.Obj? ==> forall n | n in v.members :: AgreesOn(s.At(n), p.At(n), v.members[n]))
    && (v.Arr? ==> forall i | 0 <= i < |v.elements| :: AgreesOn(SubSchema(s.items), SubSchema(p.items), v.elements[i]))
  }

  lemma InsideExact(r: Schema, s: Schema, p: Schema, v: Json)
    requires FieldwiseExact(r, s, p)
    ensures InsideValid(r, v) ==> InsideValid(s, v)
    ensures InsideValid(s, v) && InsideValid(p, v) <==> InsideValid(r, v) && InsideAgrees(s, p, v)
  {
    hide Valid, AgreesOn;
    if v.Obj? {
      forall n | n in v.members
        ensures Valid(r.At(n), v.members[n]) ==> Valid(s.At(n), v.members[n])
        ensures Valid(s.At(n), v.members[n]) && Valid(p.At(n), v.members[n]) <==>
                Valid(r.At(n), v.members[n]) && AgreesOn(s.At(n), p.At(n), v.members[n])
      {
        assert Exact(r.At(n), s.At(n), p.At(n));
      }
    }
  }

  lemma FieldwiseIsExact(r: Schema, s: Schema, p: Schema)
    requires FieldwiseExact(r, s, p)
    ensures Exact(r, s, p)
  {
    forall v
      ensures Valid(r, v) ==> Valid(s, v)
      ensures Valid(s, v) && Valid(p, v) <==> Valid(r, v) && AgreesOn(s, p, v)
    {
      ValidByFields(r, v);
      ValidByFields(s, v);
      ValidByFields(p, v);
      assert OwnExact(r, s, p, v);
      InsideExact(r, s, p, v);
      assert AgreesOn(s, p, v) <==> AssertsAgree(s, p, v) && ConjunctsAgree(s.allOf, p.allOf, v) && InsideAgrees(s, p, v);
    }
  }

  // ---- The intersection ---------------------------------------------------------------------

  /**
    * child_policy.py `_schema_intersection`. The keys of the parent are visited in any order.
    */
  method Intersect(s: Schema, p: Schema) returns (r: Outcome)
    ensures r.Refused? <==> Clash(s, p)
    ensures r.Met? ==> Exact(r.schema, s, p)
    ensures SameDocument(s, p) ==> r == Met(s)
    ensures r.Met? && s.Doc? && p.Doc? ==> r.schema.Doc? && r.schema.notes == s.notes
    decreases p, 2
  {
    if SameDocument(s, p) { return Met(s); }
    if s == Always(false) || p == Always(false) { return Met(Always(false)); }
    if s == Always(true) { return Met(p); }
    if p == Always(true) { return Met(s); }
    if s.literals.OneOf? || p.literals.OneOf? {
      r := FilterLiterals(s, p);
      return;
    }
    r := MergeFields(s, p);
  }

  /** The branch for literal lists: keep the candidates both sides accept. */
  method FilterLiterals(s: Schema, p: Schema) returns (r: Outcome)
    requires Compared(s, p) && (s.literals.OneOf? || p.literals.OneOf?)
    ensures r.Refused? <==> LiteralClash(s, p)
    ensures r.Met? ==> Meet(r.schema, s, p) && Exact(r.schema, s, p)
    ensures r.Met? ==> r.schema.Doc? && r.schema.notes == s.notes
  {
    var candidates := if s.literals.OneOf? then s.literals.values else p.literals.values;
    var kept: seq<Json> := [];
    for i := 0 to |candidates|
      invariant forall v :: v in kept <==> v in candidates[..i] && Valid(s, v) && Valid(p, v)
    {
      if Valid(s, candidates[i]) && Valid(p, candidates[i]) {
        kept := kept + [candidates[i]];
      }
    }
    assert candidates[..|candidates|] == candidates;
    if kept == [] {
      forall v ensures !Candidate(s, p, v) { assert v !in kept; }
      return Refused;
    }
    assert Candidate(s, p, kept[0]) by { assert kept[0] in kept; }
    r := Met(s.(literals := OneOf(kept)));
    LiteralsMeet(s, p, kept);
  }

  lemma LiteralsMeet(s: Schema, p: Schema, kept: seq<Json>)
    requires Compared(s, p) && (s.literals.OneOf? || p.literals.OneOf?)
    requires forall v :: v in kept <==>
               v in (if s.literals.OneOf? then s.literals.values else p.literals.values) && Valid(s, v) && Valid(p, v)
    ensures Meet(s.(literals := OneOf(kept)), s, p)
    ensures Exact(s.(literals := OneOf(kept)), s, p)
  {
    var r := s.(literals := OneOf(kept));
    forall v ensures Valid(r, v) <==> Valid(s, v) && Valid(p, v) {
      assert Valid(r, v) ==> v in kept;
    }
  }

  datatype TableOutcome = Table(table: map<string, Schema>) | NoTable

  function Lookup(table: map<string, Schema>, rest: Schema, name: string): Schema {
    if name in table then table[name] else rest
  }

  function TableOf(properties: Properties): map<string, Schema> {
    if properties.Named? then properties.schemas else map[]
  }

  /** The loop over the parent's properties, on the two property tables and the scoped additionalProperties. */
  method MergeNamed(own: map<string, Schema>, rest: Schema, parent: Properties) returns (r: TableOutcome)
    ensures r.NoTable? <==> exists n | n in TableOf(parent) :: Clash(Lookup(own, rest, n), TableOf(parent)[n])
    ensures r.Table? ==> forall n | n !in TableOf(parent) ::
              (n in r.table <==> n in own) && (n in own ==> r.table[n] == own[n])
    ensures r.Table? ==> forall n | n in TableOf(parent) && n in r.table ::
              Exact(r.table[n], Lookup(own, rest, n), TableOf(parent)[n])
    ensures r.Table? ==> forall n | n in TableOf(parent) && n !in r.table :: n !in own && rest == Always(false)
    decreases parent
  {
    hide Exact, Clash, SameDocument;
    var theirs := TableOf(parent);
    var table, todo := own, theirs.Keys;
    while todo != {}
      invariant todo <= theirs.Keys
      invariant forall n | n in theirs && n !in todo :: !Clash(Lookup(own, rest, n), theirs[n])
      invariant forall n | n !in theirs || n in todo ::
                  (n in table <==> n in own) && (n in own ==> table[n] == own[n])
      invariant forall n | n in theirs && n !in todo && n in table :: Exact(table[n], Lookup(own, rest, n), theirs[n])
      invariant forall n | n in theirs && n !in todo && n !in table :: n !in own && rest == Always(false)
    {
      var name :| name in todo;
      if name in own || rest != Always(false) {
        var met := Intersect(Lookup(own, rest, name), theirs[name]);
        if met.Refused? { return NoTable; }
        table := table[name := met.schema];
      } else {
        NothingClashes(rest, theirs[name]);
      }
      todo := todo - {name};
    }
    r := Table(table);
  }

  lemma NothingClashes(s: Schema, p: Schema)
    requires s.Always? || p.Always?
    ensures !Clash(s, p)
  {
  }

  /** The parent's additionalProperties, applied to the properties only the scoped side names. */
  method RestrictScoped(own: map<string, Schema>, theirs: set<string>, additional: Sub, named: map<string, Schema>)
    returns (r: TableOutcome)
    requires forall n | n !in theirs :: (n in named <==> n in own) && (n in own ==> named[n] == own[n])
    ensures r.NoTable? <==> additional.Given? && exists n | n in own && n !in theirs :: Clash(own[n], additional.schema)
    ensures r.Table? ==> forall n | n in theirs ::
              (n in r.table <==> n in named) && (n in named ==> r.table[n] == named[n])
    ensures r.Table? ==> forall n | n !in theirs && n in r.table ::
              n in own && Exact(r.table[n], own[n], SubSchema(additional))
    ensures r.Table? ==> forall n | n !in theirs && n !in r.table && n in own :: SubSchema(additional) == Always(false)
    decreases additional
  {
    hide Exact, Clash, SameDocument;
    if !additional.Given? || additional.schema == Always(true) { // nothing to restrict
      forall n | n in own && n !in theirs ensures Exact(own[n], own[n], ANYTHING) && !Clash(own[n], ANYTHING) {
        AnythingIsExact(own[n]);
        NothingClashes(own[n], ANYTHING);
      }
      return Table(named);
    }
    if additional.schema == Always(false) {
      forall n | n in own && n !in theirs ensures !Clash(own[n], additional.schema) {
        NothingClashes(own[n], additional.schema);
      }
      return Table(map n | n in named && n in theirs :: named[n]);
    }
    r := RestrictEach(own, theirs, additional, named);
  }

  /** The loop of `RestrictScoped` for a parent additionalProperties that is a document. */
  method RestrictEach(own: map<string, Schema>, theirs: set<string>, additional: Sub, named: map<string, Schema>)
    returns (r: TableOutcome)
    requires additional.Given?
    requires forall n | n !in theirs :: (n in named <==> n in own) && (n in own ==> named[n] == own[n])
    ensures r.NoTable? <==> exists n | n in own && n !in theirs :: Clash(own[n], additional.schema)
    ensures r.Table? ==> r.table.Keys == named.Keys
    ensures r.Table? ==> forall n | n in theirs && n in named :: r.table[n] == named[n]
    ensures r.Table? ==> forall n | n !in theirs && n in r.table :: n in own && Exact(r.table[n], own[n], additional.schema)
    decreases additional, 0
  {
    hide Exact, Clash, SameDocument;
    var table, todo := named, named.Keys - theirs;
    while todo != {}
      invariant todo <= named.Keys - theirs
      invariant forall n | n in own && n !in theirs && n !in todo :: !Clash(own[n], additional.schema)
      invariant table.Keys == named.Keys
      invariant forall n | n in named && (n in theirs || n in todo) :: table[n] == named[n]
      invariant forall n | n !in theirs && n !in todo && n in table :: n in own && Exact(table[n], own[n], additional.schema)
    {
      var name :| name in todo;
      var met := Intersect(own[name], additional.schema);
      if met.Refused? { return NoTable; }
      table := table[name := met.schema];
      todo := todo - {name};
    }
    r := Table(table);
  }

  lemma AnythingIsExact(s: Schema)
    ensures Exact(s, s, ANYTHING)
  {
  }

  datatype SubOutcome = SubMet(sub: Sub) | NoSub

  function SubSchema(sub: Sub): Schema {
    if sub.Given? then sub.schema else ANYTHING
  }

  /** `items` and `additionalProperties`: intersect when both sides have one, else take the one there is. */
  method MergeSub(a: Sub, b: Sub) returns (r: SubOutcome)
    ensures r.NoSub? <==> a.Given? && b.Given? && Clash(a.schema, b.schema)
    ensures r.SubMet? ==> Exact(SubSchema(r.sub), SubSchema(a), SubSchema(b))
    decreases b
  {
    if b.Absent? { return SubMet(a); }
    if a.Absent? { return SubMet(b); }
    if SameDocument(a.schema, b.schema) { return SubMet(a); }
    var met := Intersect(a.schema, b.schema);
    if met.Refused? { return NoSub; }
    return SubMet(Given(met.schema));
  }

  /** `{name: assertion}` */
  function Alone(name: string, a: Assertion): Schema {
    EMPTY_DOC.(asserts := map[name := a])
  }

  lemma AloneHolds(name: string, a: Assertion)
    ensures forall v :: Valid(Alone(name, a), v) <==> Holds(a, v)
  {
    forall v ensures Valid(Alone(name, a), v) <==> Holds(a, v) {
      assert Alone(name, a).asserts[name] == a;
    }
  }

  /** What the keyword tables of the two sides become: the scoped table, completed, and what stands apart. */
  ghost predicate AssertsMerged(s: Schema, p: Schema, asserts: map<string, Assertion>, extra: seq<Schema>)
    requires s.Doc? && p.Doc?
  {
    && (forall k | k in s.asserts :: k in asserts && asserts[k] == s.asserts[k])
    && (forall k | k in asserts && k !in s.asserts :: k in p.asserts && asserts[k] == p.asserts[k])
    && (forall k | k in p.asserts :: Kept(s, p, asserts, extra, k))
    && (forall e | e in extra :: FromParent(p.asserts, e))
  }

  /** The parent's assertion `k` is in the result, or equal for Python to the scoped one. */
  predicate Kept(s: Schema, p: Schema, asserts: map<string, Assertion>, extra: seq<Schema>, k: string)
    requires s.Doc? && p.Doc? && k in p.asserts
  {
    || (k in asserts && asserts[k] == p.asserts[k])
    || Alone(k, p.asserts[k]) in extra
    || (k in s.asserts && CanonAssertion(s.asserts[k]) == CanonAssertion(p.asserts[k]))
  }

  /** One of the parent's assertions that Python tells from the scoped one, standing alone. */
  predicate FromParent(asserts: map<string, Assertion>, e: Schema) {
    exists k | k in asserts :: e == Alone(k, asserts[k])
  }

  ghost predicate AssertsExact(s: Schema, p: Schema, asserts: map<string, Assertion>, extra: seq<Schema>, v: Json)
    requires s.Doc? && p.Doc?
  {
    var kept := (forall k | k in asserts :: Holds(asserts[k], v)) && AllValid(extra, v);
    && (kept ==> AssertsHold(s, v))
    && (AssertsHold(s, v) && AssertsHold(p, v) <==> kept && AssertsAgree(s, p, v))
  }

  /** Assertions both sides make differently are kept aside, to be conjoined through allOf. */
  method MergeAsserts(s: Schema, p: Schema) returns (asserts: map<string, Assertion>, extra: seq<Schema>)
    requires Merged(s, p)
    ensures forall v :: AssertsExact(s, p, asserts, extra, v)
  {
    asserts, extra := s.asserts, [];
    var todo := p.asserts.Keys;
    while todo != {}
      invariant todo <= p.asserts.Keys
      invariant forall k | k in s.asserts :: k in asserts && asserts[k] == s.asserts[k]
      invariant forall k | k in asserts && k !in s.asserts :: k in p.asserts && k !in todo && asserts[k] == p.asserts[k]
      invariant forall k | k in p.asserts && k !in todo :: Kept(s, p, asserts, extra, k)
      invariant forall e | e in extra :: FromParent(p.asserts, e)
    {
      var k :| k in todo;
      if k !in asserts {
        asserts := asserts[k := p.asserts[k]];
      } else if CanonAssertion(asserts[k]) != CanonAssertion(p.asserts[k]) {
        extra := extra + [Alone(k, p.asserts[k])];
      }
      todo := todo - {k};
    }
    forall v ensures AssertsExact(s, p, asserts, extra, v) {
      MergedAssertsMean(s, p, asserts, extra, v);
    }
  }

  lemma MergedAssertsMean(s: Schema, p: Schema, asserts: map<string, Assertion>, extra: seq<Schema>, v: Json)
    requires s.Doc? && p.Doc? && AssertsMerged(s, p, asserts, extra)
    ensures AssertsExact(s, p, asserts, extra, v)
  {
    hide Valid, Holds, CanonAssertion, CanonSchema;
    if (forall k | k in asserts :: Holds(asserts[k], v)) && AllValid(extra, v) {
      forall k | k in s.asserts ensures Holds(s.asserts[k], v) { assert k in asserts; }
      if AssertsAgree(s, p, v) {
        forall k | k in p.asserts ensures Holds(p.asserts[k], v) {
          assert Kept(s, p, asserts, extra, k);
          AloneHolds(k, p.asserts[k]);
          if Alone(k, p.asserts[k]) in extra {
            var i :| 0 <= i < |extra| && extra[i] == Alone(k, p.asserts[k]);
            assert Valid(extra[i], v);
          }
        }
      }
    }
    if AssertsHold(s, v) && AssertsHold(p, v) {
      forall i | 0 <= i < |extra| ensures Valid(extra[i], v) {
        assert FromParent(p.asserts, extra[i]);
        var k :| k in p.asserts && extra[i] == Alone(k, p.asserts[k]);
        AloneHolds(k, p.asserts[k]);
      }
    }
  }

  /** `allOf` of the result: the scoped list, or the parent's, extended by what could not be merged. */
  function MergeConjuncts(s: Conjuncts, p: Conjuncts, extra: seq<Schema>): Conjuncts {
    var base := if s.NoConjuncts? then p else s;
    var conflict := s.Every? && p.Every? && !SameConjunctLists(s, p);
    var all := extra + if conflict then [EMPTY_DOC.(allOf := p)] else [];
    if all == [] then base
    else Every((if base.Every? then base.schemas else []) + all)
  }

  /** The extended list says what the extras and both original lists say, as far as Python tells the lists apart. */
  lemma ConjunctsMean(s: Conjuncts, p: Conjuncts, extra: seq<Schema>, v: Json)
    ensures ConjunctsOk(MergeConjuncts(s, p, extra), v) ==> AllValid(extra, v) && ConjunctsOk(s, v)
    ensures AllValid(extra, v) && ConjunctsOk(s, v) && ConjunctsOk(p, v) <==>
              ConjunctsOk(MergeConjuncts(s, p, extra), v) && ConjunctsAgree(s, p, v)
  {
    hide Valid, SameDocument;
    var conflict := s.Every? && p.Every? && !SameConjunctLists(s, p);
    var rest := EMPTY_DOC.(allOf := p);
    var added := if conflict then [rest] else [];
    var base := if s.NoConjuncts? then p else s;
    var first := if base.Every? then base.schemas else [];
    AllValidConcat(extra, added, v);
    AllValidConcat(first, extra + added, v);
    ConjunctsAlone(p, v);
    assert AllValid(added, v) <==> (conflict ==> ConjunctsOk(p, v)) by {
      if conflict { assert added[0] == rest; }
    }
    assert extra + [] == extra;
  }

  lemma ConjunctsAlone(p: Conjuncts, v: Json)
    ensures Valid(EMPTY_DOC.(allOf := p), v) <==> ConjunctsOk(p, v)
  {
    ValidByFields(EMPTY_DOC.(allOf := p), v);
  }

  lemma AllValidConcat(a: seq<Schema>, b: seq<Schema>, v: Json)
    ensures AllValid(a + b, v) <==> AllValid(a, v) && AllValid(b, v)
  {
    hide Valid;
    if AllValid(a + b, v) {
      forall i | 0 <= i < |a| ensures Valid(a[i], v) { assert (a + b)[i] == a[i]; }
      forall i | 0 <= i < |b| ensures Valid(b[i], v) { assert (a + b)[|a| + i] == b[i]; }
    }
  }

  /** What the two loops over properties promise about the merged table. */
  ghost predicate TablesMerged(s: Schema, p: Schema, named: map<string, Schema>, table: map<string, Schema>)
    requires s.Doc? && p.Doc?
  {
    && (forall n | n in p.PropertyTable() && n in named :: Exact(named[n], s.At(n), p.At(n)))
    && (forall n | n in p.PropertyTable() && n !in named :: s.At(n) == s.Additional() == Always(false))
    && (forall n | n in p.PropertyTable() :: (n in table <==> n in named) && (n in table ==> table[n] == named[n]))
    && (forall n | n !in p.PropertyTable() && n in table :: n in s.PropertyTable() && Exact(table[n], s.At(n), p.At(n)))
    && (forall n | n !in p.PropertyTable() && n !in table && n in s.PropertyTable() :: p.Additional() == Always(false))
  }

  /** Property by property, the merged tables are exact. */
  lemma TablesExact(s: Schema, p: Schema, named: map<string, Schema>, table: map<string, Schema>, additional: Schema, n: string)
    requires s.Doc? && p.Doc? && TablesMerged(s, p, named, table)
    requires Exact(additional, s.Additional(), p.Additional())
    ensures Exact(Lookup(table, additional, n), s.At(n), p.At(n))
  {
    if n !in table && (n in p.PropertyTable() || n in s.PropertyTable()) {
      FalseIsExact(additional, s.Additional(), p.Additional(), s.At(n), p.At(n));
    }
  }

  /** A name that either side excludes: the additional schema of the result accepts nothing for it either. */
  lemma FalseIsExact(r: Schema, s: Schema, p: Schema, a: Schema, b: Schema)
    requires Exact(r, s, p)
    requires (a == s == Always(false)) || (b == p == Always(false))
    ensures Exact(r, a, b)
  {
    forall v ensures !Valid(r, v) {
      if s != Always(false) { assert AgreesOn(s, p, v); }
    }
  }

  /** Python's `<` on texts. */
  predicate Before(a: string, b: string) {
    b != "" && (a == "" || a[0] < b[0] || (a[0] == b[0] && Before(a[1..], b[1..])))
  }

  lemma {:induction false} BeforeOrAfter(a: string, b: string)
    ensures a == b || Before(a, b) || Before(b, a)
  {
    if a != "" && b != "" && a[0] == b[0] {
      BeforeOrAfter(a[1..], b[1..]);
      assert a == [a[0]] + a[1..] && b == [b[0]] + b[1..];
    }
  }

  predicate Ascending(names: seq<string>) {
    forall k | 0 < k < |names| :: Before(names[k - 1], names[k])
  }

  function Inserted(name: string, names: seq<string>): (r: seq<string>)
    requires Ascending(names)
    ensures Ascending(r) && r != [] && (r[0] == name || (names != [] && r[0] == names[0]))
    ensures forall n :: n in r <==> n == name || n in names
  {
    if names == [] then [name]
    else
      BeforeOrAfter(name, names[0]);
      if name == names[0] then names
      else if Before(name, names[0]) then [name] + names
      else [names[0]] + Inserted(name, names[1..])
  }

  /** `sorted(set(names))`: the same names, each once, in ascending order. */
  function Sorted(names: seq<string>): (r: seq<string>)
    ensures Ascending(r) && forall n :: n in r <==> n in names
  {
    if names == [] then [] else Inserted(names[0], Sorted(names[1..]))
  }

  /** The scoped list stays where the parent requires nothing; otherwise both lists become one sorted list. */
  function MergeRequired(s: Names, p: Names): (r: Names)
    ensures forall n :: n in NamesIn(r) <==> n in NamesIn(s) || n in NamesIn(p)
    ensures p.AllOf? ==> Ascending(NamesIn(r))
  {
    if p.NoNames? then s else AllOf(Sorted(NamesIn(s) + p.names))
  }

  function Assemble(s: Schema, p: Schema, asserts: map<string, Assertion>, table: map<string, Schema>,
                    items: Sub, additional: Sub, allOf: Conjuncts): Schema
    requires s.Doc? && p.Doc?
  {
    s.(asserts := asserts,
       properties := if s.properties.NoProperties? && p.properties.NoProperties? then NoProperties else Named(table),
       required := MergeRequired(s.required, p.required),
       items := items,
       additional := additional,
       allOf := allOf)
  }

  /**
    * The branch that merges field by field: the property tables, then the conflicting assertions,
    * then what the parent's additionalProperties says about names only the scoped side mentions.
    */
  method MergeFields(s: Schema, p: Schema) returns (r: Outcome)
    requires Merged(s, p)
    ensures r.Refused? <==> Clash(s, p)
    ensures r.Met? ==> Exact(r.schema, s, p)
    ensures r.Met? ==> r.schema.Doc? && r.schema.notes == s.notes
    decreases p, 1
  {
    hide Exact, Clash, SameDocument, AssertsExact, TablesMerged;
    MergedClash(s, p);
    var named := MergeNamed(s.PropertyTable(), s.Additional(), p.properties);
    if named.NoTable? { return Refused; }
    var items := MergeSub(s.items, p.items);
    if items.NoSub? { return Refused; }
    var additional := MergeSub(s.additional, p.additional);
    if additional.NoSub? { return Refused; }
    var table := RestrictScoped(s.PropertyTable(), p.PropertyTable().Keys, p.additional, named.table);
    if table.NoTable? { return Refused; }
    var asserts, extra := MergeAsserts(s, p);
    r := Met(Assemble(s, p, asserts, table.table, items.sub, additional.sub, MergeConjuncts(s.allOf, p.allOf, extra)));
    TablesAreMerged(s, p, named.table, table.table);
    AssembledExact(s, p, asserts, extra, named.table, table.table, items.sub, additional.sub);
  }

  lemma TablesAreMerged(s: Schema, p: Schema, named: map<string, Schema>, table: map<string, Schema>)
    requires s.Doc? && p.Doc?
    requires forall n | n in p.PropertyTable() && n in named ::
               Exact(named[n], Lookup(s.PropertyTable(), s.Additional(), n), p.PropertyTable()[n])
    requires forall n | n in p.PropertyTable() && n !in named :: n !in s.PropertyTable() && s.Additional() == Always(false)
    requires forall n | n in p.PropertyTable() :: (n in table <==> n in named) && (n in named ==> table[n] == named[n])
    requires forall n | n !in p.PropertyTable() && n in table ::
               n in s.PropertyTable() && Exact(table[n], s.PropertyTable()[n], p.Additional())
    requires forall n | n !in p.PropertyTable() && n !in table && n in s.PropertyTable() :: p.Additional() == Always(false)
    ensures TablesMerged(s, p, named, table)
  {
    hide Exact;
  }

  lemma MergedClash(s: Schema, p: Schema)
    requires Merged(s, p)
    ensures Clash(s, p) <==>
              || (exists n | n in TableOf(p.properties) :: Clash(Lookup(s.PropertyTable(), s.Additional(), n), TableOf(p.properties)[n]))
              || (s.items.Given? && p.items.Given? && Clash(s.items.schema, p.items.schema))
              || (s.additional.Given? && p.additional.Given? && Clash(s.additional.schema, p.additional.schema))
              || (p.additional.Given? && exists n | n in s.PropertyTable() && n !in p.PropertyTable() ::
                    Clash(s.PropertyTable()[n], p.additional.schema))
  {
    if p.properties.Named? {
      forall n | n in p.properties.schemas ensures s.At(n) == Lookup(s.PropertyTable(), s.Additional(), n) { }
    }
  }

  lemma AssembledExact(s: Schema, p: Schema, asserts: map<string, Assertion>, extra: seq<Schema>,
                       named: map<string, Schema>, table: map<string, Schema>, items: Sub, additional: Sub)
    requires Merged(s, p)
    requires TablesMerged(s, p, named, table)
    requires Exact(SubSchema(additional), SubSchema(s.additional), SubSchema(p.additional))
    requires Exact(SubSchema(items), SubSchema(s.items), SubSchema(p.items))
    requires forall v :: AssertsExact(s, p, asserts, extra, v)
    ensures Exact(Assemble(s, p, asserts, table, items, additional, MergeConjuncts(s.allOf, p.allOf, extra)), s, p)
  {
    hide Exact, AssertsExact, AssertsAgree, SameDocument, Valid, AgreesOn;
    var allOf := MergeConjuncts(s.allOf, p.allOf, extra);
    var r := Assemble(s, p, asserts, table, items, additional, allOf);
    forall v ensures OwnExact(r, s, p, v) {
      OwnIsExact(r, s, p, extra, v);
    }
    forall n ensures Exact(r.At(n), s.At(n), p.At(n)) {
      NoTableNeeded(s, p, named, table);
      TablesExact(s, p, named, table, SubSchema(additional), n);
      assert r.At(n) == Lookup(table, SubSchema(additional), n);
    }
    FieldwiseIsExact(r, s, p);
  }

  /** With no property table on either side there is nothing in the merged one. */
  lemma NoTableNeeded(s: Schema, p: Schema, named: map<string, Schema>, table: map<string, Schema>)
    requires s.Doc? && p.Doc? && TablesMerged(s, p, named, table)
    ensures s.properties.NoProperties? && p.properties.NoProperties? ==> table == map[]
  {
    hide Exact;
    if s.properties.NoProperties? && p.properties.NoProperties? {
      forall n ensures n !in table { }
    }
  }

  lemma OwnIsExact(r: Schema, s: Schema, p: Schema, extra: seq<Schema>, v: Json)
    requires r.Doc? && s.Doc? && p.Doc?
    requires AssertsExact(s, p, r.asserts, extra, v)
    requires r.allOf == MergeConjuncts(s.allOf, p.allOf, extra)
    ensures OwnExact(r, s, p, v)
  {
    hide AssertsAgree, ConjunctsAgree, Valid, ConjunctsOk, AllValid, MergeConjuncts;
    ConjunctsMean(s.allOf, p.allOf, extra, v);
  }

  // ---- When the result is the meet ----------------------------------------------------------

  /** No accepted value runs into a comparison that lost something of the parent's. */
  ghost predicate NothingLost(r: Schema, s: Schema, p: Schema) {
    forall v :: Valid(r, v) ==> AgreesOn(s, p, v)
  }

  /** The result is the meet exactly when nothing was lost. */
  lemma MeetExactly(r: Schema, s: Schema, p: Schema)
    requires Exact(r, s, p)
    ensures Meet(r, s, p) <==> NothingLost(r, s, p)
  {
    if Meet(r, s, p) {
      forall v ensures Valid(r, v) ==> AgreesOn(s, p, v) { assert Valid(r, v) ==> Valid(s, v) && Valid(p, v); }
    }
    if NothingLost(r, s, p) {
      forall v ensures Valid(r, v) <==> Valid(s, v) && Valid(p, v) { assert Valid(r, v) ==> AgreesOn(s, p, v); }
    }
  }

  /** Equal for Python, and the same document up to annotations: what a caller can check of a compared pair. */
  predicate Plain(s: Schema, p: Schema) {
    SameDocument(s, p) ==> Bare(s) == Bare(p)
  }

  /** Every pair the intersection compares is told apart by Python or is the same but for annotations. */
  predicate EqualityAgrees(s: Schema, p: Schema)
    decreases p
  {
    && Plain(s, p)
    && (Merged(s, p) ==>
        && (forall k | k in s.asserts && k in p.asserts && CanonAssertion(s.asserts[k]) == CanonAssertion(p.asserts[k]) ::
              BareAssertion(s.asserts[k]) == BareAssertion(p.asserts[k]))
        && (s.allOf.Every? && p.allOf.Every? ==> Plain(EMPTY_DOC.(allOf := s.allOf), EMPTY_DOC.(allOf := p.allOf)))
        && (p.properties.Named? ==> forall n | n in p.properties.schemas :: EqualityAgrees(s.At(n), p.properties.schemas[n]))
        && (p.items.Given? ==> EqualityAgrees(SubSchema(s.items), p.items.schema))
        && (p.additional.Given? ==>
              && EqualityAgrees(s.Additional(), p.additional.schema)
              && forall n | n in s.PropertyTable() && n !in p.PropertyTable() ::
                   EqualityAgrees(s.PropertyTable()[n], p.additional.schema)))
  }

  lemma {:induction false} EqualityAgreesOnAll(s: Schema, p: Schema, v: Json)
    requires EqualityAgrees(s, p)
    ensures AgreesOn(s, p, v)
    decreases v
  {
    if SameDocument(s, p) {
      SameButNotes(s, p);
    } else if Merged(s, p) {
      PiecesAgree(s, p, v);
      if v.Obj? {
        forall n | n in v.members ensures AgreesOn(s.At(n), p.At(n), v.members[n]) {
          if n in p.PropertyTable() || p.additional.Given? { EqualityAgreesOnAll(s.At(n), p.At(n), v.members[n]); }
        }
      } else if v.Arr? && p.items.Given? {
        forall i | 0 <= i < |v.elements| ensures AgreesOn(SubSchema(s.items), SubSchema(p.items), v.elements[i]) {
          EqualityAgreesOnAll(SubSchema(s.items), p.items.schema, v.elements[i]);
        }
      }
    }
  }

  lemma PiecesAgree(s: Schema, p: Schema, v: Json)
    requires EqualityAgrees(s, p) && Merged(s, p)
    ensures AssertsAgree(s, p, v) && ConjunctsAgree(s.allOf, p.allOf, v)
  {
    forall k | k in s.asserts && k in p.asserts && CanonAssertion(s.asserts[k]) == CanonAssertion(p.asserts[k])
      ensures Holds(s.asserts[k], v) ==> Holds(p.asserts[k], v)
    {
      BareHolds(s.asserts[k], v);
      BareHolds(p.asserts[k], v);
    }
    if s.allOf.Every? && p.allOf.Every? && SameConjunctLists(s.allOf, p.allOf) {
      SameButNotes(EMPTY_DOC.(allOf := s.allOf), EMPTY_DOC.(allOf := p.allOf));
      ConjunctsAlone(s.allOf, v);
      ConjunctsAlone(p.allOf, v);
    }
  }

  /** The guard a caller can evaluate before the call makes the result the meet. */
  lemma GuardedIsMeet(r: Schema, s: Schema, p: Schema)
    requires Exact(r, s, p) && EqualityAgrees(s, p)
    ensures Meet(r, s, p)
  {
    forall v ensures AgreesOn(s, p, v) { EqualityAgreesOnAll(s, p, v); }
  }

  /** So intersecting a document with itself, whatever its literals and annotations, is harmless. */
  lemma ItselfAgrees(s: Schema)
    ensures EqualityAgrees(s, s)
  {
  }

  // ---- What a refusal means -------------------------------------------------------------------

  /** A refusal at the top is final: nothing satisfies both schemas. */
  lemma LiteralClashIsEmpty(s: Schema, p: Schema)
    requires LiteralClash(s, p)
    ensures !exists v :: Valid(s, v) && Valid(p, v)
  {
    if v :| Valid(s, v) && Valid(p, v) {
      assert Candidate(s, p, v);
    }
  }

  /** The code intersects what the two sides say about the name `n`. */
  predicate ComparedAt(s: Schema, p: Schema, n: string)
    requires s.Doc? && p.Doc?
  {
    n in p.PropertyTable() || (p.additional.Given? && (n in s.PropertyTable() || s.additional.Given?))
  }

  /** `v` has a component at a position where the two schemas' literals clash. */
  ghost predicate Reaches(s: Schema, p: Schema, v: Json)
    decreases p
  {
    || LiteralClash(s, p)
    || (Merged(s, p) && v.Obj? && exists n | n in v.members ::
          ComparedAt(s, p, n) && Reaches(s.At(n), p.At(n), v.members[n]))
    || (Merged(s, p) && v.Arr? && s.items.Given? && p.items.Given?
        && exists i | 0 <= i < |v.elements| :: Reaches(s.items.schema, p.items.schema, v.elements[i]))
  }

  /** A refusal further down: no value that reaches the clash satisfies both schemas. */
  lemma {:induction false} ReachedClashRejects(s: Schema, p: Schema, v: Json)
    requires Reaches(s, p, v)
    ensures !(Valid(s, v) && Valid(p, v))
    decreases p
  {
    if LiteralClash(s, p) {
      LiteralClashIsEmpty(s, p);
    } else if v.Obj? {
      var n :| n in v.members && ComparedAt(s, p, n) && Reaches(s.At(n), p.At(n), v.members[n]);
      ReachedClashRejects(s.At(n), p.At(n), v.members[n]);
      ValidByFields(s, v);
      ValidByFields(p, v);
    } else {
      var i :| 0 <= i < |v.elements| && Reaches(s.items.schema, p.items.schema, v.elements[i]);
      ReachedClashRejects(s.items.schema, p.items.schema, v.elements[i]);
    }
  }

  /** The code refuses exactly when some value would reach a clash. */
  lemma {:induction false} RefusedExactlyWhenReachable(s: Schema, p: Schema)
    ensures Clash(s, p) <==> exists v :: Reaches(s, p, v)
    decreases p
  {
    if Clash(s, p) {
      var v := ClashWitness(s, p);
      assert Reaches(s, p, v);
    } else if exists v :: Reaches(s, p, v) {
      var v :| Reaches(s, p, v);
      ReachingMeansClash(s, p, v);
    }
  }

  lemma {:induction false} ReachingMeansClash(s: Schema, p: Schema, v: Json)
    requires Reaches(s, p, v)
    ensures Clash(s, p)
    decreases p
  {
    if LiteralClash(s, p) {
    } else if v.Obj? {
      var n :| n in v.members && ComparedAt(s, p, n) && Reaches(s.At(n), p.At(n), v.members[n]);
      ReachingMeansClash(s.At(n), p.At(n), v.members[n]);
    } else {
      var i :| 0 <= i < |v.elements| && Reaches(s.items.schema, p.items.schema, v.elements[i]);
      ReachingMeansClash(s.items.schema, p.items.schema, v.elements[i]);
    }
  }

  lemma {:induction false} ClashWitness(s: Schema, p: Schema) returns (v: Json)
    requires Clash(s, p)
    ensures Reaches(s, p, v)
    decreases p
  {
    if LiteralClash(s, p) {
      v := Null;
    } else if n :| n in p.PropertyTable() && Clash(s.At(n), p.PropertyTable()[n]) {
      var w := ClashWitness(s.At(n), p.PropertyTable()[n]);
      v := Obj(map[n := w]);
      assert n in v.members;
    } else if s.items.Given? && p.items.Given? && Clash(s.items.schema, p.items.schema) {
      var w := ClashWitness(s.items.schema, p.items.schema);
      v := Arr([w]);
      assert v.elements[0] == w;
    } else if n :| n in s.PropertyTable() && n !in p.PropertyTable() && Clash(s.PropertyTable()[n], p.additional.schema) {
      var w := ClashWitness(s.PropertyTable()[n], p.additional.schema);
      v := Obj(map[n := w]);
      assert n in v.members;
    } else {
      var w := ClashWitness(s.additional.schema, p.additional.schema);
      var n := UnusedName(s.PropertyTable().Keys + p.PropertyTable().Keys);
      v := Obj(map[n := w]);
      assert n in v.members;
    }
  }

  lemma {:induction false} UnusedName(names: set<string>) returns (n: string)
    ensures n !in names
    ensures forall m | m in names :: |m| < |n|
  {
    if names == {} {
      n := "";
    } else {
      var m :| m in names;
      var shorter := UnusedName(names - {m});
      n := seq(|shorter| + |m| + 1, _ => 'x');
      forall k | k in names ensures |k| < |n| {
        if k != m { assert k in names - {m}; }
      }
    }
  }

  /** One side demands a value of the given type. */
  predicate Demand(s: Schema, p: Schema, t: JsonType)
    requires s.Doc? && p.Doc?
  {
    exists k | k in s.asserts.Keys + p.asserts.Keys :: (k in s.asserts && s.asserts[k] == Type(t)) || (k in p.asserts && p.asserts[k] == Type(t))
  }

  predicate NeverEmpty(s: Schema)
    requires s.Doc?
  {
    exists k | k in s.asserts :: s.asserts[k].MinItems? && 1 <= s.asserts[k].size
  }

  predicate RequiredByOne(s: Schema, p: Schema, n: string)
    requires s.Doc? && p.Doc?
  {
    n in s.RequiredNames() || n in p.RequiredNames()
  }

  /**
    * A clash that every common value would have to run into: at the top, under a name one side requires
    * where one side demands an object, or in an array that one side demands and one side wants nonempty.
    */
  ghost predicate ForcedClash(s: Schema, p: Schema)
    decreases p
  {
    || LiteralClash(s, p)
    || (Merged(s, p) && Demand(s, p, TObject)
        && exists n :: RequiredByOne(s, p, n) && ComparedAt(s, p, n) && ForcedClash(s.At(n), p.At(n)))
    || (Merged(s, p) && Demand(s, p, TArray) && (NeverEmpty(s) || NeverEmpty(p))
        && s.items.Given? && p.items.Given? && ForcedClash(s.items.schema, p.items.schema))
  }

  /** Such a clash is a refusal, and then no value satisfies both schemas. */
  lemma ForcedClashIsEmpty(s: Schema, p: Schema)
    requires ForcedClash(s, p)
    ensures Clash(s, p)
    ensures !exists v :: Valid(s, v) && Valid(p, v)
  {
    ForcedIsClash(s, p);
    forall v ensures !(Valid(s, v) && Valid(p, v)) {
      if Valid(s, v) && Valid(p, v) {
        ForcedIsReached(s, p, v);
        ReachedClashRejects(s, p, v);
      }
    }
  }

  lemma {:induction false} ForcedIsClash(s: Schema, p: Schema)
    requires ForcedClash(s, p)
    ensures Clash(s, p)
    decreases p
  {
    if LiteralClash(s, p) {
    } else if n :| RequiredByOne(s, p, n) && ComparedAt(s, p, n) && ForcedClash(s.At(n), p.At(n)) {
      ForcedIsClash(s.At(n), p.At(n));
    } else {
      ForcedIsClash(s.items.schema, p.items.schema);
    }
  }

  /** A common value has the type one side demands, every name one side requires and, where wanted, an element. */
  lemma CommonValue(s: Schema, p: Schema, v: Json)
    requires Merged(s, p) && Valid(s, v) && Valid(p, v)
    ensures Demand(s, p, TObject) ==> v.Obj?
    ensures Demand(s, p, TArray) ==> v.Arr?
    ensures v.Arr? && (NeverEmpty(s) || NeverEmpty(p)) ==> 1 <= |v.elements|
    ensures InsideValid(s, v) && InsideValid(p, v)
  {
    hide Valid, CanonSchema, Demand, NeverEmpty, Holds, HasType, AssertsHold, ConjunctsOk, InsideValid;
    ValidByFields(s, v);
    ValidByFields(p, v);
    DemandMet(s, p, TObject, v);
    DemandMet(s, p, TArray, v);
    Nonempty(s, v);
    Nonempty(p, v);
  }

  lemma DemandMet(s: Schema, p: Schema, t: JsonType, v: Json)
    requires s.Doc? && p.Doc? && AssertsHold(s, v) && AssertsHold(p, v)
    ensures Demand(s, p, t) ==> HasType(t, v)
    ensures HasType(TObject, v) <==> v.Obj?
    ensures HasType(TArray, v) <==> v.Arr?
  {
    hide Valid;
  }

  lemma Nonempty(s: Schema, v: Json)
    requires s.Doc? && AssertsHold(s, v)
    ensures v.Arr? && NeverEmpty(s) ==> 1 <= |v.elements|
  {
    hide Valid;
  }

  /** A value both sides accept runs into the clash. */
  lemma {:induction false} ForcedIsReached(s: Schema, p: Schema, v: Json)
    requires ForcedClash(s, p) && Valid(s, v) && Valid(p, v)
    ensures Reaches(s, p, v)
    decreases p
  {
    hide Valid, CanonSchema, NeverEmpty, Demand, LiteralClash;
    if LiteralClash(s, p) { return; }
    CommonValue(s, p, v);
    if Demand(s, p, TObject) && exists n :: RequiredByOne(s, p, n) && ComparedAt(s, p, n) && ForcedClash(s.At(n), p.At(n)) {
      var n :| RequiredByOne(s, p, n) && ComparedAt(s, p, n) && ForcedClash(s.At(n), p.At(n));
      assert n in v.members;
      ForcedIsReached(s.At(n), p.At(n), v.members[n]);
    } else {
      ForcedIsReached(s.items.schema, p.items.schema, v.elements[0]);
    }
  }

  /** `{"type": "object", "properties": {"mode": {"enum": [mode]}}}` */
  function ModeSchema(mode: string): Schema {
    EMPTY_DOC.(asserts := map["type" := Type(TObject)], properties := Named(map["mode" := LiteralOnly(Str(mode))]))
  }

  lemma ModesClash(a: string, b: string)
    requires a != b
    ensures Clash(ModeSchema(a), ModeSchema(b))
  {
    var s, p := ModeSchema(a), ModeSchema(b);
    var x, y := LiteralOnly(Str(a)), LiteralOnly(Str(b));
    assert CanonSchema(x).literals.values == Canon(Arr([Str(a)])).elements == [Str(a)];
    assert CanonSchema(y).literals.values == Canon(Arr([Str(b)])).elements == [Str(b)];
    assert [Str(a)][0] != [Str(b)][0];
    forall v ensures !Candidate(x, y, v) { }
    assert LiteralClash(x, y);
    assert CanonSchema(s).properties.schemas["mode"] == CanonSchema(x);
    assert CanonSchema(p).properties.schemas["mode"] == CanonSchema(y);
    assert s.At("mode") == x && p.PropertyTable()["mode"] == y;
  }

  /** A refusal without such a demand can be too strict: these two are refused and both accept `{}`. */
  lemma RefusalCanBeTooStrict()
    ensures Clash(ModeSchema("fast"), ModeSchema("safe"))
    ensures Valid(ModeSchema("fast"), Obj(map[])) && Valid(ModeSchema("safe"), Obj(map[]))
  {
    assert "fast"[0] != "safe"[0];
    ModesClash("fast", "safe");
    NoModeIsFine("fast");
    NoModeIsFine("safe");
  }

  lemma NoModeIsFine(mode: string)
    ensures Valid(ModeSchema(mode), Obj(map[]))
  {
    ValidByFields(ModeSchema(mode), Obj(map[]));
  }
}
