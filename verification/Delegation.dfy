/** A child's delegated tool: the schema it is shown and the gate every call passes (child_policy.py). */
module Delegation {
  import opened JsonValues
  import opened Schemas
  import opened SchemaMeet

  datatype Selection = Unrestricted | Only(actions: seq<string>)

  /** One delegated tool: its parameters as captured, and the actions it was narrowed to. */
  datatype Grant = Grant(frozen: Schema, selected: Selection)

  datatype Scoped = Advertised(schema: Schema) | WholeObjectEnum | EmptyLiterals

  datatype Verdict = Allowed | OwnerRetired | OutsideDelegation | ArgumentsExceed | ActionOutside

  /** `{"enum": actions}` */
  function Among(actions: seq<string>): Schema {
    EMPTY_DOC.(literals := OneOf(Strings(actions)))
  }

  /** `{"type": "object", "properties": {"action": {"enum": actions}}}` */
  function ActionSchema(actions: seq<string>): Schema {
    EMPTY_DOC.(
      asserts := map["type" := Type(TObject)],
      properties := Named(map["action" := Among(actions)]))
  }

  function Strings(texts: seq<string>): seq<Json> {
    seq(|texts|, i requires 0 <= i < |texts| => Str(texts[i]))
  }

  predicate ActionAmong(actions: seq<string>, v: Json) {
    v.Str? && v.text in actions
  }

  lemma ActionSchemaMeans(actions: seq<string>, v: Json)
    ensures Valid(ActionSchema(actions), v) <==>
              v.Obj? && ("action" in v.members ==> ActionAmong(actions, v.members["action"]))
  {
    var d := ActionSchema(actions);
    var inner := Among(actions);
    assert d.asserts["type"] == Type(TObject);
    if v.Obj? {
      forall n ensures d.At(n) == if n == "action" then inner else ANYTHING { }
      ValidByFields(d, v);
      if "action" in v.members {
        var a := v.members["action"];
        assert Valid(inner, a) <==> a in Strings(actions);
        assert a in Strings(actions) <==> ActionAmong(actions, a) by {
          if ActionAmong(actions, a) {
            var i :| 0 <= i < |actions| && actions[i] == a.text;
            assert Strings(actions)[i] == a;
          }
        }
      }
    }
  }

  /** Canonical form keeps strings apart from everything else. */
  lemma StringsStay(values: seq<Json>, texts: seq<string>)
    requires Canon(Arr(values)).elements == Canon(Arr(Strings(texts))).elements
    ensures values == Strings(texts)
  {
    assert |values| == |Canon(Arr(values)).elements| == |texts|;
    forall i | 0 <= i < |values| ensures values[i] == Strings(texts)[i] {
      assert Canon(Arr(values)).elements[i] == Canon(values[i]);
      assert Canon(Arr(Strings(texts))).elements[i] == Canon(Strings(texts)[i]);
    }
  }

  /** Only the list of actions itself is equal to it for Python. */
  lemma OnlyItself(s: Schema, actions: seq<string>)
    requires SameDocument(s, Among(actions))
    ensures s == Among(actions)
  {
    var c := CanonSchema(Among(actions));
    assert c.asserts == map[] && c.notes == map[];
    assert CanonSchema(s).asserts.Keys == s.asserts.Keys == {} && CanonSchema(s).notes.Keys == s.notes.Keys == {};
    assert s.asserts == map[] && s.notes == map[];
    StringsStay(s.literals.values, actions);
  }

  lemma ActionSchemaOnlyItself(s: Schema, actions: seq<string>)
    requires SameDocument(s, ActionSchema(actions))
    ensures s == ActionSchema(actions)
  {
    var a := ActionSchema(actions);
    var c, d := CanonSchema(s), CanonSchema(a);
    assert a.properties.schemas["action"] == Among(actions);
    assert c.asserts.Keys == s.asserts.Keys && d.asserts.Keys == a.asserts.Keys == {"type"};
    assert a.asserts["type"] == Type(TObject) && d.asserts["type"] == CanonAssertion(a.asserts["type"]);
    assert CanonAssertion(s.asserts["type"]) == c.asserts["type"] == d.asserts["type"] == Type(TObject);
    assert s.asserts == a.asserts;
    assert c.notes.Keys == s.notes.Keys && d.notes.Keys == {};
    assert s.notes == map[];
    assert c.properties.schemas.Keys == s.properties.schemas.Keys && d.properties.schemas.Keys == {"action"};
    assert c.properties.schemas["action"] == CanonSchema(s.properties.schemas["action"]);
    assert d.properties.schemas["action"] == CanonSchema(Among(actions));
    OnlyItself(s.properties.schemas["action"], actions);
    assert s.properties.schemas == a.properties.schemas;
  }

  /** Narrowing to actions never loses anything: strings equal only strings. */
  lemma ActionsAgree(s: Schema, actions: seq<string>, v: Json)
    ensures AgreesOn(s, ActionSchema(actions), v)
  {
    var a := ActionSchema(actions);
    if SameDocument(s, a) {
      ActionSchemaOnlyItself(s, actions);
    } else if Merged(s, a) {
      assert AssertsAgree(s, a, v) && ConjunctsAgree(s.allOf, a.allOf, v);
      if v.Obj? {
        forall n | n in v.members ensures AgreesOn(s.At(n), a.At(n), v.members[n]) {
          if n == "action" {
            assert a.At(n) == Among(actions);
            AmongAgrees(s.At(n), actions, v.members[n]);
          }
        }
      }
    }
  }

  lemma AmongAgrees(s: Schema, actions: seq<string>, v: Json)
    ensures AgreesOn(s, Among(actions), v)
  {
    if SameDocument(s, Among(actions)) { OnlyItself(s, actions); }
  }

  predicate ActionOk(selected: Selection, v: Json) {
    selected.Only? ==> v.Obj? && ("action" in v.members ==> ActionAmong(selected.actions, v.members["action"]))
  }

  /** The shown schema accepts what the child's own schema, the grant and the action selection all accept. */
  ghost predicate Shows(shown: Schema, own: Schema, grant: Grant) {
    forall v ::
      && (Valid(shown, v) ==> Valid(own, v) && ActionOk(grant.selected, v))
      && (Valid(own, v) && Valid(grant.frozen, v) && ActionOk(grant.selected, v) <==>
          Valid(shown, v) && AgreesOn(own, grant.frozen, v))
  }

  /**
    * `scoped_parameters`: what the child is shown accepts exactly the arguments that its own schema,
    * the captured grant and the action selection all accept, wherever the comparisons of the first
    * intersection were harmless; the second intersection is always exact.
    */
  method ScopedParameters(own: Schema, grant: Grant) returns (r: Scoped, ghost met: Outcome)
    requires own.Doc? && grant.frozen.Doc?
    ensures r.WholeObjectEnum? <==> WholeObjectLiterals(grant.frozen)
    ensures r.Advertised? ==> r.schema.Doc? && r.schema.notes == own.notes && Shows(r.schema, own, grant)
    ensures r.Advertised? && EqualityAgrees(own, grant.frozen) ==> forall v ::
              Valid(r.schema, v) <==> Valid(own, v) && Valid(grant.frozen, v) && ActionOk(grant.selected, v)
    ensures !r.WholeObjectEnum? ==> (met.Refused? <==> Clash(own, grant.frozen))
    ensures !r.WholeObjectEnum? && met.Met? ==> Exact(met.schema, own, grant.frozen)
    ensures !r.WholeObjectEnum? ==>
              (r.EmptyLiterals? <==>
                || Clash(own, grant.frozen)
                || (grant.selected.Only? && Clash(met.schema, ActionSchema(grant.selected.actions))))
  {
    met := Refused;
    if WholeObjectLiterals(grant.frozen) { return WholeObjectEnum, met; }
    var both := Intersect(own, grant.frozen);
    met := both;
    if both.Refused? { return EmptyLiterals, met; }
    r := Advertised(both.schema);
    if grant.selected.Only? {
      var narrowed := Intersect(both.schema, ActionSchema(grant.selected.actions));
      if narrowed.Refused? { return EmptyLiterals, met; }
      r := Advertised(narrowed.schema);
      NarrowedShows(narrowed.schema, both.schema, own, grant);
    }
    if EqualityAgrees(own, grant.frozen) {
      forall v ensures AgreesOn(own, grant.frozen, v) { EqualityAgreesOnAll(own, grant.frozen, v); }
    }
  }

  lemma NarrowedShows(shown: Schema, met: Schema, own: Schema, grant: Grant)
    requires grant.selected.Only?
    requires Exact(met, own, grant.frozen) && Exact(shown, met, ActionSchema(grant.selected.actions))
    ensures Shows(shown, own, grant)
  {
    hide Valid, AgreesOn, ActionSchema, ActionOk;
    forall v
      ensures Valid(shown, v) <==> Valid(met, v) && ActionOk(grant.selected, v)
    {
      ActionsAgree(met, grant.selected.actions, v);
      ActionOkMeans(grant.selected, v);
    }
  }

  lemma ActionOkMeans(selected: Selection, v: Json)
    requires selected.Only?
    ensures ActionOk(selected, v) <==> Valid(ActionSchema(selected.actions), v)
  {
    hide Valid;
    ActionSchemaMeans(selected.actions, v);
  }

  predicate WholeObjectLiterals(s: Schema)
    requires s.Doc?
  {
    "type" in s.asserts && s.asserts["type"] == Type(TObject) && s.literals.OneOf?
  }

  /** `args.get("action")` names one of the selected actions. */
  predicate ActionSelected(selected: Selection, args: map<string, Json>) {
    selected.Unrestricted? || ("action" in args && ActionAmong(selected.actions, args["action"]))
  }

  /** `ChildDelegation.check`: `current` says that the tool is still among the parent's tools. */
  function Check(grant: Grant, live: Schema, owner: bool, current: bool, capabilityBound: bool, args: map<string, Json>): Verdict {
    if !owner then OwnerRetired
    else if capabilityBound then
      if ActionSelected(grant.selected, args) then Allowed else ActionOutside
    else if !current then OutsideDelegation
    else if !(Valid(grant.frozen, Obj(args)) && Valid(live, Obj(args))) then ArgumentsExceed
    else if ActionSelected(grant.selected, args) then Allowed else ActionOutside
  }

  /**
    * A model that keeps to the advertised schema, at a tool the parent neither changed nor withdrew: the
    * gate refuses its call in two cases only, that a comparison made while advertising lost something of
    * the grant, or that actions were selected and the call names none (the schema never requires one).
    */
  method AdvertiseThenCheck(own: Schema, grant: Grant, args: map<string, Json>) returns (shown: Scoped, verdict: Verdict)
    requires own.Doc? && grant.frozen.Doc?
    ensures shown.Advertised? && Valid(shown.schema, Obj(args)) ==>
              && Valid(own, Obj(args))
              && (verdict.ArgumentsExceed? <==> !AgreesOn(own, grant.frozen, Obj(args)))
              && (verdict.ActionOutside? <==>
                    AgreesOn(own, grant.frozen, Obj(args)) && grant.selected.Only? && "action" !in args)
              && (verdict.Allowed? || verdict.ArgumentsExceed? || verdict.ActionOutside?)
    ensures shown.Advertised? && verdict.Allowed? && Valid(own, Obj(args)) ==> Valid(shown.schema, Obj(args))
  {
    ghost var met;
    shown, met := ScopedParameters(own, grant);
    verdict := Check(grant, grant.frozen, true, true, false, args);
  }
}
