/** The CI gate is exact: the violations of two resolved schemas are empty exactly when
    every position that parallel descent reaches is in order. */
module GateTheorems {
  import opened Basics
  import opened JsonValues
  import opened Conformance

  // ---------- positions reached by parallel descent ----------

  /** One step down: into a field that is an object on both sides, or into a variant that
      the arrays of both sides have. */
  datatype Step = Into(field: string) | Through(field: string, variant: string)

  datatype Position = Position(ctx: string, o: Json, h: Json)

  predicate Common(p: Position, f: string) {
    Has(Properties(p.o), f) && Has(Properties(p.h), f)
  }

  /** The variant maps of an array field that both sides discriminate. */
  predicate BothUnions(oField: Json, hField: Json) {
    && IsArrayType(oField) && IsArrayType(hField)
    && Variants(Items(oField)).Field? && Variants(Items(hField)).Field?
  }

  function Descend(p: Position, s: Step): (r: Option<Position>)
    ensures r.Some? ==> Size(r.value.o) < Size(p.o)
  {
    if !Common(p, s.field) then None
    else
      PropertiesSmaller(p.o, s.field);
      var oField, hField := Get(Properties(p.o), s.field).value, Get(Properties(p.h), s.field).value;
      match s
      case Into(f) =>
        if TypeIs(oField, "object") && TypeIs(hField, "object")
        then Some(Position(FieldContext(p.ctx, f), oField, hField)) else None
      case Through(f, t) =>
        if BothUnions(oField, hField) && Has(Variants(Items(oField)), t) && Has(Variants(Items(hField)), t)
        then
          VariantsSmaller(oField, t);
          Some(Position(VariantContext(p.ctx, f, t),
                        Get(Variants(Items(oField)), t).value, Get(Variants(Items(hField)), t).value))
        else None
  }

  function Reach(p: Position, steps: seq<Step>): Option<Position>
    decreases |steps|
  {
    if steps == [] then Some(p)
    else
      var next := Descend(p, steps[0]);
      if next.None? then None else Reach(next.value, steps[1..])
  }

  // ---------- what the gate demands ----------

  /** At one position: every OpenAI-only field and variant is documented, every
      Hadrian-only field is marked; Hadrian-only variants are exempt. */
  ghost predicate InOrder(documented: set<DocKey>, place: Place, p: Position) {
    && (forall f :: Has(Properties(p.o), f) && !Has(Properties(p.h), f) ==> At(place, f) in documented)
    && (forall f :: Has(Properties(p.h), f) && !Has(Properties(p.o), f) ==> Marked(Get(Properties(p.h), f).value))
    && (forall f, t :: Common(p, f) && MissingVariant(p, f, t) ==>
      At(place, VariantKey(place.path, p.ctx, f, t)) in documented)
  }

  predicate MissingVariant(p: Position, f: string, t: string)
    requires Common(p, f)
  {
    var oField, hField := Get(Properties(p.o), f).value, Get(Properties(p.h), f).value;
    BothUnions(oField, hField) && Has(Variants(Items(oField)), t) && !Has(Variants(Items(hField)), t)
  }

  ghost predicate Conforms(documented: set<DocKey>, place: Place, p: Position) {
    forall steps :: Reach(p, steps).Some? ==> InOrder(documented, place, Reach(p, steps).value)
  }

  function Found(documented: set<DocKey>, place: Place, p: Position): seq<Violation> {
    Violations(documented, place, p.ctx, p.o, p.h)
  }

  // ---------- when each collecting loop stays empty ----------

  lemma {:induction false} MissingEmpty(documented: set<DocKey>, place: Place, rest: Fields, hProps: Fields)
    ensures MissingViolations(documented, place, rest, hProps) == [] <==>
            forall f :: Has(rest, f) && !Has(hProps, f) ==> At(place, f) in documented
  {
    if rest.Field? {
      MissingEmpty(documented, place, rest.rest, hProps);
      assert forall f :: Has(rest, f) <==> f == rest.key || Has(rest.rest, f);
    }
  }

  lemma {:induction false} ExtensionEmpty(place: Place, rest: Fields, hProps: Fields, oProps: Fields)
    ensures ExtensionViolations(place, rest, hProps, oProps) == [] <==>
            forall f :: Has(rest, f) && !Has(oProps, f) ==> Has(hProps, f) && Marked(Get(hProps, f).value)
  {
    if rest.Field? {
      ExtensionEmpty(place, rest.rest, hProps, oProps);
      assert forall f :: Has(rest, f) <==> f == rest.key || Has(rest.rest, f);
    }
  }

  lemma {:induction false} CommonEmpty(documented: set<DocKey>, place: Place, ctx: string, rest: Fields, o: Json,
    h: Json)
    ensures CommonViolations(documented, place, ctx, rest, o, h) == [] <==>
            forall f :: Has(rest, f) ==> CommonViolation(documented, place, ctx, f, o, h) == []
  {
    if rest.Field? {
      CommonEmpty(documented, place, ctx, rest.rest, o, h);
      var first := CommonViolation(documented, place, ctx, rest.key, o, h);
      var more := CommonViolations(documented, place, ctx, rest.rest, o, h);
      assert CommonViolations(documented, place, ctx, rest, o, h) == first + more;
      if first != [] {
        assert Has(rest, rest.key);
      } else if more != [] {
        var f :| Has(rest.rest, f) && CommonViolation(documented, place, ctx, f, o, h) != [];
        assert Has(rest, f);
      } else {
        forall f | Has(rest, f) ensures CommonViolation(documented, place, ctx, f, o, h) == [] {
          if f != rest.key { assert Has(rest.rest, f); }
        }
      }
    }
  }

  lemma {:induction false} VariantEmpty(documented: set<DocKey>, place: Place, ctx: string, f: string, rest: Fields,
    oField: Json, hField: Json)
    ensures VariantViolations(documented, place, ctx, f, rest, oField, hField) == [] <==>
            forall t :: Has(rest, t) ==> VariantViolation(documented, place, ctx, f, t, oField, hField) == []
    decreases rest
  {
    if rest.Field? {
      VariantEmpty(documented, place, ctx, f, rest.rest, oField, hField);
      var first := VariantViolation(documented, place, ctx, f, rest.key, oField, hField);
      var more := VariantViolations(documented, place, ctx, f, rest.rest, oField, hField);
      assert VariantViolations(documented, place, ctx, f, rest, oField, hField) == first + more;
      if first != [] {
        assert Has(rest, rest.key);
      } else if more != [] {
        var t :| Has(rest.rest, t) && VariantViolation(documented, place, ctx, f, t, oField, hField) != [];
        assert Has(rest, t);
      } else {
        forall t | Has(rest, t) ensures VariantViolation(documented, place, ctx, f, t, oField, hField) == [] {
          if t != rest.key { assert Has(rest.rest, t); }
        }
      }
    }
  }

  // ---------- one level of descent ----------

  ghost predicate ChildrenEmpty(documented: set<DocKey>, place: Place, p: Position) {
    forall s :: Descend(p, s).Some? ==> Found(documented, place, Descend(p, s).value) == []
  }

  /** The children of `p` below the field `f` are empty, and its missing variants documented. */
  ghost predicate FieldInOrder(documented: set<DocKey>, place: Place, p: Position, f: string)
    requires Common(p, f)
  {
    && (forall s: Step :: s.field == f && Descend(p, s).Some? ==> Found(documented, place, Descend(p, s).value) == [])
    && (forall t :: MissingVariant(p, f, t) ==> At(place, VariantKey(place.path, p.ctx, f, t)) in documented)
  }

  lemma FieldEmpty(documented: set<DocKey>, place: Place, p: Position, f: string)
    requires Common(p, f)
    ensures CommonViolation(documented, place, p.ctx, f, p.o, p.h) == [] <==> FieldInOrder(documented, place, p, f)
  {
    var oField, hField := Get(Properties(p.o), f).value, Get(Properties(p.h), f).value;
    var ov := Variants(Items(oField));
    VariantEmpty(documented, place, p.ctx, f, ov, oField, hField);
    assert CommonViolation(documented, place, p.ctx, f, p.o, p.h)
      == NestedViolations(documented, place, p.ctx, f, oField, hField);
    if CommonViolation(documented, place, p.ctx, f, p.o, p.h) == [] {
      assert IsArrayType(oField) && IsArrayType(hField) ==>
        UnionViolations(documented, place, p.ctx, f, oField, hField) == [];
      assert BothUnions(oField, hField) ==> VariantViolations(documented, place, p.ctx, f, ov, oField, hField) == [];
      forall s: Step | s.field == f && Descend(p, s).Some? ensures Found(documented, place, Descend(p, s).value) == [] {
        if s.Through? { assert VariantViolation(documented, place, p.ctx, f, s.variant, oField, hField) == []; }
      }
      forall t | MissingVariant(p, f, t) ensures At(place, VariantKey(place.path, p.ctx, f, t)) in documented {
        assert VariantViolation(documented, place, p.ctx, f, t, oField, hField) == [];
      }
    }
    if FieldInOrder(documented, place, p, f) {
      if TypeIs(oField, "object") && TypeIs(hField, "object") { assert Descend(p, Into(f)).Some?; }
      if BothUnions(oField, hField) {
        forall t | Has(ov, t) ensures VariantViolation(documented, place, p.ctx, f, t, oField, hField) == [] {
          if Has(Variants(Items(hField)), t) {
            assert Descend(p, Through(f, t)).Some?;
          } else {
            assert MissingVariant(p, f, t);
          }
        }
      }
      assert IsArrayType(oField) && IsArrayType(hField) ==>
        UnionViolations(documented, place, p.ctx, f, oField, hField) == [];
    }
  }

  lemma OneLevel(documented: set<DocKey>, place: Place, p: Position)
    ensures Found(documented, place, p) == [] <==>
            InOrder(documented, place, p) && ChildrenEmpty(documented, place, p)
  {
    MissingEmpty(documented, place, Properties(p.o), Properties(p.h));
    ExtensionEmpty(place, Properties(p.h), Properties(p.h), Properties(p.o));
    CommonEmpty(documented, place, p.ctx, Properties(p.o), p.o, p.h);
    forall f | Common(p, f)
      ensures CommonViolation(documented, place, p.ctx, f, p.o, p.h) == [] <==> FieldInOrder(documented, place, p, f)
    {
      FieldEmpty(documented, place, p, f);
    }
    if Found(documented, place, p) == [] {
      forall s | Descend(p, s).Some? ensures Found(documented, place, Descend(p, s).value) == [] {
        assert Common(p, s.field) && FieldInOrder(documented, place, p, s.field);
      }
      forall f, t | Common(p, f) && MissingVariant(p, f, t)
        ensures At(place, VariantKey(place.path, p.ctx, f, t)) in documented
      {
        assert FieldInOrder(documented, place, p, f);
      }
    }
    if InOrder(documented, place, p) && ChildrenEmpty(documented, place, p) {
      forall f | Common(p, f) ensures FieldInOrder(documented, place, p, f) { }
    }
  }

  // ---------- exactness ----------

  lemma {:induction false} EmptyReaches(documented: set<DocKey>, place: Place, p: Position, steps: seq<Step>)
    requires Found(documented, place, p) == [] && Reach(p, steps).Some?
    ensures InOrder(documented, place, Reach(p, steps).value)
    decreases |steps|
  {
    OneLevel(documented, place, p);
    if steps != [] { EmptyReaches(documented, place, Descend(p, steps[0]).value, steps[1..]); }
  }

  lemma {:induction false} ConformsEmpty(documented: set<DocKey>, place: Place, p: Position)
    requires Conforms(documented, place, p)
    ensures Found(documented, place, p) == []
    decreases Size(p.o)
  {
    assert Reach(p, []) == Some(p);
    forall s | Descend(p, s).Some? ensures Found(documented, place, Descend(p, s).value) == [] {
      var child := Descend(p, s).value;
      forall steps | Reach(child, steps).Some? ensures InOrder(documented, place, Reach(child, steps).value) {
        assert ([s] + steps)[0] == s && ([s] + steps)[1..] == steps;
        assert Reach(p, [s] + steps) == Reach(child, steps);
      }
      ConformsEmpty(documented, place, child);
    }
    OneLevel(documented, place, p);
  }

  /** No violation is found exactly when every reached position is in order. */
  lemma ViolationsExact(documented: set<DocKey>, place: Place, p: Position)
    ensures Found(documented, place, p) == [] <==> Conforms(documented, place, p)
  {
    if Found(documented, place, p) == [] {
      forall steps | Reach(p, steps).Some? ensures InOrder(documented, place, Reach(p, steps).value) {
        EmptyReaches(documented, place, p, steps);
      }
    }
    if Conforms(documented, place, p) { ConformsEmpty(documented, place, p); }
  }
}
