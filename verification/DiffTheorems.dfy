/** The comparison is exact: the differences and the violations of two resolved schemas are those that are due at some
    position that parallel descent reaches, and no others. */
module DiffTheorems {
  import opened Basics
  import opened JsonValues
  import opened Conformance
  import opened GateTheorems
  import opened SchemaReading

  // ---------- what is due at one position, spelled out ----------

  /** A field that both sides have. */
  predicate Both(p: Position, f: string, o: Json, h: Json) { Property(p.o, f, o) && Property(p.h, f, h) }

  /** A field that is an array of discriminated variants on both sides. */
  ghost predicate Unions(p: Position, f: string, o: Json, h: Json) {
    Both(p, f, o, h) && ArrayType(o) && ArrayType(h) && HasVariants(o) && HasVariants(h)
  }

  /** OpenAI has the field, Hadrian has not. */
  ghost predicate MissingField(repr: Json -> string, p: Position, d: SchemaDiff) {
    exists v :: Property(p.o, d.field, v) && !HasProperty(p.h, d.field)
      && d == SchemaDiff(p.ctx, d.field, MissingInHadrian, Some(TypeString(repr, v)), None)
  }

  /** Hadrian has the field, OpenAI has not. */
  ghost predicate ExtraField(repr: Json -> string, p: Position, d: SchemaDiff) {
    exists v :: Property(p.h, d.field, v) && !HasProperty(p.o, d.field)
      && d == SchemaDiff(p.ctx, d.field, HadrianExtension, None, Some(TypeString(repr, v)))
  }

  /** Both have the field, with type strings that do not go together. */
  ghost predicate OtherType(repr: Json -> string, p: Position, d: SchemaDiff) {
    exists o, h :: Both(p, d.field, o, h) && !Compatible(TypeString(repr, o), TypeString(repr, h))
      && d == SchemaDiff(p.ctx, d.field, TypeMismatch, Some(TypeString(repr, o)), Some(TypeString(repr, h)))
  }

  /** Both have the field, and only OpenAI requires it. */
  ghost predicate LostRequired(p: Position, d: SchemaDiff) {
    && HasProperty(p.o, d.field) && HasProperty(p.h, d.field) && Requires(p.o, d.field) && !Requires(p.h, d.field)
    && d == SchemaDiff(p.ctx, d.field, RequiredMismatch, Some("required"), Some("optional"))
  }

  /** A variant that only one side has. */
  ghost predicate OneSided(p: Position, f: string, d: SchemaDiff) {
    exists o, h :: Unions(p, f, o, h) && HasVariant(o, d.field) != HasVariant(h, d.field)
      && d == if HasVariant(o, d.field)
              then SchemaDiff(p.ctx + "." + f + "[]", d.field, MissingInHadrian, Some("object"), None)
              else SchemaDiff(p.ctx + "." + f + "[]", d.field, HadrianExtension, None, Some("object"))
  }

  ghost predicate Due(repr: Json -> string, p: Position, d: SchemaDiff) {
    || MissingField(repr, p, d) || ExtraField(repr, p, d) || OtherType(repr, p, d) || LostRequired(p, d)
    || exists f :: OneSided(p, f, d)
  }

  function DiffsAt(repr: Json -> string, p: Position): seq<SchemaDiff> { Diffs(repr, p.ctx, p.o, p.h) }

  // ---------- the collecting loops ----------

  lemma {:induction false} InMissing(repr: Json -> string, ctx: string, rest: Fields, oProps: Fields, hProps: Fields,
                                     d: SchemaDiff)
    ensures d in MissingDiffs(repr, ctx, rest, oProps, hProps) <==>
      Has(rest, d.field) && d in MissingDiff(repr, ctx, d.field, oProps, hProps)
  {
    if rest.Field? { InMissing(repr, ctx, rest.rest, oProps, hProps, d); }
  }

  lemma {:induction false} InExtension(repr: Json -> string, ctx: string, rest: Fields, hProps: Fields, oProps: Fields,
                                       d: SchemaDiff)
    ensures d in ExtensionDiffs(repr, ctx, rest, hProps, oProps) <==>
      Has(rest, d.field) && d in ExtensionDiff(repr, ctx, d.field, hProps, oProps)
  {
    if rest.Field? { InExtension(repr, ctx, rest.rest, hProps, oProps, d); }
  }

  lemma {:induction false} InCommon(repr: Json -> string, ctx: string, rest: Fields, o: Json, h: Json, d: SchemaDiff)
    ensures d in CommonDiffs(repr, ctx, rest, o, h) <==> exists f :: Has(rest, f) && d in CommonDiff(repr, ctx, f, o, h)
  {
    if rest.Field? {
      InCommon(repr, ctx, rest.rest, o, h, d);
      assert Has(rest, rest.key) && forall f :: Has(rest.rest, f) ==> Has(rest, f);
      assert d in CommonDiffs(repr, ctx, rest, o, h) <==>
        d in CommonDiff(repr, ctx, rest.key, o, h) || d in CommonDiffs(repr, ctx, rest.rest, o, h);
      if f :| Has(rest, f) && d in CommonDiff(repr, ctx, f, o, h) && f != rest.key { assert Has(rest.rest, f); }
    }
  }

  lemma InVariants(repr: Json -> string, ctx: string, f: string, rest: Fields, o: Json, h: Json, d: SchemaDiff)
    ensures d in VariantDiffs(repr, ctx, f, rest, o, h) <==>
      exists t :: Has(rest, t) && d in VariantDiff(repr, ctx, f, t, o, h)
  {
    if d in VariantDiffs(repr, ctx, f, rest, o, h) { var t := VariantFound(repr, ctx, f, rest, o, h, d); }
    if t :| Has(rest, t) && d in VariantDiff(repr, ctx, f, t, o, h) {
      VariantCollected(repr, ctx, f, rest, o, h, d, t);
    }
  }

  lemma {:induction false} VariantFound(repr: Json -> string, ctx: string, f: string, rest: Fields, o: Json, h: Json,
                                        d: SchemaDiff) returns (t: string)
    requires d in VariantDiffs(repr, ctx, f, rest, o, h)
    ensures Has(rest, t) && d in VariantDiff(repr, ctx, f, t, o, h)
    decreases rest
  {
    if d in VariantDiff(repr, ctx, f, rest.key, o, h) {
      t := rest.key;
    } else {
      t := VariantFound(repr, ctx, f, rest.rest, o, h, d);
    }
  }

  lemma {:induction false} VariantCollected(repr: Json -> string, ctx: string, f: string, rest: Fields, o: Json,
                                            h: Json, d: SchemaDiff, t: string)
    requires Has(rest, t) && d in VariantDiff(repr, ctx, f, t, o, h)
    ensures d in VariantDiffs(repr, ctx, f, rest, o, h)
    decreases rest
  {
    if rest.key != t { VariantCollected(repr, ctx, f, rest.rest, o, h, d, t); }
  }

  lemma {:induction false} InExtra(ctx: string, f: string, rest: Fields, ov: Fields, d: SchemaDiff)
    ensures d in ExtraVariantDiffs(ctx, f, rest, ov) <==>
      && Has(rest, d.field) && !Has(ov, d.field)
      && d == SchemaDiff(ItemsContext(ctx, f), d.field, HadrianExtension, None, Some("object"))
  {
    if rest.Field? { InExtra(ctx, f, rest.rest, ov, d); }
  }

  // ---------- one level ----------

  lemma MissingExactly(repr: Json -> string, p: Position, d: SchemaDiff)
    ensures d in MissingDiffs(repr, p.ctx, Properties(p.o), Properties(p.o), Properties(p.h)) <==>
      MissingField(repr, p, d)
  {
    InMissing(repr, p.ctx, Properties(p.o), Properties(p.o), Properties(p.h), d);
    PropertyExactly(p.o, d.field);
    PropertyExactly(p.h, d.field);
    if Has(Properties(p.o), d.field) { assert Property(p.o, d.field, Get(Properties(p.o), d.field).value); }
  }

  lemma ExtraExactly(repr: Json -> string, p: Position, d: SchemaDiff)
    ensures d in ExtensionDiffs(repr, p.ctx, Properties(p.h), Properties(p.h), Properties(p.o)) <==>
      ExtraField(repr, p, d)
  {
    InExtension(repr, p.ctx, Properties(p.h), Properties(p.h), Properties(p.o), d);
    PropertyExactly(p.o, d.field);
    PropertyExactly(p.h, d.field);
    if Has(Properties(p.h), d.field) { assert Property(p.h, d.field, Get(Properties(p.h), d.field).value); }
  }

  /** Some child of `p` below the field `f` has the difference. */
  ghost predicate Below(repr: Json -> string, p: Position, f: string, d: SchemaDiff) {
    exists s: Step :: s.field == f && Descend(p, s).Some? && d in DiffsAt(repr, Descend(p, s).value)
  }

  lemma TypeExactly(repr: Json -> string, p: Position, f: string, d: SchemaDiff)
    requires Common(p, f)
    ensures d in TypeDiff(repr, p.ctx, f, Get(Properties(p.o), f).value, Get(Properties(p.h), f).value) <==>
      d.field == f && OtherType(repr, p, d)
  {
    var o, h := Get(Properties(p.o), f).value, Get(Properties(p.h), f).value;
    PropertyExactly(p.o, f);
    PropertyExactly(p.h, f);
    CompatibleExactly(TypeString(repr, o), TypeString(repr, h));
    assert Both(p, f, o, h);
  }

  lemma RequiredExactly(p: Position, f: string, d: SchemaDiff)
    requires Common(p, f)
    ensures d in RequiredDiff(p.ctx, f, p.o, p.h) <==> d.field == f && LostRequired(p, d)
  {
    PropertyExactly(p.o, f);
    PropertyExactly(p.h, f);
    RequiresExactly(p.o, f);
    RequiresExactly(p.h, f);
  }

  /** What the loop over OpenAI's variants collects for one of them. */
  lemma InVariant(repr: Json -> string, p: Position, f: string, t: string, d: SchemaDiff)
    requires Common(p, f)
    requires var o, h := Get(Properties(p.o), f).value, Get(Properties(p.h), f).value;
      BothUnions(o, h) && Has(Variants(Items(o)), t)
    ensures var o, h := Get(Properties(p.o), f).value, Get(Properties(p.h), f).value;
      && (Descend(p, Through(f, t)).Some? <==> Has(Variants(Items(h)), t))
      && (d in VariantDiff(repr, p.ctx, f, t, o, h) <==>
            if Has(Variants(Items(h)), t) then d in DiffsAt(repr, Descend(p, Through(f, t)).value)
            else d == SchemaDiff(ItemsContext(p.ctx, f), t, MissingInHadrian, Some("object"), None))
  {
  }

  lemma SidesExactly(p: Position, f: string, d: SchemaDiff)
    requires Common(p, f)
    ensures var o, h := Get(Properties(p.o), f).value, Get(Properties(p.h), f).value;
      var ov, hv := Variants(Items(o)), Variants(Items(h));
      OneSided(p, f, d) <==>
      && BothUnions(o, h) && Has(ov, d.field) != Has(hv, d.field)
      && d == if Has(ov, d.field)
              then SchemaDiff(ItemsContext(p.ctx, f), d.field, MissingInHadrian, Some("object"), None)
              else SchemaDiff(ItemsContext(p.ctx, f), d.field, HadrianExtension, None, Some("object"))
  {
    UnionsExactly(p, f, d.field);
    var o, h := Get(Properties(p.o), f).value, Get(Properties(p.h), f).value;
    if BothUnions(o, h) { assert Unions(p, f, o, h); }
  }

  ghost predicate BelowVariant(repr: Json -> string, p: Position, f: string, d: SchemaDiff) {
    exists t :: Descend(p, Through(f, t)).Some? && d in DiffsAt(repr, Descend(p, Through(f, t)).value)
  }

  lemma InUnions(repr: Json -> string, p: Position, f: string, d: SchemaDiff)
    requires Common(p, f)
    requires BothUnions(Get(Properties(p.o), f).value, Get(Properties(p.h), f).value)
    ensures var o, h := Get(Properties(p.o), f).value, Get(Properties(p.h), f).value;
      var ov, hv := Variants(Items(o)), Variants(Items(h));
      d in VariantDiffs(repr, p.ctx, f, ov, o, h) <==>
        || (Has(ov, d.field) && !Has(hv, d.field)
            && d == SchemaDiff(ItemsContext(p.ctx, f), d.field, MissingInHadrian, Some("object"), None))
        || BelowVariant(repr, p, f, d)
  {
    var o, h := Get(Properties(p.o), f).value, Get(Properties(p.h), f).value;
    var ov := Variants(Items(o));
    InVariants(repr, p.ctx, f, ov, o, h, d);
    if t :| Has(ov, t) && d in VariantDiff(repr, p.ctx, f, t, o, h) { InVariant(repr, p, f, t, d); }
    if Has(ov, d.field) { InVariant(repr, p, f, d.field, d); }
    if t :| Descend(p, Through(f, t)).Some? && d in DiffsAt(repr, Descend(p, Through(f, t)).value) {
      InVariant(repr, p, f, t, d);
    }
  }

  lemma VariantsExactlyDue(repr: Json -> string, p: Position, f: string, d: SchemaDiff)
    requires Common(p, f)
    ensures var o, h := Get(Properties(p.o), f).value, Get(Properties(p.h), f).value;
      IsArrayType(o) && IsArrayType(h) && d in UnionDiffs(repr, p.ctx, f, o, h) <==>
      OneSided(p, f, d) || BelowVariant(repr, p, f, d)
  {
    var o, h := Get(Properties(p.o), f).value, Get(Properties(p.h), f).value;
    SidesExactly(p, f, d);
    if BothUnions(o, h) {
      InUnions(repr, p, f, d);
      InExtra(p.ctx, f, Variants(Items(h)), Variants(Items(o)), d);
    }
  }

  /** The spelled-out conditions on the variants of a common field. */
  lemma UnionsExactly(p: Position, f: string, t: string)
    requires Common(p, f)
    ensures var o, h := Get(Properties(p.o), f).value, Get(Properties(p.h), f).value;
      && (forall a, b :: Unions(p, f, a, b) <==> a == o && b == h && BothUnions(o, h))
      && (HasVariant(o, t) <==> Has(Variants(Items(o)), t)) && (HasVariant(h, t) <==> Has(Variants(Items(h)), t))
  {
    var o, h := Get(Properties(p.o), f).value, Get(Properties(p.h), f).value;
    PropertyExactly(p.o, f);
    PropertyExactly(p.h, f);
    TypesExactly(o);
    TypesExactly(h);
    VariantsExactly(o);
    VariantsExactly(h);
    VariantExactly(o, t);
    VariantExactly(h, t);
  }

  lemma FieldExactly(repr: Json -> string, p: Position, f: string, d: SchemaDiff)
    requires Common(p, f)
    ensures d in CommonDiff(repr, p.ctx, f, p.o, p.h) <==>
      || (d.field == f && (OtherType(repr, p, d) || LostRequired(p, d))) || OneSided(p, f, d) || Below(repr, p, f, d)
  {
    var o, h := Get(Properties(p.o), f).value, Get(Properties(p.h), f).value;
    TypeExactly(repr, p, f, d);
    RequiredExactly(p, f, d);
    VariantsExactlyDue(repr, p, f, d);
    assert d in CommonDiff(repr, p.ctx, f, p.o, p.h) <==>
      || d in TypeDiff(repr, p.ctx, f, o, h) || d in RequiredDiff(p.ctx, f, p.o, p.h)
      || d in NestedDiffs(repr, p.ctx, f, o, h);
    assert Descend(p, Into(f)).Some? <==> TypeIs(o, "object") && TypeIs(h, "object");
    assert d in NestedDiffs(repr, p.ctx, f, o, h) <==>
      || (Descend(p, Into(f)).Some? && d in DiffsAt(repr, Descend(p, Into(f)).value))
      || (IsArrayType(o) && IsArrayType(h) && d in UnionDiffs(repr, p.ctx, f, o, h));
    BelowExactly(repr, p, f, d);
  }

  lemma BelowExactly(repr: Json -> string, p: Position, f: string, d: SchemaDiff)
    ensures Below(repr, p, f, d) <==>
      (Descend(p, Into(f)).Some? && d in DiffsAt(repr, Descend(p, Into(f)).value)) || BelowVariant(repr, p, f, d)
  {
    if s: Step :| s.field == f && Descend(p, s).Some? && d in DiffsAt(repr, Descend(p, s).value) {
      assert s == Into(f) || (s.Through? && s == Through(f, s.variant));
    }
  }

  lemma CommonExactly(repr: Json -> string, p: Position, d: SchemaDiff)
    ensures d in CommonDiffs(repr, p.ctx, Properties(p.o), p.o, p.h) <==>
      || OtherType(repr, p, d) || LostRequired(p, d) || (exists f :: OneSided(p, f, d))
      || exists f :: Below(repr, p, f, d)
  {
    InCommon(repr, p.ctx, Properties(p.o), p.o, p.h, d);
    PropertyExactly(p.o, d.field);
    PropertyExactly(p.h, d.field);
    if f :| Has(Properties(p.o), f) && d in CommonDiff(repr, p.ctx, f, p.o, p.h) { FieldExactly(repr, p, f, d); }
    if Common(p, d.field) { FieldExactly(repr, p, d.field, d); }
    if f :| OneSided(p, f, d) {
      PropertyExactly(p.o, f);
      PropertyExactly(p.h, f);
      FieldExactly(repr, p, f, d);
    }
    if f :| Below(repr, p, f, d) { FieldExactly(repr, p, f, d); }
  }

  /** A difference is due at this position, or found by a child. */
  lemma OneLevelDiffs(repr: Json -> string, p: Position, d: SchemaDiff)
    ensures d in DiffsAt(repr, p) <==>
      Due(repr, p, d) || exists s :: Descend(p, s).Some? && d in DiffsAt(repr, Descend(p, s).value)
  {
    MissingExactly(repr, p, d);
    ExtraExactly(repr, p, d);
    CommonExactly(repr, p, d);
    if s :| Descend(p, s).Some? && d in DiffsAt(repr, Descend(p, s).value) { assert Below(repr, p, s.field, d); }
  }

  // ---------- at any depth ----------

  lemma {:induction false} DueFound(repr: Json -> string, p: Position, steps: seq<Step>, d: SchemaDiff)
    requires Reach(p, steps).Some? && Due(repr, Reach(p, steps).value, d)
    ensures d in DiffsAt(repr, p)
    decreases |steps|
  {
    OneLevelDiffs(repr, p, d);
    if steps != [] { DueFound(repr, Descend(p, steps[0]).value, steps[1..], d); }
  }

  lemma {:induction false} FoundDue(repr: Json -> string, p: Position, d: SchemaDiff) returns (steps: seq<Step>)
    requires d in DiffsAt(repr, p)
    ensures Reach(p, steps).Some? && Due(repr, Reach(p, steps).value, d)
    decreases Size(p.o)
  {
    OneLevelDiffs(repr, p, d);
    if Due(repr, p, d) {
      steps := [];
    } else {
      var s :| Descend(p, s).Some? && d in DiffsAt(repr, Descend(p, s).value);
      var more := FoundDue(repr, Descend(p, s).value, d);
      steps := [s] + more;
      assert steps[0] == s && steps[1..] == more;
    }
  }

  /** The difference is due at some position reached. */
  ghost predicate DueBelow(repr: Json -> string, p: Position, d: SchemaDiff) {
    exists steps :: Reach(p, steps).Some? && Due(repr, Reach(p, steps).value, d)
  }

  /** A difference is reported exactly when it is due at some position reached. */
  lemma DiffsExact(repr: Json -> string, p: Position, d: SchemaDiff)
    ensures d in DiffsAt(repr, p) <==> DueBelow(repr, p, d)
  {
    if d in DiffsAt(repr, p) { var steps := FoundDue(repr, p, d); }
    if steps :| Reach(p, steps).Some? && Due(repr, Reach(p, steps).value, d) { DueFound(repr, p, steps, d); }
  }

  /** Two schemas look the same at one position: the same fields, with types that go together; what OpenAI requires
      Hadrian requires; and the same variants. */
  ghost predicate Alike(repr: Json -> string, p: Position) {
    && (forall f :: HasProperty(p.o, f) <==> HasProperty(p.h, f))
    && (forall f, o, h :: Both(p, f, o, h) ==> Compatible(TypeString(repr, o), TypeString(repr, h)))
    && (forall f :: HasProperty(p.o, f) && Requires(p.o, f) ==> Requires(p.h, f))
    && (forall f, o, h, t :: Unions(p, f, o, h) ==> (HasVariant(o, t) <==> HasVariant(h, t)))
  }

  lemma AlikeExactly(repr: Json -> string, p: Position)
    ensures Alike(repr, p) <==> forall d :: !Due(repr, p, d)
  {
    if !Alike(repr, p) { var d := NotAlike(repr, p); }
  }

  lemma NotAlike(repr: Json -> string, p: Position) returns (d: SchemaDiff)
    requires !Alike(repr, p)
    ensures Due(repr, p, d)
  {
    if f :| HasProperty(p.o, f) && !HasProperty(p.h, f) {
      var v :| Property(p.o, f, v);
      d := SchemaDiff(p.ctx, f, MissingInHadrian, Some(TypeString(repr, v)), None);
      assert MissingField(repr, p, d);
    } else if f :| !HasProperty(p.o, f) && HasProperty(p.h, f) {
      var v :| Property(p.h, f, v);
      d := SchemaDiff(p.ctx, f, HadrianExtension, None, Some(TypeString(repr, v)));
      assert ExtraField(repr, p, d);
    } else if f, o, h :| Both(p, f, o, h) && !Compatible(TypeString(repr, o), TypeString(repr, h)) {
      d := SchemaDiff(p.ctx, f, TypeMismatch, Some(TypeString(repr, o)), Some(TypeString(repr, h)));
      assert OtherType(repr, p, d);
    } else if f :| HasProperty(p.o, f) && Requires(p.o, f) && !Requires(p.h, f) {
      d := SchemaDiff(p.ctx, f, RequiredMismatch, Some("required"), Some("optional"));
      assert LostRequired(p, d);
    } else {
      var f, o, h, t :| Unions(p, f, o, h) && HasVariant(o, t) != HasVariant(h, t);
      d := if HasVariant(o, t) then SchemaDiff(p.ctx + "." + f + "[]", t, MissingInHadrian, Some("object"), None)
           else SchemaDiff(p.ctx + "." + f + "[]", t, HadrianExtension, None, Some("object"));
      assert OneSided(p, f, d);
    }
  }

  /** The schemas look the same at every position reached. */
  ghost predicate AlikeBelow(repr: Json -> string, p: Position) {
    forall steps :: Reach(p, steps).Some? ==> Alike(repr, Reach(p, steps).value)
  }

  /** There is no difference exactly when the schemas look the same at every position reached. */
  lemma NoDiffsExactly(repr: Json -> string, p: Position)
    ensures DiffsAt(repr, p) == [] <==> AlikeBelow(repr, p)
  {
    if DiffsAt(repr, p) == [] {
      forall steps | Reach(p, steps).Some? ensures Alike(repr, Reach(p, steps).value) {
        AlikeExactly(repr, Reach(p, steps).value);
        forall d ensures !Due(repr, Reach(p, steps).value, d) { DiffsExact(repr, p, d); }
      }
    } else {
      var d := DiffsAt(repr, p)[0];
      var steps := FoundDue(repr, p, d);
      AlikeExactly(repr, Reach(p, steps).value);
    }
  }
}
