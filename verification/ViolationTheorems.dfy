/** Which violations are reported: exactly those that some position reached by parallel descent is at fault for. */
module ViolationTheorems {
  import opened JsonValues
  import opened Conformance
  import opened GateTheorems
  import opened SchemaReading
  import opened DiffTheorems

  // ---------- what one position is at fault for, spelled out ----------

  /** `v` says that `field` is missing, and it is not documented. */
  ghost predicate NotDocumented(documented: set<DocKey>, place: Place, field: string, v: Violation) {
    var key := DocKey(place.path, place.verb, place.location, field);
    key !in documented && v == Violation(UndocumentedMissing, key)
  }

  ghost predicate MissingFault(documented: set<DocKey>, place: Place, p: Position, v: Violation) {
    && HasProperty(p.o, v.key.field) && !HasProperty(p.h, v.key.field)
    && NotDocumented(documented, place, v.key.field, v)
  }

  /** A field that only Hadrian has, without the marker in its description. */
  ghost predicate UnmarkedFault(place: Place, p: Position, v: Violation) {
    exists w :: Property(p.h, v.key.field, w) && !HasProperty(p.o, v.key.field)
      && !MarkedBy(w, "**Hadrian Extension:**")
      && v == Violation(UnmarkedExtension, DocKey(place.path, place.verb, place.location, v.key.field))
  }

  ghost predicate VariantFault(documented: set<DocKey>, place: Place, p: Position, f: string, t: string, v: Violation) {
    exists o, h :: Unions(p, f, o, h) && HasVariant(o, t) && !HasVariant(h, t)
      && NotDocumented(documented, place, VariantKey(place.path, p.ctx, f, t), v)
  }

  ghost predicate Fault(documented: set<DocKey>, place: Place, p: Position, v: Violation) {
    || MissingFault(documented, place, p, v) || UnmarkedFault(place, p, v)
    || exists f, t :: VariantFault(documented, place, p, f, t, v)
  }

  // ---------- the collecting loops ----------

  lemma {:induction false} InMissing(documented: set<DocKey>, place: Place, rest: Fields, hProps: Fields, v: Violation)
    ensures v in MissingViolations(documented, place, rest, hProps) <==>
      Has(rest, v.key.field) && v in MissingViolation(documented, place, v.key.field, hProps)
  {
    if rest.Field? { InMissing(documented, place, rest.rest, hProps, v); }
  }

  lemma {:induction false} InExtension(place: Place, rest: Fields, hProps: Fields, oProps: Fields, v: Violation)
    ensures v in ExtensionViolations(place, rest, hProps, oProps) <==>
      Has(rest, v.key.field) && v in ExtensionViolation(place, v.key.field, hProps, oProps)
  {
    if rest.Field? { InExtension(place, rest.rest, hProps, oProps, v); }
  }

  lemma {:induction false} InCommon(documented: set<DocKey>, place: Place, ctx: string, rest: Fields, o: Json, h: Json,
                                    v: Violation)
    ensures v in CommonViolations(documented, place, ctx, rest, o, h) <==>
      exists f :: Has(rest, f) && v in CommonViolation(documented, place, ctx, f, o, h)
  {
    if rest.Field? {
      InCommon(documented, place, ctx, rest.rest, o, h, v);
      assert Has(rest, rest.key) && forall f :: Has(rest.rest, f) ==> Has(rest, f);
      assert v in CommonViolations(documented, place, ctx, rest, o, h) <==>
        || v in CommonViolation(documented, place, ctx, rest.key, o, h)
        || v in CommonViolations(documented, place, ctx, rest.rest, o, h);
      if f :| Has(rest, f) && v in CommonViolation(documented, place, ctx, f, o, h) && f != rest.key {
        assert Has(rest.rest, f);
      }
    }
  }

  lemma InVariants(documented: set<DocKey>, place: Place, ctx: string, f: string, rest: Fields, o: Json, h: Json,
                   v: Violation)
    ensures v in VariantViolations(documented, place, ctx, f, rest, o, h) <==>
      exists t :: Has(rest, t) && v in VariantViolation(documented, place, ctx, f, t, o, h)
  {
    if v in VariantViolations(documented, place, ctx, f, rest, o, h) {
      var t := VariantFound(documented, place, ctx, f, rest, o, h, v);
    }
    if t :| Has(rest, t) && v in VariantViolation(documented, place, ctx, f, t, o, h) {
      VariantCollected(documented, place, ctx, f, rest, o, h, v, t);
    }
  }

  lemma {:induction false} VariantFound(documented: set<DocKey>, place: Place, ctx: string, f: string, rest: Fields,
                                        o: Json, h: Json, v: Violation) returns (t: string)
    requires v in VariantViolations(documented, place, ctx, f, rest, o, h)
    ensures Has(rest, t) && v in VariantViolation(documented, place, ctx, f, t, o, h)
    decreases rest
  {
    if v in VariantViolation(documented, place, ctx, f, rest.key, o, h) {
      t := rest.key;
    } else {
      t := VariantFound(documented, place, ctx, f, rest.rest, o, h, v);
    }
  }

  lemma {:induction false} VariantCollected(documented: set<DocKey>, place: Place, ctx: string, f: string, rest: Fields,
                                            o: Json, h: Json, v: Violation, t: string)
    requires Has(rest, t) && v in VariantViolation(documented, place, ctx, f, t, o, h)
    ensures v in VariantViolations(documented, place, ctx, f, rest, o, h)
    decreases rest
  {
    if rest.key != t { VariantCollected(documented, place, ctx, f, rest.rest, o, h, v, t); }
  }

  // ---------- one level ----------

  lemma MissingExactly(documented: set<DocKey>, place: Place, p: Position, v: Violation)
    ensures v in MissingViolations(documented, place, Properties(p.o), Properties(p.h)) <==>
      MissingFault(documented, place, p, v)
  {
    InMissing(documented, place, Properties(p.o), Properties(p.h), v);
    PropertyExactly(p.o, v.key.field);
    PropertyExactly(p.h, v.key.field);
  }

  lemma UnmarkedExactly(place: Place, p: Position, v: Violation)
    ensures v in ExtensionViolations(place, Properties(p.h), Properties(p.h), Properties(p.o)) <==>
      UnmarkedFault(place, p, v)
  {
    InExtension(place, Properties(p.h), Properties(p.h), Properties(p.o), v);
    PropertyExactly(p.o, v.key.field);
    PropertyExactly(p.h, v.key.field);
    if Has(Properties(p.h), v.key.field) {
      var w := Get(Properties(p.h), v.key.field).value;
      assert Property(p.h, v.key.field, w);
      MarkedExactly(w);
    }
  }

  /** Some child of `p` below the field `f` has the violation. */
  ghost predicate Below(documented: set<DocKey>, place: Place, p: Position, f: string, v: Violation) {
    exists s: Step :: s.field == f && Descend(p, s).Some? && v in Found(documented, place, Descend(p, s).value)
  }

  lemma InVariant(documented: set<DocKey>, place: Place, p: Position, f: string, t: string, v: Violation)
    requires Common(p, f)
    requires var o, h := Get(Properties(p.o), f).value, Get(Properties(p.h), f).value;
      BothUnions(o, h) && Has(Variants(Items(o)), t)
    ensures var o, h := Get(Properties(p.o), f).value, Get(Properties(p.h), f).value;
      && (Descend(p, Through(f, t)).Some? <==> Has(Variants(Items(h)), t))
      && (v in VariantViolation(documented, place, p.ctx, f, t, o, h) <==>
            if Has(Variants(Items(h)), t) then v in Found(documented, place, Descend(p, Through(f, t)).value)
            else VariantFault(documented, place, p, f, t, v))
  {
    VariantFaultExactly(documented, place, p, f, t, v);
  }

  lemma VariantFaultExactly(documented: set<DocKey>, place: Place, p: Position, f: string, t: string, v: Violation)
    requires Common(p, f)
    ensures var o, h := Get(Properties(p.o), f).value, Get(Properties(p.h), f).value;
      VariantFault(documented, place, p, f, t, v) <==>
      && BothUnions(o, h) && Has(Variants(Items(o)), t) && !Has(Variants(Items(h)), t)
      && v in Undocumented(documented, At(place, VariantKey(place.path, p.ctx, f, t)))
  {
    UnionsExactly(p, f, t);
    var o, h := Get(Properties(p.o), f).value, Get(Properties(p.h), f).value;
    if BothUnions(o, h) { assert Unions(p, f, o, h); }
  }

  lemma InUnions(documented: set<DocKey>, place: Place, p: Position, f: string, v: Violation)
    requires Common(p, f)
    ensures var o, h := Get(Properties(p.o), f).value, Get(Properties(p.h), f).value;
      IsArrayType(o) && IsArrayType(h) && v in UnionViolations(documented, place, p.ctx, f, o, h) <==>
      || (exists t :: VariantFault(documented, place, p, f, t, v))
      || exists t :: Descend(p, Through(f, t)).Some? && v in Found(documented, place, Descend(p, Through(f, t)).value)
  {
    var o, h := Get(Properties(p.o), f).value, Get(Properties(p.h), f).value;
    var ov := Variants(Items(o));
    forall t | VariantFault(documented, place, p, f, t, v) ensures BothUnions(o, h) && Has(ov, t) {
      VariantFaultExactly(documented, place, p, f, t, v);
    }
    if BothUnions(o, h) {
      InVariants(documented, place, p.ctx, f, ov, o, h, v);
      forall t | Has(ov, t)
        ensures v in VariantViolation(documented, place, p.ctx, f, t, o, h) <==>
          if Descend(p, Through(f, t)).Some? then v in Found(documented, place, Descend(p, Through(f, t)).value)
          else VariantFault(documented, place, p, f, t, v)
      {
        InVariant(documented, place, p, f, t, v);
      }
      forall t | VariantFault(documented, place, p, f, t, v) ensures Descend(p, Through(f, t)).None? {
        VariantFaultExactly(documented, place, p, f, t, v);
      }
    }
  }

  lemma FieldExactly(documented: set<DocKey>, place: Place, p: Position, f: string, v: Violation)
    requires Common(p, f)
    ensures v in CommonViolation(documented, place, p.ctx, f, p.o, p.h) <==>
      (exists t :: VariantFault(documented, place, p, f, t, v)) || Below(documented, place, p, f, v)
  {
    var o, h := Get(Properties(p.o), f).value, Get(Properties(p.h), f).value;
    InUnions(documented, place, p, f, v);
    assert Descend(p, Into(f)).Some? <==> TypeIs(o, "object") && TypeIs(h, "object");
    assert v in NestedViolations(documented, place, p.ctx, f, o, h) <==>
      || (Descend(p, Into(f)).Some? && v in Found(documented, place, Descend(p, Into(f)).value))
      || (IsArrayType(o) && IsArrayType(h) && v in UnionViolations(documented, place, p.ctx, f, o, h));
    if s: Step :| s.field == f && Descend(p, s).Some? && v in Found(documented, place, Descend(p, s).value) {
      assert s == Into(f) || (s.Through? && s == Through(f, s.variant));
    }
  }

  lemma CommonExactly(documented: set<DocKey>, place: Place, p: Position, v: Violation)
    ensures v in CommonViolations(documented, place, p.ctx, Properties(p.o), p.o, p.h) <==>
      || (exists f, t :: VariantFault(documented, place, p, f, t, v))
      || exists f :: Below(documented, place, p, f, v)
  {
    InCommon(documented, place, p.ctx, Properties(p.o), p.o, p.h, v);
    if f :| Has(Properties(p.o), f) && v in CommonViolation(documented, place, p.ctx, f, p.o, p.h) {
      FieldExactly(documented, place, p, f, v);
    }
    if f, t :| VariantFault(documented, place, p, f, t, v) {
      PropertyExactly(p.o, f);
      PropertyExactly(p.h, f);
      FieldExactly(documented, place, p, f, v);
    }
    if f :| Below(documented, place, p, f, v) { FieldExactly(documented, place, p, f, v); }
  }

  lemma OneLevelFaults(documented: set<DocKey>, place: Place, p: Position, v: Violation)
    ensures v in Found(documented, place, p) <==>
      || Fault(documented, place, p, v)
      || exists s :: Descend(p, s).Some? && v in Found(documented, place, Descend(p, s).value)
  {
    MissingExactly(documented, place, p, v);
    UnmarkedExactly(place, p, v);
    CommonExactly(documented, place, p, v);
    if s :| Descend(p, s).Some? && v in Found(documented, place, Descend(p, s).value) {
      assert Below(documented, place, p, s.field, v);
    }
  }

  // ---------- at any depth ----------

  lemma {:induction false} FaultFound(documented: set<DocKey>, place: Place, p: Position, steps: seq<Step>,
    v: Violation)
    requires Reach(p, steps).Some? && Fault(documented, place, Reach(p, steps).value, v)
    ensures v in Found(documented, place, p)
    decreases |steps|
  {
    OneLevelFaults(documented, place, p, v);
    if steps != [] { FaultFound(documented, place, Descend(p, steps[0]).value, steps[1..], v); }
  }

  lemma {:induction false} FoundFault(documented: set<DocKey>, place: Place, p: Position, v: Violation)
    returns (steps: seq<Step>)
    requires v in Found(documented, place, p)
    ensures Reach(p, steps).Some? && Fault(documented, place, Reach(p, steps).value, v)
    decreases Size(p.o)
  {
    OneLevelFaults(documented, place, p, v);
    if Fault(documented, place, p, v) {
      steps := [];
    } else {
      var s :| Descend(p, s).Some? && v in Found(documented, place, Descend(p, s).value);
      var more := FoundFault(documented, place, Descend(p, s).value, v);
      steps := [s] + more;
      assert steps[0] == s && steps[1..] == more;
    }
  }

  /** Some position reached is at fault for the violation. */
  ghost predicate FaultBelow(documented: set<DocKey>, place: Place, p: Position, v: Violation) {
    exists steps :: Reach(p, steps).Some? && Fault(documented, place, Reach(p, steps).value, v)
  }

  /** A violation is reported exactly when some position reached is at fault for it. */
  lemma FaultsExact(documented: set<DocKey>, place: Place, p: Position, v: Violation)
    ensures v in Found(documented, place, p) <==> FaultBelow(documented, place, p, v)
  {
    if v in Found(documented, place, p) { var steps := FoundFault(documented, place, p, v); }
    if steps :| Reach(p, steps).Some? && Fault(documented, place, Reach(p, steps).value, v) {
      FaultFound(documented, place, p, steps, v);
    }
  }
}
