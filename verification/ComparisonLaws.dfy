/** Laws of the comparison: a schema never differs from itself, violations come with
    differences, and documenting a key removes exactly the violations with that key. */
module ComparisonLaws {
  import opened JsonValues
  import opened Conformance

  // ---------- comparing a schema with itself ----------

  lemma {:induction false} SelfMissing(repr: Json -> string, ctx: string, rest: Fields, props: Fields)
    ensures MissingDiffs(repr, ctx, rest, props, props) == []
    ensures ExtensionDiffs(repr, ctx, rest, props, props) == []
  {
    if rest.Field? { SelfMissing(repr, ctx, rest.rest, props); }
  }

  lemma {:induction false} SelfExtra(ctx: string, f: string, rest: Fields, ov: Fields)
    requires forall k :: Has(rest, k) ==> Has(ov, k)
    ensures ExtraVariantDiffs(ctx, f, rest, ov) == []
  {
    if rest.Field? {
      assert Has(rest, rest.key);
      forall k | Has(rest.rest, k) ensures Has(ov, k) { assert Has(rest, k); }
      SelfExtra(ctx, f, rest.rest, ov);
    }
  }

  /** A schema compared with itself has no difference at any depth. */
  lemma {:induction false} SelfNoDiffs(repr: Json -> string, ctx: string, j: Json)
    ensures Diffs(repr, ctx, j, j) == []
    decreases Size(j), 1, 0
  {
    SelfMissing(repr, ctx, Properties(j), Properties(j));
    SelfCommon(repr, ctx, Properties(j), j);
  }

  lemma {:induction false} SelfCommon(repr: Json -> string, ctx: string, rest: Fields, j: Json)
    ensures CommonDiffs(repr, ctx, rest, j, j) == []
    decreases Size(j), 0, FieldsSize(rest)
  {
    if rest.Field? {
      if Has(Properties(j), rest.key) {
        PropertiesSmaller(j, rest.key);
        SelfNested(repr, ctx, rest.key, Get(Properties(j), rest.key).value);
      }
      assert CommonDiff(repr, ctx, rest.key, j, j) == [];
      SelfCommon(repr, ctx, rest.rest, j);
    }
  }

  lemma {:induction false} SelfNested(repr: Json -> string, ctx: string, f: string, field: Json)
    ensures NestedDiffs(repr, ctx, f, field, field) == []
    decreases Size(field), 4, 0
  {
    SelfNoDiffs(repr, FieldContext(ctx, f), field);
    SelfVariants(repr, ctx, f, Variants(Items(field)), field);
    SelfExtra(ctx, f, Variants(Items(field)), Variants(Items(field)));
    assert UnionDiffs(repr, ctx, f, field, field) == [];
  }

  lemma {:induction false} SelfVariants(repr: Json -> string, ctx: string, f: string, rest: Fields, field: Json)
    ensures VariantDiffs(repr, ctx, f, rest, field, field) == []
    decreases Size(field), 2, FieldsSize(rest)
  {
    if rest.Field? {
      if Has(Variants(Items(field)), rest.key) {
        VariantsSmaller(field, rest.key);
        SelfNoDiffs(repr, VariantContext(ctx, f, rest.key), Get(Variants(Items(field)), rest.key).value);
      }
      assert VariantDiff(repr, ctx, f, rest.key, field, field) == [];
      SelfVariants(repr, ctx, f, rest.rest, field);
    }
  }

  // ---------- no difference, no violation ----------

  lemma {:induction false} NoMissing(repr: Json -> string, documented: set<DocKey>, place: Place, ctx: string,
                                     rest: Fields, oProps: Fields, hProps: Fields)
    requires forall k :: Has(rest, k) ==> Has(oProps, k)
    requires MissingDiffs(repr, ctx, rest, oProps, hProps) == []
    ensures MissingViolations(documented, place, rest, hProps) == []
  {
    if rest.Field? {
      assert Has(rest, rest.key);
      forall k | Has(rest.rest, k) ensures Has(oProps, k) { assert Has(rest, k); }
      NoMissing(repr, documented, place, ctx, rest.rest, oProps, hProps);
    }
  }

  lemma {:induction false} NoExtension(repr: Json -> string, place: Place, ctx: string,
                                       rest: Fields, hProps: Fields, oProps: Fields)
    requires forall k :: Has(rest, k) ==> Has(hProps, k)
    requires ExtensionDiffs(repr, ctx, rest, hProps, oProps) == []
    ensures ExtensionViolations(place, rest, hProps, oProps) == []
  {
    if rest.Field? {
      assert Has(rest, rest.key);
      forall k | Has(rest.rest, k) ensures Has(hProps, k) { assert Has(rest, k); }
      NoExtension(repr, place, ctx, rest.rest, hProps, oProps);
    }
  }

  /** Violations are only reported together with a difference. */
  lemma {:induction false} NoDiffsNoViolations(repr: Json -> string, documented: set<DocKey>, place: Place,
    ctx: string, o: Json, h: Json)
    requires Diffs(repr, ctx, o, h) == []
    ensures Violations(documented, place, ctx, o, h) == []
    decreases Size(o), 1, 0
  {
    NoMissing(repr, documented, place, ctx, Properties(o), Properties(o), Properties(h));
    NoExtension(repr, place, ctx, Properties(h), Properties(h), Properties(o));
    NoCommon(repr, documented, place, ctx, Properties(o), o, h);
  }

  lemma {:induction false} NoCommon(repr: Json -> string, documented: set<DocKey>, place: Place, ctx: string,
    rest: Fields, o: Json, h: Json)
    requires CommonDiffs(repr, ctx, rest, o, h) == []
    ensures CommonViolations(documented, place, ctx, rest, o, h) == []
    decreases Size(o), 0, FieldsSize(rest)
  {
    if rest.Field? {
      assert CommonDiff(repr, ctx, rest.key, o, h) == [];
      if Has(Properties(o), rest.key) && Has(Properties(h), rest.key) {
        PropertiesSmaller(o, rest.key);
        NoNested(repr, documented, place, ctx, rest.key, Get(Properties(o), rest.key).value,
          Get(Properties(h), rest.key).value);
      }
      NoCommon(repr, documented, place, ctx, rest.rest, o, h);
    }
  }

  lemma {:induction false} NoNested(repr: Json -> string, documented: set<DocKey>, place: Place, ctx: string,
    f: string, oField: Json, hField: Json)
    requires NestedDiffs(repr, ctx, f, oField, hField) == []
    ensures NestedViolations(documented, place, ctx, f, oField, hField) == []
    decreases Size(oField), 4, 0
  {
    if TypeIs(oField, "object") && TypeIs(hField, "object") {
      NoDiffsNoViolations(repr, documented, place, FieldContext(ctx, f), oField, hField);
    }
    if IsArrayType(oField) && IsArrayType(hField) {
      assert UnionDiffs(repr, ctx, f, oField, hField) == [];
      if Variants(Items(oField)).Field? && Variants(Items(hField)).Field? {
        NoVariants(repr, documented, place, ctx, f, Variants(Items(oField)), oField, hField);
      }
      assert UnionViolations(documented, place, ctx, f, oField, hField) == [];
    }
  }

  lemma {:induction false} NoVariants(repr: Json -> string, documented: set<DocKey>, place: Place, ctx: string,
    f: string, rest: Fields, oField: Json, hField: Json)
    requires VariantDiffs(repr, ctx, f, rest, oField, hField) == []
    ensures VariantViolations(documented, place, ctx, f, rest, oField, hField) == []
    decreases Size(oField), 2, FieldsSize(rest)
  {
    if rest.Field? {
      var ov, hv := Variants(Items(oField)), Variants(Items(hField));
      assert VariantDiff(repr, ctx, f, rest.key, oField, hField) == [];
      if Has(ov, rest.key) && Has(hv, rest.key) {
        VariantsSmaller(oField, rest.key);
        NoDiffsNoViolations(repr, documented, place, VariantContext(ctx, f, rest.key),
                            Get(ov, rest.key).value, Get(hv, rest.key).value);
      }
      NoVariants(repr, documented, place, ctx, f, rest.rest, oField, hField);
    }
  }

  // ---------- documenting one more key ----------

  /** The violations other than the undocumented-missing ones with the given key. */
  function Forgive(vs: seq<Violation>, key: DocKey): seq<Violation> {
    if vs == [] then []
    else (if vs[0] == Violation(UndocumentedMissing, key) then [] else [vs[0]]) + Forgive(vs[1..], key)
  }

  lemma {:induction false} ForgiveConcat(a: seq<Violation>, b: seq<Violation>, key: DocKey)
    ensures Forgive(a + b, key) == Forgive(a, key) + Forgive(b, key)
    decreases |a|
  {
    if a == [] {
      assert a + b == b;
    } else {
      assert (a + b)[0] == a[0] && (a + b)[1..] == a[1..] + b;
      ForgiveConcat(a[1..], b, key);
    }
  }

  lemma ForgiveOne(documented: set<DocKey>, key: DocKey, found: DocKey)
    ensures Undocumented(documented + {key}, found) == Forgive(Undocumented(documented, found), key)
  {
    assert Forgive([], key) == [];
  }

  lemma {:induction false} ForgiveMissing(documented: set<DocKey>, key: DocKey, place: Place, rest: Fields,
    hProps: Fields)
    ensures MissingViolations(documented + {key}, place, rest, hProps) ==
            Forgive(MissingViolations(documented, place, rest, hProps), key)
  {
    if rest.Field? {
      ForgiveOne(documented, key, At(place, rest.key));
      ForgiveConcat(MissingViolation(documented, place, rest.key, hProps),
        MissingViolations(documented, place, rest.rest, hProps), key);
      ForgiveMissing(documented, key, place, rest.rest, hProps);
    }
  }

  lemma {:induction false} ForgiveExtension(key: DocKey, place: Place, rest: Fields, hProps: Fields, oProps: Fields)
    ensures ExtensionViolations(place, rest, hProps, oProps) ==
            Forgive(ExtensionViolations(place, rest, hProps, oProps), key)
  {
    if rest.Field? {
      ForgiveExtension(key, place, rest.rest, hProps, oProps);
      var tail := ExtensionViolations(place, rest.rest, hProps, oProps);
      var all := ExtensionViolations(place, rest, hProps, oProps);
      if all != tail {
        assert all == [Violation(UnmarkedExtension, At(place, rest.key))] + tail;
        assert all[1..] == tail;
      }
    }
  }

  /** Documenting one more key removes exactly the undocumented-missing violations with
      that key and nothing else. */
  lemma {:induction false} DocumentOne(documented: set<DocKey>, key: DocKey, place: Place, ctx: string, o: Json,
    h: Json)
    ensures Violations(documented + {key}, place, ctx, o, h) == Forgive(Violations(documented, place, ctx, o, h), key)
    decreases Size(o), 1, 0
  {
    var missing := MissingViolations(documented, place, Properties(o), Properties(h));
    var extension := ExtensionViolations(place, Properties(h), Properties(h), Properties(o));
    ForgiveMissing(documented, key, place, Properties(o), Properties(h));
    ForgiveExtension(key, place, Properties(h), Properties(h), Properties(o));
    DocumentCommon(documented, key, place, ctx, Properties(o), o, h);
    ForgiveConcat(missing, extension, key);
    ForgiveConcat(missing + extension, CommonViolations(documented, place, ctx, Properties(o), o, h), key);
  }

  lemma {:induction false} DocumentCommon(documented: set<DocKey>, key: DocKey, place: Place, ctx: string,
    rest: Fields, o: Json, h: Json)
    ensures CommonViolations(documented + {key}, place, ctx, rest, o, h) ==
            Forgive(CommonViolations(documented, place, ctx, rest, o, h), key)
    decreases Size(o), 0, FieldsSize(rest)
  {
    if rest.Field? {
      var first := CommonViolation(documented, place, ctx, rest.key, o, h);
      if Has(Properties(o), rest.key) && Has(Properties(h), rest.key) {
        PropertiesSmaller(o, rest.key);
        DocumentNested(documented, key, place, ctx, rest.key, Get(Properties(o), rest.key).value,
          Get(Properties(h), rest.key).value);
      }
      assert CommonViolation(documented + {key}, place, ctx, rest.key, o, h) == Forgive(first, key);
      ForgiveConcat(first, CommonViolations(documented, place, ctx, rest.rest, o, h), key);
      DocumentCommon(documented, key, place, ctx, rest.rest, o, h);
    }
  }

  lemma {:induction false} DocumentNested(documented: set<DocKey>, key: DocKey, place: Place, ctx: string, f: string,
    oField: Json, hField: Json)
    ensures NestedViolations(documented + {key}, place, ctx, f, oField, hField) ==
            Forgive(NestedViolations(documented, place, ctx, f, oField, hField), key)
    decreases Size(oField), 4, 0
  {
    DocumentOne(documented, key, place, FieldContext(ctx, f), oField, hField);
    DocumentVariants(documented, key, place, ctx, f, Variants(Items(oField)), oField, hField);
    assert UnionViolations(documented + {key}, place, ctx, f, oField, hField) ==
           Forgive(UnionViolations(documented, place, ctx, f, oField, hField), key);
    var objects := if TypeIs(oField, "object") && TypeIs(hField, "object")
                   then Violations(documented, place, FieldContext(ctx, f), oField, hField) else [];
    var unions := if IsArrayType(oField) && IsArrayType(hField)
                  then UnionViolations(documented, place, ctx, f, oField, hField) else [];
    ForgiveConcat(objects, unions, key);
  }

  lemma {:induction false} DocumentVariants(documented: set<DocKey>, key: DocKey, place: Place, ctx: string, f: string,
                                            rest: Fields, oField: Json, hField: Json)
    ensures VariantViolations(documented + {key}, place, ctx, f, rest, oField, hField) ==
            Forgive(VariantViolations(documented, place, ctx, f, rest, oField, hField), key)
    decreases Size(oField), 3, FieldsSize(rest)
  {
    if rest.Field? {
      DocumentVariant(documented, key, place, ctx, f, rest.key, oField, hField);
      ForgiveConcat(VariantViolation(documented, place, ctx, f, rest.key, oField, hField),
                    VariantViolations(documented, place, ctx, f, rest.rest, oField, hField), key);
      DocumentVariants(documented, key, place, ctx, f, rest.rest, oField, hField);
    }
  }

  lemma {:induction false} DocumentVariant(documented: set<DocKey>, key: DocKey, place: Place, ctx: string, f: string,
                                           t: string, oField: Json, hField: Json)
    ensures VariantViolation(documented + {key}, place, ctx, f, t, oField, hField) ==
            Forgive(VariantViolation(documented, place, ctx, f, t, oField, hField), key)
    decreases Size(oField), 2, 0
  {
    var ov, hv := Variants(Items(oField)), Variants(Items(hField));
    if Has(ov, t) && Has(hv, t) {
      VariantsSmaller(oField, t);
      DocumentOne(documented, key, place, VariantContext(ctx, f, t), Get(ov, t).value, Get(hv, t).value);
    } else {
      ForgiveOne(documented, key, At(place, VariantKey(place.path, ctx, f, t)));
    }
  }
}
