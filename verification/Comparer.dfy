/** The collecting loops of `_compare_schemas` and `_compare_union_items`, proved to
    compute the differences and violations of module Conformance. */
module Comparer {
  import opened Basics
  import opened JsonValues
  import opened Conformance

  /** Appending the next piece moves it from the right of the invariant to the left. */
  lemma Shift<T>(a: seq<T>, b: seq<T>, c: seq<T>)
    ensures a + (b + c) == (a + b) + c
  {
  }

  method CompareSchemas(repr: Json -> string, documented: set<DocKey>, place: Place, ctx: string, o: Json, h: Json)
    returns (diffs: seq<SchemaDiff>, violations: seq<Violation>)
    ensures diffs == Diffs(repr, ctx, o, h)
    ensures violations == Violations(documented, place, ctx, o, h)
    decreases Size(o), 1, 1
  {
    var missingDiffs, missing := CompareMissing(repr, documented, place, ctx, Properties(o), Properties(h));
    var extensionDiffs, extension := CompareExtensions(repr, place, ctx, Properties(o), Properties(h));
    var commonDiffs, common := CompareCommon(repr, documented, place, ctx, o, h);
    diffs := missingDiffs + extensionDiffs + commonDiffs;
    violations := missing + extension + common;
  }

  method CompareMissing(repr: Json -> string, documented: set<DocKey>, place: Place, ctx: string, oProps: Fields,
    hProps: Fields)
    returns (diffs: seq<SchemaDiff>, violations: seq<Violation>)
    ensures diffs == MissingDiffs(repr, ctx, oProps, oProps, hProps)
    ensures violations == MissingViolations(documented, place, oProps, hProps)
  {
    diffs, violations := [], [];
    var rest := oProps;
    ghost var allDiffs, all := MissingDiffs(repr, ctx, oProps, oProps, hProps),
      MissingViolations(documented, place, oProps, hProps);
    while rest.Field?
      invariant diffs + MissingDiffs(repr, ctx, rest, oProps, hProps) == allDiffs
      invariant violations + MissingViolations(documented, place, rest, hProps) == all
      decreases rest
    {
      var f := rest.key;
      Shift(diffs, MissingDiff(repr, ctx, f, oProps, hProps), MissingDiffs(repr, ctx, rest.rest, oProps, hProps));
      Shift(violations, MissingViolation(documented, place, f, hProps),
        MissingViolations(documented, place, rest.rest, hProps));
      diffs := diffs + MissingDiff(repr, ctx, f, oProps, hProps);
      violations := violations + MissingViolation(documented, place, f, hProps);
      rest := rest.rest;
    }
  }

  method CompareExtensions(repr: Json -> string, place: Place, ctx: string, oProps: Fields, hProps: Fields)
    returns (diffs: seq<SchemaDiff>, violations: seq<Violation>)
    ensures diffs == ExtensionDiffs(repr, ctx, hProps, hProps, oProps)
    ensures violations == ExtensionViolations(place, hProps, hProps, oProps)
  {
    diffs, violations := [], [];
    var rest := hProps;
    ghost var allDiffs, all := ExtensionDiffs(repr, ctx, hProps, hProps, oProps),
      ExtensionViolations(place, hProps, hProps, oProps);
    while rest.Field?
      invariant diffs + ExtensionDiffs(repr, ctx, rest, hProps, oProps) == allDiffs
      invariant violations + ExtensionViolations(place, rest, hProps, oProps) == all
      decreases rest
    {
      var f := rest.key;
      Shift(diffs, ExtensionDiff(repr, ctx, f, hProps, oProps), ExtensionDiffs(repr, ctx, rest.rest, hProps, oProps));
      Shift(violations, ExtensionViolation(place, f, hProps, oProps),
        ExtensionViolations(place, rest.rest, hProps, oProps));
      diffs := diffs + ExtensionDiff(repr, ctx, f, hProps, oProps);
      violations := violations + ExtensionViolation(place, f, hProps, oProps);
      rest := rest.rest;
    }
  }

  method CompareCommon(repr: Json -> string, documented: set<DocKey>, place: Place, ctx: string, o: Json, h: Json)
    returns (diffs: seq<SchemaDiff>, violations: seq<Violation>)
    ensures diffs == CommonDiffs(repr, ctx, Properties(o), o, h)
    ensures violations == CommonViolations(documented, place, ctx, Properties(o), o, h)
    decreases Size(o), 1, 0
  {
    diffs, violations := [], [];
    var rest := Properties(o);
    ghost var allDiffs, all := CommonDiffs(repr, ctx, rest, o, h), CommonViolations(documented, place, ctx, rest, o, h);
    while rest.Field?
      invariant diffs + CommonDiffs(repr, ctx, rest, o, h) == allDiffs
      invariant violations + CommonViolations(documented, place, ctx, rest, o, h) == all
      decreases rest
    {
      var moreDiffs, more := CompareField(repr, documented, place, ctx, rest.key, o, h);
      Shift(diffs, moreDiffs, CommonDiffs(repr, ctx, rest.rest, o, h));
      Shift(violations, more, CommonViolations(documented, place, ctx, rest.rest, o, h));
      diffs, violations := diffs + moreDiffs, violations + more;
      rest := rest.rest;
    }
  }

  method CompareField(repr: Json -> string, documented: set<DocKey>, place: Place, ctx: string, f: string, o: Json,
    h: Json)
    returns (diffs: seq<SchemaDiff>, violations: seq<Violation>)
    ensures diffs == CommonDiff(repr, ctx, f, o, h)
    ensures violations == CommonViolation(documented, place, ctx, f, o, h)
    decreases Size(o), 0, 0
  {
    diffs, violations := [], [];
    if Has(Properties(o), f) && Has(Properties(h), f) {
      PropertiesSmaller(o, f);
      var oField, hField := Get(Properties(o), f).value, Get(Properties(h), f).value;
      var nestedDiffs, nested := CompareNested(repr, documented, place, ctx, f, oField, hField);
      diffs := TypeDiff(repr, ctx, f, oField, hField) + RequiredDiff(ctx, f, o, h) + nestedDiffs;
      violations := nested;
    }
  }

  method CompareNested(repr: Json -> string, documented: set<DocKey>, place: Place, ctx: string, f: string,
    oField: Json, hField: Json)
    returns (diffs: seq<SchemaDiff>, violations: seq<Violation>)
    ensures diffs == NestedDiffs(repr, ctx, f, oField, hField)
    ensures violations == NestedViolations(documented, place, ctx, f, oField, hField)
    decreases Size(oField), 4, 0
  {
    diffs, violations := [], [];
    if TypeIs(oField, "object") && TypeIs(hField, "object") {
      diffs, violations := CompareSchemas(repr, documented, place, FieldContext(ctx, f), oField, hField);
    }
    if IsArrayType(oField) && IsArrayType(hField) {
      var unionDiffs, union := CompareUnionItems(repr, documented, place, ctx, f, oField, hField);
      diffs, violations := diffs + unionDiffs, violations + union;
    }
  }

  method CompareUnionItems(repr: Json -> string, documented: set<DocKey>, place: Place, ctx: string, f: string,
    oField: Json, hField: Json)
    returns (diffs: seq<SchemaDiff>, violations: seq<Violation>)
    ensures diffs == UnionDiffs(repr, ctx, f, oField, hField)
    ensures violations == UnionViolations(documented, place, ctx, f, oField, hField)
    decreases Size(oField), 3, 0
  {
    diffs, violations := [], [];
    var ov, hv := Variants(Items(oField)), Variants(Items(hField));
    if ov.Empty? || hv.Empty? {
      return;
    }
    var rest := ov;
    ghost var allDiffs, all :=
      VariantDiffs(repr, ctx, f, ov, oField, hField), VariantViolations(documented, place, ctx, f, ov, oField, hField);
    while rest.Field?
      invariant diffs + VariantDiffs(repr, ctx, f, rest, oField, hField) == allDiffs
      invariant violations + VariantViolations(documented, place, ctx, f, rest, oField, hField) == all
      decreases rest
    {
      var moreDiffs, more := CompareVariant(repr, documented, place, ctx, f, rest.key, oField, hField);
      Shift(diffs, moreDiffs, VariantDiffs(repr, ctx, f, rest.rest, oField, hField));
      Shift(violations, more, VariantViolations(documented, place, ctx, f, rest.rest, oField, hField));
      diffs, violations := diffs + moreDiffs, violations + more;
      rest := rest.rest;
    }
    diffs := diffs + ExtraVariantDiffs(ctx, f, hv, ov);
  }

  method CompareVariant(repr: Json -> string, documented: set<DocKey>, place: Place, ctx: string, f: string, t: string,
    oField: Json, hField: Json)
    returns (diffs: seq<SchemaDiff>, violations: seq<Violation>)
    ensures diffs == VariantDiff(repr, ctx, f, t, oField, hField)
    ensures violations == VariantViolation(documented, place, ctx, f, t, oField, hField)
    decreases Size(oField), 2, 0
  {
    diffs, violations := [], [];
    var ov, hv := Variants(Items(oField)), Variants(Items(hField));
    if Has(ov, t) {
      if Has(hv, t) {
        VariantsSmaller(oField, t);
        diffs, violations := CompareSchemas(repr, documented, place, VariantContext(ctx, f, t), Get(ov, t).value,
          Get(hv, t).value);
      } else {
        diffs := [SchemaDiff(ItemsContext(ctx, f), t, MissingInHadrian, Some("object"), None)];
        violations := Undocumented(documented, At(place, VariantKey(place.path, ctx, f, t)));
      }
    }
  }
}
