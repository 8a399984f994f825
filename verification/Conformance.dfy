/** `ConformanceChecker`: parallel descent through two resolved schemas, collecting the
    differences for the report and the violations that fail the CI gate. */
module Conformance {
  import opened Basics
  import opened JsonValues
  import opened SchemaPieces

  datatype DiffKind = MissingInHadrian | HadrianExtension | TypeMismatch | RequiredMismatch

  datatype SchemaDiff = SchemaDiff(path: string, field: string, kind: DiffKind,
                                   openai: Option<string>, hadrian: Option<string>)

  datatype ViolationKind = UndocumentedMissing | UnmarkedExtension | MissingEndpoint

  /** A key of DOCUMENTED_MISSING_FIELDS; it also says where a violation was found. */
  datatype DocKey = DocKey(path: string, verb: string, location: string, field: string)

  datatype Violation = Violation(kind: ViolationKind, key: DocKey)

  /** The endpoint and the side of it that is being compared. */
  datatype Place = Place(path: string, verb: string, location: string)

  function At(place: Place, field: string): DocKey {
    DocKey(place.path, place.verb, place.location, field)
  }

  const MARKER := "**Hadrian Extension:**"

  // ---------- reading schemas ----------

  /** The entries of a dict; other values have none. */
  function Dict(j: Json): Fields { if j.Object? then j.fields else Empty }

  function GetDict(fs: Fields, k: string): Fields {
    match Get(fs, k) case Some(v) => Dict(v) case None => Empty
  }

  function Properties(j: Json): Fields { GetDict(Dict(j), "properties") }

  function Required(j: Json): List { RequiredOf(Dict(j)) }

  function TypeIs(j: Json, t: string): bool { Get(Dict(j), "type") == Some(String(t)) }

  /** `type: array`, alone or in a list of types. */
  predicate IsArrayType(j: Json) {
    TypeIs(j, "array") ||
    match Get(Dict(j), "type") case Some(Array(ts)) => Member(String("array"), ts) case _ => false
  }

  predicate Contains(s: string, part: string) {
    part <= s || (s != [] && Contains(s[1..], part))
  }

  /** The description of a field or parameter carries the extension marker. */
  predicate Marked(j: Json) {
    match Get(Dict(j), "description") case Some(String(s)) => Contains(s, MARKER) case _ => false
  }

  function Variants(items: Json): Fields { GetDict(Dict(items), "_union_variants") }

  function Items(j: Json): Json {
    match Get(Dict(j), "items") case Some(v) => v case None => Object(Empty)
  }

  lemma GetDictSmaller(fs: Fields, k: string)
    ensures Has(fs, k) ==> FieldsSize(GetDict(fs, k)) < FieldsSize(fs)
    ensures FieldsSize(GetDict(fs, k)) <= FieldsSize(fs)
  {
  }

  lemma PropertiesSmaller(j: Json, k: string)
    requires Has(Properties(j), k)
    ensures Size(Get(Properties(j), k).value) < Size(j)
    ensures FieldsSize(Properties(j)) < Size(j)
  {
    GetDictSmaller(Dict(j), "properties");
  }

  lemma VariantsSmaller(j: Json, t: string)
    requires Has(Variants(Items(j)), t)
    ensures Size(Get(Variants(Items(j)), t).value) < Size(j)
  {
    var items := Items(j);
    GetDictSmaller(Dict(items), "_union_variants");
  }

  // ---------- type strings ----------

  /** The non-null type names of a list of types. */
  function TypeNames(l: List): seq<string> {
    if l.Nil? then []
    else if l.head.String? && l.head.s != "null" then [l.head.s] + TypeNames(l.tail)
    else TypeNames(l.tail)
  }

  function Join(names: seq<string>): string {
    if names == [] then "" else if |names| == 1 then names[0] else names[0] + "|" + Join(names[1..])
  }

  /** The declared type as a string; `None` when it is missing or falsy. */
  function DeclaredType(fs: Fields, repr: Json -> string): Option<string> {
    match Get(fs, "type")
    case None => None
    case Some(String(s)) => if s == "" then None else Some(s)
    case Some(Array(l)) => if Join(TypeNames(l)) == "" then None else Some(Join(TypeNames(l)))
    case Some(Null) => None
    case Some(Bool(b)) => if b then Some(repr(Bool(b))) else None
    case Some(Number(n)) => if n == 0.0 then None else Some(repr(Number(n)))
    case Some(Object(o)) => if o.Empty? then None else Some(repr(Object(o)))
  }

  function LastPart(s: string): string {
    if '/' in s then assert exists i :: 0 <= i < |s| && s[i] == '/'; LastPart(s[1..]) else s
  }

  /** `_get_type_string`; `repr` is Python's `str` on values that are not strings. */
  function TypeString(repr: Json -> string, j: Json): string
    decreases Size(j)
  {
    if !j.Object? then if j.String? then j.s else repr(j)
    else
      var fs := j.fields;
      var t := DeclaredType(fs, repr);
      if t == Some("array") then
        "array<" + (if Has(fs, "items") then TypeString(repr, Get(fs, "items").value) else "unknown") + ">"
      else if t == Some("object") then
        if Has(fs, "additionalProperties")
        then "map<string, " + TypeString(repr, Get(fs, "additionalProperties").value) + ">"
        else "object"
      else if t.Some? then t.value
      else if Has(fs, "enum") then "enum"
      else if Has(fs, "$ref") then
        match Get(fs, "$ref") case Some(String(r)) => LastPart(r) case _ => "unknown"
      else "unknown"
  }

  predicate TypesCompatible(o: string, h: string) {
    || o == h
    || {o, h} <= {"integer", "number"}
    || (o == "number" && h == "double")
    || (h == "number" && o == "double")
  }

  // ---------- contexts ----------

  function FieldContext(ctx: string, field: string): string { ctx + "." + field }

  function ItemsContext(ctx: string, field: string): string { ctx + "." + field + "[]" }

  function VariantContext(ctx: string, field: string, t: string): string {
    ItemsContext(ctx, field) + "<type=" + t + ">"
  }

  /** The context without the endpoint prefix and without the trailing `[]`. */
  function ShortContext(path: string, ctx: string): string {
    var request := path + " request.";
    var response := path + " response.";
    var s := if request <= ctx then ctx[|request|..] else if response <= ctx then ctx[|response|..] else ctx;
    if |s| >= 2 && s[|s| - 2..] == "[]" then s[..|s| - 2] else s
  }

  /** The key under which a missing variant has to be documented. */
  function VariantKey(path: string, ctx: string, field: string, t: string): string {
    ShortContext(path, ItemsContext(ctx, field)) + "[" + t + "]"
  }

  // ---------- the differences of two schemas ----------

  function Diffs(repr: Json -> string, ctx: string, o: Json, h: Json): seq<SchemaDiff>
    decreases Size(o), 1, 0
  {
    MissingDiffs(repr, ctx, Properties(o), Properties(o), Properties(h))
    + ExtensionDiffs(repr, ctx, Properties(h), Properties(h), Properties(o))
    + CommonDiffs(repr, ctx, Properties(o), o, h)
  }

  function MissingDiffs(repr: Json -> string, ctx: string, rest: Fields, oProps: Fields,
    hProps: Fields): seq<SchemaDiff> {
    if rest.Empty? then []
    else MissingDiff(repr, ctx, rest.key, oProps, hProps) + MissingDiffs(repr, ctx, rest.rest, oProps, hProps)
  }

  function MissingDiff(repr: Json -> string, ctx: string, f: string, oProps: Fields, hProps: Fields): seq<SchemaDiff> {
    if Has(hProps, f) || !Has(oProps, f) then []
    else [SchemaDiff(ctx, f, MissingInHadrian, Some(TypeString(repr, Get(oProps, f).value)), None)]
  }

  function ExtensionDiffs(repr: Json -> string, ctx: string, rest: Fields, hProps: Fields,
    oProps: Fields): seq<SchemaDiff> {
    if rest.Empty? then []
    else ExtensionDiff(repr, ctx, rest.key, hProps, oProps) + ExtensionDiffs(repr, ctx, rest.rest, hProps, oProps)
  }

  function ExtensionDiff(repr: Json -> string, ctx: string, f: string, hProps: Fields,
    oProps: Fields): seq<SchemaDiff> {
    if Has(oProps, f) || !Has(hProps, f) then []
    else [SchemaDiff(ctx, f, HadrianExtension, None, Some(TypeString(repr, Get(hProps, f).value)))]
  }

  /** The fields named by `rest` that both sides have. */
  function CommonDiffs(repr: Json -> string, ctx: string, rest: Fields, o: Json, h: Json): seq<SchemaDiff>
    decreases Size(o), 0, FieldsSize(rest)
  {
    if rest.Empty? then []
    else CommonDiff(repr, ctx, rest.key, o, h) + CommonDiffs(repr, ctx, rest.rest, o, h)
  }

  function CommonDiff(repr: Json -> string, ctx: string, f: string, o: Json, h: Json): seq<SchemaDiff>
    decreases Size(o), 0, 0
  {
    if !Has(Properties(o), f) || !Has(Properties(h), f) then []
    else
      PropertiesSmaller(o, f);
      var oField, hField := Get(Properties(o), f).value, Get(Properties(h), f).value;
      TypeDiff(repr, ctx, f, oField, hField) + RequiredDiff(ctx, f, o, h) + NestedDiffs(repr, ctx, f, oField, hField)
  }

  function TypeDiff(repr: Json -> string, ctx: string, f: string, oField: Json, hField: Json): seq<SchemaDiff> {
    var oType, hType := TypeString(repr, oField), TypeString(repr, hField);
    if TypesCompatible(oType, hType) then [] else [SchemaDiff(ctx, f, TypeMismatch, Some(oType), Some(hType))]
  }

  function RequiredDiff(ctx: string, f: string, o: Json, h: Json): seq<SchemaDiff> {
    if Member(String(f), Required(o)) && !Member(String(f), Required(h))
    then [SchemaDiff(ctx, f, RequiredMismatch, Some("required"), Some("optional"))] else []
  }

  /** Below a common field: nested objects, and discriminated array items. */
  function NestedDiffs(repr: Json -> string, ctx: string, f: string, oField: Json, hField: Json): seq<SchemaDiff>
    decreases Size(oField), 4, 0
  {
    (if TypeIs(oField, "object") && TypeIs(hField, "object")
     then Diffs(repr, FieldContext(ctx, f), oField, hField) else [])
    + (if IsArrayType(oField) && IsArrayType(hField) then UnionDiffs(repr, ctx, f, oField, hField) else [])
  }

  function UnionDiffs(repr: Json -> string, ctx: string, f: string, oField: Json, hField: Json): seq<SchemaDiff>
    decreases Size(oField), 3, 0
  {
    var ov, hv := Variants(Items(oField)), Variants(Items(hField));
    if ov.Empty? || hv.Empty? then []
    else VariantDiffs(repr, ctx, f, ov, oField, hField) + ExtraVariantDiffs(ctx, f, hv, ov)
  }

  function VariantDiffs(repr: Json -> string, ctx: string, f: string, rest: Fields, oField: Json,
    hField: Json): seq<SchemaDiff>
    decreases Size(oField), 2, FieldsSize(rest)
  {
    if rest.Empty? then []
    else
      VariantDiff(repr, ctx, f, rest.key, oField, hField) + VariantDiffs(repr, ctx, f, rest.rest, oField, hField)
  }

  function VariantDiff(repr: Json -> string, ctx: string, f: string, t: string, oField: Json,
    hField: Json): seq<SchemaDiff>
    decreases Size(oField), 2, 0
  {
    var ov, hv := Variants(Items(oField)), Variants(Items(hField));
    if !Has(ov, t) then []
    else if Has(hv, t) then
      VariantsSmaller(oField, t);
      Diffs(repr, VariantContext(ctx, f, t), Get(ov, t).value, Get(hv, t).value)
    else [SchemaDiff(ItemsContext(ctx, f), t, MissingInHadrian, Some("object"), None)]
  }

  function ExtraVariantDiffs(ctx: string, f: string, rest: Fields, ov: Fields): seq<SchemaDiff> {
    if rest.Empty? then []
    else
      (if Has(ov, rest.key) then []
       else [SchemaDiff(ItemsContext(ctx, f), rest.key, HadrianExtension, None, Some("object"))])
      + ExtraVariantDiffs(ctx, f, rest.rest, ov)
  }

  // ---------- the violations of two schemas ----------

  function Violations(documented: set<DocKey>, place: Place, ctx: string, o: Json, h: Json): seq<Violation>
    decreases Size(o), 1, 0
  {
    MissingViolations(documented, place, Properties(o), Properties(h))
    + ExtensionViolations(place, Properties(h), Properties(h), Properties(o))
    + CommonViolations(documented, place, ctx, Properties(o), o, h)
  }

  function Undocumented(documented: set<DocKey>, key: DocKey): seq<Violation> {
    if key in documented then [] else [Violation(UndocumentedMissing, key)]
  }

  function MissingViolations(documented: set<DocKey>, place: Place, rest: Fields, hProps: Fields): seq<Violation> {
    if rest.Empty? then []
    else MissingViolation(documented, place, rest.key, hProps) + MissingViolations(documented, place, rest.rest, hProps)
  }

  function MissingViolation(documented: set<DocKey>, place: Place, f: string, hProps: Fields): seq<Violation> {
    if Has(hProps, f) then [] else Undocumented(documented, At(place, f))
  }

  function ExtensionViolations(place: Place, rest: Fields, hProps: Fields, oProps: Fields): seq<Violation> {
    if rest.Empty? then []
    else ExtensionViolation(place, rest.key, hProps, oProps) + ExtensionViolations(place, rest.rest, hProps, oProps)
  }

  function ExtensionViolation(place: Place, f: string, hProps: Fields, oProps: Fields): seq<Violation> {
    if Has(oProps, f) || (Has(hProps, f) && Marked(Get(hProps, f).value)) then []
    else [Violation(UnmarkedExtension, At(place, f))]
  }

  function CommonViolations(documented: set<DocKey>, place: Place, ctx: string, rest: Fields, o: Json,
    h: Json): seq<Violation>
    decreases Size(o), 0, FieldsSize(rest)
  {
    if rest.Empty? then []
    else
      CommonViolation(documented, place, ctx, rest.key, o, h)
      + CommonViolations(documented, place, ctx, rest.rest, o, h)
  }

  function CommonViolation(documented: set<DocKey>, place: Place, ctx: string, f: string, o: Json,
    h: Json): seq<Violation>
    decreases Size(o), 0, 0
  {
    if !Has(Properties(o), f) || !Has(Properties(h), f) then []
    else
      PropertiesSmaller(o, f);
      NestedViolations(documented, place, ctx, f, Get(Properties(o), f).value, Get(Properties(h), f).value)
  }

  function NestedViolations(documented: set<DocKey>, place: Place, ctx: string, f: string, oField: Json,
    hField: Json): seq<Violation>
    decreases Size(oField), 4, 0
  {
    (if TypeIs(oField, "object") && TypeIs(hField, "object")
     then Violations(documented, place, FieldContext(ctx, f), oField, hField) else [])
    + (if IsArrayType(oField) && IsArrayType(hField)
       then UnionViolations(documented, place, ctx, f, oField, hField) else [])
  }

  function UnionViolations(documented: set<DocKey>, place: Place, ctx: string, f: string, oField: Json,
    hField: Json): seq<Violation>
    decreases Size(oField), 3, 0
  {
    var ov, hv := Variants(Items(oField)), Variants(Items(hField));
    if ov.Empty? || hv.Empty? then [] else VariantViolations(documented, place, ctx, f, ov, oField, hField)
  }

  function VariantViolations(documented: set<DocKey>, place: Place, ctx: string, f: string, rest: Fields,
                             oField: Json, hField: Json): seq<Violation>
    decreases Size(oField), 2, FieldsSize(rest)
  {
    if rest.Empty? then []
    else
      VariantViolation(documented, place, ctx, f, rest.key, oField, hField)
      + VariantViolations(documented, place, ctx, f, rest.rest, oField, hField)
  }

  function VariantViolation(documented: set<DocKey>, place: Place, ctx: string, f: string, t: string,
                            oField: Json, hField: Json): seq<Violation>
    decreases Size(oField), 2, 0
  {
    var ov, hv := Variants(Items(oField)), Variants(Items(hField));
    if !Has(ov, t) then []
    else if Has(hv, t) then
      VariantsSmaller(oField, t);
      Violations(documented, place, VariantContext(ctx, f, t), Get(ov, t).value, Get(hv, t).value)
    else Undocumented(documented, At(place, VariantKey(place.path, ctx, f, t)))
  }
}
