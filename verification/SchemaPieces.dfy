/** The pieces that a resolved schema is made of: unions, merges and replaced keys. */
module SchemaPieces {
  import opened Basics
  import opened JsonValues

  /** The literal that a variant's `type` property is pinned to, if any. */
  function TypeConst(j: Json): Option<string> {
    if !j.Object? then None
    else match Get(j.fields, "properties")
      case Some(Object(props)) =>
        (match Get(props, "type")
         case Some(Object(t)) =>
           (match (Get(t, "const"), Get(t, "enum"))
            case (Some(String(c)), _) => Some(c)
            case (_, Some(Array(Cons(String(e), Nil)))) => Some(e)
            case _ => None)
         case _ => None)
      case _ => None
  }

  /** The variants that have a type literal, keyed by it; the last one wins. */
  function VariantMap(acc: Fields, variants: List): Fields
    decreases variants
  {
    if variants.Nil? then acc
    else
      var t := TypeConst(variants.head);
      VariantMap(if t.Some? then Put(acc, t.value, variants.head) else acc, variants.tail)
  }

  /** The union kept for its non-null variants: the first one, marked nullable, with the
      variant map beside it when some variant is discriminated. */
  function UnionOf(variants: List): Fields
    requires variants.Cons? ==> variants.head.Object?
  {
    if variants.Nil? then Field("type", String("null"), Field("_nullable", Bool(true), Empty))
    else
      var base := Put(variants.head.fields, "_nullable", Bool(true));
      var m := VariantMap(Empty, variants);
      if m == Empty then base else Put(base, "_union_variants", Object(m))
  }

  /** `schema.get("oneOf") or schema.get("anyOf", [])` */
  function Options(fs: Fields): List {
    match (Get(fs, "oneOf"), Get(fs, "anyOf"))
    case (Some(Array(Cons(h, t))), _) => Cons(h, t)
    case (_, Some(Array(l))) => l
    case _ => Nil
  }

  const MERGE_BASE :=
    Field("type", String("object"), Field("properties", Object(Empty), Field("required", Array(Nil), Empty)))

  function PropertiesOf(fs: Fields): Fields {
    match Get(fs, "properties") case Some(Object(p)) => p case _ => Empty
  }

  function RequiredOf(fs: Fields): List {
    match Get(fs, "required") case Some(Array(l)) => l case _ => Nil
  }

  /** The union of two lists of required names, each name once. */
  function AddMissing(names: List, more: List): List
    decreases more
  {
    if more.Nil? then names
    else AddMissing(if Member(more.head, names) then names else ListConcat(names, Cons(more.head, Nil)), more.tail)
  }

  function CopyKey(target: Fields, source: Fields, k: string): Fields {
    if Has(source, k) then Put(target, k, Get(source, k).value) else target
  }

  /** `_merge_schemas(target, source)`, given the re-resolved properties of the source. */
  function MergeInto(target: Fields, source: Fields, props: Fields): Fields {
    var t1 := if Has(source, "properties")
              then Put(target, "properties", Object(PutAll(PropertiesOf(target), props))) else target;
    var t2 := if Has(source, "required")
              then Put(t1, "required", Array(AddMissing(AddMissing(Nil, RequiredOf(t1)), RequiredOf(source)))) else t1;
    CopyKey(CopyKey(t2, source, "type"), source, "description")
  }

  lemma OneFieldSize(k: string, v: Json)
    ensures Size(Object(Field(k, v, Empty))) == 2 + Size(v)
  {
    assert FieldsSize(Field(k, v, Empty)) == 1 + Size(v) + FieldsSize(Empty);
  }

  /** The one-key schema that `_merge_schemas` resolves once more. */
  function OnlyProperties(fs: Fields): (r: Json)
    requires Has(fs, "properties")
    ensures Size(r) <= 1 + FieldsSize(fs)
  {
    var props := Get(fs, "properties").value;
    OneFieldSize("properties", props);
    Object(Field("properties", props, Empty))
  }

  /** A schema dict with the given `properties`, `items` and `additionalProperties`. */
  function Replace(fs: Fields, k: string, v: Option<Json>): Fields {
    if v.Some? then Put(fs, k, v.value) else fs
  }
}
