/** What the resolver achieves: settled results, exactly when raw siblings prevent them, and
    idempotence. */
module ResolverTheorems {
  import opened Basics
  import opened JsonValues
  import opened SchemaShape
  import opened SchemaPieces
  import opened Resolver

  // ---------- settled schemas ----------

  /** No `$ref`, `allOf`, `oneOf` or `anyOf` is left in a visited position or in a variant of a union. */
  predicate Settled(j: Json)
    decreases j, 0
  {
    j.Object? ==> FieldsSettled(j.fields)
  }

  predicate FieldsSettled(fs: Fields)
    decreases fs, 0
  {
    fs.Field? ==> KeySettled(fs.key, fs.value) && FieldsSettled(fs.rest)
  }

  predicate KeySettled(k: string, v: Json)
    decreases v, 1
  {
    if k == "$ref" || k == "allOf" || k == "oneOf" || k == "anyOf" then false
    else if k == "properties" || k == "_union_variants" then v.Object? ==> ValuesSettled(v.fields)
    else if k == "items" || k == "additionalProperties" then Settled(v)
    else true
  }

  predicate ValuesSettled(fs: Fields)
    decreases fs, 0
  {
    fs.Field? ==> Settled(fs.value) && ValuesSettled(fs.rest)
  }

  predicate ListSettled(l: List) { l.Cons? ==> Settled(l.head) && ListSettled(l.tail) }

  /** Dicts have one entry per key, and what is copied raw needs no resolution itself: the keys beside a
      `$ref` or an `allOf`, in particular when they are annotations, and a key that looks like the resolver's
      own variant map. */
  predicate Annotated(j: Json)
    decreases j, 0
  {
    j.Object? ==>
      && DistinctKeys(j.fields)
      && (Has(j.fields, "$ref") ==> FieldsSettled(Without(j.fields, "$ref")))
      && (!Has(j.fields, "$ref") && Has(j.fields, "allOf") ==> FieldsSettled(Without(j.fields, "allOf")))
      && FieldsAnnotated(j.fields)
  }

  predicate FieldsAnnotated(fs: Fields)
    decreases fs, 0
  {
    fs.Field? ==> KeyAnnotated(fs.key, fs.value) && FieldsAnnotated(fs.rest)
  }

  predicate KeyAnnotated(k: string, v: Json)
    decreases v, 1
  {
    if k == "allOf" || k == "oneOf" || k == "anyOf" then v.Array? ==> ListAnnotated(v.items)
    else if k == "properties" then v.Object? ==> ValuesAnnotated(v.fields)
    else if k == "items" || k == "additionalProperties" then Annotated(v)
    else k == "_union_variants" ==> KeySettled(k, v)
  }

  predicate ListAnnotated(l: List)
    decreases l, 0
  {
    l.Cons? ==> Annotated(l.head) && ListAnnotated(l.tail)
  }

  predicate ValuesAnnotated(fs: Fields)
    decreases fs, 0
  {
    fs.Field? ==> Annotated(fs.value) && ValuesAnnotated(fs.rest)
  }

  ghost predicate SpecAnnotated(spec: Json, rank: Ranking) {
    forall r {:trigger Target(spec, r)} :: r in rank && Target(spec, r).Some? ==> Annotated(Target(spec, r).value)
  }

  lemma {:induction false} GetSettled(fs: Fields, k: string)
    requires FieldsSettled(fs) && Has(fs, k)
    ensures KeySettled(k, Get(fs, k).value)
  {
    if fs.key != k { GetSettled(fs.rest, k); }
  }

  lemma {:induction false} GetAnnotated(fs: Fields, k: string)
    requires FieldsAnnotated(fs) && Has(fs, k)
    ensures KeyAnnotated(k, Get(fs, k).value)
  {
    if fs.key != k { GetAnnotated(fs.rest, k); }
  }

  lemma {:induction false} PutSettled(fs: Fields, k: string, v: Json)
    requires FieldsSettled(fs) && KeySettled(k, v)
    ensures FieldsSettled(Put(fs, k, v))
  {
    if fs.Field? && fs.key != k { PutSettled(fs.rest, k, v); }
  }

  lemma {:induction false} PutAllSettled(target: Fields, source: Fields)
    requires FieldsSettled(target) && FieldsSettled(source)
    ensures FieldsSettled(PutAll(target, source))
    decreases source
  {
    if source.Field? {
      PutSettled(target, source.key, source.value);
      PutAllSettled(Put(target, source.key, source.value), source.rest);
    }
  }

  lemma {:induction false} PutValuesSettled(fs: Fields, k: string, v: Json)
    requires ValuesSettled(fs) && Settled(v)
    ensures ValuesSettled(Put(fs, k, v))
  {
    if fs.Field? && fs.key != k { PutValuesSettled(fs.rest, k, v); }
  }

  lemma {:induction false} PutAllValuesSettled(target: Fields, source: Fields)
    requires ValuesSettled(target) && ValuesSettled(source)
    ensures ValuesSettled(PutAll(target, source))
    decreases source
  {
    if source.Field? {
      PutValuesSettled(target, source.key, source.value);
      PutAllValuesSettled(Put(target, source.key, source.value), source.rest);
    }
  }

  lemma CopyKeySettled(target: Fields, source: Fields, k: string)
    requires FieldsSettled(target) && FieldsSettled(source)
    ensures FieldsSettled(CopyKey(target, source, k))
  {
    if Has(source, k) {
      GetSettled(source, k);
      PutSettled(target, k, Get(source, k).value);
    }
  }

  lemma MergeSettled(target: Fields, source: Fields, props: Fields)
    requires FieldsSettled(target) && FieldsSettled(source) && ValuesSettled(props)
    ensures FieldsSettled(MergeInto(target, source, props))
  {
    var t1 := target;
    if Has(source, "properties") {
      if Has(target, "properties") { GetSettled(target, "properties"); }
      PutAllValuesSettled(PropertiesOf(target), props);
      PutSettled(target, "properties", Object(PutAll(PropertiesOf(target), props)));
      t1 := Put(target, "properties", Object(PutAll(PropertiesOf(target), props)));
    }
    var t2 := t1;
    if Has(source, "required") {
      var names := Array(AddMissing(AddMissing(Nil, RequiredOf(t1)), RequiredOf(source)));
      PutSettled(t1, "required", names);
      t2 := Put(t1, "required", names);
    }
    CopyKeySettled(t2, source, "type");
    CopyKeySettled(CopyKey(t2, source, "type"), source, "description");
  }

  lemma {:induction false} VariantMapSettled(acc: Fields, variants: List)
    requires ValuesSettled(acc) && ListSettled(variants)
    ensures ValuesSettled(VariantMap(acc, variants))
    decreases variants
  {
    if variants.Cons? {
      var t := TypeConst(variants.head);
      if t.Some? { PutValuesSettled(acc, t.value, variants.head); }
      VariantMapSettled(if t.Some? then Put(acc, t.value, variants.head) else acc, variants.tail);
    }
  }

  lemma UnionSettled(variants: List)
    requires ListSettled(variants) && (variants.Cons? ==> variants.head.Object?)
    ensures FieldsSettled(UnionOf(variants))
  {
    if variants.Cons? {
      VariantMapSettled(Empty, variants);
      PutSettled(variants.head.fields, "_nullable", Bool(true));
      var base := Put(variants.head.fields, "_nullable", Bool(true));
      PutSettled(base, "_union_variants", Object(VariantMap(Empty, variants)));
    }
  }

  // ---------- settled schemas are fixed points ----------

  /** Resolving a settled schema changes nothing. */
  lemma {:induction false} SettledFixed(spec: Json, rank: Ranking, j: Json)
    requires Acyclic(spec, rank) && Sound(rank, j) && Settled(j)
    ensures Plain(spec, rank, j) == j
    decreases j, 0
  {
    if j.Object? {
      var fs := j.fields;
      if Has(fs, "$ref") { GetSettled(fs, "$ref"); }
      if Has(fs, "allOf") { GetSettled(fs, "allOf"); }
      if Has(fs, "oneOf") { GetSettled(fs, "oneOf"); }
      if Has(fs, "anyOf") { GetSettled(fs, "anyOf"); }
      KeyFixed(spec, rank, fs, "properties");
      KeyFixed(spec, rank, fs, "items");
      KeyFixed(spec, rank, fs, "additionalProperties");
    }
  }

  lemma {:induction false} KeyFixed(spec: Json, rank: Ranking, fs: Fields, k: string)
    requires Acyclic(spec, rank) && FieldsSound(rank, fs) && FieldsSettled(fs)
    requires k in {"properties", "items", "additionalProperties"}
    ensures Replace(fs, k, PlainKey(spec, rank, fs, k)) == fs
    decreases fs, 1
  {
    if Has(fs, k) {
      GetSettled(fs, k);
      GetWithin(rank, fs, k, FieldsLevel(rank, fs));
      GetInside(fs, k);
      var v := Get(fs, k).value;
      if k == "properties" { ValuesFixed(spec, rank, v.fields); } else { SettledFixed(spec, rank, v); }
      PutSame(fs, k);
    }
  }

  lemma {:induction false} GetInside(fs: Fields, k: string)
    requires Has(fs, k)
    ensures (fs decreases to Get(fs, k).value)
  {
    if fs.key != k { GetInside(fs.rest, k); }
  }

  lemma {:induction false} ValuesFixed(spec: Json, rank: Ranking, fs: Fields)
    requires Acyclic(spec, rank) && ValuesSound(rank, fs) && ValuesSettled(fs)
    ensures PlainValues(spec, rank, fs) == fs
    decreases fs, 0
  {
    if fs.Field? {
      SettledFixed(spec, rank, fs.value);
      ValuesFixed(spec, rank, fs.rest);
    }
  }

  // ---------- results are settled ----------

  /** Without cycles and with settled siblings, a resolved schema is settled. */
  lemma {:induction false} PlainSettled(spec: Json, rank: Ranking, j: Json)
    requires Acyclic(spec, rank) && Sound(rank, j) && SpecAnnotated(spec, rank) && Annotated(j)
    ensures Settled(Plain(spec, rank, j))
    decreases Level(rank, j), Size(j), 1
  {
    if j.Object? {
      var fs := j.fields;
      if Has(fs, "$ref") {
        RefSettled(spec, rank, fs);
      } else if Has(fs, "allOf") {
        AllOfSettled(spec, rank, fs);
      } else if Has(fs, "oneOf") || Has(fs, "anyOf") {
        if Has(fs, "oneOf") { GetAnnotated(fs, "oneOf"); }
        if Has(fs, "anyOf") { GetAnnotated(fs, "anyOf"); }
        OptionsWithin(rank, fs, Level(rank, j));
        OptionsSettled(spec, rank, Options(fs));
        UnionSettled(PlainOptions(spec, rank, Options(fs)));
      } else {
        NestedSettled(spec, rank, fs);
      }
    }
  }

  lemma {:induction false} AllOfSettled(spec: Json, rank: Ranking, fs: Fields)
    requires Acyclic(spec, rank) && FieldsSound(rank, fs) && SpecAnnotated(spec, rank)
    requires Has(fs, "allOf") && FieldsAnnotated(fs) && FieldsSettled(Without(fs, "allOf"))
    ensures FieldsSettled(PlainAllOf(spec, rank, fs))
    decreases FieldsLevel(rank, fs), FieldsSize(fs), 0
  {
    var n := FieldsLevel(rank, fs);
    GetAnnotated(fs, "allOf");
    AllOfParts(rank, fs);
    var parts := Get(fs, "allOf").value.items;
    BaseSettled();
    MergeAllSettled(spec, rank, MERGE_BASE, parts, n - 1);
    PutAllSettled(PlainMerge(spec, rank, MERGE_BASE, parts, n - 1), Without(fs, "allOf"));
  }

  lemma BaseSettled()
    ensures FieldsSettled(MERGE_BASE)
  {
    PutSettled(Empty, "required", Array(Nil));
    PutSettled(Empty, "properties", Object(Empty));
  }

  lemma {:induction false} RefSettled(spec: Json, rank: Ranking, fs: Fields)
    requires Acyclic(spec, rank) && FieldsSound(rank, fs) && SpecAnnotated(spec, rank)
    requires Has(fs, "$ref") && FieldsSettled(Without(fs, "$ref"))
    ensures FieldsSettled(PlainRef(spec, rank, fs))
    decreases FieldsLevel(rank, fs), FieldsSize(fs), 0
  {
    GetWithin(rank, fs, "$ref", FieldsLevel(rank, fs));
    var target := Target(spec, Get(fs, "$ref").value.s);
    if target.Some? { PlainSettled(spec, rank, target.value); }
    var base := if target.Some? then Plain(spec, rank, target.value).fields else Empty;
    PutAllSettled(base, Without(fs, "$ref"));
  }

  lemma {:induction false} MergeAllSettled(spec: Json, rank: Ranking, target: Fields, parts: List, n: nat)
    requires Acyclic(spec, rank) && SpecAnnotated(spec, rank)
    requires Within(rank, target, n) && PartsWithin(rank, parts, n)
    requires FieldsSettled(target) && ListAnnotated(parts)
    ensures FieldsSettled(PlainMerge(spec, rank, target, parts, n))
    decreases n + 1, ListSize(parts), 0
  {
    if parts.Cons? {
      PlainSettled(spec, rank, parts.head);
      PartMerged(spec, rank, target, parts.head, n);
      var source := Plain(spec, rank, parts.head).fields;
      if Has(source, "properties") { GetSettled(source, "properties"); }
      MergeSettled(target, source, PropertiesOf(source));
      MergeAllSettled(spec, rank, PlainMergePart(spec, rank, target, parts.head, n), parts.tail, n);
    }
  }

  /** The second resolution of a part's properties has nothing left to do. */
  lemma PartMerged(spec: Json, rank: Ranking, target: Fields, part: Json, n: nat)
    requires Acyclic(spec, rank) && Within(rank, target, n)
    requires part.Object? && Sound(rank, part) && Level(rank, part) <= n
    requires Settled(Plain(spec, rank, part))
    ensures PlainMergePart(spec, rank, target, part, n) ==
            MergeInto(target, Plain(spec, rank, part).fields, PropertiesOf(Plain(spec, rank, part).fields))
  {
    var source := Plain(spec, rank, part).fields;
    if Has(source, "properties") {
      OnlyPropertiesWithin(rank, source, n);
      GetSettled(source, "properties");
      PutSettled(Empty, "properties", Get(source, "properties").value);
      SettledFixed(spec, rank, OnlyProperties(source));
    }
  }

  lemma {:induction false} OptionsSettled(spec: Json, rank: Ranking, options: List)
    requires Acyclic(spec, rank) && SpecAnnotated(spec, rank)
    requires ListSound(rank, options) && ListAnnotated(options)
    ensures ListSettled(PlainOptions(spec, rank, options))
    decreases ListLevel(rank, options), ListSize(options), 0
  {
    if options.Cons? {
      OptionsSettled(spec, rank, options.tail);
      if !IsNullOption(options.head) { PlainSettled(spec, rank, options.head); }
    }
  }

  lemma {:induction false} NestedSettled(spec: Json, rank: Ranking, fs: Fields)
    requires Acyclic(spec, rank) && SpecAnnotated(spec, rank)
    requires FieldsSound(rank, fs) && FieldsAnnotated(fs) && DistinctKeys(fs)
    requires !Has(fs, "$ref") && !Has(fs, "allOf") && !Has(fs, "oneOf") && !Has(fs, "anyOf")
    ensures FieldsSettled(PlainNested(spec, rank, fs))
    decreases FieldsLevel(rank, fs), FieldsSize(fs), 1
  {
    var props := PlainKey(spec, rank, fs, "properties");
    var items := PlainKey(spec, rank, fs, "items");
    var more := PlainKey(spec, rank, fs, "additionalProperties");
    PlainKeySettled(spec, rank, fs, "properties");
    PlainKeySettled(spec, rank, fs, "items");
    PlainKeySettled(spec, rank, fs, "additionalProperties");
    if Has(fs, "_union_variants") { GetAnnotated(fs, "_union_variants"); }
    ReplacedSettled(fs, props, items, more);
  }

  lemma {:induction false} PlainKeySettled(spec: Json, rank: Ranking, fs: Fields, k: string)
    requires Acyclic(spec, rank) && SpecAnnotated(spec, rank)
    requires FieldsSound(rank, fs) && FieldsAnnotated(fs)
    requires k in {"properties", "items", "additionalProperties"}
    ensures var v := After(fs, k, PlainKey(spec, rank, fs, k)); v.Some? ==> KeySettled(k, v.value)
    decreases FieldsLevel(rank, fs), FieldsSize(fs), 0
  {
    if Has(fs, k) {
      GetAnnotated(fs, k);
      GetWithin(rank, fs, k, FieldsLevel(rank, fs));
      var v := Get(fs, k).value;
      if k == "properties" { PlainValuesSettled(spec, rank, v.fields); } else { PlainSettled(spec, rank, v); }
    }
  }

  lemma {:induction false} PlainValuesSettled(spec: Json, rank: Ranking, fs: Fields)
    requires Acyclic(spec, rank) && SpecAnnotated(spec, rank)
    requires ValuesSound(rank, fs) && ValuesAnnotated(fs)
    ensures ValuesSettled(PlainValues(spec, rank, fs))
    decreases ValuesLevel(rank, fs), FieldsSize(fs), 0
  {
    if fs.Field? {
      PlainSettled(spec, rank, fs.value);
      PlainValuesSettled(spec, rank, fs.rest);
    }
  }

  lemma {:induction false} SettledByKey(fs: Fields)
    requires DistinctKeys(fs) && forall k :: Has(fs, k) ==> KeySettled(k, Get(fs, k).value)
    ensures FieldsSettled(fs)
  {
    if fs.Field? {
      assert Has(fs, fs.key);
      forall k | Has(fs.rest, k) ensures KeySettled(k, Get(fs.rest, k).value) {
        assert Has(fs, k) && Get(fs, k) == Get(fs.rest, k);
      }
      SettledByKey(fs.rest);
    }
  }

  /** The value a nested key ends up with. */
  function After(fs: Fields, k: string, v: Option<Json>): Option<Json> {
    if v.Some? then v else Get(fs, k)
  }

  lemma ReplaceGet(fs: Fields, k: string, v: Option<Json>, x: string)
    ensures Get(Replace(fs, k, v), x) == if x == k then After(fs, k, v) else Get(fs, x)
  {
    if v.Some? { GetPut(fs, k, v.value, x); }
  }

  lemma ReplaceDistinct(fs: Fields, k: string, v: Option<Json>)
    requires DistinctKeys(fs)
    ensures DistinctKeys(Replace(fs, k, v))
  {
    if v.Some? { PutDistinct(fs, k, v.value); }
  }

  /** A dict is settled as soon as its three nested keys are and no combinator occurs. */
  lemma ReplacedSettled(fs: Fields, props: Option<Json>, items: Option<Json>, more: Option<Json>)
    requires !Has(fs, "$ref") && !Has(fs, "allOf") && !Has(fs, "oneOf") && !Has(fs, "anyOf")
    requires DistinctKeys(fs)
    requires Has(fs, "_union_variants") ==> KeySettled("_union_variants", Get(fs, "_union_variants").value)
    requires After(fs, "properties", props).Some? ==> KeySettled("properties", After(fs, "properties", props).value)
    requires After(fs, "items", items).Some? ==> KeySettled("items", After(fs, "items", items).value)
    requires After(fs, "additionalProperties", more).Some? ==>
               KeySettled("additionalProperties", After(fs, "additionalProperties", more).value)
    ensures FieldsSettled(Replace(Replace(Replace(fs, "properties", props), "items", items), "additionalProperties",
      more))
  {
    var r1 := Replace(fs, "properties", props);
    var r2 := Replace(r1, "items", items);
    var r3 := Replace(r2, "additionalProperties", more);
    ReplaceDistinct(fs, "properties", props);
    ReplaceDistinct(r1, "items", items);
    ReplaceDistinct(r2, "additionalProperties", more);
    forall k | Has(r3, k) ensures KeySettled(k, Get(r3, k).value) {
      ReplaceGet(fs, "properties", props, k);
      ReplaceGet(fs, "properties", props, "items");
      ReplaceGet(fs, "properties", props, "additionalProperties");
      ReplaceGet(r1, "items", items, k);
      ReplaceGet(r1, "items", items, "additionalProperties");
      ReplaceGet(r2, "additionalProperties", more, k);
    }
    SettledByKey(r3);
  }

  // ---------- idempotence ----------

  /** Resolving twice is resolving once. */
  lemma PlainIdempotent(spec: Json, rank: Ranking, j: Json)
    requires Acyclic(spec, rank) && Sound(rank, j) && SpecAnnotated(spec, rank) && Annotated(j)
    ensures Plain(spec, rank, Plain(spec, rank, j)) == Plain(spec, rank, j)
  {
    PlainSettled(spec, rank, j);
    SettledFixed(spec, rank, Plain(spec, rank, j));
  }

  // ---------- raw siblings ----------

  /** Copying `source` over settled fields gives settled fields exactly when `source` is settled. */
  lemma OverwriteSettled(target: Fields, source: Fields)
    requires FieldsSettled(target) && DistinctKeys(source)
    ensures FieldsSettled(PutAll(target, source)) <==> FieldsSettled(source)
  {
    if FieldsSettled(source) {
      PutAllSettled(target, source);
    }
    if FieldsSettled(PutAll(target, source)) {
      forall k | Has(source, k) ensures KeySettled(k, Get(source, k).value) {
        GetPutAll(target, source, k);
        GetSettled(PutAll(target, source), k);
      }
      SettledByKey(source);
    }
  }

  /** A resolved reference is settled exactly when the keys beside the `$ref` are. */
  lemma RefSettledExactly(spec: Json, rank: Ranking, fs: Fields)
    requires Acyclic(spec, rank) && FieldsSound(rank, fs) && SpecAnnotated(spec, rank)
    requires Has(fs, "$ref") && DistinctKeys(Without(fs, "$ref"))
    ensures Settled(Plain(spec, rank, Object(fs))) <==> FieldsSettled(Without(fs, "$ref"))
  {
    GetWithin(rank, fs, "$ref", FieldsLevel(rank, fs));
    var target := Target(spec, Get(fs, "$ref").value.s);
    if target.Some? { PlainSettled(spec, rank, target.value); }
    OverwriteSettled(if target.Some? then Plain(spec, rank, target.value).fields else Empty, Without(fs, "$ref"));
  }

  /** A merged schema with annotated parts is settled exactly when the keys beside the `allOf` are. */
  lemma AllOfSettledExactly(spec: Json, rank: Ranking, fs: Fields)
    requires Acyclic(spec, rank) && FieldsSound(rank, fs) && SpecAnnotated(spec, rank)
    requires !Has(fs, "$ref") && Has(fs, "allOf") && KeyAnnotated("allOf", Get(fs, "allOf").value)
    requires DistinctKeys(Without(fs, "allOf"))
    ensures Settled(Plain(spec, rank, Object(fs))) <==> FieldsSettled(Without(fs, "allOf"))
  {
    var n := FieldsLevel(rank, fs);
    AllOfParts(rank, fs);
    var parts := Get(fs, "allOf").value.items;
    BaseSettled();
    MergeAllSettled(spec, rank, MERGE_BASE, parts, n - 1);
    OverwriteSettled(PlainMerge(spec, rank, MERGE_BASE, parts, n - 1), Without(fs, "allOf"));
  }

  /** The siblings matter: properties written beside a `$ref` are copied raw, so the result
      keeps a reference and resolving it again changes it. */
  lemma RawSiblingNotSettled(spec: Json, rank: Ranking, ref: string)
    requires Acyclic(spec, rank) && ref in rank && Target(spec, ref).None?
    ensures var props := Object(Field("properties", Object(Field("p", Object(Field("$ref", String(ref), Empty)),
      Empty)), Empty));
            var j := Object(Field("$ref", String(ref), props.fields));
            && Sound(rank, j)
            && Plain(spec, rank, j) == props
            && !Settled(props)
            && Plain(spec, rank, Plain(spec, rank, j)) != Plain(spec, rank, j)
  {
    var leaf := Object(Field("$ref", String(ref), Empty));
    var inner := Field("p", leaf, Empty);
    var fs := Field("properties", Object(inner), Empty);
    var j := Object(Field("$ref", String(ref), fs));
    assert Sound(rank, leaf);
    assert ValuesSound(rank, inner);
    assert Sound(rank, Object(fs));
    assert !KeySettled("$ref", String(ref));
    assert !Settled(leaf);
    assert !ValuesSettled(inner);
    assert !KeySettled("properties", Object(inner));
    assert Without(Empty, "$ref") == Empty;
    assert Without(fs, "$ref") == fs && Without(j.fields, "$ref") == fs;
    assert Plain(spec, rank, j) == Object(PutAll(Empty, fs)) == Object(fs);
    assert Without(leaf.fields, "$ref") == Empty;
    assert PlainRef(spec, rank, leaf.fields) == PutAll(Empty, Empty) == Empty;
    assert Plain(spec, rank, leaf) == Object(Empty);
    assert PlainValues(spec, rank, inner) == Field("p", Object(Empty), Empty);
    assert !Has(fs, "$ref") && !Has(fs, "allOf") && !Has(fs, "oneOf") && !Has(fs, "anyOf");
    assert PlainKey(spec, rank, fs, "properties") == Some(Object(PlainValues(spec, rank, inner)));
    assert PlainKey(spec, rank, fs, "items").None? && PlainKey(spec, rank, fs, "additionalProperties").None?;
    assert Plain(spec, rank, Object(fs)) == Object(Put(fs, "properties", Object(Field("p", Object(Empty), Empty))));
  }
}
