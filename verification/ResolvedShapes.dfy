/** What a resolved schema holds, key by key, spelled out on the JSON: references, unions, merges and plain
    schemas. */
module ResolvedShapes {
  import opened Basics
  import opened JsonValues
  import opened SchemaShape
  import opened SchemaPieces
  import opened Resolver
  import opened ResolverMeaning

  // ---------- which schema a reference denotes ----------

  lemma {:induction false} SplitOne(s: string)
    requires '/' !in s
    ensures Split(s) == [s]
  {
    if s != [] {
      SplitOne(s[1..]);
      assert s == [s[0]] + s[1..];
    }
  }

  lemma {:induction false} SplitFirst(a: string, b: string)
    requires '/' !in a
    ensures Split(a + "/" + b) == [a] + Split(b)
  {
    var s := a + "/" + b;
    if a == [] {
      assert s == "/" + b && s[0] == '/' && s[1..] == b;
    } else {
      assert s[0] == a[0] && s[1..] == a[1..] + "/" + b;
      SplitFirst(a[1..], b);
      var rest := Split(s[1..]);
      assert rest[0] == a[1..] && rest[1..] == Split(b) && a == [a[0]] + a[1..];
    }
  }

  lemma SplitThree(a: string, b: string, c: string)
    requires '/' !in a && '/' !in b && '/' !in c
    ensures Split(a + "/" + (b + "/" + c)) == [a] + ([b] + ([c] + []))
  {
    SplitFirst(a, b + "/" + c);
    SplitFirst(b, c);
    SplitOne(c);
  }

  /** One part of a reference after another is looked up; a missing one is an empty dict. */
  lemma WalkStep(fs: Fields, part: string, parts: seq<string>)
    ensures Walk(Object(fs), [part] + parts)
         == Walk(match Get(fs, part) case Some(v) => v case None => Object(Empty), parts)
  {
    assert ([part] + parts)[1..] == parts;
  }

  /** A reference that does not start at the root denotes nothing. */
  lemma NoTarget(spec: Json, ref: string)
    requires !("#/" <= ref)
    ensures Target(spec, ref) == None
  {
  }

  /** A reference of three parts, such as `#/components/schemas/<name>`, denotes what the document holds there. */
  lemma PathTarget(root: Fields, a: string, first: Fields, b: string, second: Fields, c: string)
    requires '/' !in a && '/' !in b && '/' !in c
    requires Get(root, a) == Some(Object(first)) && Get(first, b) == Some(Object(second)) && Has(second, c)
    ensures Target(Object(root), "#/" + (a + "/" + (b + "/" + c))) == Get(second, c)
  {
    var path := a + "/" + (b + "/" + c);
    assert ("#/" + path)[..2] == "#/" && ("#/" + path)[2..] == path;
    SplitThree(a, b, c);
    WalkThree(root, a, first, b, second, c);
  }

  lemma WalkThree(root: Fields, a: string, first: Fields, b: string, second: Fields, c: string)
    requires Get(root, a) == Some(Object(first)) && Get(first, b) == Some(Object(second)) && Has(second, c)
    ensures Walk(Object(root), [a] + ([b] + ([c] + []))) == Get(second, c)
  {
    WalkStep(root, a, [b] + ([c] + []));
    WalkStep(first, b, [c] + []);
    WalkStep(second, c, []);
  }

  // ---------- unions ----------

  /** `properties.type` of the schema admits only `t`: by `const`, or else by an `enum` of one. */
  ghost predicate Pinned(j: Json, t: string) {
    exists props, kind ::
      && j.Object? && Get(j.fields, "properties") == Some(Object(props)) && Get(props, "type") == Some(Object(kind))
      && (Get(kind, "const") == Some(String(t))
          || ((Get(kind, "const").None? || !Get(kind, "const").value.String?)
              && Get(kind, "enum") == Some(Array(Cons(String(t), Nil)))))
  }

  lemma PinnedExactly(j: Json, t: string)
    ensures TypeConst(j) == Some(t) <==> Pinned(j, t)
  {
    if TypeConst(j) == Some(t) {
      var props := Get(j.fields, "properties").value.fields;
      var kind := Get(props, "type").value.fields;
      assert Get(j.fields, "properties") == Some(Object(props)) && Get(props, "type") == Some(Object(kind));
    }
  }

  /** `oneOf` when it is there and not empty, and otherwise `anyOf`. */
  lemma OptionsMeaning(fs: Fields)
    ensures forall h, t :: Get(fs, "oneOf") == Some(Array(Cons(h, t))) ==> Options(fs) == Cons(h, t)
    ensures Get(fs, "oneOf") in {None, Some(Array(Nil))} ==>
      && (forall l :: Get(fs, "anyOf") == Some(Array(l)) ==> Options(fs) == l)
      && (Get(fs, "anyOf") == None ==> Options(fs) == Nil)
  {
  }

  /** The resolved options, in order, without those whose type is `null`. */
  lemma {:induction false} OptionsInOrder(spec: Json, rank: Ranking, options: List, last: Json)
    requires Acyclic(spec, rank) && ListSound(rank, options) && Sound(rank, last)
    ensures ListSound(rank, ListConcat(options, Cons(last, Nil)))
    ensures PlainOptions(spec, rank, ListConcat(options, Cons(last, Nil))) ==
      if last.Object? && Get(last.fields, "type") == Some(String("null")) then PlainOptions(spec, rank, options)
      else ListConcat(PlainOptions(spec, rank, options), Cons(Plain(spec, rank, last), Nil))
  {
    var none: List := Nil;
    assert PlainOptions(spec, rank, none) == Nil;
    var one := Cons(last, none);
    assert one.tail == Nil && ListSound(rank, one);
    if options.Cons? { OptionsInOrder(spec, rank, options.tail, last); }
  }

  /** `v` is the last of the variants that are pinned to `t`. */
  ghost predicate LastPinned(variants: List, t: string, v: Json) {
    exists before, after ::
      variants == ListConcat(before, Cons(v, after)) && Pinned(v, t) && forall w :: Member(w, after) ==> !Pinned(w, t)
  }

  lemma {:induction false} LastPinnedExactly(variants: List, t: string, v: Json)
    ensures LastVariant(variants, t) == Some(v) <==> LastPinned(variants, t, v)
    ensures LastVariant(variants, t).None? <==> forall w :: Member(w, variants) ==> !Pinned(w, t)
  {
    if variants.Cons? {
      var head, tail := variants.head, variants.tail;
      PinnedExactly(head, t);
      LastPinnedExactly(tail, t, v);
      assert Member(head, variants) && forall w :: Member(w, tail) ==> Member(w, variants);
      if LastVariant(variants, t) == Some(v) {
        if LastVariant(tail, t).Some? {
          var before, after :| tail == ListConcat(before, Cons(v, after)) && Pinned(v, t)
            && forall w :: Member(w, after) ==> !Pinned(w, t);
          assert variants == ListConcat(Cons(head, before), Cons(v, after));
        } else {
          assert variants == ListConcat(Nil, Cons(v, tail));
        }
      }
      if LastPinned(variants, t, v) { LastIsFound(variants, t, v); }
    }
  }

  lemma {:induction false} LastIsFound(variants: List, t: string, v: Json)
    requires LastPinned(variants, t, v)
    ensures LastVariant(variants, t) == Some(v)
  {
    var before, after :| variants == ListConcat(before, Cons(v, after)) && Pinned(v, t)
      && forall w :: Member(w, after) ==> !Pinned(w, t);
    NoneAfter(after, t);
    PinnedExactly(v, t);
    FoundBehind(before, Cons(v, after), t);
  }

  lemma {:induction false} NoneAfter(variants: List, t: string)
    requires forall w :: Member(w, variants) ==> !Pinned(w, t)
    ensures LastVariant(variants, t).None?
  {
    if variants.Cons? {
      assert Member(variants.head, variants) && forall w :: Member(w, variants.tail) ==> Member(w, variants);
      PinnedExactly(variants.head, t);
      NoneAfter(variants.tail, t);
    }
  }

  lemma {:induction false} FoundBehind(before: List, variants: List, t: string)
    requires LastVariant(variants, t).Some?
    ensures LastVariant(ListConcat(before, variants), t) == LastVariant(variants, t)
  {
    if before.Cons? { FoundBehind(before.tail, variants, t); }
  }

  /** Some variant is pinned to some literal. */
  ghost predicate Discriminated(variants: List) { exists v, t :: Member(v, variants) && Pinned(v, t) }

  lemma {:induction false} MapOfPinned(variants: List, t: string, v: Json)
    ensures VariantMap(Empty, variants) != Empty <==> Discriminated(variants)
    ensures Get(VariantMap(Empty, variants), t) == Some(v) <==> LastPinned(variants, t, v)
  {
    var m := VariantMap(Empty, variants);
    VariantMapMeaning(Empty, variants, t);
    LastPinnedExactly(variants, t, v);
    if m.Field? {
      VariantMapMeaning(Empty, variants, m.key);
      LastPinnedExactly(variants, m.key, m.value);
      var w :| Member(w, variants) && Pinned(w, m.key);
    }
    if Discriminated(variants) {
      var w, c :| Member(w, variants) && Pinned(w, c);
      VariantMapMeaning(Empty, variants, c);
      LastPinnedExactly(variants, c, w);
    }
  }

  /** A union without a non-null option is the null type. Any other is its first variant, marked nullable; when some
      variant is pinned to a literal, it also holds, for every literal, the last variant pinned to it. */
  lemma UnionMeaning(spec: Json, rank: Ranking, fs: Fields, k: string, t: string, v: Json)
    requires Acyclic(spec, rank) && FieldsSound(rank, fs)
    requires !Has(fs, "$ref") && !Has(fs, "allOf") && (Has(fs, "oneOf") || Has(fs, "anyOf"))
    ensures ListSound(rank, Options(fs)) && Plain(spec, rank, Object(fs)).Object?
    ensures var variants, r := PlainOptions(spec, rank, Options(fs)), Plain(spec, rank, Object(fs)).fields;
      && Get(r, "_nullable") == Some(Bool(true))
      && (variants.Nil? && k != "_nullable" ==> Get(r, k) == if k == "type" then Some(String("null")) else None)
      && (variants.Cons? ==>
            && variants.head.Object?
            && (k != "_nullable" && k != "_union_variants" ==> Get(r, k) == Get(variants.head.fields, k))
            && (Discriminated(variants) ==>
                  && Has(r, "_union_variants") && Get(r, "_union_variants").value.Object?
                  && (Get(Get(r, "_union_variants").value.fields, t) == Some(v) <==> LastPinned(variants, t, v)))
            && (!Discriminated(variants) ==> Get(r, "_union_variants") == Get(variants.head.fields, "_union_variants")))
  {
    OptionsWithin(rank, fs, FieldsLevel(rank, fs));
    var variants := PlainOptions(spec, rank, Options(fs));
    var r := Plain(spec, rank, Object(fs)).fields;
    assert r == UnionOf(variants);
    UnionKeys(variants, k);
    UnionKeys(variants, "_nullable");
    UnionKeys(variants, "_union_variants");
    MapOfPinned(variants, t, v);
  }

  lemma UnionKeys(variants: List, k: string)
    requires variants.Cons? ==> variants.head.Object?
    ensures Get(UnionOf(variants), k) ==
      if k == "_nullable" then Some(Bool(true))
      else if variants.Nil? then if k == "type" then Some(String("null")) else None
      else if k == "_union_variants" && VariantMap(Empty, variants) != Empty
      then Some(Object(VariantMap(Empty, variants)))
      else Get(variants.head.fields, k)
  {
    if variants.Cons? {
      var base, m := Put(variants.head.fields, "_nullable", Bool(true)), VariantMap(Empty, variants);
      GetPut(variants.head.fields, "_nullable", Bool(true), k);
      GetPut(base, "_union_variants", Object(m), k);
    } else {
      assert "type"[0] == 't' && "_nullable"[0] == '_';
    }
  }

  /** A union whose one variant is a union itself shows the variants of the inner one, even if it is not
      discriminated: the first variant of the inner union may be unpinned. */
  lemma InnerVariantsKept(free: Json, pinned: Json, t: string)
    requires free.Object? && (forall c :: !Pinned(free, c)) && Pinned(pinned, t)
    ensures var inner := Object(UnionOf(Cons(free, Cons(pinned, Nil))));
      !Discriminated(Cons(inner, Nil)) && Has(UnionOf(Cons(inner, Nil)), "_union_variants")
  {
    InnerVariants(free, Cons(pinned, Nil), pinned, t);
    var inner := UnionOf(Cons(free, Cons(pinned, Nil)));
    forall c ensures !Pinned(Object(inner), c) { SamePin(Object(inner), free, c); }
    OuterVariants(inner);
  }

  lemma InnerVariants(first: Json, others: List, pinned: Json, t: string)
    requires first.Object? && Member(pinned, others) && Pinned(pinned, t)
    ensures Has(UnionOf(Cons(first, others)), "_union_variants")
    ensures Get(UnionOf(Cons(first, others)), "properties") == Get(first.fields, "properties")
  {
    var variants := Cons(first, others);
    UnionKeys(variants, "_union_variants");
    UnionKeys(variants, "properties");
    assert Member(pinned, variants);
    MapOfPinned(variants, t, pinned);
  }

  lemma OuterVariants(inner: Fields)
    requires Has(inner, "_union_variants") && forall c :: !Pinned(Object(inner), c)
    ensures !Discriminated(Cons(Object(inner), Nil)) && Has(UnionOf(Cons(Object(inner), Nil)), "_union_variants")
  {
    var one := Cons(Object(inner), Nil);
    assert one.tail == Nil && forall v :: Member(v, one) ==> v == Object(inner);
    MapOfPinned(one, "", Null);
    UnionKeys(one, "_union_variants");
  }

  lemma SamePin(a: Json, b: Json, t: string)
    requires a.Object? && b.Object? && Get(a.fields, "properties") == Get(b.fields, "properties")
    ensures Pinned(a, t) <==> Pinned(b, t)
  {
  }

  // ---------- merges ----------

  /** The value of `k` in the last resolved part that has it. */
  ghost function LastValue(spec: Json, rank: Ranking, parts: List, n: nat, k: string): Option<Json>
    requires Acyclic(spec, rank) && PartsWithin(rank, parts, n)
  {
    if parts.Nil? then None
    else
      var later := LastValue(spec, rank, parts.tail, n, k);
      if later.Some? then later else Get(Plain(spec, rank, parts.head).fields, k)
  }

  /** One merge changes only the four keys. */
  lemma MergedKey(target: Fields, source: Fields, props: Fields, k: string)
    requires k != "properties" && k != "required"
    ensures Get(MergeInto(target, source, props), k) ==
      if (k == "type" || k == "description") && Has(source, k) then Get(source, k) else Get(target, k)
  {
    var merged := Object(PutAll(PropertiesOf(target), props));
    var t1 := if Has(source, "properties") then Put(target, "properties", merged) else target;
    GetPut(target, "properties", merged, k);
    var names := Array(AddMissing(AddMissing(Nil, RequiredOf(t1)), RequiredOf(source)));
    var t2 := if Has(source, "required") then Put(t1, "required", names) else t1;
    GetPut(t1, "required", names, k);
    CopiedKey(t2, source, "type", k);
    CopiedKey(CopyKey(t2, source, "type"), source, "description", k);
    assert "type"[0] == 't' && "description"[0] == 'd';
  }

  lemma CopiedKey(target: Fields, source: Fields, k: string, x: string)
    ensures Get(CopyKey(target, source, k), x) == if x == k && Has(source, k) then Get(source, k) else Get(target, x)
  {
    if Has(source, k) { GetPut(target, k, Get(source, k).value, x); }
  }

  lemma {:induction false} MergeKey(spec: Json, rank: Ranking, target: Fields, parts: List, n: nat, k: string)
    requires Acyclic(spec, rank) && Within(rank, target, n) && PartsWithin(rank, parts, n)
    requires k != "properties" && k != "required"
    ensures Get(PlainMerge(spec, rank, target, parts, n), k) ==
      if (k == "type" || k == "description") && LastValue(spec, rank, parts, n, k).Some?
      then LastValue(spec, rank, parts, n, k) else Get(target, k)
    decreases parts
  {
    if parts.Cons? {
      var source := Plain(spec, rank, parts.head).fields;
      MergedKey(target, source, PlainProperties(spec, rank, source, n), k);
      MergeKey(spec, rank, PlainMergePart(spec, rank, target, parts.head, n), parts.tail, n, k);
    }
  }

  /** A merged property belongs to `properties`, and a merged name to `required`. */
  lemma {:induction false} MergeHolds(spec: Json, rank: Ranking, target: Fields, parts: List, n: nat)
    requires Acyclic(spec, rank) && Within(rank, target, n) && PartsWithin(rank, parts, n)
    requires Has(target, "properties") && Has(target, "required")
    ensures var r := PlainMerge(spec, rank, target, parts, n);
      && Has(r, "properties") && Get(r, "properties").value == Object(PropertiesOf(r))
      && Has(r, "required") && Get(r, "required").value == Array(RequiredOf(r))
    decreases parts
  {
    if parts.Nil? {
      GetWithin(rank, target, "properties", n);
      GetWithin(rank, target, "required", n);
    } else {
      var source := Plain(spec, rank, parts.head).fields;
      MergedHas(target, source, PlainProperties(spec, rank, source, n));
      MergeHolds(spec, rank, PlainMergePart(spec, rank, target, parts.head, n), parts.tail, n);
    }
  }

  lemma MergedHas(target: Fields, source: Fields, props: Fields)
    requires Has(target, "properties") && Has(target, "required")
    ensures Has(MergeInto(target, source, props), "properties") && Has(MergeInto(target, source, props), "required")
  {
    var merged := Object(PutAll(PropertiesOf(target), props));
    var t1 := if Has(source, "properties") then Put(target, "properties", merged) else target;
    GetPut(target, "properties", merged, "properties");
    GetPut(target, "properties", merged, "required");
    var names := Array(AddMissing(AddMissing(Nil, RequiredOf(t1)), RequiredOf(source)));
    var t2 := if Has(source, "required") then Put(t1, "required", names) else t1;
    GetPut(t1, "required", names, "properties");
    GetPut(t1, "required", names, "required");
    CopyKeyOther(t2, source, "type", "properties");
    CopyKeyOther(t2, source, "type", "required");
    CopyKeyOther(CopyKey(t2, source, "type"), source, "description", "properties");
    CopyKeyOther(CopyKey(t2, source, "type"), source, "description", "required");
  }

  /** What merging `parts` holds under `k`: `type` (by default `object`) and `description` of the last part that has
      them, the properties, each from the last part that has it, and the names that some part requires; and nothing
      else. */
  ghost predicate MergeOf(spec: Json, rank: Ranking, parts: List, n: nat, k: string, p: string, x: Json,
                          r: Option<Json>)
    requires Acyclic(spec, rank) && PartsWithin(rank, parts, n)
  {
    if k == "properties" then
      r.Some? && r.value.Object? && Get(r.value.fields, p) == LastOffer(spec, rank, parts, n, p)
    else if k == "required" then
      r.Some? && r.value.Array? && (Member(x, r.value.items) <==> SomeRequires(spec, rank, parts, n, x))
    else if k == "type" || k == "description" then
      var last := LastValue(spec, rank, parts, n, k);
      r == if last.Some? then last else if k == "type" then Some(String("object")) else None
    else r == None
  }

  lemma MergeMeaning(spec: Json, rank: Ranking, parts: List, n: nat, k: string, p: string, x: Json)
    requires Acyclic(spec, rank) && Within(rank, MERGE_BASE, n) && PartsWithin(rank, parts, n)
    ensures MergeOf(spec, rank, parts, n, k, p, x, Get(PlainMerge(spec, rank, MERGE_BASE, parts, n), k))
  {
    BaseKeys(k);
    if k == "properties" {
      MergeHolds(spec, rank, MERGE_BASE, parts, n);
      LastPartWins(spec, rank, MERGE_BASE, parts, n, p);
    } else if k == "required" {
      MergeHolds(spec, rank, MERGE_BASE, parts, n);
      RequiredIsUnion(spec, rank, MERGE_BASE, parts, n, x);
    } else {
      MergeKey(spec, rank, MERGE_BASE, parts, n, k);
    }
  }

  /** An `allOf` holds the keys beside it as they are; any other key as its parts merge to it. */
  lemma AllOfMeaning(spec: Json, rank: Ranking, fs: Fields, k: string, p: string, x: Json)
    requires Acyclic(spec, rank) && FieldsSound(rank, fs) && !Has(fs, "$ref") && Has(fs, "allOf")
    ensures Get(fs, "allOf").value.Array? && FieldsLevel(rank, fs) > 0
    ensures PartsWithin(rank, Get(fs, "allOf").value.items, FieldsLevel(rank, fs) - 1)
    ensures var r := Get(Plain(spec, rank, Object(fs)).fields, k);
      if k != "allOf" && Last(fs, k).Some? then r == Last(fs, k)
      else MergeOf(spec, rank, Get(fs, "allOf").value.items, FieldsLevel(rank, fs) - 1, k, p, x, r)
  {
    AllOfParts(rank, fs);
    AllOfKey(spec, rank, fs, k);
    MergeMeaning(spec, rank, Get(fs, "allOf").value.items, FieldsLevel(rank, fs) - 1, k, p, x);
  }

  lemma AllOfKey(spec: Json, rank: Ranking, fs: Fields, k: string)
    requires Acyclic(spec, rank) && FieldsSound(rank, fs) && !Has(fs, "$ref") && Has(fs, "allOf")
    requires Get(fs, "allOf").value.Array? && FieldsLevel(rank, fs) > 0
    requires PartsWithin(rank, Get(fs, "allOf").value.items, FieldsLevel(rank, fs) - 1)
    requires Within(rank, MERGE_BASE, FieldsLevel(rank, fs) - 1)
    ensures Get(Plain(spec, rank, Object(fs)).fields, k) ==
      if k != "allOf" && Last(fs, k).Some? then Last(fs, k)
      else Get(PlainMerge(spec, rank, MERGE_BASE, Get(fs, "allOf").value.items, FieldsLevel(rank, fs) - 1), k)
  {
    var merged := PlainMerge(spec, rank, MERGE_BASE, Get(fs, "allOf").value.items, FieldsLevel(rank, fs) - 1);
    GetPutAllLast(merged, Without(fs, "allOf"), k);
    LastWithout(fs, "allOf", k);
  }

  lemma BaseKeys(k: string)
    ensures Get(MERGE_BASE, k) ==
      if k == "type" then Some(String("object")) else if k == "properties" then Some(Object(Empty))
      else if k == "required" then Some(Array(Nil)) else None
    ensures Has(MERGE_BASE, "properties") && PropertiesOf(MERGE_BASE) == Empty
    ensures Has(MERGE_BASE, "required") && RequiredOf(MERGE_BASE) == Nil
  {
    assert "type"[0] == 't' && "properties"[0] == 'p' && "required"[0] == 'r';
    var last := Field("required", Array(Nil), Empty);
    var more := Field("properties", Object(Empty), last);
    assert Get(last, k) == if k == "required" then Some(Array(Nil)) else None;
    assert Get(more, k) == if k == "properties" then Some(Object(Empty)) else Get(last, k);
    assert Get(last, "required") == Some(Array(Nil)) && Get(more, "required") == Some(Array(Nil));
  }

  // ---------- other schemas ----------

  lemma {:induction false} ValueOf(spec: Json, rank: Ranking, fs: Fields, f: string)
    requires Acyclic(spec, rank) && ValuesSound(rank, fs)
    ensures Get(PlainValues(spec, rank, fs), f) ==
      if Has(fs, f) then ValueSound(rank, fs, f); Some(Plain(spec, rank, Get(fs, f).value)) else None
  {
    if fs.Field? && fs.key != f { ValueOf(spec, rank, fs.rest, f); }
  }

  lemma {:induction false} ValueSound(rank: Ranking, fs: Fields, f: string)
    requires ValuesSound(rank, fs) && Has(fs, f)
    ensures Sound(rank, Get(fs, f).value)
  {
    if fs.key != f { ValueSound(rank, fs.rest, f); }
  }

  /** Any other schema keeps its keys; each property, the items and the additional properties, if they are a dict, are
      resolved in place. */
  lemma NestedMeaning(spec: Json, rank: Ranking, fs: Fields, k: string, f: string)
    requires Acyclic(spec, rank) && FieldsSound(rank, fs)
    requires !Has(fs, "$ref") && !Has(fs, "allOf") && !Has(fs, "oneOf") && !Has(fs, "anyOf")
    ensures var r := Get(Plain(spec, rank, Object(fs)).fields, k);
      match Get(fs, k)
      case None => r == None
      case Some(v) =>
        if k == "properties" then
          && v.Object? && ValuesSound(rank, v.fields) && r.Some? && r.value.Object?
          && (match Get(v.fields, f)
              case Some(w) => Sound(rank, w) && Get(r.value.fields, f) == Some(Plain(spec, rank, w))
              case None => Get(r.value.fields, f) == None)
        else if k == "items" || (k == "additionalProperties" && v.Object?) then
          Sound(rank, v) && r == Some(Plain(spec, rank, v))
        else r == Some(v)
  {
    var n := FieldsLevel(rank, fs);
    var props := PlainKey(spec, rank, fs, "properties");
    var items := PlainKey(spec, rank, fs, "items");
    var more := PlainKey(spec, rank, fs, "additionalProperties");
    ReplacedKey(fs, "properties", props, k);
    ReplacedKey(Replace(fs, "properties", props), "items", items, k);
    ReplacedKey(Replace(Replace(fs, "properties", props), "items", items), "additionalProperties", more, k);
    assert "properties"[0] == 'p' && "items"[0] == 'i' && "additionalProperties"[0] == 'a';
    if Has(fs, k) { GetWithin(rank, fs, k, n); }
    if k == "properties" && Has(fs, k) {
      ValueOf(spec, rank, Get(fs, k).value.fields, f);
      if Has(Get(fs, k).value.fields, f) { ValueSound(rank, Get(fs, k).value.fields, f); }
    }
  }

  lemma ReplacedKey(fs: Fields, k: string, v: Option<Json>, x: string)
    ensures Get(Replace(fs, k, v), x) == if x == k && v.Some? then v else Get(fs, x)
  {
    if v.Some? { GetPut(fs, k, v.value, x); }
  }
}
