/** The script's resolver as a function of its cache and a schema, with a bound on the depth of its calls:
    what it computes, if it comes to an end at all. */
module ResolverRuns {
  import opened Basics
  import opened JsonValues
  import opened SchemaShape
  import opened SchemaPieces

  type Cache = map<string, Json>

  /** A call that needs more depth, one that meets something the script does not expect, or a result with the
      cache it leaves. */
  datatype Outcome<T> = Unfinished | Unexpected | Done(cache: Cache, value: T)

  function RunSchema(spec: Json, cache: Cache, j: Json, depth: nat): Outcome<Json>
    decreases depth, 0
  {
    if !j.Object? then Done(cache, j)
    else if depth == 0 then Unfinished
    else if Has(j.fields, "$ref") then
      (match Get(j.fields, "$ref").value
       case String(ref) =>
         (match RunRef(spec, cache, ref, depth - 1)
          case Done(c, base) => Done(c, Object(PutAll(base, Without(j.fields, "$ref"))))
          case Unfinished => Unfinished
          case Unexpected => Unexpected)
       case _ => Unexpected)
    else if Has(j.fields, "allOf") then
      (match Get(j.fields, "allOf").value
       case Array(parts) =>
         (match RunMerge(spec, cache, MERGE_BASE, parts, depth - 1)
          case Done(c, merged) => Done(c, Object(PutAll(merged, Without(j.fields, "allOf"))))
          case Unfinished => Unfinished
          case Unexpected => Unexpected)
       case _ => Unexpected)
    else if Has(j.fields, "oneOf") || Has(j.fields, "anyOf") then
      (match RunOptions(spec, cache, Nil, Options(j.fields), depth - 1)
       case Done(c, variants) => if variants.Cons? && !variants.head.Object? then Unexpected
         else Done(c, Object(UnionOf(variants)))
       case Unfinished => Unfinished
       case Unexpected => Unexpected)
    else
      (match RunNested(spec, cache, j.fields, depth - 1)
       case Done(c, fs) => Done(c, Object(fs))
       case Unfinished => Unfinished
       case Unexpected => Unexpected)
  }

  /** A cached entry is returned as it is; otherwise the raw schema is cached while it is resolved. */
  function RunRef(spec: Json, cache: Cache, ref: string, depth: nat): Outcome<Fields>
    decreases depth, 2
  {
    if ref in cache then if cache[ref].Object? then Done(cache, cache[ref].fields) else Unexpected
    else match Target(spec, ref)
      case None => Done(cache, Empty)
      case Some(raw) => if raw.Object? then RunTarget(spec, cache, ref, raw, depth) else Unexpected
  }

  function RunTarget(spec: Json, cache: Cache, ref: string, raw: Json, depth: nat): Outcome<Fields>
    decreases depth, 1
  {
    match RunSchema(spec, cache[ref := raw], raw, depth)
    case Done(c, v) => if v.Object? then Done(c[ref := v], v.fields) else Unexpected
    case Unfinished => Unfinished
    case Unexpected => Unexpected
  }

  function RunMerge(spec: Json, cache: Cache, target: Fields, parts: List, depth: nat): Outcome<Fields>
    decreases depth, 3, parts
  {
    if parts.Nil? then Done(cache, target)
    else match RunPart(spec, cache, target, parts.head, depth)
      case Done(c, merged) => RunMerge(spec, c, merged, parts.tail, depth)
      case Unfinished => Unfinished
      case Unexpected => Unexpected
  }

  /** A part is resolved, and its properties are resolved once more before they are merged. */
  function RunPart(spec: Json, cache: Cache, target: Fields, part: Json, depth: nat): Outcome<Fields>
    decreases depth, 2
  {
    match RunSchema(spec, cache, part, depth)
    case Done(c, v) =>
      if !v.Object? then Unexpected
      else
        (match RunProperties(spec, c, v.fields, depth)
         case Done(d, props) => Done(d, MergeInto(target, v.fields, props))
         case Unfinished => Unfinished
         case Unexpected => Unexpected)
    case Unfinished => Unfinished
    case Unexpected => Unexpected
  }

  function RunProperties(spec: Json, cache: Cache, source: Fields, depth: nat): Outcome<Fields>
    decreases depth, 1
  {
    if !Has(source, "properties") then Done(cache, Empty)
    else match RunSchema(spec, cache, OnlyProperties(source), depth)
      case Done(c, v) => if v.Object? then Done(c, PropertiesOf(v.fields)) else Unexpected
      case Unfinished => Unfinished
      case Unexpected => Unexpected
  }

  function RunOptions(spec: Json, cache: Cache, acc: List, options: List, depth: nat): Outcome<List>
    decreases depth, 3, options
  {
    if options.Nil? then Done(cache, acc)
    else if IsNullOption(options.head) then RunOptions(spec, cache, acc, options.tail, depth)
    else match RunSchema(spec, cache, options.head, depth)
      case Done(c, v) => RunOptions(spec, c, ListConcat(acc, Cons(v, Nil)), options.tail, depth)
      case Unfinished => Unfinished
      case Unexpected => Unexpected
  }

  function RunNested(spec: Json, cache: Cache, fs: Fields, depth: nat): Outcome<Fields>
    decreases depth, 6
  {
    RunReplace(spec, cache, fs, fs, ["properties", "items", "additionalProperties"], depth)
  }

  /** The keys of `fs` that hold schemas are resolved one after the other and replaced in `r`. */
  function RunReplace(spec: Json, cache: Cache, fs: Fields, r: Fields, keys: seq<string>, depth: nat): Outcome<Fields>
    decreases depth, 5, |keys|
  {
    if keys == [] then Done(cache, r)
    else match RunKey(spec, cache, fs, keys[0], depth)
      case Done(c, v) => RunReplace(spec, c, fs, Replace(r, keys[0], v), keys[1..], depth)
      case Unfinished => Unfinished
      case Unexpected => Unexpected
  }

  function RunKey(spec: Json, cache: Cache, fs: Fields, k: string, depth: nat): Outcome<Option<Json>>
    decreases depth, 4
  {
    if !Has(fs, k) then Done(cache, None)
    else if k == "properties" then
      if !Get(fs, k).value.Object? then Unexpected
      else
        (match RunValues(spec, cache, Empty, Get(fs, k).value.fields, depth)
         case Done(c, values) => Done(c, Some(Object(values)))
         case Unfinished => Unfinished
         case Unexpected => Unexpected)
    else if k == "additionalProperties" && !Get(fs, k).value.Object? then Done(cache, None)
    else
      (match RunSchema(spec, cache, Get(fs, k).value, depth)
       case Done(c, v) => Done(c, Some(v))
       case Unfinished => Unfinished
       case Unexpected => Unexpected)
  }

  function RunValues(spec: Json, cache: Cache, acc: Fields, rest: Fields, depth: nat): Outcome<Fields>
    decreases depth, 3, rest
  {
    if rest.Empty? then Done(cache, acc)
    else match RunSchema(spec, cache, rest.value, depth)
      case Done(c, v) => RunValues(spec, c, FieldsConcat(acc, Field(rest.key, v, Empty)), rest.rest, depth)
      case Unfinished => Unfinished
      case Unexpected => Unexpected
  }

  // ---------- more depth never changes a result ----------

  lemma {:induction false} MoreSchema(spec: Json, cache: Cache, j: Json, d: nat, e: nat)
    requires d <= e && !RunSchema(spec, cache, j, d).Unfinished?
    ensures RunSchema(spec, cache, j, e) == RunSchema(spec, cache, j, d)
    decreases d, 0
  {
    if j.Object? && d > 0 {
      var fs := j.fields;
      if Has(fs, "$ref") {
        if Get(fs, "$ref").value.String? { MoreRef(spec, cache, Get(fs, "$ref").value.s, d - 1, e - 1); }
      } else if Has(fs, "allOf") {
        if Get(fs, "allOf").value.Array? {
          MoreMerge(spec, cache, MERGE_BASE, Get(fs, "allOf").value.items, d - 1, e - 1);
        }
      } else if Has(fs, "oneOf") || Has(fs, "anyOf") {
        MoreOptions(spec, cache, Nil, Options(fs), d - 1, e - 1);
      } else {
        MoreReplace(spec, cache, fs, fs, ["properties", "items", "additionalProperties"], d - 1, e - 1);
      }
    }
  }

  lemma {:induction false} MoreRef(spec: Json, cache: Cache, ref: string, d: nat, e: nat)
    requires d <= e && !RunRef(spec, cache, ref, d).Unfinished?
    ensures RunRef(spec, cache, ref, e) == RunRef(spec, cache, ref, d)
    decreases d, 1
  {
    if ref !in cache && Target(spec, ref).Some? && Target(spec, ref).value.Object? {
      MoreSchema(spec, cache[ref := Target(spec, ref).value], Target(spec, ref).value, d, e);
    }
  }

  lemma {:induction false} MoreMerge(spec: Json, cache: Cache, target: Fields, parts: List, d: nat, e: nat)
    requires d <= e && !RunMerge(spec, cache, target, parts, d).Unfinished?
    ensures RunMerge(spec, cache, target, parts, e) == RunMerge(spec, cache, target, parts, d)
    decreases d, 3, parts
  {
    if parts.Cons? {
      MorePart(spec, cache, target, parts.head, d, e);
      var first := RunPart(spec, cache, target, parts.head, d);
      if first.Done? { MoreMerge(spec, first.cache, first.value, parts.tail, d, e); }
    }
  }

  lemma {:induction false} MorePart(spec: Json, cache: Cache, target: Fields, part: Json, d: nat, e: nat)
    requires d <= e && !RunPart(spec, cache, target, part, d).Unfinished?
    ensures RunPart(spec, cache, target, part, e) == RunPart(spec, cache, target, part, d)
    decreases d, 2
  {
    MoreSchema(spec, cache, part, d, e);
    var first := RunSchema(spec, cache, part, d);
    if first.Done? && first.value.Object? { MoreProperties(spec, first.cache, first.value.fields, d, e); }
  }

  lemma {:induction false} MoreProperties(spec: Json, cache: Cache, source: Fields, d: nat, e: nat)
    requires d <= e && !RunProperties(spec, cache, source, d).Unfinished?
    ensures RunProperties(spec, cache, source, e) == RunProperties(spec, cache, source, d)
    decreases d, 1
  {
    if Has(source, "properties") { MoreSchema(spec, cache, OnlyProperties(source), d, e); }
  }

  lemma {:induction false} MoreOptions(spec: Json, cache: Cache, acc: List, options: List, d: nat, e: nat)
    requires d <= e && !RunOptions(spec, cache, acc, options, d).Unfinished?
    ensures RunOptions(spec, cache, acc, options, e) == RunOptions(spec, cache, acc, options, d)
    decreases d, 3, options
  {
    if options.Cons? {
      if IsNullOption(options.head) {
        MoreOptions(spec, cache, acc, options.tail, d, e);
      } else {
        MoreSchema(spec, cache, options.head, d, e);
        var first := RunSchema(spec, cache, options.head, d);
        if first.Done? { MoreOptions(spec, first.cache, ListConcat(acc, Cons(first.value, Nil)), options.tail, d, e); }
      }
    }
  }

  lemma {:induction false} MoreReplace(spec: Json, cache: Cache, fs: Fields, r: Fields, keys: seq<string>, d: nat,
    e: nat)
    requires d <= e && !RunReplace(spec, cache, fs, r, keys, d).Unfinished?
    ensures RunReplace(spec, cache, fs, r, keys, e) == RunReplace(spec, cache, fs, r, keys, d)
    decreases d, 5, |keys|
  {
    if keys != [] {
      MoreKey(spec, cache, fs, keys[0], d, e);
      var first := RunKey(spec, cache, fs, keys[0], d);
      if first.Done? { MoreReplace(spec, first.cache, fs, Replace(r, keys[0], first.value), keys[1..], d, e); }
    }
  }

  lemma {:induction false} MoreKey(spec: Json, cache: Cache, fs: Fields, k: string, d: nat, e: nat)
    requires d <= e && !RunKey(spec, cache, fs, k, d).Unfinished?
    ensures RunKey(spec, cache, fs, k, e) == RunKey(spec, cache, fs, k, d)
    decreases d, 4
  {
    if Has(fs, k) {
      var v := Get(fs, k).value;
      if k == "properties" {
        if v.Object? { MoreValues(spec, cache, Empty, v.fields, d, e); }
      } else if !(k == "additionalProperties" && !v.Object?) {
        MoreSchema(spec, cache, v, d, e);
      }
    }
  }

  lemma {:induction false} MoreValues(spec: Json, cache: Cache, acc: Fields, rest: Fields, d: nat, e: nat)
    requires d <= e && !RunValues(spec, cache, acc, rest, d).Unfinished?
    ensures RunValues(spec, cache, acc, rest, e) == RunValues(spec, cache, acc, rest, d)
    decreases d, 3, rest
  {
    if rest.Field? {
      MoreSchema(spec, cache, rest.value, d, e);
      var first := RunSchema(spec, cache, rest.value, d);
      if first.Done? {
        MoreValues(spec, first.cache, FieldsConcat(acc, Field(rest.key, first.value, Empty)), rest.rest, d, e);
      }
    }
  }

  // ---------- what a call gives, whatever depth it needs ----------

  ghost predicate Gives(spec: Json, cache: Cache, j: Json, after: Cache, v: Json) {
    exists d: nat :: RunSchema(spec, cache, j, d) == Done(after, v)
  }

  ghost predicate GivesRef(spec: Json, cache: Cache, ref: string, after: Cache, v: Fields) {
    exists d: nat :: RunRef(spec, cache, ref, d) == Done(after, v)
  }

  ghost predicate GivesMerge(spec: Json, cache: Cache, target: Fields, parts: List, after: Cache, v: Fields) {
    exists d: nat :: RunMerge(spec, cache, target, parts, d) == Done(after, v)
  }

  ghost predicate GivesPart(spec: Json, cache: Cache, target: Fields, part: Json, after: Cache, v: Fields) {
    exists d: nat :: RunPart(spec, cache, target, part, d) == Done(after, v)
  }

  ghost predicate GivesProperties(spec: Json, cache: Cache, source: Fields, after: Cache, v: Fields) {
    exists d: nat :: RunProperties(spec, cache, source, d) == Done(after, v)
  }

  ghost predicate GivesOptions(spec: Json, cache: Cache, acc: List, options: List, after: Cache, v: List) {
    exists d: nat :: RunOptions(spec, cache, acc, options, d) == Done(after, v)
  }

  ghost predicate GivesKey(spec: Json, cache: Cache, fs: Fields, k: string, after: Cache, v: Option<Json>) {
    exists d: nat :: RunKey(spec, cache, fs, k, d) == Done(after, v)
  }

  ghost predicate GivesNested(spec: Json, cache: Cache, fs: Fields, after: Cache, v: Fields) {
    exists d: nat :: RunNested(spec, cache, fs, d) == Done(after, v)
  }

  ghost predicate GivesValues(spec: Json, cache: Cache, acc: Fields, fs: Fields, after: Cache, v: Fields) {
    exists d: nat :: RunValues(spec, cache, acc, fs, d) == Done(after, v)
  }

  /** The result of a call is the only one. */
  lemma GivesOne(spec: Json, cache: Cache, j: Json, c1: Cache, v1: Json, c2: Cache, v2: Json)
    requires Gives(spec, cache, j, c1, v1) && Gives(spec, cache, j, c2, v2)
    ensures c1 == c2 && v1 == v2
  {
    var d: nat :| RunSchema(spec, cache, j, d) == Done(c1, v1);
    var e: nat :| RunSchema(spec, cache, j, e) == Done(c2, v2);
    if d <= e { MoreSchema(spec, cache, j, d, e); } else { MoreSchema(spec, cache, j, e, d); }
  }

  // ---------- one branch at a time ----------

  lemma GivesPlainValue(spec: Json, cache: Cache, j: Json)
    requires !j.Object?
    ensures Gives(spec, cache, j, cache, j)
  {
    assert RunSchema(spec, cache, j, 0) == Done(cache, j);
  }

  lemma GivesReference(spec: Json, cache: Cache, fs: Fields, after: Cache, base: Fields)
    requires Has(fs, "$ref") && Get(fs, "$ref").value.String?
    requires GivesRef(spec, cache, Get(fs, "$ref").value.s, after, base)
    ensures Gives(spec, cache, Object(fs), after, Object(PutAll(base, Without(fs, "$ref"))))
  {
    var d: nat :| RunRef(spec, cache, Get(fs, "$ref").value.s, d) == Done(after, base);
    assert RunSchema(spec, cache, Object(fs), d + 1) == Done(after, Object(PutAll(base, Without(fs, "$ref"))));
  }

  lemma GivesAllOf(spec: Json, cache: Cache, fs: Fields, after: Cache, merged: Fields)
    requires !Has(fs, "$ref") && Has(fs, "allOf") && Get(fs, "allOf").value.Array?
    requires GivesMerge(spec, cache, MERGE_BASE, Get(fs, "allOf").value.items, after, merged)
    ensures Gives(spec, cache, Object(fs), after, Object(PutAll(merged, Without(fs, "allOf"))))
  {
    var d: nat :| RunMerge(spec, cache, MERGE_BASE, Get(fs, "allOf").value.items, d) == Done(after, merged);
    assert RunSchema(spec, cache, Object(fs), d + 1) == Done(after, Object(PutAll(merged, Without(fs, "allOf"))));
  }

  lemma GivesUnion(spec: Json, cache: Cache, fs: Fields, after: Cache, variants: List)
    requires !Has(fs, "$ref") && !Has(fs, "allOf") && (Has(fs, "oneOf") || Has(fs, "anyOf"))
    requires GivesOptions(spec, cache, Nil, Options(fs), after, variants) && (variants.Cons? ==> variants.head.Object?)
    ensures Gives(spec, cache, Object(fs), after, Object(UnionOf(variants)))
  {
    var d: nat :| RunOptions(spec, cache, Nil, Options(fs), d) == Done(after, variants);
    assert RunSchema(spec, cache, Object(fs), d + 1) == Done(after, Object(UnionOf(variants)));
  }

  lemma GivesOther(spec: Json, cache: Cache, fs: Fields, after: Cache, r: Fields)
    requires !Has(fs, "$ref") && !Has(fs, "allOf") && !Has(fs, "oneOf") && !Has(fs, "anyOf")
    requires GivesNested(spec, cache, fs, after, r)
    ensures Gives(spec, cache, Object(fs), after, Object(r))
  {
    var d: nat :| RunNested(spec, cache, fs, d) == Done(after, r);
    assert RunSchema(spec, cache, Object(fs), d + 1) == Done(after, Object(r));
  }

  lemma GivesCached(spec: Json, cache: Cache, ref: string)
    requires ref in cache && cache[ref].Object?
    ensures GivesRef(spec, cache, ref, cache, cache[ref].fields)
  {
    assert RunRef(spec, cache, ref, 0) == Done(cache, cache[ref].fields);
  }

  lemma GivesDangling(spec: Json, cache: Cache, ref: string)
    requires ref !in cache && Target(spec, ref).None?
    ensures GivesRef(spec, cache, ref, cache, Empty)
  {
    assert RunRef(spec, cache, ref, 0) == Done(cache, Empty);
  }

  lemma GivesTarget(spec: Json, cache: Cache, ref: string, raw: Json, after: Cache, v: Json)
    requires ref !in cache && Target(spec, ref) == Some(raw) && raw.Object? && v.Object?
    requires Gives(spec, cache[ref := raw], raw, after, v)
    ensures GivesRef(spec, cache, ref, after[ref := v], v.fields)
  {
    var d: nat :| RunSchema(spec, cache[ref := raw], raw, d) == Done(after, v);
    assert RunRef(spec, cache, ref, d) == Done(after[ref := v], v.fields);
  }

  lemma GivesOnePart(spec: Json, c0: Cache, target: Fields, part: Json, c1: Cache, v: Json, c2: Cache, props: Fields)
    requires Gives(spec, c0, part, c1, v) && v.Object? && GivesProperties(spec, c1, v.fields, c2, props)
    ensures GivesPart(spec, c0, target, part, c2, MergeInto(target, v.fields, props))
  {
    var d: nat :| RunSchema(spec, c0, part, d) == Done(c1, v);
    var e: nat :| RunProperties(spec, c1, v.fields, e) == Done(c2, props);
    var m := Max(d, e);
    MoreSchema(spec, c0, part, d, m);
    MoreProperties(spec, c1, v.fields, e, m);
    assert RunPart(spec, c0, target, part, m) == Done(c2, MergeInto(target, v.fields, props));
  }

  lemma GivesNoProperties(spec: Json, cache: Cache, source: Fields)
    requires !Has(source, "properties")
    ensures GivesProperties(spec, cache, source, cache, Empty)
  {
    assert RunProperties(spec, cache, source, 0) == Done(cache, Empty);
  }

  lemma GivesSomeProperties(spec: Json, cache: Cache, source: Fields, after: Cache, v: Json)
    requires Has(source, "properties") && v.Object? && Gives(spec, cache, OnlyProperties(source), after, v)
    ensures GivesProperties(spec, cache, source, after, PropertiesOf(v.fields))
  {
    var d: nat :| RunSchema(spec, cache, OnlyProperties(source), d) == Done(after, v);
    assert RunProperties(spec, cache, source, d) == Done(after, PropertiesOf(v.fields));
  }

  lemma GivesNoKey(spec: Json, cache: Cache, fs: Fields, k: string)
    requires !Has(fs, k) || (k == "additionalProperties" && !Get(fs, k).value.Object?)
    ensures GivesKey(spec, cache, fs, k, cache, None)
  {
    assert RunKey(spec, cache, fs, k, 0) == Done(cache, None);
  }

  lemma GivesProperty(spec: Json, cache: Cache, fs: Fields, after: Cache, values: Fields)
    requires Has(fs, "properties") && Get(fs, "properties").value.Object?
    requires GivesValues(spec, cache, Empty, Get(fs, "properties").value.fields, after, values)
    ensures GivesKey(spec, cache, fs, "properties", after, Some(Object(values)))
  {
    var d: nat :| RunValues(spec, cache, Empty, Get(fs, "properties").value.fields, d) == Done(after, values);
    assert RunKey(spec, cache, fs, "properties", d) == Done(after, Some(Object(values)));
  }

  lemma GivesSubschema(spec: Json, cache: Cache, fs: Fields, k: string, after: Cache, v: Json)
    requires Has(fs, k) && k != "properties" && !(k == "additionalProperties" && !Get(fs, k).value.Object?)
    requires Gives(spec, cache, Get(fs, k).value, after, v)
    ensures GivesKey(spec, cache, fs, k, after, Some(v))
  {
    var d: nat :| RunSchema(spec, cache, Get(fs, k).value, d) == Done(after, v);
    assert RunKey(spec, cache, fs, k, d) == Done(after, Some(v));
  }

  lemma GivesThreeKeys(spec: Json, c0: Cache, fs: Fields, c1: Cache, p: Option<Json>, c2: Cache, i: Option<Json>,
    c3: Cache, a: Option<Json>)
    requires GivesKey(spec, c0, fs, "properties", c1, p)
    requires GivesKey(spec, c1, fs, "items", c2, i)
    requires GivesKey(spec, c2, fs, "additionalProperties", c3, a)
    ensures GivesNested(spec, c0, fs, c3, Replace(Replace(Replace(fs, "properties", p), "items", i),
      "additionalProperties", a))
  {
    var d: nat :| RunKey(spec, c0, fs, "properties", d) == Done(c1, p);
    var e: nat :| RunKey(spec, c1, fs, "items", e) == Done(c2, i);
    var f: nat :| RunKey(spec, c2, fs, "additionalProperties", f) == Done(c3, a);
    var m := Max(d, Max(e, f));
    MoreKey(spec, c0, fs, "properties", d, m);
    MoreKey(spec, c1, fs, "items", e, m);
    MoreKey(spec, c2, fs, "additionalProperties", f, m);
    ThreeKeys(spec, c0, fs, c1, p, c2, i, c3, a, m);
  }

  lemma ThreeKeys(spec: Json, c0: Cache, fs: Fields, c1: Cache, p: Option<Json>, c2: Cache, i: Option<Json>, c3: Cache,
    a: Option<Json>, m: nat)
    requires RunKey(spec, c0, fs, "properties", m) == Done(c1, p)
    requires RunKey(spec, c1, fs, "items", m) == Done(c2, i)
    requires RunKey(spec, c2, fs, "additionalProperties", m) == Done(c3, a)
    ensures RunNested(spec, c0, fs, m)
         == Done(c3, Replace(Replace(Replace(fs, "properties", p), "items", i), "additionalProperties", a))
  {
    var r1 := Replace(fs, "properties", p);
    var r2 := Replace(r1, "items", i);
    var keys := ["properties", "items", "additionalProperties"];
    assert keys[1..][0] == "items" && keys[1..][1..] == ["additionalProperties"] && ["additionalProperties"][1..] == [];
    assert RunReplace(spec, c2, fs, r2, ["additionalProperties"], m)
      == Done(c3, Replace(r2, "additionalProperties", a));
    assert RunReplace(spec, c1, fs, r1, keys[1..], m) == RunReplace(spec, c2, fs, r2, ["additionalProperties"], m);
  }

  // ---------- loops: whatever the rest gives, the whole gives ----------

  lemma GivesNextPart(spec: Json, c: Cache, r: Fields, parts: List, next: Cache, merged: Fields, after: Cache,
    v: Fields)
    requires parts.Cons? && GivesPart(spec, c, r, parts.head, next, merged)
      && GivesMerge(spec, next, merged, parts.tail, after, v)
    ensures GivesMerge(spec, c, r, parts, after, v)
  {
    var d: nat :| RunPart(spec, c, r, parts.head, d) == Done(next, merged);
    var e: nat :| RunMerge(spec, next, merged, parts.tail, e) == Done(after, v);
    var m := Max(d, e);
    MorePart(spec, c, r, parts.head, d, m);
    MoreMerge(spec, next, merged, parts.tail, e, m);
    assert RunMerge(spec, c, r, parts, m) == Done(after, v);
  }

  lemma GivesNullOption(spec: Json, c: Cache, r: List, options: List, after: Cache, v: List)
    requires options.Cons? && IsNullOption(options.head) && GivesOptions(spec, c, r, options.tail, after, v)
    ensures GivesOptions(spec, c, r, options, after, v)
  {
    var d: nat :| RunOptions(spec, c, r, options.tail, d) == Done(after, v);
    assert RunOptions(spec, c, r, options, d) == Done(after, v);
  }

  lemma GivesNextOption(spec: Json, c: Cache, r: List, options: List, next: Cache, first: Json, after: Cache, v: List)
    requires options.Cons? && !IsNullOption(options.head) && Gives(spec, c, options.head, next, first)
    requires GivesOptions(spec, next, ListConcat(r, Cons(first, Nil)), options.tail, after, v)
    ensures GivesOptions(spec, c, r, options, after, v)
  {
    var more := ListConcat(r, Cons(first, Nil));
    var d: nat :| RunSchema(spec, c, options.head, d) == Done(next, first);
    var e: nat :| RunOptions(spec, next, more, options.tail, e) == Done(after, v);
    var m := Max(d, e);
    MoreSchema(spec, c, options.head, d, m);
    MoreOptions(spec, next, more, options.tail, e, m);
    assert RunOptions(spec, c, r, options, m) == Done(after, v);
  }

  lemma GivesNextValue(spec: Json, c: Cache, r: Fields, rest: Fields, next: Cache, first: Json, after: Cache, v: Fields)
    requires rest.Field? && Gives(spec, c, rest.value, next, first)
    requires GivesValues(spec, next, FieldsConcat(r, Field(rest.key, first, Empty)), rest.rest, after, v)
    ensures GivesValues(spec, c, r, rest, after, v)
  {
    var more := FieldsConcat(r, Field(rest.key, first, Empty));
    var d: nat :| RunSchema(spec, c, rest.value, d) == Done(next, first);
    var e: nat :| RunValues(spec, next, more, rest.rest, e) == Done(after, v);
    var m := Max(d, e);
    MoreSchema(spec, c, rest.value, d, m);
    MoreValues(spec, next, more, rest.rest, e, m);
    assert RunValues(spec, c, r, rest, m) == Done(after, v);
  }

  ghost predicate MergeLeft(spec: Json, c0: Cache, target: Fields, parts: List, c: Cache, r: Fields, rest: List) {
    forall after, v :: GivesMerge(spec, c, r, rest, after, v) ==> GivesMerge(spec, c0, target, parts, after, v)
  }

  lemma MergeStep(spec: Json, c0: Cache, target: Fields, parts: List, c: Cache, r: Fields, rest: List, next: Cache,
    merged: Fields)
    requires MergeLeft(spec, c0, target, parts, c, r, rest) && rest.Cons?
      && GivesPart(spec, c, r, rest.head, next, merged)
    ensures MergeLeft(spec, c0, target, parts, next, merged, rest.tail)
  {
    forall after, v | GivesMerge(spec, next, merged, rest.tail, after, v)
      ensures GivesMerge(spec, c0, target, parts, after, v) {
      GivesNextPart(spec, c, r, rest, next, merged, after, v);
    }
  }

  lemma MergeEnd(spec: Json, c0: Cache, target: Fields, parts: List, c: Cache, r: Fields)
    requires MergeLeft(spec, c0, target, parts, c, r, Nil)
    ensures GivesMerge(spec, c0, target, parts, c, r)
  {
    assert RunMerge(spec, c, r, Nil, 0) == Done(c, r);
    assert GivesMerge(spec, c, r, Nil, c, r);
  }

  ghost predicate OptionsLeft(spec: Json, c0: Cache, options: List, c: Cache, r: List, rest: List) {
    forall after, v :: GivesOptions(spec, c, r, rest, after, v) ==> GivesOptions(spec, c0, Nil, options, after, v)
  }

  lemma OptionsSkip(spec: Json, c0: Cache, options: List, c: Cache, r: List, rest: List)
    requires OptionsLeft(spec, c0, options, c, r, rest) && rest.Cons? && IsNullOption(rest.head)
    ensures OptionsLeft(spec, c0, options, c, r, rest.tail)
  {
    forall after, v | GivesOptions(spec, c, r, rest.tail, after, v)
      ensures GivesOptions(spec, c0, Nil, options, after, v) {
      GivesNullOption(spec, c, r, rest, after, v);
    }
  }

  lemma OptionsStep(spec: Json, c0: Cache, options: List, c: Cache, r: List, rest: List, next: Cache, first: Json)
    requires OptionsLeft(spec, c0, options, c, r, rest) && rest.Cons? && !IsNullOption(rest.head)
      && Gives(spec, c, rest.head, next, first)
    ensures OptionsLeft(spec, c0, options, next, ListConcat(r, Cons(first, Nil)), rest.tail)
  {
    var more := ListConcat(r, Cons(first, Nil));
    forall after, v | GivesOptions(spec, next, more, rest.tail, after, v)
      ensures GivesOptions(spec, c0, Nil, options, after, v) {
      GivesNextOption(spec, c, r, rest, next, first, after, v);
    }
  }

  lemma OptionsEnd(spec: Json, c0: Cache, options: List, c: Cache, r: List)
    requires OptionsLeft(spec, c0, options, c, r, Nil)
    ensures GivesOptions(spec, c0, Nil, options, c, r)
  {
    assert RunOptions(spec, c, r, Nil, 0) == Done(c, r);
    assert GivesOptions(spec, c, r, Nil, c, r);
  }

  ghost predicate ValuesLeft(spec: Json, c0: Cache, fs: Fields, c: Cache, r: Fields, rest: Fields) {
    forall after, v :: GivesValues(spec, c, r, rest, after, v) ==> GivesValues(spec, c0, Empty, fs, after, v)
  }

  lemma ValuesStep(spec: Json, c0: Cache, fs: Fields, c: Cache, r: Fields, rest: Fields, next: Cache, first: Json)
    requires ValuesLeft(spec, c0, fs, c, r, rest) && rest.Field? && Gives(spec, c, rest.value, next, first)
    ensures ValuesLeft(spec, c0, fs, next, FieldsConcat(r, Field(rest.key, first, Empty)), rest.rest)
  {
    var more := FieldsConcat(r, Field(rest.key, first, Empty));
    forall after, v | GivesValues(spec, next, more, rest.rest, after, v)
      ensures GivesValues(spec, c0, Empty, fs, after, v) {
      GivesNextValue(spec, c, r, rest, next, first, after, v);
    }
  }

  lemma ValuesEnd(spec: Json, c0: Cache, fs: Fields, c: Cache, r: Fields)
    requires ValuesLeft(spec, c0, fs, c, r, Empty)
    ensures GivesValues(spec, c0, Empty, fs, c, r)
  {
    assert RunValues(spec, c, r, Empty, 0) == Done(c, r);
    assert GivesValues(spec, c, r, Empty, c, r);
  }
}
