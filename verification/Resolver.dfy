/** `OpenAPIResolver`: expansion of `$ref`, `allOf`, `oneOf` and `anyOf` with a cache
    that is seeded with the raw schema while a reference is being resolved. */
module Resolver {
  import opened Basics
  import opened JsonValues
  import opened SchemaShape
  import opened SchemaPieces
  import opened ResolverRuns

  // ---------- soundness and level of the pieces ----------

  lemma {:induction false} AddMissingStrings(names: List, more: List)
    requires AllStrings(names) && AllStrings(more)
    ensures AllStrings(AddMissing(names, more))
    decreases more
  {
    if more.Cons? {
      ConcatStrings(names, Cons(more.head, Nil));
      AddMissingStrings(if Member(more.head, names) then names else ListConcat(names, Cons(more.head, Nil)), more.tail);
    }
  }

  lemma {:induction false} ConcatStrings(a: List, b: List)
    requires AllStrings(a) && AllStrings(b)
    ensures AllStrings(ListConcat(a, b))
  {
    if a.Cons? { ConcatStrings(a.tail, b); }
  }

  predicate PartsWithin(rank: Ranking, parts: List, n: nat) {
    parts.Cons? ==>
      && parts.head.Object? && Sound(rank, parts.head) && Level(rank, parts.head) <= n
      && PartsWithin(rank, parts.tail, n)
  }

  lemma {:induction false} PartsOf(rank: Ranking, parts: List, n: nat)
    requires ListSound(rank, parts) && AllObjects(parts) && ListLevel(rank, parts) <= n
    ensures PartsWithin(rank, parts, n)
  {
    if parts.Cons? { PartsOf(rank, parts.tail, n); }
  }

  lemma KeyAllOf(rank: Ranking, v: Json, n: nat)
    requires KeyWithin(rank, "allOf", v, n)
    ensures v.Array? && n > 0 && PartsWithin(rank, v.items, n - 1)
  {
    PartsOf(rank, v.items, n - 1);
  }

  lemma BaseWithin(rank: Ranking, n: nat)
    ensures Within(rank, MERGE_BASE, n)
  {
    PutWithin(rank, Empty, "required", Array(Nil), n);
    PutWithin(rank, Empty, "properties", Object(Empty), n);
  }

  lemma {:induction false} AllOfParts(rank: Ranking, fs: Fields)
    requires FieldsSound(rank, fs) && Has(fs, "allOf")
    ensures Get(fs, "allOf").value.Array? && FieldsLevel(rank, fs) > 0
    ensures PartsWithin(rank, Get(fs, "allOf").value.items, FieldsLevel(rank, fs) - 1)
    ensures Within(rank, MERGE_BASE, FieldsLevel(rank, fs) - 1)
  {
    var n := FieldsLevel(rank, fs);
    GetWithin(rank, fs, "allOf", n);
    KeyAllOf(rank, Get(fs, "allOf").value, n);
    BaseWithin(rank, n - 1);
  }

  lemma UnionWithin(rank: Ranking, variants: List, n: nat)
    requires variants.Cons? ==> variants.head.Object? && Within(rank, variants.head.fields, n)
    ensures Within(rank, UnionOf(variants), n)
  {
    if variants.Cons? {
      PutWithin(rank, variants.head.fields, "_nullable", Bool(true), n);
      var base := Put(variants.head.fields, "_nullable", Bool(true));
      PutWithin(rank, base, "_union_variants", Object(VariantMap(Empty, variants)), n);
    }
  }

  lemma {:induction false} OptionsWithin(rank: Ranking, fs: Fields, n: nat)
    requires Within(rank, fs, n)
    ensures ListSound(rank, Options(fs)) && ListLevel(rank, Options(fs)) <= n
    ensures FirstOptionIsObject(Options(fs))
    ensures ListSize(Options(fs)) < Size(Object(fs))
  {
    if Has(fs, "oneOf") { OptionKey(rank, fs, "oneOf", n); }
    if Has(fs, "anyOf") { OptionKey(rank, fs, "anyOf", n); }
  }

  lemma {:induction false} OptionKey(rank: Ranking, fs: Fields, k: string, n: nat)
    requires Within(rank, fs, n) && Has(fs, k) && (k == "oneOf" || k == "anyOf")
    ensures var v := Get(fs, k).value;
      && v.Array? && ListSound(rank, v.items) && ListLevel(rank, v.items) <= n && FirstOptionIsObject(v.items)
      && ListSize(v.items) < Size(Object(fs))
  {
    GetWithin(rank, fs, k, n);
  }

  lemma CopyKeyWithin(rank: Ranking, target: Fields, source: Fields, k: string, n: nat)
    requires Within(rank, target, n) && Within(rank, source, n)
    ensures Within(rank, CopyKey(target, source, k), n)
  {
    if Has(source, k) {
      GetWithin(rank, source, k, n);
      PutWithin(rank, target, k, Get(source, k).value, n);
    }
  }

  lemma MergeWithin(rank: Ranking, target: Fields, source: Fields, props: Fields, n: nat)
    requires Within(rank, target, n) && Within(rank, source, n) && ValuesWithin(rank, props, n)
    ensures Within(rank, MergeInto(target, source, props), n)
  {
    var t1 := target;
    if Has(source, "properties") {
      if Has(target, "properties") { GetWithin(rank, target, "properties", n); }
      PutAllValuesWithin(rank, PropertiesOf(target), props, n);
      var merged := Object(PutAll(PropertiesOf(target), props));
      PutWithin(rank, target, "properties", merged, n);
      t1 := Put(target, "properties", merged);
    }
    var t2 := t1;
    if Has(source, "required") {
      if Has(t1, "required") { GetWithin(rank, t1, "required", n); }
      GetWithin(rank, source, "required", n);
      AddMissingStrings(Nil, RequiredOf(t1));
      AddMissingStrings(AddMissing(Nil, RequiredOf(t1)), RequiredOf(source));
      var names := Array(AddMissing(AddMissing(Nil, RequiredOf(t1)), RequiredOf(source)));
      PutWithin(rank, t1, "required", names, n);
      t2 := Put(t1, "required", names);
    }
    CopyKeyWithin(rank, t2, source, "type", n);
    CopyKeyWithin(rank, CopyKey(t2, source, "type"), source, "description", n);
  }

  lemma OnlyPropertiesWithin(rank: Ranking, fs: Fields, n: nat)
    requires Within(rank, fs, n) && Has(fs, "properties")
    ensures Within(rank, OnlyProperties(fs).fields, n)
  {
    GetWithin(rank, fs, "properties", n);
    PutWithin(rank, Empty, "properties", Get(fs, "properties").value, n);
  }

  lemma ReplaceWithin(rank: Ranking, fs: Fields, k: string, v: Option<Json>, n: nat)
    requires Within(rank, fs, n) && (v.Some? ==> KeyWithin(rank, k, v.value, n))
    ensures Within(rank, Replace(fs, k, v), n)
  {
    if v.Some? { PutWithin(rank, fs, k, v.value, n); }
  }

  // ---------- the uncached resolver ----------

  ghost function Plain(spec: Json, rank: Ranking, j: Json): (r: Json)
    requires Acyclic(spec, rank) && Sound(rank, j)
    ensures Sound(rank, r) && Level(rank, r) <= Level(rank, j) && (j.Object? <==> r.Object?)
    decreases Level(rank, j), Size(j), 1
  {
    if !j.Object? then j
    else if Has(j.fields, "$ref") then Object(PlainRef(spec, rank, j.fields))
    else if Has(j.fields, "allOf") then Object(PlainAllOf(spec, rank, j.fields))
    else if Has(j.fields, "oneOf") || Has(j.fields, "anyOf") then
      OptionsWithin(rank, j.fields, Level(rank, j));
      var variants := PlainOptions(spec, rank, Options(j.fields));
      UnionWithin(rank, variants, Level(rank, j));
      Object(UnionOf(variants))
    else Object(PlainNested(spec, rank, j.fields))
  }

  /** The schema a reference denotes, with the siblings of `$ref` copied over it. */
  ghost function PlainRef(spec: Json, rank: Ranking, fs: Fields): (r: Fields)
    requires Acyclic(spec, rank) && FieldsSound(rank, fs) && Has(fs, "$ref")
    ensures Within(rank, r, FieldsLevel(rank, fs))
    decreases FieldsLevel(rank, fs), FieldsSize(fs), 0
  {
    var n := FieldsLevel(rank, fs);
    GetWithin(rank, fs, "$ref", n);
    var target := Target(spec, Get(fs, "$ref").value.s);
    var base := if target.Some? then Plain(spec, rank, target.value).fields else Empty;
    WithoutWithin(rank, fs, "$ref", n);
    PutAllWithin(rank, base, Without(fs, "$ref"), n);
    PutAll(base, Without(fs, "$ref"))
  }

  /** All parts merged from left to right, with the siblings of `allOf` copied over. */
  ghost function PlainAllOf(spec: Json, rank: Ranking, fs: Fields): (r: Fields)
    requires Acyclic(spec, rank) && FieldsSound(rank, fs) && Has(fs, "allOf")
    ensures Within(rank, r, FieldsLevel(rank, fs))
    decreases FieldsLevel(rank, fs), FieldsSize(fs), 0
  {
    var n := FieldsLevel(rank, fs);
    AllOfParts(rank, fs);
    var merged := PlainMerge(spec, rank, MERGE_BASE, Get(fs, "allOf").value.items, n - 1);
    WithoutWithin(rank, fs, "allOf", n);
    PutAllWithin(rank, merged, Without(fs, "allOf"), n);
    PutAll(merged, Without(fs, "allOf"))
  }

  ghost function PlainMerge(spec: Json, rank: Ranking, target: Fields, parts: List, n: nat): (r: Fields)
    requires Acyclic(spec, rank) && Within(rank, target, n)
    requires PartsWithin(rank, parts, n)
    ensures Within(rank, r, n)
    decreases n + 1, ListSize(parts), 0
  {
    if parts.Nil? then target
    else PlainMerge(spec, rank, PlainMergePart(spec, rank, target, parts.head, n), parts.tail, n)
  }

  ghost function PlainMergePart(spec: Json, rank: Ranking, target: Fields, part: Json, n: nat): (r: Fields)
    requires Acyclic(spec, rank) && Within(rank, target, n)
    requires part.Object? && Sound(rank, part) && Level(rank, part) <= n
    ensures Within(rank, r, n)
    decreases n + 1, 0, 0
  {
    var source := Plain(spec, rank, part).fields;
    var props := PlainProperties(spec, rank, source, n);
    MergeWithin(rank, target, source, props, n);
    MergeInto(target, source, props)
  }

  /** The `properties` of an already resolved part, resolved once more. */
  ghost function PlainProperties(spec: Json, rank: Ranking, source: Fields, n: nat): (r: Fields)
    requires Acyclic(spec, rank) && Within(rank, source, n)
    ensures ValuesWithin(rank, r, n)
    decreases n, 1 + FieldsSize(source), 2
  {
    if !Has(source, "properties") then Empty
    else
      OnlyPropertiesWithin(rank, source, n);
      var again := Plain(spec, rank, OnlyProperties(source)).fields;
      if Has(again, "properties") then GetWithin(rank, again, "properties", n); PropertiesOf(again)
      else PropertiesOf(again)
  }

  /** The resolved non-null options. */
  ghost function PlainOptions(spec: Json, rank: Ranking, options: List): (r: List)
    requires Acyclic(spec, rank) && ListSound(rank, options)
    ensures FirstOptionIsObject(options) && r.Cons? ==>
              r.head.Object? && Sound(rank, r.head) && Level(rank, r.head) <= ListLevel(rank, options)
    decreases ListLevel(rank, options), ListSize(options), 0
  {
    if options.Nil? then Nil
    else if IsNullOption(options.head) then PlainOptions(spec, rank, options.tail)
    else Cons(Plain(spec, rank, options.head), PlainOptions(spec, rank, options.tail))
  }

  ghost function PlainNested(spec: Json, rank: Ranking, fs: Fields): (r: Fields)
    requires Acyclic(spec, rank) && FieldsSound(rank, fs)
    ensures Within(rank, r, FieldsLevel(rank, fs))
    decreases FieldsLevel(rank, fs), FieldsSize(fs), 1
  {
    var n := FieldsLevel(rank, fs);
    var props := PlainKey(spec, rank, fs, "properties");
    var items := PlainKey(spec, rank, fs, "items");
    var more := PlainKey(spec, rank, fs, "additionalProperties");
    ReplaceWithin(rank, fs, "properties", props, n);
    var r1 := Replace(fs, "properties", props);
    ReplaceWithin(rank, r1, "items", items, n);
    var r2 := Replace(r1, "items", items);
    ReplaceWithin(rank, r2, "additionalProperties", more, n);
    Replace(r2, "additionalProperties", more)
  }

  /** The new value of one nested key; `None` leaves the key alone. */
  ghost function PlainKey(spec: Json, rank: Ranking, fs: Fields, k: string): (r: Option<Json>)
    requires Acyclic(spec, rank) && FieldsSound(rank, fs)
    requires k in {"properties", "items", "additionalProperties"}
    ensures r.Some? ==> Has(fs, k) && KeyWithin(rank, k, r.value, FieldsLevel(rank, fs))
    decreases FieldsLevel(rank, fs), FieldsSize(fs), 0
  {
    if !Has(fs, k) then None
    else
      GetWithin(rank, fs, k, FieldsLevel(rank, fs));
      var v := Get(fs, k).value;
      if k == "properties" then Some(Object(PlainValues(spec, rank, v.fields)))
      else if k == "additionalProperties" && !v.Object? then None
      else Some(Plain(spec, rank, v))
  }

  ghost function PlainValues(spec: Json, rank: Ranking, fs: Fields): (r: Fields)
    requires Acyclic(spec, rank) && ValuesSound(rank, fs)
    ensures ValuesWithin(rank, r, ValuesLevel(rank, fs))
    decreases ValuesLevel(rank, fs), FieldsSize(fs), 0
  {
    if fs.Empty? then Empty
    else Field(fs.key, Plain(spec, rank, fs.value), PlainValues(spec, rank, fs.rest))
  }

  // ---------- the resolver with its cache ----------

  /** `finished` holds the uncached result for every reference that denotes something. */
  ghost predicate FinishedBy(spec: Json, rank: Ranking, finished: map<string, Json>)
    requires Acyclic(spec, rank)
  {
    forall r {:trigger Target(spec, r)} :: r in rank ==>
      && (r in finished <==> Target(spec, r).Some?)
      && (r in finished ==> finished[r] == Plain(spec, rank, Target(spec, r).value))
  }

  ghost predicate CacheWithin(rank: Ranking, cache: map<string, Json>)
    requires cache.Keys <= rank.Keys
  {
    forall r :: r in cache ==> cache[r].Object? && Within(rank, cache[r].fields, rank[r])
  }

  /** Only the entries of references in progress may differ from the uncached result. */
  ghost predicate CacheFinished(cache: map<string, Json>, busy: set<string>, finished: map<string, Json>) {
    forall r :: r in cache && r !in busy ==> r in finished && cache[r] == finished[r]
  }

  lemma StoreWithin(rank: Ranking, cache: map<string, Json>, ref: string, v: Json)
    requires ref in rank && cache.Keys <= rank.Keys && CacheWithin(rank, cache)
    requires v.Object? && Within(rank, v.fields, rank[ref])
    ensures cache[ref := v].Keys <= rank.Keys && CacheWithin(rank, cache[ref := v])
  {
    var stored := cache[ref := v];
    forall r | r in stored ensures stored[r].Object? && Within(rank, stored[r].fields, rank[r]) {
      if r == ref { assert stored[r] == v; } else { assert stored[r] == cache[r]; }
    }
  }

  /** The references in progress all have a rank above `n`. */
  ghost predicate Below(rank: Ranking, busy: set<string>, n: nat)
    requires busy <= rank.Keys
  {
    forall b :: b in busy ==> n < rank[b]
  }

  ghost predicate Consistent(spec: Json, rank: Ranking, finished: map<string, Json>,
                             cache: map<string, Json>, busy: set<string>) {
    && Stratified(spec, rank)
    && busy <= cache.Keys <= rank.Keys
    && CacheWithin(rank, cache)
    && (Acyclic(spec, rank) ==> FinishedBy(spec, rank, finished) && CacheFinished(cache, busy, finished))
  }

  /** Seeding an entry and marking it as in progress. */
  lemma SeedConsistent(spec: Json, rank: Ranking, finished: map<string, Json>,
                       cache: map<string, Json>, busy: set<string>, ref: string, raw: Json)
    requires Consistent(spec, rank, finished, cache, busy) && ref in rank && ref !in cache
    requires raw.Object? && Within(rank, raw.fields, rank[ref])
    ensures Consistent(spec, rank, finished, cache[ref := raw], busy + {ref})
  {
    StoreWithin(rank, cache, ref, raw);
    SeedFinished(cache, busy, finished, ref, raw);
  }

  lemma SeedFinished(cache: map<string, Json>, busy: set<string>, finished: map<string, Json>, ref: string, v: Json)
    ensures CacheFinished(cache, busy, finished) ==> CacheFinished(cache[ref := v], busy + {ref}, finished)
  {
  }

  lemma SeedUncached(all: set<string>, cache: map<string, Json>, ref: string, v: Json)
    requires ref in all && ref !in cache
    ensures |all - cache[ref := v].Keys| < |all - cache.Keys|
  {
    assert cache[ref := v].Keys == cache.Keys + {ref};
    assert all - cache.Keys == (all - (cache.Keys + {ref})) + {ref};
  }

  /** Storing the uncached result and clearing the mark. */
  lemma StoreConsistent(spec: Json, rank: Ranking, finished: map<string, Json>,
                        cache: map<string, Json>, busy: set<string>, ref: string, v: Json)
    requires Consistent(spec, rank, finished, cache, busy) && ref in busy
    requires v.Object? && Within(rank, v.fields, rank[ref])
    requires Acyclic(spec, rank) ==> ref in finished && v == finished[ref]
    ensures Consistent(spec, rank, finished, cache[ref := v], busy - {ref})
    ensures cache[ref := v].Keys == cache.Keys
  {
    StoreWithin(rank, cache, ref, v);
    assert cache[ref := v].Keys == cache.Keys;
  }

  /** The options resolved so far, `r`, and those still to be resolved. */
  ghost predicate OptionsSoFar(spec: Json, rank: Ranking, options: List, r: List, rest: List) {
    && ListSound(rank, rest) && ListLevel(rank, rest) <= ListLevel(rank, options) && ListSize(rest) <= ListSize(options)
    && (r.Nil? ==> FirstOptionIsObject(rest))
    && (r.Cons? ==> r.head.Object? && Within(rank, r.head.fields, ListLevel(rank, options)))
    && (Acyclic(spec, rank) && ListSound(rank, options) ==>
          ListConcat(r, PlainOptions(spec, rank, rest)) == PlainOptions(spec, rank, options))
  }

  lemma OptionsBegin(spec: Json, rank: Ranking, options: List)
    requires ListSound(rank, options) && FirstOptionIsObject(options)
    ensures OptionsSoFar(spec, rank, options, Nil, options)
  {
  }

  lemma OptionsFinish(spec: Json, rank: Ranking, options: List, r: List)
    requires ListSound(rank, options) && OptionsSoFar(spec, rank, options, r, Nil)
    ensures r.Cons? ==> r.head.Object? && Within(rank, r.head.fields, ListLevel(rank, options))
    ensures Acyclic(spec, rank) ==> r == PlainOptions(spec, rank, options)
  {
    ListConcatNil(r);
  }

  lemma OptionsNull(spec: Json, rank: Ranking, options: List, r: List, rest: List)
    requires OptionsSoFar(spec, rank, options, r, rest) && rest.Cons? && IsNullOption(rest.head)
    ensures OptionsSoFar(spec, rank, options, r, rest.tail)
  {
  }

  lemma OptionsNext(spec: Json, rank: Ranking, options: List, r: List, rest: List, v: Json)
    requires OptionsSoFar(spec, rank, options, r, rest) && rest.Cons? && !IsNullOption(rest.head)
    requires Sound(rank, v) && Level(rank, v) <= Level(rank, rest.head) && (rest.head.Object? <==> v.Object?)
    requires Acyclic(spec, rank) ==> v == Plain(spec, rank, rest.head)
    ensures OptionsSoFar(spec, rank, options, ListConcat(r, Cons(v, Nil)), rest.tail)
  {
    if Acyclic(spec, rank) { ListConcatAssoc(r, Cons(v, Nil), PlainOptions(spec, rank, rest.tail)); }
  }

  /** The same for the values of a `properties` dict. */
  ghost predicate ValuesSoFar(spec: Json, rank: Ranking, fs: Fields, r: Fields, rest: Fields) {
    && ValuesWithin(rank, rest, ValuesLevel(rank, fs)) && ValuesWithin(rank, r, ValuesLevel(rank, fs))
    && FieldsSize(rest) <= FieldsSize(fs)
    && (Acyclic(spec, rank) && ValuesSound(rank, fs) ==>
          FieldsConcat(r, PlainValues(spec, rank, rest)) == PlainValues(spec, rank, fs))
  }

  lemma ValuesBegin(spec: Json, rank: Ranking, fs: Fields)
    requires ValuesSound(rank, fs)
    ensures ValuesSoFar(spec, rank, fs, Empty, fs)
  {
  }

  lemma ValuesFinish(spec: Json, rank: Ranking, fs: Fields, r: Fields)
    requires ValuesSound(rank, fs) && ValuesSoFar(spec, rank, fs, r, Empty)
    ensures ValuesWithin(rank, r, ValuesLevel(rank, fs))
    ensures Acyclic(spec, rank) ==> r == PlainValues(spec, rank, fs)
  {
    FieldsConcatEmpty(r);
  }

  lemma ValuesNext(spec: Json, rank: Ranking, fs: Fields, r: Fields, rest: Fields, v: Json)
    requires ValuesSoFar(spec, rank, fs, r, rest) && rest.Field?
    requires Sound(rank, v) && Level(rank, v) <= Level(rank, rest.value)
    requires Acyclic(spec, rank) ==> v == Plain(spec, rank, rest.value)
    ensures ValuesSoFar(spec, rank, fs, FieldsConcat(r, Field(rest.key, v, Empty)), rest.rest)
  {
    var one := Field(rest.key, v, Empty);
    if Acyclic(spec, rank) { FieldsConcatAssoc(r, one, PlainValues(spec, rank, rest.rest)); }
    assert ValuesWithin(rank, one, ValuesLevel(rank, fs));
    ConcatValuesWithin(rank, r, one, ValuesLevel(rank, fs));
  }

  class OpenAPIResolver {
    const spec: Json
    ghost const rank: Ranking
    var cache: map<string, Json>
    ghost const finished: map<string, Json>  // what the uncached resolver makes of every reference
    ghost var busy: set<string>  // the references whose resolution is in progress

    constructor (spec: Json, ghost rank: Ranking)
      requires Stratified(spec, rank)
      ensures this.spec == spec && this.rank == rank && cache == map[] && busy == {}
      ensures Valid()
    {
      this.spec := spec;
      this.rank := rank;
      this.finished :=
        if Acyclic(spec, rank)
        then map r | r in rank && Target(spec, r).Some? :: Plain(spec, rank, Target(spec, r).value)
        else map[];
      this.cache := map[];
      this.busy := {};
    }

    /** Every finished entry is what the uncached resolver computes; only the entries of
        references in progress hold something else. */
    ghost predicate Valid()
      reads this
    {
      Consistent(spec, rank, finished, cache, busy)
    }

    /** Without cycles, no reference in progress can be met below level `n`. */
    ghost predicate Clear(n: nat)
      requires Valid()
      reads this
    {
      Acyclic(spec, rank) ==> Below(rank, busy, n)
    }

    ghost function Uncached(): nat
      reads this
    {
      |rank.Keys - cache.Keys|
    }

    /** What every call leaves behind. */
    twostate predicate Kept()
      reads this
    {
      Valid() && busy == old(busy) && old(cache.Keys) <= cache.Keys && Uncached() <= old(Uncached())
    }

    method ResolveRef(ref: string) returns (r: Fields)
      requires Valid() && ref in rank && Clear(rank[ref])
      modifies this
      ensures Kept() && Within(rank, r, rank[ref])
      ensures Acyclic(spec, rank) ==>
                r == if Target(spec, ref).Some? then Plain(spec, rank, Target(spec, ref).value).fields else Empty
      ensures GivesRef(spec, old(cache), ref, cache, r)
      decreases rank[ref], Uncached(), 0, 1
    {
      if ref in cache {
        GivesCached(spec, cache, ref);
        return cache[ref].fields;
      }
      var target := Target(spec, ref);
      if target.None? {
        GivesDangling(spec, cache, ref);
        return Empty;
      }
      r := ResolveTarget(ref, target.value);
    }

    /** The part of `resolve_ref` that seeds the cache with the raw schema, resolves it and
        stores the result. */
    method ResolveTarget(ref: string, raw: Json) returns (r: Fields)
      requires Valid() && ref in rank && ref !in cache && Clear(rank[ref])
      requires Target(spec, ref) == Some(raw)
      modifies this
      ensures Kept() && Within(rank, r, rank[ref])
      ensures Acyclic(spec, rank) ==> r == Plain(spec, rank, raw).fields
      ensures GivesRef(spec, old(cache), ref, cache, r)
      decreases rank[ref], Uncached(), 0, 0
    {
      Seed(ref, raw, Level(rank, raw));
      var resolved := ResolveSchema(raw);
      GivesTarget(spec, old(cache), ref, raw, cache, resolved);
      Store(ref, resolved);
      r := resolved.fields;
    }

    /** `self._cache[ref] = result`, before the schema is resolved. */
    method Seed(ref: string, raw: Json, ghost n: nat)
      requires Valid() && ref in rank && ref !in cache && Clear(rank[ref])
      requires raw.Object? && Within(rank, raw.fields, rank[ref])
      requires Acyclic(spec, rank) ==> n < rank[ref]
      modifies this
      ensures Valid() && cache == old(cache)[ref := raw] && busy == old(busy) + {ref}
      ensures Clear(n) && Uncached() < old(Uncached())
    {
      SeedConsistent(spec, rank, finished, cache, busy, ref, raw);
      SeedUncached(rank.Keys, cache, ref, raw);
      cache := cache[ref := raw];
      busy := busy + {ref};
    }

    /** `self._cache[ref] = resolved`, when the schema has been resolved. */
    method Store(ref: string, resolved: Json)
      requires Valid() && ref in busy && resolved.Object? && Within(rank, resolved.fields, rank[ref])
      requires Acyclic(spec, rank) ==> ref in finished && resolved == finished[ref]
      modifies this
      ensures Valid() && cache == old(cache)[ref := resolved] && busy == old(busy) - {ref}
      ensures cache.Keys == old(cache.Keys)
    {
      StoreConsistent(spec, rank, finished, cache, busy, ref, resolved);
      cache := cache[ref := resolved];
      busy := busy - {ref};
    }

    method ResolveSchema(schema: Json) returns (r: Json)
      requires Valid() && Sound(rank, schema) && Clear(Level(rank, schema))
      modifies this
      ensures Kept()
      ensures Sound(rank, r) && Level(rank, r) <= Level(rank, schema) && (schema.Object? <==> r.Object?)
      ensures Acyclic(spec, rank) ==> r == Plain(spec, rank, schema)
      ensures Gives(spec, old(cache), schema, cache, r)
      decreases Level(rank, schema), Uncached(), Size(schema), 1
    {
      if !schema.Object? {
        GivesPlainValue(spec, cache, schema);
        return schema;
      }
      var fs := schema.fields;
      ghost var n := Level(rank, schema);
      if Has(fs, "$ref") {
        GetWithin(rank, fs, "$ref", n);
        var resolved := ResolveRef(Get(fs, "$ref").value.s);
        WithoutWithin(rank, fs, "$ref", n);
        PutAllWithin(rank, resolved, Without(fs, "$ref"), n);
        GivesReference(spec, old(cache), fs, cache, resolved);
        r := Object(PutAll(resolved, Without(fs, "$ref")));
      } else if Has(fs, "allOf") {
        var merged := ResolveAllOf(fs);
        r := Object(merged);
      } else if Has(fs, "oneOf") || Has(fs, "anyOf") {
        OptionsWithin(rank, fs, n);
        var variants := ResolveOptions(Options(fs));
        UnionWithin(rank, variants, n);
        GivesUnion(spec, old(cache), fs, cache, variants);
        r := Object(UnionOf(variants));
      } else {
        var nested := ResolveNested(fs);
        GivesOther(spec, old(cache), fs, cache, nested);
        r := Object(nested);
      }
    }

    method ResolveAllOf(fs: Fields) returns (r: Fields)
      requires Valid() && FieldsSound(rank, fs) && !Has(fs, "$ref") && Has(fs, "allOf") && Clear(FieldsLevel(rank, fs))
      modifies this
      ensures Kept() && Within(rank, r, FieldsLevel(rank, fs))
      ensures Acyclic(spec, rank) ==> r == PlainAllOf(spec, rank, fs)
      ensures Gives(spec, old(cache), Object(fs), cache, Object(r))
      decreases FieldsLevel(rank, fs), Uncached(), 1 + FieldsSize(fs), 0
    {
      ghost var n := FieldsLevel(rank, fs);
      AllOfParts(rank, fs);
      var parts := Get(fs, "allOf").value.items;
      var merged := MergeParts(MERGE_BASE, parts, n - 1);
      WithoutWithin(rank, fs, "allOf", n);
      PutAllWithin(rank, merged, Without(fs, "allOf"), n);
      GivesAllOf(spec, old(cache), fs, cache, merged);
      r := PutAll(merged, Without(fs, "allOf"));
    }

    method MergeParts(target: Fields, parts: List, ghost n: nat) returns (r: Fields)
      requires Valid() && Within(rank, target, n) && PartsWithin(rank, parts, n) && Clear(n)
      modifies this
      ensures Kept() && Within(rank, r, n)
      ensures Acyclic(spec, rank) ==> r == PlainMerge(spec, rank, target, parts, n)
      ensures GivesMerge(spec, old(cache), target, parts, cache, r)
      decreases n + 1, Uncached(), 1, 0
    {
      r := target;
      var rest := parts;
      while rest.Cons?
        invariant Kept() && Within(rank, r, n) && PartsWithin(rank, rest, n)
        invariant Acyclic(spec, rank) ==>
                    PlainMerge(spec, rank, r, rest, n) == PlainMerge(spec, rank, target, parts, n)
        invariant MergeLeft(spec, old(cache), target, parts, cache, r, rest)
        decreases rest
      {
        ghost var before, sofar := cache, r;
        r := MergePart(r, rest.head, n);
        MergeStep(spec, old(cache), target, parts, before, sofar, rest, cache, r);
        rest := rest.tail;
      }
      MergeEnd(spec, old(cache), target, parts, cache, r);
    }

    method MergePart(target: Fields, part: Json, ghost n: nat) returns (r: Fields)
      requires Valid() && Within(rank, target, n) && part.Object? && Sound(rank, part) && Level(rank, part) <= n
        && Clear(n)
      modifies this
      ensures Kept() && Within(rank, r, n)
      ensures Acyclic(spec, rank) ==> r == PlainMergePart(spec, rank, target, part, n)
      ensures GivesPart(spec, old(cache), target, part, cache, r)
      decreases n + 1, Uncached(), 0, 0
    {
      var resolved := ResolveSchema(part);
      ghost var between := cache;
      var props := ReresolveProperties(resolved.fields, n);
      MergeWithin(rank, target, resolved.fields, props, n);
      GivesOnePart(spec, old(cache), target, part, between, resolved, cache, props);
      r := MergeInto(target, resolved.fields, props);
    }

    /** `self.resolve_schema({"properties": source["properties"]}).get("properties", {})` */
    method ReresolveProperties(source: Fields, ghost n: nat) returns (r: Fields)
      requires Valid() && Within(rank, source, n) && Clear(n)
      modifies this
      ensures Kept() && ValuesWithin(rank, r, n)
      ensures Acyclic(spec, rank) ==> r == PlainProperties(spec, rank, source, n)
      ensures GivesProperties(spec, old(cache), source, cache, r)
      decreases n, Uncached(), 1 + FieldsSize(source), 2
    {
      if !Has(source, "properties") {
        GivesNoProperties(spec, cache, source);
        return Empty;
      }
      OnlyPropertiesWithin(rank, source, n);
      var again := ResolveSchema(OnlyProperties(source));
      if Has(again.fields, "properties") { GetWithin(rank, again.fields, "properties", n); }
      GivesSomeProperties(spec, old(cache), source, cache, again);
      r := PropertiesOf(again.fields);
    }

    method ResolveOptions(options: List) returns (r: List)
      requires Valid() && ListSound(rank, options) && FirstOptionIsObject(options) && Clear(ListLevel(rank, options))
      modifies this
      ensures Kept()
      ensures r.Cons? ==> r.head.Object? && Within(rank, r.head.fields, ListLevel(rank, options))
      ensures Acyclic(spec, rank) ==> r == PlainOptions(spec, rank, options)
      ensures GivesOptions(spec, old(cache), Nil, options, cache, r)
      decreases ListLevel(rank, options), Uncached(), ListSize(options), 1
    {
      OptionsBegin(spec, rank, options);
      r := Nil;
      var rest := options;
      while rest.Cons?
        invariant Kept() && OptionsSoFar(spec, rank, options, r, rest)
        invariant OptionsLeft(spec, old(cache), options, cache, r, rest)
        decreases rest
      {
        if IsNullOption(rest.head) {
          OptionsSkip(spec, old(cache), options, cache, r, rest);
          OptionsNull(spec, rank, options, r, rest);
        } else {
          r := NextOption(options, r, rest, old(cache));
        }
        rest := rest.tail;
      }
      OptionsFinish(spec, rank, options, r);
      OptionsEnd(spec, old(cache), options, cache, r);
    }

    /** One option more, after `r`. */
    method NextOption(ghost options: List, r: List, rest: List, ghost c0: Cache) returns (next: List)
      requires Valid() && Clear(ListLevel(rank, options)) && OptionsSoFar(spec, rank, options, r, rest)
      requires rest.Cons? && !IsNullOption(rest.head) && OptionsLeft(spec, c0, options, cache, r, rest)
      modifies this
      ensures Kept() && OptionsSoFar(spec, rank, options, next, rest.tail) && next.Cons?
      ensures OptionsLeft(spec, c0, options, cache, next, rest.tail)
      decreases ListLevel(rank, options), Uncached(), ListSize(options), 0
    {
      var variant := ResolveSchema(rest.head);
      OptionsStep(spec, c0, options, old(cache), r, rest, cache, variant);
      OptionsNext(spec, rank, options, r, rest, variant);
      next := ListConcat(r, Cons(variant, Nil));
    }

    method ResolveNested(fs: Fields) returns (r: Fields)
      requires Valid() && FieldsSound(rank, fs) && Clear(FieldsLevel(rank, fs))
      modifies this
      ensures Kept() && Within(rank, r, FieldsLevel(rank, fs))
      ensures Acyclic(spec, rank) ==> r == PlainNested(spec, rank, fs)
      ensures GivesNested(spec, old(cache), fs, cache, r)
      decreases FieldsLevel(rank, fs), Uncached(), FieldsSize(fs), 2
    {
      ghost var n := FieldsLevel(rank, fs);
      var props := ResolveKey(fs, "properties");
      ReplaceWithin(rank, fs, "properties", props, n);
      r := Replace(fs, "properties", props);
      ghost var c1 := cache;
      var items := ResolveKey(fs, "items");
      ReplaceWithin(rank, r, "items", items, n);
      r := Replace(r, "items", items);
      ghost var c2 := cache;
      var more := ResolveKey(fs, "additionalProperties");
      ReplaceWithin(rank, r, "additionalProperties", more, n);
      GivesThreeKeys(spec, old(cache), fs, c1, props, c2, items, cache, more);
      r := Replace(r, "additionalProperties", more);
    }

    method ResolveKey(fs: Fields, k: string) returns (r: Option<Json>)
      requires Valid() && FieldsSound(rank, fs) && Clear(FieldsLevel(rank, fs))
      requires k in {"properties", "items", "additionalProperties"}
      modifies this
      ensures Kept()
      ensures r.Some? ==> KeyWithin(rank, k, r.value, FieldsLevel(rank, fs))
      ensures Acyclic(spec, rank) ==> r == PlainKey(spec, rank, fs, k)
      ensures GivesKey(spec, old(cache), fs, k, cache, r)
      decreases FieldsLevel(rank, fs), Uncached(), FieldsSize(fs), 1
    {
      if !Has(fs, k) || (k == "additionalProperties" && !Get(fs, k).value.Object?) {
        GivesNoKey(spec, cache, fs, k);
        return None;
      }
      GetWithin(rank, fs, k, FieldsLevel(rank, fs));
      if k == "properties" {
        r := ResolvePropertyKey(fs);
      } else {
        var value := ResolveSchema(Get(fs, k).value);
        GivesSubschema(spec, old(cache), fs, k, cache, value);
        r := Some(value);
      }
    }

    method ResolvePropertyKey(fs: Fields) returns (r: Option<Json>)
      requires Valid() && FieldsSound(rank, fs) && Clear(FieldsLevel(rank, fs)) && Has(fs, "properties")
      modifies this
      ensures Kept()
      ensures r.Some? && KeyWithin(rank, "properties", r.value, FieldsLevel(rank, fs))
      ensures Acyclic(spec, rank) ==> r == PlainKey(spec, rank, fs, "properties")
      ensures GivesKey(spec, old(cache), fs, "properties", cache, r)
      decreases FieldsLevel(rank, fs), Uncached(), FieldsSize(fs), 0
    {
      GetWithin(rank, fs, "properties", FieldsLevel(rank, fs));
      var values := ResolveValues(Get(fs, "properties").value.fields);
      GivesProperty(spec, old(cache), fs, cache, values);
      r := Some(Object(values));
    }

    method ResolveValues(fs: Fields) returns (r: Fields)
      requires Valid() && ValuesSound(rank, fs) && Clear(ValuesLevel(rank, fs))
      modifies this
      ensures Kept() && ValuesWithin(rank, r, ValuesLevel(rank, fs))
      ensures Acyclic(spec, rank) ==> r == PlainValues(spec, rank, fs)
      ensures GivesValues(spec, old(cache), Empty, fs, cache, r)
      decreases ValuesLevel(rank, fs), Uncached(), FieldsSize(fs), 1
    {
      ValuesBegin(spec, rank, fs);
      r := Empty;
      var rest := fs;
      while rest.Field?
        invariant Kept() && ValuesSoFar(spec, rank, fs, r, rest)
        invariant ValuesLeft(spec, old(cache), fs, cache, r, rest)
        decreases rest
      {
        r := NextValue(fs, r, rest, old(cache));
        rest := rest.rest;
      }
      ValuesFinish(spec, rank, fs, r);
      ValuesEnd(spec, old(cache), fs, cache, r);
    }

    /** One value more, after `r`. */
    method NextValue(ghost fs: Fields, r: Fields, rest: Fields, ghost c0: Cache) returns (next: Fields)
      requires Valid() && Clear(ValuesLevel(rank, fs)) && ValuesSoFar(spec, rank, fs, r, rest)
      requires rest.Field? && ValuesLeft(spec, c0, fs, cache, r, rest)
      modifies this
      ensures Kept() && ValuesSoFar(spec, rank, fs, next, rest.rest)
      ensures ValuesLeft(spec, c0, fs, cache, next, rest.rest)
      decreases ValuesLevel(rank, fs), Uncached(), FieldsSize(fs), 0
    {
      var value := ResolveSchema(rest.value);
      ValuesStep(spec, c0, fs, old(cache), r, rest, cache, value);
      ValuesNext(spec, rank, fs, r, rest, value);
      next := FieldsConcat(r, Field(rest.key, value, Empty));
    }

    /** Any sequence of calls on one resolver: each result is the uncached one, whatever the
        calls before it have left in the cache. */
    method ResolveAll(schemas: seq<Json>) returns (rs: seq<Json>)
      requires Valid() && busy == {} && forall i :: 0 <= i < |schemas| ==> Sound(rank, schemas[i])
      modifies this
      ensures Kept() && |rs| == |schemas|
      ensures Acyclic(spec, rank) ==> forall i :: 0 <= i < |schemas| ==> rs[i] == Plain(spec, rank, schemas[i])
    {
      rs := [];
      while |rs| < |schemas|
        invariant Kept() && |rs| <= |schemas|
        invariant Acyclic(spec, rank) ==> forall i :: 0 <= i < |rs| ==> rs[i] == Plain(spec, rank, schemas[i])
      {
        var r := ResolveSchema(schemas[|rs|]);
        rs := rs + [r];
      }
    }
  }
}
