/** Reference facts about the uncached resolver: which ranking is used does not matter,
    which part of a merge a property comes from, and for which specifications the
    termination measure of the cached resolver exists. */
module ResolverMeaning {
  import opened Basics
  import opened JsonValues
  import opened SchemaShape
  import opened SchemaPieces
  import opened Resolver

  // ---------- the ranking is only a termination measure ----------

  /** Any two rankings give the same result. */
  lemma {:induction false} RankFree(spec: Json, r1: Ranking, r2: Ranking, j: Json)
    requires Acyclic(spec, r1) && Acyclic(spec, r2) && Sound(r1, j) && Sound(r2, j)
    ensures Plain(spec, r1, j) == Plain(spec, r2, j)
    decreases Level(r1, j), Size(j), 1
  {
    if j.Object? {
      var fs := j.fields;
      if Has(fs, "$ref") {
        RankFreeRef(spec, r1, r2, fs);
      } else if Has(fs, "allOf") {
        RankFreeAllOf(spec, r1, r2, fs);
      } else if Has(fs, "oneOf") || Has(fs, "anyOf") {
        OptionsWithin(r1, fs, Level(r1, j));
        OptionsWithin(r2, fs, Level(r2, j));
        RankFreeOptions(spec, r1, r2, Options(fs));
      } else {
        RankFreeKey(spec, r1, r2, fs, "properties");
        RankFreeKey(spec, r1, r2, fs, "items");
        RankFreeKey(spec, r1, r2, fs, "additionalProperties");
      }
    }
  }

  lemma {:induction false} RankFreeRef(spec: Json, r1: Ranking, r2: Ranking, fs: Fields)
    requires Acyclic(spec, r1) && Acyclic(spec, r2) && FieldsSound(r1, fs) && FieldsSound(r2, fs) && Has(fs, "$ref")
    ensures PlainRef(spec, r1, fs) == PlainRef(spec, r2, fs)
    decreases FieldsLevel(r1, fs), FieldsSize(fs), 0
  {
    GetWithin(r1, fs, "$ref", FieldsLevel(r1, fs));
    GetWithin(r2, fs, "$ref", FieldsLevel(r2, fs));
    var target := Target(spec, Get(fs, "$ref").value.s);
    if target.Some? { RankFree(spec, r1, r2, target.value); }
  }

  lemma {:induction false} RankFreeAllOf(spec: Json, r1: Ranking, r2: Ranking, fs: Fields)
    requires Acyclic(spec, r1) && Acyclic(spec, r2) && FieldsSound(r1, fs) && FieldsSound(r2, fs) && Has(fs, "allOf")
    ensures PlainAllOf(spec, r1, fs) == PlainAllOf(spec, r2, fs)
    decreases FieldsLevel(r1, fs), 1 + FieldsSize(fs), 0
  {
    var n1, n2 := FieldsLevel(r1, fs), FieldsLevel(r2, fs);
    AllOfParts(r1, fs);
    AllOfParts(r2, fs);
    var parts := Get(fs, "allOf").value.items;
    RankFreeMerge(spec, r1, r2, MERGE_BASE, parts, n1 - 1, n2 - 1);
  }

  lemma {:induction false} RankFreeMerge(spec: Json, r1: Ranking, r2: Ranking, target: Fields, parts: List, n1: nat,
    n2: nat)
    requires Acyclic(spec, r1) && Acyclic(spec, r2)
    requires Within(r1, target, n1) && Within(r2, target, n2) && PartsWithin(r1, parts, n1)
      && PartsWithin(r2, parts, n2)
    ensures PlainMerge(spec, r1, target, parts, n1) == PlainMerge(spec, r2, target, parts, n2)
    decreases n1 + 1, ListSize(parts), 0
  {
    if parts.Cons? {
      RankFree(spec, r1, r2, parts.head);
      var source := Plain(spec, r1, parts.head).fields;
      if Has(source, "properties") {
        OnlyPropertiesWithin(r1, source, n1);
        OnlyPropertiesWithin(r2, source, n2);
        RankFree(spec, r1, r2, OnlyProperties(source));
      }
      assert PlainProperties(spec, r1, source, n1) == PlainProperties(spec, r2, source, n2);
      var next := PlainMergePart(spec, r1, target, parts.head, n1);
      assert next == PlainMergePart(spec, r2, target, parts.head, n2);
      RankFreeMerge(spec, r1, r2, next, parts.tail, n1, n2);
    }
  }

  lemma {:induction false} RankFreeOptions(spec: Json, r1: Ranking, r2: Ranking, options: List)
    requires Acyclic(spec, r1) && Acyclic(spec, r2) && ListSound(r1, options) && ListSound(r2, options)
    ensures PlainOptions(spec, r1, options) == PlainOptions(spec, r2, options)
    decreases ListLevel(r1, options), ListSize(options), 0
  {
    if options.Cons? {
      RankFree(spec, r1, r2, options.head);
      RankFreeOptions(spec, r1, r2, options.tail);
    }
  }

  lemma {:induction false} RankFreeKey(spec: Json, r1: Ranking, r2: Ranking, fs: Fields, k: string)
    requires Acyclic(spec, r1) && Acyclic(spec, r2) && FieldsSound(r1, fs) && FieldsSound(r2, fs)
    requires k in {"properties", "items", "additionalProperties"}
    ensures PlainKey(spec, r1, fs, k) == PlainKey(spec, r2, fs, k)
    decreases FieldsLevel(r1, fs), FieldsSize(fs), 0
  {
    if Has(fs, k) {
      GetWithin(r1, fs, k, FieldsLevel(r1, fs));
      GetWithin(r2, fs, k, FieldsLevel(r2, fs));
      var v := Get(fs, k).value;
      if k == "properties" { RankFreeValues(spec, r1, r2, v.fields); } else { RankFree(spec, r1, r2, v); }
    }
  }

  lemma {:induction false} RankFreeValues(spec: Json, r1: Ranking, r2: Ranking, fs: Fields)
    requires Acyclic(spec, r1) && Acyclic(spec, r2) && ValuesSound(r1, fs) && ValuesSound(r2, fs)
    ensures PlainValues(spec, r1, fs) == PlainValues(spec, r2, fs)
    decreases ValuesLevel(r1, fs), FieldsSize(fs), 0
  {
    if fs.Field? {
      RankFree(spec, r1, r2, fs.value);
      RankFreeValues(spec, r1, r2, fs.rest);
    }
  }

  // ---------- what a merge, a reference and a union mean ----------

  /** The value of the last entry for a key. */
  function Last(fs: Fields, k: string): Option<Json> {
    if fs.Empty? then None
    else
      var later := Last(fs.rest, k);
      if later.Some? then later else if fs.key == k then Some(fs.value) else None
  }

  lemma {:induction false} GetPutAllLast(target: Fields, source: Fields, k: string)
    ensures Get(PutAll(target, source), k) == if Last(source, k).Some? then Last(source, k) else Get(target, k)
    decreases source
  {
    if source.Field? {
      GetPutAllLast(Put(target, source.key, source.value), source.rest, k);
      GetPut(target, source.key, source.value, k);
    }
  }

  lemma {:induction false} LastWithout(fs: Fields, x: string, k: string)
    ensures Last(Without(fs, x), k) == if k == x then None else Last(fs, k)
  {
    if fs.Field? { LastWithout(fs.rest, x, k); }
  }

  /** A key written beside `$ref` overrides the referenced schema; every other key comes
      from the resolved target, and a dangling reference contributes nothing. */
  lemma ReferenceMeaning(spec: Json, rank: Ranking, fs: Fields, k: string)
    requires Acyclic(spec, rank) && FieldsSound(rank, fs) && Has(fs, "$ref")
    ensures Get(fs, "$ref").value.String?
    ensures var target := Target(spec, Get(fs, "$ref").value.s);
            Get(Plain(spec, rank, Object(fs)).fields, k) ==
            if k != "$ref" && Last(fs, k).Some? then Last(fs, k)
            else if target.Some? then
              GetWithin(rank, fs, "$ref", FieldsLevel(rank, fs)); Get(Plain(spec, rank, target.value).fields, k)
            else None
  {
    GetWithin(rank, fs, "$ref", FieldsLevel(rank, fs));
    var target := Target(spec, Get(fs, "$ref").value.s);
    var base := if target.Some? then Plain(spec, rank, target.value).fields else Empty;
    GetPutAllLast(base, Without(fs, "$ref"), k);
    LastWithout(fs, "$ref", k);
  }

  /** What one part of an `allOf` offers for a property. */
  ghost function Offer(spec: Json, rank: Ranking, part: Json, n: nat, p: string): Option<Json>
    requires Acyclic(spec, rank) && part.Object? && Sound(rank, part) && Level(rank, part) <= n
  {
    Last(PlainProperties(spec, rank, Plain(spec, rank, part).fields, n), p)
  }

  /** The offer of the last part that makes one. */
  ghost function LastOffer(spec: Json, rank: Ranking, parts: List, n: nat, p: string): Option<Json>
    requires Acyclic(spec, rank) && PartsWithin(rank, parts, n)
  {
    if parts.Nil? then None
    else
      var later := LastOffer(spec, rank, parts.tail, n, p);
      if later.Some? then later else Offer(spec, rank, parts.head, n, p)
  }

  lemma MergedProperty(target: Fields, source: Fields, props: Fields, p: string)
    requires !Has(source, "properties") ==> props == Empty
    ensures Get(PropertiesOf(MergeInto(target, source, props)), p) ==
            if Last(props, p).Some? then Last(props, p) else Get(PropertiesOf(target), p)
  {
    GetPutAllLast(PropertiesOf(target), props, p);
    var merged := Object(PutAll(PropertiesOf(target), props));
    var t1 := if Has(source, "properties") then Put(target, "properties", merged) else target;
    GetPut(target, "properties", merged, "properties");
    var names := Array(AddMissing(AddMissing(Nil, RequiredOf(t1)), RequiredOf(source)));
    var t2 := if Has(source, "required") then Put(t1, "required", names) else t1;
    GetPut(t1, "required", names, "properties");
    CopyKeyOther(t2, source, "type", "properties");
    CopyKeyOther(CopyKey(t2, source, "type"), source, "description", "properties");
  }

  lemma CopyKeyOther(target: Fields, source: Fields, k: string, x: string)
    requires x != k
    ensures Get(CopyKey(target, source, k), x) == Get(target, x)
  {
    if Has(source, k) { GetPut(target, k, Get(source, k).value, x); }
  }

  /** In a merge the last part that has a property decides it. */
  lemma {:induction false} LastPartWins(spec: Json, rank: Ranking, target: Fields, parts: List, n: nat, p: string)
    requires Acyclic(spec, rank) && Within(rank, target, n) && PartsWithin(rank, parts, n)
    ensures Get(PropertiesOf(PlainMerge(spec, rank, target, parts, n)), p) ==
            if LastOffer(spec, rank, parts, n, p).Some? then LastOffer(spec, rank, parts, n, p)
            else Get(PropertiesOf(target), p)
    decreases parts
  {
    if parts.Cons? {
      var source := Plain(spec, rank, parts.head).fields;
      MergedProperty(target, source, PlainProperties(spec, rank, source, n), p);
      LastPartWins(spec, rank, PlainMergePart(spec, rank, target, parts.head, n), parts.tail, n, p);
    }
  }

  ghost predicate SomeRequires(spec: Json, rank: Ranking, parts: List, n: nat, x: Json)
    requires Acyclic(spec, rank) && PartsWithin(rank, parts, n)
  {
    parts.Cons? &&
    (Member(x, RequiredOf(Plain(spec, rank, parts.head).fields)) || SomeRequires(spec, rank, parts.tail, n, x))
  }

  lemma {:induction false} MemberConcat(x: Json, a: List, b: List)
    ensures Member(x, ListConcat(a, b)) <==> Member(x, a) || Member(x, b)
  {
    if a.Cons? { MemberConcat(x, a.tail, b); }
  }

  lemma {:induction false} MemberAddMissing(x: Json, names: List, more: List)
    ensures Member(x, AddMissing(names, more)) <==> Member(x, names) || Member(x, more)
    decreases more
  {
    if more.Cons? {
      MemberConcat(x, names, Cons(more.head, Nil));
      assert Member(x, Cons(more.head, Nil)) <==> x == more.head;
      MemberAddMissing(x,
        if Member(more.head, names) then names else ListConcat(names, Cons(more.head, Nil)), more.tail);
    }
  }

  lemma MergedRequired(target: Fields, source: Fields, props: Fields, x: Json)
    ensures Member(x, RequiredOf(MergeInto(target, source, props))) <==>
            Member(x, RequiredOf(target)) || Member(x, RequiredOf(source))
  {
    var merged := Object(PutAll(PropertiesOf(target), props));
    var t1 := if Has(source, "properties") then Put(target, "properties", merged) else target;
    GetPut(target, "properties", merged, "required");
    var names := Array(AddMissing(AddMissing(Nil, RequiredOf(t1)), RequiredOf(source)));
    var t2 := if Has(source, "required") then Put(t1, "required", names) else t1;
    GetPut(t1, "required", names, "required");
    MemberAddMissing(x, Nil, RequiredOf(t1));
    MemberAddMissing(x, AddMissing(Nil, RequiredOf(t1)), RequiredOf(source));
    CopyKeyOther(t2, source, "type", "required");
    CopyKeyOther(CopyKey(t2, source, "type"), source, "description", "required");
  }

  /** A merge requires exactly the names that some part requires. */
  lemma {:induction false} RequiredIsUnion(spec: Json, rank: Ranking, target: Fields, parts: List, n: nat, x: Json)
    requires Acyclic(spec, rank) && Within(rank, target, n) && PartsWithin(rank, parts, n)
    ensures Member(x, RequiredOf(PlainMerge(spec, rank, target, parts, n))) <==>
            Member(x, RequiredOf(target)) || SomeRequires(spec, rank, parts, n, x)
    decreases parts
  {
    if parts.Cons? {
      var source := Plain(spec, rank, parts.head).fields;
      MergedRequired(target, source, PlainProperties(spec, rank, source, n), x);
      RequiredIsUnion(spec, rank, PlainMergePart(spec, rank, target, parts.head, n), parts.tail, n, x);
    }
  }

  /** The last variant pinned to a type literal. */
  function LastVariant(variants: List, t: string): Option<Json> {
    if variants.Nil? then None
    else
      var later := LastVariant(variants.tail, t);
      if later.Some? then later
      else if TypeConst(variants.head) == Some(t) then Some(variants.head) else None
  }

  /** The variant map of a union holds, for every literal, the last variant pinned to it. */
  lemma {:induction false} VariantMapMeaning(acc: Fields, variants: List, t: string)
    ensures Get(VariantMap(acc, variants), t) ==
            if LastVariant(variants, t).Some? then LastVariant(variants, t) else Get(acc, t)
    decreases variants
  {
    if variants.Cons? {
      var c := TypeConst(variants.head);
      if c.Some? { GetPut(acc, c.value, variants.head, t); }
      VariantMapMeaning(if c.Some? then Put(acc, c.value, variants.head) else acc, variants.tail, t);
    }
  }

  // ---------- specifications that can be ranked ----------

  /** No `allOf` in a visited position. */
  predicate NoAllOf(j: Json)
    decreases j, 0
  {
    j.Object? ==> FieldsNoAllOf(j.fields)
  }

  predicate FieldsNoAllOf(fs: Fields)
    decreases fs, 0
  {
    fs.Field? ==> KeyNoAllOf(fs.key, fs.value) && FieldsNoAllOf(fs.rest)
  }

  predicate KeyNoAllOf(k: string, v: Json)
    decreases v, 1
  {
    if k == "allOf" then false
    else if k == "oneOf" || k == "anyOf" then v.Array? ==> ListNoAllOf(v.items)
    else if k == "properties" then v.Object? ==> ValuesNoAllOf(v.fields)
    else if k == "items" || k == "additionalProperties" then NoAllOf(v)
    else true
  }

  predicate ListNoAllOf(l: List)
    decreases l, 0
  {
    l.Cons? ==> NoAllOf(l.head) && ListNoAllOf(l.tail)
  }

  predicate ValuesNoAllOf(fs: Fields)
    decreases fs, 0
  {
    fs.Field? ==> NoAllOf(fs.value) && ValuesNoAllOf(fs.rest)
  }

  predicate AllZero(rank: Ranking) { forall r :: r in rank ==> rank[r] == 0 }

  lemma {:induction false} LevelZero(rank: Ranking, j: Json)
    requires AllZero(rank) && NoAllOf(j)
    ensures Level(rank, j) == 0
    decreases j, 0
  {
    if j.Object? { FieldsLevelZero(rank, j.fields); }
  }

  lemma {:induction false} FieldsLevelZero(rank: Ranking, fs: Fields)
    requires AllZero(rank) && FieldsNoAllOf(fs)
    ensures FieldsLevel(rank, fs) == 0
    decreases fs, 0
  {
    if fs.Field? {
      var k, v := fs.key, fs.value;
      if k == "oneOf" || k == "anyOf" {
        if v.Array? { ListLevelZero(rank, v.items); }
      } else if k == "properties" {
        if v.Object? { ValuesLevelZero(rank, v.fields); }
      } else if k == "items" || k == "additionalProperties" {
        LevelZero(rank, v);
      }
      FieldsLevelZero(rank, fs.rest);
    }
  }

  lemma {:induction false} ListLevelZero(rank: Ranking, l: List)
    requires AllZero(rank) && ListNoAllOf(l)
    ensures ListLevel(rank, l) == 0
    decreases l, 0
  {
    if l.Cons? {
      LevelZero(rank, l.head);
      ListLevelZero(rank, l.tail);
    }
  }

  lemma {:induction false} ValuesLevelZero(rank: Ranking, fs: Fields)
    requires AllZero(rank) && ValuesNoAllOf(fs)
    ensures ValuesLevel(rank, fs) == 0
    decreases fs, 0
  {
    if fs.Field? {
      LevelZero(rank, fs.value);
      ValuesLevelZero(rank, fs.rest);
    }
  }

  /** Every specification without `allOf` can be ranked, whatever cycles its references
      form, so the cached resolver terminates on it. */
  lemma AllOfFreeStratified(spec: Json, refs: set<string>)
    requires var zero := map r | r in refs :: 0;
             forall r {:trigger Target(spec, r)} :: r in refs && Target(spec, r).Some? ==>
               var raw := Target(spec, r).value;
               raw.Object? && Sound(zero, raw) && NoAllOf(raw)
    ensures Stratified(spec, map r | r in refs :: 0)
  {
    var zero: Ranking := map r | r in refs :: 0;
    forall r | r in zero && Target(spec, r).Some? ensures Level(zero, Target(spec, r).value) <= zero[r] {
      LevelZero(zero, Target(spec, r).value);
    }
  }

  /** `ref` is met in a visited position of `j`, inside `k` enclosing `allOf`s. */
  predicate Meets(j: Json, ref: string, k: nat)
    decreases j, 0
  {
    j.Object? && FieldsMeet(j.fields, ref, k)
  }

  predicate FieldsMeet(fs: Fields, ref: string, k: nat)
    decreases fs, 0
  {
    fs.Field? && (KeyMeets(fs.key, fs.value, ref, k) || FieldsMeet(fs.rest, ref, k))
  }

  predicate KeyMeets(key: string, v: Json, ref: string, k: nat)
    decreases v, 1
  {
    if key == "$ref" then v == String(ref) && k == 0
    else if key == "allOf" then v.Array? && k > 0 && ListMeets(v.items, ref, k - 1)
    else if key == "oneOf" || key == "anyOf" then v.Array? && ListMeets(v.items, ref, k)
    else if key == "properties" then v.Object? && ValuesMeet(v.fields, ref, k)
    else if key == "items" || key == "additionalProperties" then Meets(v, ref, k)
    else false
  }

  predicate ListMeets(l: List, ref: string, k: nat)
    decreases l, 0
  {
    l.Cons? && (Meets(l.head, ref, k) || ListMeets(l.tail, ref, k))
  }

  predicate ValuesMeet(fs: Fields, ref: string, k: nat)
    decreases fs, 0
  {
    fs.Field? && (Meets(fs.value, ref, k) || ValuesMeet(fs.rest, ref, k))
  }

  lemma {:induction false} MeetsLevel(rank: Ranking, j: Json, ref: string, k: nat)
    requires Sound(rank, j) && Meets(j, ref, k)
    ensures ref in rank && rank[ref] + k <= Level(rank, j)
    decreases j, 0
  {
    FieldsMeetLevel(rank, j.fields, ref, k);
  }

  lemma {:induction false} FieldsMeetLevel(rank: Ranking, fs: Fields, ref: string, k: nat)
    requires FieldsSound(rank, fs) && FieldsMeet(fs, ref, k)
    ensures ref in rank && rank[ref] + k <= FieldsLevel(rank, fs)
    decreases fs, 0
  {
    if KeyMeets(fs.key, fs.value, ref, k) {
      var v := fs.value;
      if fs.key == "allOf" {
        ListMeetsLevel(rank, v.items, ref, k - 1);
      } else if fs.key == "oneOf" || fs.key == "anyOf" {
        ListMeetsLevel(rank, v.items, ref, k);
      } else if fs.key == "properties" {
        ValuesMeetLevel(rank, v.fields, ref, k);
      } else if fs.key != "$ref" {
        MeetsLevel(rank, v, ref, k);
      }
    } else {
      FieldsMeetLevel(rank, fs.rest, ref, k);
    }
  }

  lemma {:induction false} ListMeetsLevel(rank: Ranking, l: List, ref: string, k: nat)
    requires ListSound(rank, l) && ListMeets(l, ref, k)
    ensures ref in rank && rank[ref] + k <= ListLevel(rank, l)
    decreases l, 0
  {
    if Meets(l.head, ref, k) { MeetsLevel(rank, l.head, ref, k); } else { ListMeetsLevel(rank, l.tail, ref, k); }
  }

  lemma {:induction false} ValuesMeetLevel(rank: Ranking, fs: Fields, ref: string, k: nat)
    requires ValuesSound(rank, fs) && ValuesMeet(fs, ref, k)
    ensures ref in rank && rank[ref] + k <= ValuesLevel(rank, fs)
    decreases fs, 0
  {
    if Meets(fs.value, ref, k) { MeetsLevel(rank, fs.value, ref, k); } else { ValuesMeetLevel(rank, fs.rest, ref, k); }
  }

  /** A chain of references, each met inside the previous one's schema under `ks[i]`
      enclosing `allOf`s. */
  ghost predicate Chain(spec: Json, refs: seq<string>, ks: seq<nat>) {
    && |refs| == |ks| + 1
    && forall i :: 0 <= i < |ks| ==>
         Target(spec, refs[i]).Some? && Meets(Target(spec, refs[i]).value, refs[i + 1], ks[i])
  }

  function Sum(ks: seq<nat>): nat { if ks == [] then 0 else ks[0] + Sum(ks[1..]) }

  lemma {:induction false} ChainRanks(spec: Json, rank: Ranking, refs: seq<string>, ks: seq<nat>)
    requires Stratified(spec, rank) && Chain(spec, refs, ks) && refs[0] in rank
    ensures refs[|ks|] in rank && rank[refs[|ks|]] + Sum(ks) <= rank[refs[0]]
    ensures Acyclic(spec, rank) ==> rank[refs[|ks|]] + Sum(ks) + |ks| <= rank[refs[0]]
    decreases |ks|
  {
    if ks != [] {
      MeetsLevel(rank, Target(spec, refs[0]).value, refs[1], ks[0]);
      forall i | 0 <= i < |ks[1..]|
        ensures Target(spec, refs[1..][i]).Some? && Meets(Target(spec, refs[1..][i]).value, refs[1..][i + 1],
          ks[1..][i])
      {
        assert refs[1..][i] == refs[i + 1] && refs[1..][i + 1] == refs[i + 2] && ks[1..][i] == ks[i + 1];
      }
      ChainRanks(spec, rank, refs[1..], ks[1..]);
      assert refs[1..][|ks[1..]|] == refs[|ks|];
    }
  }

  /** A cycle through an `allOf` cannot be ranked: the boundary of the termination result. */
  lemma AllOfCycleNotStratified(spec: Json, rank: Ranking, refs: seq<string>, ks: seq<nat>)
    requires Chain(spec, refs, ks) && refs[0] in rank && refs[|ks|] == refs[0] && Sum(ks) > 0
    ensures !Stratified(spec, rank)
  {
    if Stratified(spec, rank) { ChainRanks(spec, rank, refs, ks); }
  }

  /** A cycle of references cannot be ranked strictly. */
  lemma CycleNotAcyclic(spec: Json, rank: Ranking, refs: seq<string>, ks: seq<nat>)
    requires Chain(spec, refs, ks) && refs[0] in rank && refs[|ks|] == refs[0] && ks != []
    ensures !Acyclic(spec, rank)
  {
    if Acyclic(spec, rank) { ChainRanks(spec, rank, refs, ks); }
  }
}
