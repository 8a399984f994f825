/** The shape of the OpenAPI documents that the resolver walks: which positions of a
    schema it visits, which references it can meet there, and how deep `allOf` nests. */
module SchemaShape {
  import opened Basics
  import opened JsonValues

  // ---------- references ----------

  /** `s.split("/")` */
  function Split(s: string): seq<string> {
    if s == [] then [[]]
    else
      var rest := Split(s[1..]);
      if s[0] == '/' then [[]] + rest
      else if rest == [] then [[s[0]]]
      else [[s[0]] + rest[0]] + rest[1..]
  }

  /** The walk of `resolve_ref` along the parts of a reference.  `None` is the early
      `return {}` when a part is looked up in something that is not a dict. */
  function Walk(j: Json, parts: seq<string>): Option<Json>
    decreases |parts|
  {
    if parts == [] then Some(j)
    else if !j.Object? then None
    else
      var next := Get(j.fields, parts[0]);
      Walk(if next.Some? then next.value else Object(Empty), parts[1..])
  }

  /** The raw schema a reference denotes; `None` when `resolve_ref` answers `{}` without
      caching anything. */
  function Target(spec: Json, ref: string): Option<Json> {
    if |ref| < 2 || ref[..2] != "#/" then None else Walk(spec, Split(ref[2..]))
  }

  // ---------- the ranked shape of a schema ----------

  /** A rank for every reference that can occur. */
  type Ranking = map<string, nat>

  /** `Level` bounds the ranks of the references met in the visited positions of a
      schema, and counts one more for every `allOf` around them. */
  function Level(rank: Ranking, j: Json): nat
    decreases j, 0
  {
    if j.Object? then FieldsLevel(rank, j.fields) else 0
  }

  function FieldsLevel(rank: Ranking, fs: Fields): nat
    decreases fs, 0
  {
    if fs.Empty? then 0 else Max(KeyLevel(rank, fs.key, fs.value), FieldsLevel(rank, fs.rest))
  }

  function KeyLevel(rank: Ranking, k: string, v: Json): nat
    decreases v, 1
  {
    if k == "$ref" then if v.String? && v.s in rank then rank[v.s] else 0
    else if k == "allOf" then if v.Array? then 1 + ListLevel(rank, v.items) else 1
    else if k == "oneOf" || k == "anyOf" then if v.Array? then ListLevel(rank, v.items) else 0
    else if k == "properties" then if v.Object? then ValuesLevel(rank, v.fields) else 0
    else if k == "items" || k == "additionalProperties" then Level(rank, v)
    else 0
  }

  function ListLevel(rank: Ranking, l: List): nat
    decreases l, 0
  {
    if l.Nil? then 0 else Max(Level(rank, l.head), ListLevel(rank, l.tail))
  }

  function ValuesLevel(rank: Ranking, fs: Fields): nat
    decreases fs, 0
  {
    if fs.Empty? then 0 else Max(Level(rank, fs.value), ValuesLevel(rank, fs.rest))
  }

  /** A schema on which the Python code raises no exception: references are strings of
      the ranking, the combinators hold lists, `properties` a dict, `required` a list of
      strings, and what is copied as a dict is one. */
  predicate Sound(rank: Ranking, j: Json)
    decreases j, 0
  {
    j.Object? ==> FieldsSound(rank, j.fields)
  }

  predicate FieldsSound(rank: Ranking, fs: Fields)
    decreases fs, 0
  {
    fs.Field? ==> KeySound(rank, fs.key, fs.value) && FieldsSound(rank, fs.rest)
  }

  predicate KeySound(rank: Ranking, k: string, v: Json)
    decreases v, 1
  {
    if k == "$ref" then v.String? && v.s in rank
    else if k == "allOf" then v.Array? && ListSound(rank, v.items) && AllObjects(v.items)
    else if k == "oneOf" || k == "anyOf" then
      v.Array? && ListSound(rank, v.items) && FirstOptionIsObject(v.items)
    else if k == "properties" then v.Object? && ValuesSound(rank, v.fields)
    else if k == "items" || k == "additionalProperties" then Sound(rank, v)
    else if k == "required" then v.Array? && AllStrings(v.items)
    else true
  }

  predicate ListSound(rank: Ranking, l: List)
    decreases l, 0
  {
    l.Cons? ==> Sound(rank, l.head) && ListSound(rank, l.tail)
  }

  predicate ValuesSound(rank: Ranking, fs: Fields)
    decreases fs, 0
  {
    fs.Field? ==> Sound(rank, fs.value) && ValuesSound(rank, fs.rest)
  }

  predicate AllObjects(l: List) { l.Cons? ==> l.head.Object? && AllObjects(l.tail) }

  predicate AllStrings(l: List) { l.Cons? ==> l.head.String? && AllStrings(l.tail) }

  /** `isinstance(opt, dict) and opt.get("type") == "null"` */
  predicate IsNullOption(j: Json) {
    j.Object? && Get(j.fields, "type") == Some(String("null"))
  }

  predicate FirstOptionIsObject(l: List) {
    l.Cons? ==> if IsNullOption(l.head) then FirstOptionIsObject(l.tail) else l.head.Object?
  }

  /** Every reference resolves to a sound dict whose level is at most its own rank: cycles
      are allowed, but none of them passes through an `allOf`. */
  ghost predicate Stratified(spec: Json, rank: Ranking) {
    forall r {:trigger Target(spec, r)} :: r in rank && Target(spec, r).Some? ==>
      var raw := Target(spec, r).value;
      raw.Object? && Sound(rank, raw) && Level(rank, raw) <= rank[r]
  }

  /** The ranks strictly decrease along references: the reference graph has no cycle. */
  ghost predicate Acyclic(spec: Json, rank: Ranking) {
    && Stratified(spec, rank)
    && forall r {:trigger Target(spec, r)} :: r in rank && Target(spec, r).Some? ==>
      Level(rank, Target(spec, r).value) < rank[r]
  }

  // ---------- how the dict operations act on soundness and level ----------

  /** Sound, and of level at most `n`. */
  predicate Within(rank: Ranking, fs: Fields, n: nat) {
    FieldsSound(rank, fs) && FieldsLevel(rank, fs) <= n
  }

  predicate KeyWithin(rank: Ranking, k: string, v: Json, n: nat) {
    KeySound(rank, k, v) && KeyLevel(rank, k, v) <= n
  }

  lemma {:induction false} GetWithin(rank: Ranking, fs: Fields, k: string, n: nat)
    requires Within(rank, fs, n) && Has(fs, k)
    ensures KeyWithin(rank, k, Get(fs, k).value, n)
  {
    if fs.key != k { GetWithin(rank, fs.rest, k, n); }
  }

  lemma {:induction false} PutWithin(rank: Ranking, fs: Fields, k: string, v: Json, n: nat)
    requires Within(rank, fs, n) && KeyWithin(rank, k, v, n)
    ensures Within(rank, Put(fs, k, v), n)
  {
    if fs.Field? && fs.key != k { PutWithin(rank, fs.rest, k, v, n); }
  }

  lemma {:induction false} PutAllWithin(rank: Ranking, target: Fields, source: Fields, n: nat)
    requires Within(rank, target, n) && Within(rank, source, n)
    ensures Within(rank, PutAll(target, source), n)
    decreases source
  {
    if source.Field? {
      PutWithin(rank, target, source.key, source.value, n);
      PutAllWithin(rank, Put(target, source.key, source.value), source.rest, n);
    }
  }

  lemma {:induction false} WithoutWithin(rank: Ranking, fs: Fields, k: string, n: nat)
    requires Within(rank, fs, n)
    ensures Within(rank, Without(fs, k), n)
  {
    if fs.Field? { WithoutWithin(rank, fs.rest, k, n); }
  }

  /** The same facts for the values of a `properties` dict. */
  predicate ValuesWithin(rank: Ranking, fs: Fields, n: nat) {
    ValuesSound(rank, fs) && ValuesLevel(rank, fs) <= n
  }

  lemma {:induction false} PutValuesWithin(rank: Ranking, fs: Fields, k: string, v: Json, n: nat)
    requires ValuesWithin(rank, fs, n) && Sound(rank, v) && Level(rank, v) <= n
    ensures ValuesWithin(rank, Put(fs, k, v), n)
  {
    if fs.Field? && fs.key != k { PutValuesWithin(rank, fs.rest, k, v, n); }
  }

  lemma {:induction false} PutAllValuesWithin(rank: Ranking, target: Fields, source: Fields, n: nat)
    requires ValuesWithin(rank, target, n) && ValuesWithin(rank, source, n)
    ensures ValuesWithin(rank, PutAll(target, source), n)
    decreases source
  {
    if source.Field? {
      PutValuesWithin(rank, target, source.key, source.value, n);
      PutAllValuesWithin(rank, Put(target, source.key, source.value), source.rest, n);
    }
  }

  lemma {:induction false} ConcatValuesWithin(rank: Ranking, a: Fields, b: Fields, n: nat)
    requires ValuesWithin(rank, a, n) && ValuesWithin(rank, b, n)
    ensures ValuesWithin(rank, FieldsConcat(a, b), n)
  {
    if a.Field? { ConcatValuesWithin(rank, a.rest, b, n); }
  }
}
