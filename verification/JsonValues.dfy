/** JSON values as the conformance script and the API types see them.  Objects are
    ordered association lists: a Python dict (and an order-preserving JSON map) keeps
    the insertion order of its keys, and assigning to an existing key keeps its place. */
module JsonValues {
  import opened Basics

  datatype Json =
    | Null
    | Bool(b: bool)
    | Number(n: real)
    | String(s: string)
    | Array(items: List)
    | Object(fields: Fields)

  datatype List = Nil | Cons(head: Json, tail: List)

  datatype Fields = Empty | Field(key: string, value: Json, rest: Fields)

  // ---------- sizes, for termination ----------

  function Size(j: Json): nat {
    match j
    case Array(items) => 1 + ListSize(items)
    case Object(fields) => 1 + FieldsSize(fields)
    case _ => 1
  }

  function ListSize(l: List): nat {
    match l
    case Nil => 0
    case Cons(head, tail) => 1 + Size(head) + ListSize(tail)
  }

  function FieldsSize(fs: Fields): nat {
    match fs
    case Empty => 0
    case Field(_, value, rest) => 1 + Size(value) + FieldsSize(rest)
  }

  // ---------- dict operations ----------

  /** `d.get(k)` */
  function Get(fs: Fields, k: string): (r: Option<Json>)
    ensures r.Some? ==> Size(r.value) < FieldsSize(fs)
  {
    match fs
    case Empty => None
    case Field(key, value, rest) => if key == k then Some(value) else Get(rest, k)
  }

  /** `k in d` */
  predicate Has(fs: Fields, k: string) {
    Get(fs, k).Some?
  }

  /** `d[k] = v` */
  function Put(fs: Fields, k: string, v: Json): (r: Fields)
    ensures r != Empty
  {
    match fs
    case Empty => Field(k, v, Empty)
    case Field(key, value, rest) =>
      if key == k then Field(k, v, rest) else Field(key, value, Put(rest, k, v))
  }

  /** `d.update(source)` */
  function PutAll(target: Fields, source: Fields): Fields
    decreases source
  {
    match source
    case Empty => target
    case Field(key, value, rest) => PutAll(Put(target, key, value), rest)
  }

  /** The items of a dict whose key is not `k`. */
  function Without(fs: Fields, k: string): Fields
  {
    match fs
    case Empty => Empty
    case Field(key, value, rest) =>
      if key == k then Without(rest, k) else Field(key, value, Without(rest, k))
  }

  function FieldsConcat(a: Fields, b: Fields): Fields {
    match a
    case Empty => b
    case Field(key, value, rest) => Field(key, value, FieldsConcat(rest, b))
  }

  function ListConcat(a: List, b: List): List {
    match a
    case Nil => b
    case Cons(head, tail) => Cons(head, ListConcat(tail, b))
  }

  predicate Member(x: Json, l: List) {
    l.Cons? && (l.head == x || Member(x, l.tail))
  }

  /** Python dicts have one entry per key. */
  predicate DistinctKeys(fs: Fields) {
    fs.Field? ==> !Has(fs.rest, fs.key) && DistinctKeys(fs.rest)
  }

  lemma {:induction false} FieldsConcatAssoc(a: Fields, b: Fields, c: Fields)
    ensures FieldsConcat(FieldsConcat(a, b), c) == FieldsConcat(a, FieldsConcat(b, c))
  {
    if a.Field? { FieldsConcatAssoc(a.rest, b, c); }
  }

  lemma {:induction false} ListConcatAssoc(a: List, b: List, c: List)
    ensures ListConcat(ListConcat(a, b), c) == ListConcat(a, ListConcat(b, c))
  {
    if a.Cons? { ListConcatAssoc(a.tail, b, c); }
  }

  lemma {:induction false} FieldsConcatEmpty(a: Fields)
    ensures FieldsConcat(a, Empty) == a
  {
    if a.Field? { FieldsConcatEmpty(a.rest); }
  }

  lemma {:induction false} ListConcatNil(a: List)
    ensures ListConcat(a, Nil) == a
  {
    if a.Cons? { ListConcatNil(a.tail); }
  }

  lemma {:induction false} GetPut(fs: Fields, k: string, v: Json, x: string)
    ensures Get(Put(fs, k, v), x) == if x == k then Some(v) else Get(fs, x)
  {
    if fs.Field? && fs.key != k { GetPut(fs.rest, k, v, x); }
  }

  lemma {:induction false} GetWithout(fs: Fields, k: string, x: string)
    ensures Get(Without(fs, k), x) == if x == k then None else Get(fs, x)
  {
    if fs.Field? { GetWithout(fs.rest, k, x); }
  }

  lemma {:induction false} PutDistinct(fs: Fields, k: string, v: Json)
    requires DistinctKeys(fs)
    ensures DistinctKeys(Put(fs, k, v))
  {
    if fs.Field? && fs.key != k {
      PutDistinct(fs.rest, k, v);
      GetPut(fs.rest, k, v, fs.key);
    }
  }

  /** Writing back what is already there changes nothing. */
  lemma {:induction false} PutSame(fs: Fields, k: string)
    requires Has(fs, k)
    ensures Put(fs, k, Get(fs, k).value) == fs
  {
    if fs.key != k { PutSame(fs.rest, k); }
  }

  /** `update` keeps the target's value exactly for the keys the source lacks; for a key
      of the source the source's value wins. */
  lemma {:induction false} GetPutAll(target: Fields, source: Fields, k: string)
    requires DistinctKeys(source)
    ensures Get(PutAll(target, source), k) == if Has(source, k) then Get(source, k) else Get(target, k)
    decreases source
  {
    if source.Field? {
      GetPut(target, source.key, source.value, k);
      GetPutAll(Put(target, source.key, source.value), source.rest, k);
    }
  }
}
