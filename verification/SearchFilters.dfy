/** File-search filters: an untagged union of a comparison and a compound of further filters. */
module SearchFilters {
  import opened Basics
  import opened JsonValues
  import Codec

  datatype Comparison = Eq | Ne | Gt | Gte | Lt | Lte

  datatype Logic = And | Or

  datatype Filter =
    | Compare(op: Comparison, key: string, value: Json)
    | Combine(logic: Logic, filters: Filters)

  datatype Filters = NoFilters | More(first: Filter, rest: Filters)

  function ComparisonName(op: Comparison): string {
    match op case Eq => "eq" case Ne => "ne" case Gt => "gt" case Gte => "gte" case Lt => "lt" case Lte => "lte"
  }

  function LogicName(logic: Logic): string { match logic case And => "and" case Or => "or" }

  /** The variant with this name, if there is one. */
  function ComparisonNamed(s: string): Option<Comparison> {
    if s == "eq" then Some(Eq) else if s == "ne" then Some(Ne) else if s == "gt" then Some(Gt)
    else if s == "gte" then Some(Gte) else if s == "lt" then Some(Lt) else if s == "lte" then Some(Lte) else None
  }

  function LogicNamed(s: string): Option<Logic> {
    if s == "and" then Some(And) else if s == "or" then Some(Or) else None
  }

  // ---------- encoding ----------

  function Encode(f: Filter): Json {
    match f
    case Compare(op, key, value) =>
      Object(Field("type", String(ComparisonName(op)), Field("key", String(key), Field("value", value, Empty))))
    case Combine(logic, filters) =>
      Object(Field("type", String(LogicName(logic)), Field("filters", Array(EncodeAll(filters)), Empty)))
  }

  function EncodeAll(fs: Filters): List {
    if fs.NoFilters? then Nil else Cons(Encode(fs.first), EncodeAll(fs.rest))
  }

  // ---------- decoding ----------

  /** The two or three fields of a struct, from an object or from the array of its fields. */
  datatype Parts = Parts(kind: Json, second: Json, third: Json)

  function ComparisonParts(j: Json): Option<Parts> {
    match j
    case Object(fs) =>
      if Has(fs, "type") && Has(fs, "key") && Has(fs, "value") then
        Some(Parts(Get(fs, "type").value, Get(fs, "key").value, Get(fs, "value").value))
      else None
    case Array(Cons(a, Cons(b, Cons(c, Nil)))) => Some(Parts(a, b, c))
    case _ => None
  }

  function CompoundParts(j: Json): (r: Option<Parts>)
    ensures r.Some? ==> Size(r.value.second) < Size(j)
  {
    match j
    case Object(fs) =>
      if Has(fs, "type") && Has(fs, "filters")
      then Some(Parts(Get(fs, "type").value, Get(fs, "filters").value, Null)) else None
    case Array(Cons(a, Cons(b, Nil))) =>
      assert ListSize(Cons(b, Nil)) == 1 + Size(b) + ListSize(Nil);
      Some(Parts(a, b, Null))
    case _ => None
  }

  function DecodeCompare(j: Json): Option<Filter> {
    match ComparisonParts(j)
    case None => None
    case Some(Parts(kind, key, value)) =>
      match Codec.VariantName(kind)
      case None => None
      case Some(name) =>
        if ComparisonNamed(name).Some? && key.String?
        then Some(Compare(ComparisonNamed(name).value, key.s, value)) else None
  }

  function DecodeCombine(j: Json): Option<Filter>
    decreases Size(j), 0
  {
    match CompoundParts(j)
    case None => None
    case Some(Parts(kind, filters, _)) =>
      match Codec.VariantName(kind)
      case None => None
      case Some(name) =>
        if LogicNamed(name).Some? && filters.Array? then
          match DecodeAll(filters.items)
          case Some(fs) => Some(Combine(LogicNamed(name).value, fs))
          case None => None
        else None
  }

  /** The comparison is tried first. */
  function Decode(j: Json): Option<Filter>
    decreases Size(j), 1
  {
    if DecodeCompare(j).Some? then DecodeCompare(j) else DecodeCombine(j)
  }

  function DecodeAll(items: List): Option<Filters>
    decreases ListSize(items), 2
  {
    if items.Nil? then Some(NoFilters)
    else match Decode(items.head)
      case None => None
      case Some(f) => match DecodeAll(items.tail) case Some(fs) => Some(More(f, fs)) case None => None
  }

  // ---------- theorems ----------

  lemma NamesRead(op: Comparison, logic: Logic)
    ensures ComparisonNamed(ComparisonName(op)) == Some(op) && LogicNamed(LogicName(logic)) == Some(logic)
  {
    assert "eq"[0] == 'e' && "ne"[0] == 'n' && "gt"[0] == 'g' && "lt"[0] == 'l' && "gte"[0] == 'g' && "lte"[0] == 'l';
  }

  /** The names on the wire. */
  lemma NamesOnWire()
    ensures ComparisonName(Eq) == "eq" && ComparisonName(Ne) == "ne" && ComparisonName(Gt) == "gt"
    ensures ComparisonName(Gte) == "gte" && ComparisonName(Lt) == "lt" && ComparisonName(Lte) == "lte"
    ensures LogicName(And) == "and" && LogicName(Or) == "or"
  {
  }

  /** The keys on the wire. */
  lemma OnWire(f: Filter)
    ensures Encode(f).Object?
    ensures var fs := Encode(f).fields;
      match f
      case Compare(op, key, value) =>
        && Get(fs, "type") == Some(String(ComparisonName(op))) && Get(fs, "key") == Some(String(key))
        && Get(fs, "value") == Some(value)
      case Combine(logic, filters) =>
        Get(fs, "type") == Some(String(LogicName(logic))) && Get(fs, "filters") == Some(Array(EncodeAll(filters)))
  {
    assert "type"[0] == 't' && "key"[0] == 'k' && "value"[0] == 'v' && "filters"[0] == 'f';
    var fs := Encode(f).fields;
    if f.Compare? { assert Get(fs.rest.rest, "value") == Some(f.value) && Get(fs.rest, "value") == Some(f.value); }
  }

  lemma NoCommonName(name: string)
    ensures ComparisonNamed(name).None? || LogicNamed(name).None?
  {
    assert "and"[0] == 'a' && "or"[0] == 'o' && "gte"[0] == 'g' && "lte"[0] == 'l';
    assert "eq"[0] == 'e' && "ne"[0] == 'n' && "gt"[0] == 'g' && "lt"[0] == 'l';
  }

  /** No JSON value is both a comparison and a compound, so the order of trying them does not matter. */
  lemma Exclusive(j: Json)
    ensures DecodeCompare(j).None? || DecodeCombine(j).None?
  {
    if DecodeCompare(j).Some? && DecodeCombine(j).Some? {
      NoCommonName(Codec.VariantName(ComparisonParts(j).value.kind).value);
      assert false;
    }
  }

  lemma CompareReads(op: Comparison, key: string, value: Json)
    ensures Decode(Encode(Compare(op, key, value))) == Some(Compare(op, key, value))
  {
    var fs := Encode(Compare(op, key, value)).fields;
    NamesRead(op, And);
    assert Get(fs, "key") == Some(String(key));
    assert Get(fs.rest, "value") == Some(value);
    assert ComparisonParts(Object(fs)) == Some(Parts(String(ComparisonName(op)), String(key), value));
  }

  /** Every filter, however deeply nested, decodes back to itself. */
  lemma {:induction false} RoundTrip(f: Filter)
    ensures Decode(Encode(f)) == Some(f)
  {
    match f
    case Compare(op, key, value) => CompareReads(op, key, value);
    case Combine(logic, filters) =>
      RoundTripAll(filters);
      NamesRead(Eq, logic);
      var j := Encode(f);
      assert Get(j.fields, "filters") == Get(j.fields.rest, "filters");
      assert CompoundParts(j) == Some(Parts(String(LogicName(logic)), Array(EncodeAll(filters)), Null));
      assert DecodeCombine(j) == Some(f);
      Exclusive(j);
  }

  lemma {:induction false} RoundTripAll(fs: Filters)
    ensures DecodeAll(EncodeAll(fs)) == Some(fs)
  {
    if fs.More? {
      RoundTrip(fs.first);
      RoundTripAll(fs.rest);
    }
  }
}
