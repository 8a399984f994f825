/** The wire format that the API types derive from their declarations: a declaration is a
    `Shape`, a value of it a `Val`, and encoding and decoding follow the shape.  Struct fields are
    found by name and unknown ones ignored; a struct may also come as the array of its fields; an
    untagged union takes the first alternative that decodes. */
module Codec {
  import opened Basics
  import opened JsonValues

  datatype Shape =
    | Text
    | Whole(lo: int, hi: int)       // integers from lo up to but excluding hi
    | Real                          // finite floating-point numbers
    | Flag
    | Raw                           // any JSON value, kept as it is
    | Choice(names: seq<string>)    // an enum of unit variants
    | Nullable(of: Shape)           // Option
    | Vector(of: Shape)
    | Dict(of: Shape)               // a map with string keys
    | Record(fields: Members)
    | Tagged(cases: Cases)          // an enum tagged by "type"
    | FirstOf(options: Shapes)      // an untagged enum

  /** The fields of a struct; `omit` leaves out a field that has its missing value. */
  datatype Members = NoMembers | Member(name: string, shape: Shape, missing: Missing, omit: bool, rest: Members)

  /** What a field that is not there means: an error, or a value.  `Absent` is the rule for options,
      `Defaulted` the one for fields with a declared default, which an array form may also drop. */
  datatype Missing = Must | Absent(v: Val) | Defaulted(v: Val)

  datatype Cases = NoCases | Case(tag: string, fields: Members, rest: Cases)

  datatype Shapes = NoShapes | Alternative(shape: Shape, rest: Shapes)

  datatype Val =
    | TextV(s: string)
    | WholeV(n: int)
    | RealV(r: real)
    | FlagV(b: bool)
    | RawV(j: Json)
    | ChoiceV(name: string)
    | NoneV
    | SomeV(v: Val)
    | VectorV(items: Vals)
    | DictV(entries: Entries)
    | RecordV(vals: Vals)
    | CaseV(tag: string, vals: Vals)
    | OptionV(index: nat, v: Val)

  datatype Vals = NoVals | Then(head: Val, tail: Vals)

  datatype Entries = NoEntries | Entry(key: string, val: Val, rest: Entries)

  // ---------- values of a shape ----------

  /** `v` is a value of the declared type; an option never holds a raw JSON null. */
  predicate Typed(shape: Shape, v: Val)
    decreases shape, 0
  {
    match shape
    case Text => v.TextV?
    case Whole(lo, hi) => v.WholeV? && lo <= v.n < hi
    case Real => v.RealV?
    case Flag => v.FlagV?
    case Raw => v.RawV?
    case Choice(names) => v.ChoiceV? && v.name in names
    case Nullable(of) => v.NoneV? || (v.SomeV? && Typed(of, v.v) && v.v != RawV(Null))
    case Vector(of) => v.VectorV? && TypedAll(of, v.items)
    case Dict(of) => v.DictV? && TypedEntries(of, v.entries)
    case Record(fields) => v.RecordV? && TypedFields(fields, v.vals)
    case Tagged(cases) => v.CaseV? && TypedCase(cases, v.tag, v.vals)
    case FirstOf(options) => v.OptionV? && TypedOption(options, v.index, v.v)
  }

  predicate TypedAll(of: Shape, vals: Vals)
    decreases of, 1, vals
  {
    vals.Then? ==> Typed(of, vals.head) && TypedAll(of, vals.tail)
  }

  predicate TypedEntries(of: Shape, entries: Entries)
    decreases of, 1, entries
  {
    entries.Entry? ==> Typed(of, entries.val) && TypedEntries(of, entries.rest)
  }

  predicate TypedFields(fields: Members, vals: Vals)
    decreases fields, 0
  {
    match fields
    case NoMembers => vals.NoVals?
    case Member(_, shape, _, _, rest) => vals.Then? && Typed(shape, vals.head) && TypedFields(rest, vals.tail)
  }

  predicate TypedCase(cases: Cases, tag: string, vals: Vals)
    decreases cases, 0
  {
    match cases
    case NoCases => false
    case Case(t, fields, rest) => if t == tag then TypedFields(fields, vals) else TypedCase(rest, tag, vals)
  }

  predicate TypedOption(options: Shapes, index: nat, v: Val)
    decreases options, 0
  {
    match options
    case NoShapes => false
    case Alternative(shape, rest) => if index == 0 then Typed(shape, v) else TypedOption(rest, index - 1, v)
  }

  // ---------- encoding ----------

  function Encode(shape: Shape, v: Val): Json
    requires Typed(shape, v)
    decreases shape, 0
  {
    match shape
    case Text => String(v.s)
    case Whole(_, _) => Number(v.n as real)
    case Real => Number(v.r)
    case Flag => Bool(v.b)
    case Raw => v.j
    case Choice(_) => String(v.name)
    case Nullable(of) => if v.NoneV? then Null else Encode(of, v.v)
    case Vector(of) => Array(EncodeAll(of, v.items))
    case Dict(of) => Object(EncodeEntries(of, v.entries))
    case Record(fields) => Object(EncodeFields(fields, v.vals))
    case Tagged(cases) => Object(Field("type", String(v.tag), EncodeCase(cases, v.tag, v.vals)))
    case FirstOf(options) => EncodeOption(options, v.index, v.v)
  }

  function EncodeAll(of: Shape, vals: Vals): List
    requires TypedAll(of, vals)
    decreases of, 1, vals
  {
    if vals.NoVals? then Nil else Cons(Encode(of, vals.head), EncodeAll(of, vals.tail))
  }

  function EncodeEntries(of: Shape, entries: Entries): Fields
    requires TypedEntries(of, entries)
    decreases of, 1, entries
  {
    if entries.NoEntries? then Empty else Field(entries.key, Encode(of, entries.val), EncodeEntries(of, entries.rest))
  }

  /** The value of a field that is not there, if that is allowed. */
  function WhenMissing(missing: Missing): Option<Val> {
    match missing case Must => None case Absent(v) => Some(v) case Defaulted(v) => Some(v)
  }

  function EncodeFields(fields: Members, vals: Vals): Fields
    requires TypedFields(fields, vals)
    decreases fields, 0
  {
    match fields
    case NoMembers => Empty
    case Member(name, shape, missing, omit, rest) =>
      var more := EncodeFields(rest, vals.tail);
      if omit && WhenMissing(missing) == Some(vals.head) then more
      else Field(name, Encode(shape, vals.head), more)
  }

  function EncodeCase(cases: Cases, tag: string, vals: Vals): Fields
    requires TypedCase(cases, tag, vals)
    decreases cases, 0
  {
    if cases.tag == tag then EncodeFields(cases.fields, vals) else EncodeCase(cases.rest, tag, vals)
  }

  function EncodeOption(options: Shapes, index: nat, v: Val): Json
    requires TypedOption(options, index, v)
    decreases options, 0
  {
    if index == 0 then Encode(options.shape, v) else EncodeOption(options.rest, index - 1, v)
  }

  // ---------- decoding ----------

  function Decode(shape: Shape, j: Json): Option<Val>
    decreases shape, 0
  {
    match shape
    case Text => if j.String? then Some(TextV(j.s)) else None
    case Whole(lo, hi) =>
      if j.Number? && j.n == j.n.Floor as real && lo <= j.n.Floor < hi then Some(WholeV(j.n.Floor)) else None
    case Real => if j.Number? then Some(RealV(j.n)) else None
    case Flag => if j.Bool? then Some(FlagV(j.b)) else None
    case Raw => Some(RawV(j))
    case Choice(names) => DecodeChoice(names, j)
    case Nullable(of) =>
      if j.Null? then Some(NoneV) else (match Decode(of, j) case Some(v) => Some(SomeV(v)) case None => None)
    case Vector(of) =>
      if j.Array? then (match DecodeAll(of, j.items) case Some(vs) => Some(VectorV(vs)) case None => None) else None
    case Dict(of) =>
      if j.Object? then (match DecodeEntries(of, j.fields) case Some(es) => Some(DictV(es)) case None => None) else None
    case Record(fields) => (match DecodeRecord(fields, j) case Some(vs) => Some(RecordV(vs)) case None => None)
    case Tagged(cases) =>
      if j.Object? && Has(j.fields, "type") && Get(j.fields, "type").value.String? then
        DecodeCase(cases, Get(j.fields, "type").value.s, Object(j.fields))
      else if j.Array? && j.items.Cons? && j.items.head.String? then
        DecodeCase(cases, j.items.head.s, Array(j.items.tail))
      else None
    case FirstOf(options) => DecodeFirst(options, 0, j)
  }

  /** The name of a unit variant: a string, or an object that gives the name to null. */
  function VariantName(j: Json): Option<string> {
    match j
    case String(s) => Some(s)
    case Object(Field(key, Null, Empty)) => Some(key)
    case _ => None
  }

  function DecodeChoice(names: seq<string>, j: Json): Option<Val> {
    match VariantName(j)
    case Some(name) => if name in names then Some(ChoiceV(name)) else None
    case None => None
  }

  function DecodeAll(of: Shape, items: List): Option<Vals>
    decreases of, 1, items
  {
    if items.Nil? then Some(NoVals)
    else match Decode(of, items.head)
      case None => None
      case Some(v) => match DecodeAll(of, items.tail) case Some(vs) => Some(Then(v, vs)) case None => None
  }

  function DecodeEntries(of: Shape, fields: Fields): Option<Entries>
    decreases of, 1, fields
  {
    if fields.Empty? then Some(NoEntries)
    else match Decode(of, fields.value)
      case None => None
      case Some(v) => match DecodeEntries(of, fields.rest) case Some(es) => Some(Entry(fields.key, v, es))
        case None => None
  }

  /** A struct comes as an object, or as the array of its fields. */
  function DecodeRecord(fields: Members, j: Json): Option<Vals>
    decreases fields, 1
  {
    match j
    case Object(fs) => DecodeFields(fields, fs)
    case Array(items) => DecodeItems(fields, items)
    case _ => None
  }

  function DecodeFields(fields: Members, fs: Fields): Option<Vals>
    decreases fields, 0
  {
    match fields
    case NoMembers => Some(NoVals)
    case Member(name, shape, missing, _, rest) =>
      var first := match Get(fs, name) case Some(j) => Decode(shape, j) case None => WhenMissing(missing);
      match first
      case None => None
      case Some(v) => match DecodeFields(rest, fs) case Some(vs) => Some(Then(v, vs)) case None => None
  }

  function DecodeItems(fields: Members, items: List): Option<Vals>
    decreases fields, 0
  {
    match fields
    case NoMembers => if items.Nil? then Some(NoVals) else None
    case Member(name, shape, missing, _, rest) =>
      var first :=
        if items.Cons? then Decode(shape, items.head)
        else if missing.Defaulted? then Some(missing.v) else None;
      match first
      case None => None
      case Some(v) =>
        match DecodeItems(rest, if items.Cons? then items.tail else Nil) case Some(vs) => Some(Then(v, vs))
          case None => None
  }

  function DecodeCase(cases: Cases, tag: string, j: Json): Option<Val>
    decreases cases, 0
  {
    match cases
    case NoCases => None
    case Case(t, fields, rest) =>
      if t != tag then DecodeCase(rest, tag, j)
      else if fields.NoMembers? then Some(CaseV(tag, NoVals))
      else match DecodeRecord(fields, j) case Some(vs) => Some(CaseV(tag, vs)) case None => None
  }

  function DecodeFirst(options: Shapes, index: nat, j: Json): Option<Val>
    decreases options, 0
  {
    match options
    case NoShapes => None
    case Alternative(shape, rest) =>
      match Decode(shape, j) case Some(v) => Some(OptionV(index, v)) case None => DecodeFirst(rest, index + 1, j)
  }

  // ---------- declarations that can be told apart ----------

  predicate HasName(fields: Members, name: string) {
    fields.Member? && (fields.name == name || HasName(fields.rest, name))
  }

  predicate HasTag(cases: Cases, tag: string) { cases.Case? && (cases.tag == tag || HasTag(cases.rest, tag)) }

  /** The names that the mandatory "type" field of a struct may have; none if it has no such field. */
  function Tags(fields: Members): seq<string> {
    if fields.NoMembers? then []
    else if fields.name == "type" then
      if fields.shape.Choice? && fields.missing.Must? then fields.shape.names else []
    else Tags(fields.rest)
  }

  predicate Disjoint(a: seq<string>, b: seq<string>) { forall x :: x in a ==> x !in b }

  /** No encoding of `b` can be taken for an `a`. */
  predicate Apart(a: Shape, b: Shape) {
    || (a.Text? && b.Vector?)
    || (a.Record? && b.Record? && Tags(a.fields) != [] && Tags(b.fields) != []
      && Disjoint(Tags(a.fields), Tags(b.fields)))
  }

  predicate ApartFromAll(a: Shape, options: Shapes) {
    options.Alternative? ==> Apart(a, options.shape) && ApartFromAll(a, options.rest)
  }

  /** A declaration whose encodings can be decoded: different names for fields and cases, alternatives
      that can be told apart, and defaults that are values of their field. */
  predicate Sound(shape: Shape)
    decreases shape, 0
  {
    match shape
    case Nullable(of) => !of.Nullable? && !of.FirstOf? && Sound(of)
    case Vector(of) => Sound(of)
    case Dict(of) => Sound(of)
    case Record(fields) => SoundFields(fields)
    case Tagged(cases) => SoundCases(cases)
    case FirstOf(options) => SoundOptions(options)
    case _ => true
  }

  predicate DistinctNames(fields: Members) {
    fields.Member? ==> !HasName(fields.rest, fields.name) && DistinctNames(fields.rest)
  }

  predicate SoundShapes(fields: Members)
    decreases fields, 0
  {
    fields.Member? ==> Sound(fields.shape) && (fields.omit ==> !fields.missing.Must?) && SoundShapes(fields.rest)
  }

  predicate SoundFields(fields: Members)
    decreases fields, 1
  {
    DistinctNames(fields) && SoundShapes(fields)
  }

  predicate SoundCases(cases: Cases)
    decreases cases, 0
  {
    cases.Case? ==>
      && SoundFields(cases.fields) && !HasName(cases.fields, "type") && !HasTag(cases.rest, cases.tag)
        && SoundCases(cases.rest)
  }

  predicate SoundOptions(options: Shapes)
    decreases options, 0
  {
    options.Alternative? ==>
      Sound(options.shape) && ApartFromAll(options.shape, options.rest) && SoundOptions(options.rest)
  }

  // ---------- round trip ----------

  lemma EncodedNotNull(shape: Shape, v: Val)
    requires Typed(shape, v) && !shape.Nullable? && !shape.FirstOf? && v != RawV(Null)
    ensures Encode(shape, v) != Null
  {
  }

  lemma {:induction false} OmittedAbsent(fields: Members, vals: Vals, name: string)
    requires TypedFields(fields, vals) && !HasName(fields, name)
    ensures Get(EncodeFields(fields, vals), name) == None
    decreases fields
  {
    if fields.Member? { OmittedAbsent(fields.rest, vals.tail, name); }
  }

  /** `fs` holds what `fields` encodes, perhaps among other keys. */
  ghost predicate Holds(fs: Fields, fields: Members, vals: Vals)
    requires TypedFields(fields, vals)
  {
    forall name: string :: HasName(fields, name) ==> Get(fs, name) == Get(EncodeFields(fields, vals), name)
  }

  lemma HoldsRest(fs: Fields, fields: Members, vals: Vals)
    requires fields.Member? && TypedFields(fields, vals) && SoundFields(fields) && Holds(fs, fields, vals)
    ensures Holds(fs, fields.rest, vals.tail)
  {
    forall name: string | HasName(fields.rest, name)
      ensures Get(fs, name) == Get(EncodeFields(fields.rest, vals.tail), name)
    {
      assert HasName(fields, name);
      assert name != fields.name;
    }
  }

  /** Every value of a sound declaration decodes back to itself. */
  lemma {:induction false} RoundTrip(shape: Shape, v: Val)
    requires Sound(shape) && Typed(shape, v)
    ensures Decode(shape, Encode(shape, v)) == Some(v)
    decreases shape, 0
  {
    match shape
    case Nullable(of) =>
      if v.SomeV? {
        RoundTrip(of, v.v);
        EncodedNotNull(of, v.v);
      }
    case Vector(of) => RoundTripAll(of, v.items);
    case Dict(of) => RoundTripEntries(of, v.entries);
    case Record(fields) => RoundTripFields(fields, v.vals, EncodeFields(fields, v.vals));
    case Tagged(cases) => RoundTripCase(cases, v.tag, v.vals,
      Field("type", String(v.tag), EncodeCase(cases, v.tag, v.vals)));
    case FirstOf(options) => RoundTripOption(options, 0, v.index, v.v);
    case _ =>
  }

  lemma {:induction false} RoundTripAll(of: Shape, vals: Vals)
    requires Sound(of) && TypedAll(of, vals)
    ensures DecodeAll(of, EncodeAll(of, vals)) == Some(vals)
    decreases of, 1, vals
  {
    if vals.Then? {
      RoundTrip(of, vals.head);
      RoundTripAll(of, vals.tail);
    }
  }

  lemma {:induction false} RoundTripEntries(of: Shape, entries: Entries)
    requires Sound(of) && TypedEntries(of, entries)
    ensures DecodeEntries(of, EncodeEntries(of, entries)) == Some(entries)
    decreases of, 1, entries
  {
    if entries.Entry? {
      RoundTrip(of, entries.val);
      RoundTripEntries(of, entries.rest);
    }
  }

  lemma {:induction false} RoundTripFields(fields: Members, vals: Vals, fs: Fields)
    requires SoundFields(fields) && TypedFields(fields, vals) && Holds(fs, fields, vals)
    ensures DecodeFields(fields, fs) == Some(vals)
    decreases fields, 0
  {
    if fields.Member? {
      assert HasName(fields, fields.name);
      RoundTrip(fields.shape, vals.head);
      OmittedAbsent(fields.rest, vals.tail, fields.name);
      HoldsRest(fs, fields, vals);
      RoundTripFields(fields.rest, vals.tail, fs);
    }
  }

  lemma {:induction false} RoundTripCase(cases: Cases, tag: string, vals: Vals, fs: Fields)
    requires SoundCases(cases) && TypedCase(cases, tag, vals)
      && fs == Field("type", String(tag), EncodeCase(cases, tag, vals))
    ensures DecodeCase(cases, tag, Object(fs)) == Some(CaseV(tag, vals))
    decreases cases, 0
  {
    if cases.tag == tag {
      if cases.fields.Member? {
        assert Holds(fs, cases.fields, vals);
        RoundTripFields(cases.fields, vals, fs);
      }
    } else {
      RoundTripCase(cases.rest, tag, vals, fs);
    }
  }

  lemma {:induction false} RoundTripOption(options: Shapes, start: nat, index: nat, v: Val)
    requires SoundOptions(options) && TypedOption(options, index, v)
    ensures DecodeFirst(options, start, EncodeOption(options, index, v)) == Some(OptionV(start + index, v))
    decreases options, 0
  {
    if index == 0 {
      RoundTrip(options.shape, v);
    } else {
      ApartRejectsAll(options.shape, options.rest, index - 1, v);
      RoundTripOption(options.rest, start + 1, index - 1, v);
    }
  }

  // ---------- telling alternatives apart ----------

  /** The encoding of a struct with a mandatory tag carries one of its names. */
  lemma {:induction false} EncodedTag(fields: Members, vals: Vals)
    requires SoundFields(fields) && TypedFields(fields, vals) && Tags(fields) != []
    ensures var t := Get(EncodeFields(fields, vals), "type");
      t.Some? && t.value.String? && t.value.s in Tags(fields)
    decreases fields
  {
    if fields.name != "type" { EncodedTag(fields.rest, vals.tail); }
  }

  /** A struct with a mandatory tag refuses every object that carries another one. */
  lemma {:induction false} WrongTag(fields: Members, fs: Fields)
    requires Tags(fields) != []
    requires Get(fs, "type") == None || (Get(fs, "type").value.String? && Get(fs, "type").value.s !in Tags(fields))
    ensures DecodeFields(fields, fs) == None
    decreases fields
  {
    if fields.name != "type" { WrongTag(fields.rest, fs); }
  }

  lemma ApartRejects(a: Shape, b: Shape, v: Val)
    requires Apart(a, b) && Sound(b) && Typed(b, v)
    ensures Decode(a, Encode(b, v)) == None
  {
    if a.Record? {
      EncodedTag(b.fields, v.vals);
      WrongTag(a.fields, EncodeFields(b.fields, v.vals));
    }
  }

  lemma {:induction false} ApartRejectsAll(a: Shape, options: Shapes, index: nat, v: Val)
    requires ApartFromAll(a, options) && SoundOptions(options) && TypedOption(options, index, v)
    ensures Decode(a, EncodeOption(options, index, v)) == None
    decreases options
  {
    if index == 0 { ApartRejects(a, options.shape, v); } else { ApartRejectsAll(a, options.rest, index - 1, v); }
  }
}
