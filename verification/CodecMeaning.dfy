/** What is on the wire, and what is read from it, field by field and alternative by alternative. */
module CodecMeaning {
  import opened Basics
  import opened JsonValues
  import opened Codec

  // ---------- structs ----------

  /** The member with that name, and its value. */
  ghost predicate Holds(fields: Members, vals: Vals, name: string, shape: Shape, missing: Missing, omit: bool, v: Val) {
    && fields.Member? && vals.Then?
    && ((fields.name == name && fields.shape == shape && fields.missing == missing && fields.omit == omit
         && vals.head == v)
        || Holds(fields.rest, vals.tail, name, shape, missing, omit, v))
  }

  lemma {:induction false} HoldsTyped(fields: Members, vals: Vals, name: string, shape: Shape, missing: Missing,
                                      omit: bool, v: Val)
    requires TypedFields(fields, vals) && Holds(fields, vals, name, shape, missing, omit, v)
    ensures Typed(shape, v) && HasName(fields, name)
  {
    if !(fields.name == name && fields.shape == shape && fields.missing == missing && fields.omit == omit
         && vals.head == v) {
      HoldsTyped(fields.rest, vals.tail, name, shape, missing, omit, v);
    }
  }

  lemma {:induction false} NoOtherKey(fields: Members, vals: Vals, k: string)
    requires TypedFields(fields, vals) && !HasName(fields, k)
    ensures Get(EncodeFields(fields, vals), k) == None
  {
    if fields.Member? { NoOtherKey(fields.rest, vals.tail, k); }
  }

  /** A member is written under its name, unless it may be left out and has the value it has when it is missing. */
  lemma {:induction false} OnWire(fields: Members, vals: Vals, name: string, shape: Shape, missing: Missing, omit: bool,
                                  v: Val)
    requires TypedFields(fields, vals) && DistinctNames(fields) && Holds(fields, vals, name, shape, missing, omit, v)
    ensures Typed(shape, v)
    ensures Get(EncodeFields(fields, vals), name) ==
      if omit && (missing == Absent(v) || missing == Defaulted(v)) then None else Some(Encode(shape, v))
  {
    HoldsTyped(fields, vals, name, shape, missing, omit, v);
    if fields.name == name && fields.shape == shape && fields.missing == missing && fields.omit == omit
       && vals.head == v {
      NoOtherKey(fields.rest, vals.tail, name);
    } else {
      HoldsTyped(fields.rest, vals.tail, name, shape, missing, omit, v);
      OnWire(fields.rest, vals.tail, name, shape, missing, omit, v);
    }
  }

  /** The tag of an enum is its `type`, beside the fields of the variant. */
  lemma TagOnWire(cases: Cases, tag: string, vals: Vals)
    requires TypedCase(cases, tag, vals)
    ensures var j := Encode(Tagged(cases), CaseV(tag, vals)); j.Object? && Get(j.fields, "type") == Some(String(tag))
  {
  }

  /** Keys that no member has are ignored. */
  lemma {:induction false} UnknownIgnored(fields: Members, fs: Fields, k: string, v: Json)
    requires !HasName(fields, k)
    ensures DecodeFields(fields, Put(fs, k, v)) == DecodeFields(fields, fs)
  {
    if fields.Member? {
      GetPut(fs, k, v, fields.name);
      UnknownIgnored(fields.rest, fs, k, v);
    }
  }

  /** A member that is not there is its missing value, or an error if it must be there. */
  lemma {:induction false} MustBeThere(fields: Members, fs: Fields, name: string)
    requires Mandatory(fields, name) && Get(fs, name) == None
    ensures DecodeFields(fields, fs) == None
  {
    if !(fields.name == name && fields.missing.Must?) { MustBeThere(fields.rest, fs, name); }
  }

  predicate Mandatory(fields: Members, name: string) {
    fields.Member? && ((fields.name == name && fields.missing.Must?) || Mandatory(fields.rest, name))
  }

  // ---------- untagged enums ----------

  /** The alternative at an index. */
  function Nth(options: Shapes, i: nat): Option<Shape> {
    if options.NoShapes? then None else if i == 0 then Some(options.shape) else Nth(options.rest, i - 1)
  }

  /** The alternative at `i` decodes the value to `v`, and none before it decodes it. */
  ghost predicate FirstMatch(options: Shapes, j: Json, i: nat, v: Val) {
    && Nth(options, i).Some? && Decode(Nth(options, i).value, j) == Some(v)
    && forall n :: 0 <= n < i && Nth(options, n).Some? ==> Decode(Nth(options, n).value, j).None?
  }

  lemma Later(options: Shapes, n: nat)
    requires options.Alternative?
    ensures Nth(options, n + 1) == Nth(options.rest, n)
  {
  }

  lemma FirstMatchStep(options: Shapes, j: Json, i: nat, v: Val)
    requires options.Alternative? && Decode(options.shape, j).None?
    ensures FirstMatch(options, j, i + 1, v) <==> FirstMatch(options.rest, j, i, v)
  {
    Later(options, i);
    if FirstMatch(options.rest, j, i, v) {
      forall n | 0 <= n < i + 1 && Nth(options, n).Some? ensures Decode(Nth(options, n).value, j).None? {
        if n > 0 { Later(options, n - 1); }
      }
    }
    if FirstMatch(options, j, i + 1, v) {
      forall n | 0 <= n < i && Nth(options.rest, n).Some? ensures Decode(Nth(options.rest, n).value, j).None? {
        Later(options, n);
      }
    }
  }

  lemma {:induction false} FirstFrom(options: Shapes, index: nat, j: Json, i: nat, v: Val)
    ensures DecodeFirst(options, index, j) == Some(OptionV(index + i, v)) <==> FirstMatch(options, j, i, v)
    decreases options
  {
    if options.Alternative? {
      var first := Decode(options.shape, j);
      assert Nth(options, 0) == Some(options.shape);
      if first.None? && i > 0 {
        FirstFrom(options.rest, index + 1, j, i - 1, v);
        FirstMatchStep(options, j, i - 1, v);
      } else if first.None? {
        IndexFrom(options.rest, index + 1, j);
      }
    }
  }

  lemma {:induction false} IndexFrom(options: Shapes, index: nat, j: Json)
    ensures DecodeFirst(options, index, j).Some? ==>
      DecodeFirst(options, index, j).value.OptionV? && DecodeFirst(options, index, j).value.index >= index
    decreases options
  {
    if options.Alternative? { IndexFrom(options.rest, index + 1, j); }
  }

  /** An untagged enum takes the first alternative that decodes. */
  lemma TakesFirst(options: Shapes, j: Json, i: nat, v: Val)
    ensures Decode(FirstOf(options), j) == Some(OptionV(i, v)) <==> FirstMatch(options, j, i, v)
  {
    FirstFrom(options, 0, j, i, v);
  }
}
