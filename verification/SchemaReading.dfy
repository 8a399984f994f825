/** What the comparison reads in a schema, spelled out on the keys of the JSON, and that it reads exactly this. */
module SchemaReading {
  import opened Basics
  import opened JsonValues
  import opened Conformance
  import opened GateTheorems

  // ---------- fields ----------

  /** `j.properties[f]` is `v`. */
  predicate Property(j: Json, f: string, v: Json) {
    j.Object? && match Get(j.fields, "properties") case Some(Object(props)) => Get(props, f) == Some(v) case _ => false
  }

  ghost predicate HasProperty(j: Json, f: string) { exists v :: Property(j, f, v) }

  /** `f` is in the list `j.required`. */
  predicate Requires(j: Json, f: string) {
    j.Object? && match Get(j.fields, "required") case Some(Array(names)) => Member(String(f), names) case _ => false
  }

  lemma PropertyExactly(j: Json, f: string)
    ensures forall v :: Property(j, f, v) <==> Get(Properties(j), f) == Some(v)
    ensures HasProperty(j, f) <==> Has(Properties(j), f)
  {
    if Has(Properties(j), f) { assert Property(j, f, Get(Properties(j), f).value); }
  }

  lemma RequiresExactly(j: Json, f: string)
    ensures Requires(j, f) <==> Member(String(f), Required(j))
  {
  }

  // ---------- types ----------

  /** `j.type` is `object`. */
  predicate ObjectType(j: Json) { j.Object? && Get(j.fields, "type") == Some(String("object")) }

  /** `j.type` is `array`, or a list with `array` in it. */
  predicate ArrayType(j: Json) {
    j.Object? && match Get(j.fields, "type")
      case Some(String(t)) => t == "array"
      case Some(Array(ts)) => Member(String("array"), ts)
      case _ => false
  }

  lemma TypesExactly(j: Json)
    ensures ObjectType(j) <==> TypeIs(j, "object")
    ensures ArrayType(j) <==> IsArrayType(j)
  {
  }

  /** Two type strings that do not count as a mismatch. */
  predicate Compatible(o: string, h: string) {
    || o == h
    || (o == "integer" && h == "number") || (o == "number" && h == "integer")
    || (o == "number" && h == "double") || (o == "double" && h == "number")
  }

  lemma CompatibleExactly(o: string, h: string)
    ensures Compatible(o, h) <==> TypesCompatible(o, h)
  {
    assert "integer"[0] == 'i' && "number"[0] == 'n' && "double"[0] == 'd';
    if {o, h} <= {"integer", "number"} { assert o in {"integer", "number"} && h in {"integer", "number"}; }
  }

  /** A nullable type in the form of a list reads like the type itself. */
  lemma NullableType(repr: Json -> string, fs: Fields, t: string)
    requires t != "null" && t != ""
    ensures var list := Array(Cons(String(t), Cons(String("null"), Nil)));
      TypeString(repr, Object(Put(fs, "type", list))) == TypeString(repr, Object(Put(fs, "type", String(t))))
  {
    var list := Cons(String(t), Cons(String("null"), Nil));
    var a, b := Put(fs, "type", Array(list)), Put(fs, "type", String(t));
    assert TypeNames(list.tail) == [] by { assert TypeNames(list.tail.tail) == []; }
    assert TypeNames(list) == [t];
    assert Join([t]) == t;
    OtherKeys(fs, Array(list));
    OtherKeys(fs, String(t));
    assert DeclaredType(a, repr) == DeclaredType(b, repr) == Some(t);
  }

  lemma OtherKeys(fs: Fields, v: Json)
    ensures Get(Put(fs, "type", v), "type") == Some(v)
    ensures Get(Put(fs, "type", v), "items") == Get(fs, "items")
    ensures Get(Put(fs, "type", v), "additionalProperties") == Get(fs, "additionalProperties")
  {
    GetPut(fs, "type", v, "type");
    GetPut(fs, "type", v, "items");
    GetPut(fs, "type", v, "additionalProperties");
  }

  /** The type string of a schema whose `type` is a string: arrays show their items, objects the values they map to,
      any other type itself. */
  lemma NamedType(repr: Json -> string, fs: Fields, t: string)
    requires Get(fs, "type") == Some(String(t)) && t != ""
    ensures TypeString(repr, Object(fs)) ==
      if t == "array" then
        match Get(fs, "items")
        case Some(items) => "array<" + TypeString(repr, items) + ">"
        case None => "array<unknown>"
      else if t == "object" then
        match Get(fs, "additionalProperties")
        case Some(values) => "map<string, " + TypeString(repr, values) + ">"
        case None => "object"
      else t
  {
    assert "array"[0] == 'a' && "object"[0] == 'o';
    assert "array<" + "unknown" + ">" == "array<unknown>";
  }

  /** Without a `type` an `enum` shows as such, and a reference as its last part. */
  lemma UnnamedType(repr: Json -> string, fs: Fields)
    requires Get(fs, "type") == None
    ensures Has(fs, "enum") ==> TypeString(repr, Object(fs)) == "enum"
    ensures !Has(fs, "enum") ==> forall before: string, name: string ::
      Get(fs, "$ref") == Some(String(before + "/" + name)) && '/' !in name ==> TypeString(repr, Object(fs)) == name
    ensures !Has(fs, "enum") && !Has(fs, "$ref") ==> TypeString(repr, Object(fs)) == "unknown"
  {
    forall before: string, name: string | !Has(fs, "enum")
      && Get(fs, "$ref") == Some(String(before + "/" + name)) && '/' !in name
      ensures TypeString(repr, Object(fs)) == name
    {
      LastPartOf(before, name);
    }
  }

  lemma {:induction false} LastPartOf(before: string, name: string)
    requires '/' !in name
    ensures LastPart(before + "/" + name) == name
  {
    var s := before + "/" + name;
    assert s[|before|] == '/';
    if before == [] {
      assert s[1..] == name;
    } else {
      assert s[1..] == before[1..] + "/" + name;
      LastPartOf(before[1..], name);
    }
  }

  // ---------- variants ----------

  /** `j.items._union_variants[t]` is `v`. */
  predicate Variant(j: Json, t: string, v: Json) {
    j.Object? && match Get(j.fields, "items")
      case Some(Object(items)) =>
        (match Get(items, "_union_variants") case Some(Object(vs)) => Get(vs, t) == Some(v) case _ => false)
      case _ => false
  }

  ghost predicate HasVariant(j: Json, t: string) { exists v :: Variant(j, t, v) }

  ghost predicate HasVariants(j: Json) { exists t :: HasVariant(j, t) }

  lemma VariantExactly(j: Json, t: string)
    ensures forall v :: Variant(j, t, v) <==> Get(Variants(Items(j)), t) == Some(v)
    ensures HasVariant(j, t) <==> Has(Variants(Items(j)), t)
  {
    if Has(Variants(Items(j)), t) { assert Variant(j, t, Get(Variants(Items(j)), t).value); }
  }

  lemma VariantsExactly(j: Json)
    ensures HasVariants(j) <==> Variants(Items(j)).Field?
  {
    var vs := Variants(Items(j));
    if vs.Field? {
      VariantExactly(j, vs.key);
      assert HasVariant(j, vs.key);
    }
    if HasVariants(j) {
      var t :| HasVariant(j, t);
      VariantExactly(j, t);
    }
  }

  // ---------- the marker ----------

  /** `j.description` holds the marker somewhere. */
  ghost predicate MarkedBy(j: Json, marker: string) {
    j.Object? && exists s, i :: Get(j.fields, "description") == Some(String(s)) && Occurs(s, marker, i)
  }

  predicate Occurs(s: string, part: string, i: int) { 0 <= i <= |s| - |part| && s[i..i + |part|] == part }

  lemma {:induction false} ContainsExactly(s: string, part: string)
    ensures Contains(s, part) <==> exists i :: Occurs(s, part, i)
  {
    if part <= s {
      assert Occurs(s, part, 0);
    } else if s != [] {
      ContainsExactly(s[1..], part);
      if i :| Occurs(s[1..], part, i) { OneLater(s, part, i); }
      if i :| Occurs(s, part, i) {
        assert !Occurs(s, part, 0);
        OneLater(s, part, i - 1);
      }
    }
  }

  lemma OneLater(s: string, part: string, i: nat)
    requires s != []
    ensures Occurs(s[1..], part, i) <==> Occurs(s, part, i + 1)
  {
    if i <= |s| - 1 - |part| { assert s[1..][i..i + |part|] == s[i + 1..i + 1 + |part|]; }
  }

  lemma MarkedExactly(j: Json)
    ensures Marked(j) <==> MarkedBy(j, "**Hadrian Extension:**")
  {
    if j.Object? && Has(j.fields, "description") && Get(j.fields, "description").value.String? {
      ContainsExactly(Get(j.fields, "description").value.s, MARKER);
    }
  }

  // ---------- the key of a variant ----------

  /** A variant of the field `f` is documented by the way to it below the body, without the endpoint. */
  lemma VariantKeyMeaning(path: string, side: string, inner: string, f: string, t: string)
    requires side == " request" || side == " response"
    ensures VariantKey(path, path + side, f, t) == f + "[" + t + "]"
    ensures VariantKey(path, path + side + "." + inner, f, t) == inner + "." + f + "[" + t + "]"
  {
    assert " request" + "." == " request." && " response" + "." == " response.";
    ShortOf(path, side + ".", f);
    Regrouped(path, side, ".", f, "[]");
    ShortOf(path, side + ".", inner + "." + f);
    Nested(path, side, inner, f, "[]");
  }

  lemma Regrouped(a: string, b: string, c: string, d: string, e: string)
    ensures a + b + c + d + e == a + (b + c) + d + e
  {
  }

  lemma Nested(a: string, b: string, inner: string, f: string, e: string)
    ensures a + b + "." + inner + "." + f + e == a + (b + ".") + (inner + "." + f) + e
  {
  }

  lemma ShortOf(path: string, side: string, way: string)
    requires side == " request." || side == " response."
    ensures ShortContext(path, path + side + way + "[]") == way
  {
    var ctx := path + side + way + "[]";
    var other := if side == " request." then " response." else " request.";
    assert ctx[|path|..|path| + |side|] == side && path + side <= ctx;
    assert !(path + other <= ctx) by {
      assert (path + other)[|path| + 3] == other[3] && ctx[|path| + 3] == side[3];
    }
    assert ctx[|path + side|..] == way + "[]" && (way + "[]")[|way|..] == "[]" && (way + "[]")[..|way|] == way;
  }

  // ---------- one step down ----------

  /** One step of the descent: into a field that is an object on both sides, or into a variant of an array that both
      sides discriminate. */
  ghost predicate StepsTo(p: Position, s: Step, q: Position) {
    exists o, h :: Property(p.o, s.field, o) && Property(p.h, s.field, h)
      && if s.Into? then ObjectType(o) && ObjectType(h) && q == Position(p.ctx + "." + s.field, o, h)
         else ArrayType(o) && ArrayType(h) && Variant(o, s.variant, q.o) && Variant(h, s.variant, q.h)
              && q.ctx == p.ctx + "." + s.field + "[]" + "<type=" + s.variant + ">"
  }

  lemma DescendExactly(p: Position, s: Step, q: Position)
    ensures Descend(p, s) == Some(q) <==> StepsTo(p, s, q)
  {
    PropertyExactly(p.o, s.field);
    PropertyExactly(p.h, s.field);
    if Common(p, s.field) {
      var o, h := Get(Properties(p.o), s.field).value, Get(Properties(p.h), s.field).value;
      assert Property(p.o, s.field, o) && Property(p.h, s.field, h);
      TypesExactly(o);
      TypesExactly(h);
      if s.Through? {
        VariantExactly(o, s.variant);
        VariantExactly(h, s.variant);
      }
    }
  }
}
