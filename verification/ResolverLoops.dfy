/** The boundary of termination: a cycle through an `allOf` can make the script run forever, but need not. */
module ResolverLoops {
  import opened Basics
  import opened JsonValues
  import opened SchemaShape
  import opened SchemaPieces
  import opened ResolverRuns
  import opened ResolverMeaning

  function RefTo(ref: string): Json { Object(Field("$ref", String(ref), Empty)) }

  function AllOf(ref: string): Json { Object(Field("allOf", Array(Cons(RefTo(ref), Nil)), Empty)) }

  /** A schema whose only property is `j`. */
  function With(j: Json): Json { Object(Field("properties", Object(Field("x", j, Empty)), Empty)) }

  // ---------- a cycle that never ends ----------

  lemma CachedReference(spec: Json, cache: Cache, ref: string, d: nat)
    requires ref in cache && cache[ref].Object? && d > 0
    ensures RunSchema(spec, cache, RefTo(ref), d) == Done(cache, Object(cache[ref].fields))
  {
    var fs := RefTo(ref).fields;
    assert Without(fs, "$ref") == Empty;
    assert RunRef(spec, cache, ref, d - 1) == Done(cache, cache[ref].fields);
  }

  /** Resolving a schema with one property comes down to resolving that property. */
  lemma WithRuns(spec: Json, cache: Cache, j: Json, d: nat)
    requires d > 0
    ensures RunSchema(spec, cache, j, d - 1).Unfinished? ==> RunSchema(spec, cache, With(j), d).Unfinished?
    ensures RunSchema(spec, cache, j, d - 1).Done? ==>
      RunSchema(spec, cache, With(j), d) == Done(RunSchema(spec, cache, j, d - 1).cache,
        With(RunSchema(spec, cache, j, d - 1).value))
  {
    var fs := With(j).fields;
    var e := d - 1;
    var values := Field("x", j, Empty);
    var keys := ["properties", "items", "additionalProperties"];
    assert !Has(fs, "$ref") && !Has(fs, "allOf") && !Has(fs, "oneOf") && !Has(fs, "anyOf");
    var r := RunSchema(spec, cache, j, e);
    if r.Unfinished? {
      assert RunValues(spec, cache, Empty, values, e).Unfinished?;
      assert RunKey(spec, cache, fs, "properties", e).Unfinished?;
      assert RunReplace(spec, cache, fs, fs, keys, e).Unfinished?;
      assert RunNested(spec, cache, fs, e).Unfinished?;
    }
    if r.Done? {
      var one := Field("x", r.value, Empty);
      assert RunValues(spec, r.cache, one, Empty, e) == Done(r.cache, one);
      assert RunValues(spec, cache, Empty, values, e) == Done(r.cache, one);
      assert RunKey(spec, cache, fs, "properties", e) == Done(r.cache, Some(Object(one)));
      assert RunKey(spec, r.cache, fs, "items", e) == Done(r.cache, None);
      assert RunKey(spec, r.cache, fs, "additionalProperties", e) == Done(r.cache, None);
      ThreeKeys(spec, cache, fs, r.cache, Some(Object(one)), r.cache, None, r.cache, None, e);
      assert Put(fs, "properties", Object(one)) == With(r.value).fields;
    }
  }

  /** Merging a cached part whose property is again that merge re-enters the same call. */
  lemma {:induction false} CachedLoop(spec: Json, cache: Cache, b: string, d: nat)
    requires b in cache && cache[b] == With(AllOf(b))
    ensures RunSchema(spec, cache, With(AllOf(b)), d).Unfinished?
    decreases d
  {
    if d > 1 {
      MergeLoops(spec, cache, b, d - 1);
      WithRuns(spec, cache, AllOf(b), d);
    } else if d == 1 {
      WithRuns(spec, cache, AllOf(b), d);
    }
  }

  lemma {:induction false} MergeLoops(spec: Json, cache: Cache, b: string, d: nat)
    requires b in cache && cache[b] == With(AllOf(b)) && d > 0
    ensures RunSchema(spec, cache, AllOf(b), d).Unfinished?
    decreases d
  {
    var fs, e := AllOf(b).fields, d - 1;
    var loop := With(AllOf(b));
    assert !Has(fs, "$ref");
    if e > 0 {
      CachedReference(spec, cache, b, e);
      CachedLoop(spec, cache, b, e);
      assert OnlyProperties(loop.fields) == loop;
      assert RunProperties(spec, cache, loop.fields, e).Unfinished?;
    }
    assert RunPart(spec, cache, MERGE_BASE, RefTo(b), e).Unfinished?;
    assert RunMerge(spec, cache, MERGE_BASE, Cons(RefTo(b), Nil), e).Unfinished?;
  }

  /** With A = allOf[B] and a property of B that refers to A, resolving A never ends: no depth is enough. */
  lemma NeverEnds(spec: Json, a: string, b: string, d: nat)
    requires a != b && Target(spec, a) == Some(AllOf(b)) && Target(spec, b) == Some(With(RefTo(a)))
    ensures RunRef(spec, map[], a, d).Unfinished?
  {
    var c := map[a := AllOf(b)];
    var fs := AllOf(b).fields;
    assert !Has(fs, "$ref");
    if d > 0 {
      var e := d - 1;
      PartNeverEnds(spec, a, b, e);
      assert RunMerge(spec, c, MERGE_BASE, Cons(RefTo(b), Nil), e).Unfinished?;
    }
    assert RunSchema(spec, c, AllOf(b), d).Unfinished?;
  }

  lemma PartNeverEnds(spec: Json, a: string, b: string, e: nat)
    requires a != b && Target(spec, a) == Some(AllOf(b)) && Target(spec, b) == Some(With(RefTo(a)))
    ensures RunPart(spec, map[a := AllOf(b)], MERGE_BASE, RefTo(b), e).Unfinished?
  {
    var c := map[a := AllOf(b)];
    if e > 0 {
      var loop, raw := With(AllOf(b)), With(RefTo(a));
      var seeded := c[b := raw];
      var fs := RefTo(b).fields;
      assert Without(fs, "$ref") == Empty;
      if e > 1 { WithRuns(spec, seeded, RefTo(a), e - 1); }
      if e > 2 {
        CachedReference(spec, seeded, a, e - 2);
        assert RunSchema(spec, seeded, raw, e - 1) == Done(seeded, loop);
        assert seeded[b := loop] == c[b := loop];
        assert RunRef(spec, c, b, e - 1) == Done(c[b := loop], loop.fields);
        assert RunSchema(spec, c, RefTo(b), e) == Done(c[b := loop], loop);
        CachedLoop(spec, c[b := loop], b, e);
        assert OnlyProperties(loop.fields) == loop;
        assert RunProperties(spec, c[b := loop], loop.fields, e).Unfinished?;
      } else if e == 2 {
        assert RunSchema(spec, seeded, RefTo(a), 0).Unfinished?;
        assert RunSchema(spec, seeded, raw, 1).Unfinished?;
        assert RunRef(spec, c, b, 1).Unfinished?;
      }
    }
  }

  /** Such a specification exists. */
  lemma LoopingSpec()
    ensures var spec := Object(Field("A", AllOf("#/B"), Field("B", With(RefTo("#/A")), Empty)));
      Target(spec, "#/A") == Some(AllOf("#/B")) && Target(spec, "#/B") == Some(With(RefTo("#/A")))
  {
    var spec := Object(Field("A", AllOf("#/B"), Field("B", With(RefTo("#/A")), Empty)));
    assert "#/A"[..2] == "#/" && "#/A"[2..] == "A" && "#/B"[..2] == "#/" && "#/B"[2..] == "B";
    assert "A"[1..] == "" && "B"[1..] == "";
    assert Split("") == [""];
    assert ['A'] + "" == "A" && ['B'] + "" == "B" && [""][1..] == [];
    assert Split("A") == ["A"] + [""][1..] && Split("B") == ["B"] + [""][1..];
    assert Split("A") == ["A"] && Split("B") == ["B"];
    assert ["A"][1..] == [] && ["B"][1..] == [];
    assert Walk(spec, ["A"]) == Some(AllOf("#/B")) && Walk(spec, ["B"]) == Some(With(RefTo("#/A")));
  }

  // ---------- a cycle that ends ----------

  /** A = allOf[A] passes through an `allOf` as well, so it has no ranking; but its part has no properties to
      resolve again, and the script returns the merge base. */
  lemma EndsAllTheSame(spec: Json, a: string)
    requires Target(spec, a) == Some(AllOf(a))
    ensures RunRef(spec, map[], a, 2) == Done(map[a := Object(MERGE_BASE)], MERGE_BASE)
    ensures forall rank: Ranking :: a in rank ==> !Stratified(spec, rank)
  {
    var c := map[a := AllOf(a)];
    var fs := AllOf(a).fields;
    assert !Has(fs, "$ref") && Without(fs, "allOf") == Empty;
    CachedReference(spec, c, a, 1);
    assert !Has(fs, "properties") && !Has(fs, "required") && !Has(fs, "type") && !Has(fs, "description");
    assert MergeInto(MERGE_BASE, fs, Empty) == MERGE_BASE;
    assert RunPart(spec, c, MERGE_BASE, RefTo(a), 1) == Done(c, MERGE_BASE);
    assert RunMerge(spec, c, MERGE_BASE, Cons(RefTo(a), Nil), 1) == Done(c, MERGE_BASE);
    assert RunSchema(spec, c, AllOf(a), 2) == Done(c, Object(MERGE_BASE));
    assert c[a := Object(MERGE_BASE)] == map[a := Object(MERGE_BASE)];
    assert Meets(RefTo(a), a, 0);
    assert ListMeets(Cons(RefTo(a), Nil), a, 0);
    assert Meets(AllOf(a), a, 1);
    forall rank: Ranking | a in rank ensures !Stratified(spec, rank) {
      assert Chain(spec, [a, a], [1]);
      assert [1][1..] == [];
      assert Sum([1]) == 1;
      AllOfCycleNotStratified(spec, rank, [a, a], [1]);
    }
  }
}
