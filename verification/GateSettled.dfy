/** The gate only ever compares resolved schemas: without cycles and with annotation-only siblings, no
    position that the comparison reaches has anything left to resolve. */
module GateSettled {
  import opened JsonValues
  import opened SchemaShape
  import opened Resolver
  import opened ResolverTheorems
  import opened Conformance
  import opened GateTheorems

  lemma {:induction false} ValueSettled(fs: Fields, k: string)
    requires ValuesSettled(fs) && Has(fs, k)
    ensures Settled(Get(fs, k).value)
  {
    if fs.key != k { ValueSettled(fs.rest, k); }
  }

  lemma PropertySettled(j: Json, f: string)
    requires Settled(j) && Has(Properties(j), f)
    ensures Settled(Get(Properties(j), f).value)
  {
    GetSettled(Dict(j), "properties");
    ValueSettled(Properties(j), f);
  }

  lemma VariantSettled(j: Json, t: string)
    requires Settled(j) && Has(Variants(Items(j)), t)
    ensures Settled(Get(Variants(Items(j)), t).value)
  {
    if Has(Dict(j), "items") { GetSettled(Dict(j), "items"); }
    GetSettled(Dict(Items(j)), "_union_variants");
    ValueSettled(Variants(Items(j)), t);
  }

  lemma DescendSettled(p: Position, s: Step)
    requires Settled(p.o) && Settled(p.h) && Descend(p, s).Some?
    ensures Settled(Descend(p, s).value.o) && Settled(Descend(p, s).value.h)
  {
    PropertySettled(p.o, s.field);
    PropertySettled(p.h, s.field);
    if s.Through? {
      VariantSettled(Get(Properties(p.o), s.field).value, s.variant);
      VariantSettled(Get(Properties(p.h), s.field).value, s.variant);
    }
  }

  lemma {:induction false} ReachSettled(p: Position, steps: seq<Step>)
    requires Settled(p.o) && Settled(p.h) && Reach(p, steps).Some?
    ensures Settled(Reach(p, steps).value.o) && Settled(Reach(p, steps).value.h)
    decreases |steps|
  {
    if steps != [] {
      DescendSettled(p, steps[0]);
      ReachSettled(Descend(p, steps[0]).value, steps[1..]);
    }
  }

  /** Every pair of schemas that the comparison of two resolved bodies reaches is settled on both sides. */
  lemma ComparedSettled(o: Json, openai: Json, openaiRank: Ranking, h: Json, hadrian: Json, hadrianRank: Ranking,
    ctx: string, steps: seq<Step>)
    requires Acyclic(openai, openaiRank) && SpecAnnotated(openai, openaiRank) && Sound(openaiRank, o) && Annotated(o)
    requires Acyclic(hadrian, hadrianRank) && SpecAnnotated(hadrian, hadrianRank) && Sound(hadrianRank, h)
      && Annotated(h)
    requires Reach(Position(ctx, Plain(openai, openaiRank, o), Plain(hadrian, hadrianRank, h)), steps).Some?
    ensures var q := Reach(Position(ctx, Plain(openai, openaiRank, o), Plain(hadrian, hadrianRank, h)), steps).value;
      Settled(q.o) && Settled(q.h)
  {
    PlainSettled(openai, openaiRank, o);
    PlainSettled(hadrian, hadrianRank, h);
    ReachSettled(Position(ctx, Plain(openai, openaiRank, o), Plain(hadrian, hadrianRank, h)), steps);
  }
}
