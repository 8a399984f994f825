/** `check_conformance`: every in-scope OpenAI operation is looked up on the Hadrian side
    and compared through the two caching resolvers. */
module Checker {
  import opened Basics
  import opened JsonValues
  import opened SchemaShape
  import opened Resolver
  import opened Conformance
  import opened GateTheorems
  import opened ComparisonLaws
  import opened Comparer
  import opened Reports

  class ConformanceChecker {
    const policy: Policy
    const openai: OpenAPIResolver
    const hadrian: OpenAPIResolver

    constructor (policy: Policy, openai: OpenAPIResolver, hadrian: OpenAPIResolver)
      requires openai != hadrian && openai.Valid() && hadrian.Valid() && openai.busy == {} && hadrian.busy == {}
      requires AllSound(openai.spec, openai.rank) && AllSound(hadrian.spec, hadrian.rank)
      ensures this.policy == policy && this.openai == openai && this.hadrian == hadrian && Valid()
    {
      this.policy := policy;
      this.openai := openai;
      this.hadrian := hadrian;
    }

    ghost function Pair(): Specs {
      Specs(openai.spec, hadrian.spec, openai.rank, hadrian.rank)
    }

    ghost predicate Valid()
      reads openai, hadrian
    {
      && openai != hadrian
      && openai.Valid() && openai.busy == {}
      && hadrian.Valid() && hadrian.busy == {}
      && SpecsSound(Pair())
    }

    /** The caches of the two resolvers as they are now. */
    ghost function Now(): Caches
      reads openai, hadrian
    {
      Caches(openai.cache, hadrian.cache)
    }

    /** Compares one body; `p` is the pair of resolved schemas that it is compared by. */
    method CompareBodies(place: Place, ctx: string, o: Json, h: Json)
      returns (diffs: seq<SchemaDiff>, violations: seq<Violation>, ghost p: Option<Position>)
      requires Valid() && Sound(openai.rank, o) && Sound(hadrian.rank, h)
      modifies openai, hadrian
      ensures Valid() && (diffs == [] ==> violations == [])
      ensures Sighted(Pair(), ctx, o, h, old(Now()), p, Now())
      ensures violations == BodyFound(policy, place, p) && diffs == BodyDiffs(policy, p)
      ensures BothAcyclic(Pair()) ==> p == PlainBodies(Pair(), ctx, o, h)
    {
      diffs, violations, p := [], [], None;
      if NonEmpty(o) && NonEmpty(h) {
        var resolvedOpenai := openai.ResolveSchema(o);
        var resolvedHadrian := hadrian.ResolveSchema(h);
        diffs, violations := CompareSchemas(policy.repr, policy.documented, place, ctx, resolvedOpenai,
          resolvedHadrian);
        if diffs == [] {
          NoDiffsNoViolations(policy.repr, policy.documented, place, ctx, resolvedOpenai, resolvedHadrian);
        }
        p := Some(Position(ctx, resolvedOpenai, resolvedHadrian));
      }
    }

    /** Compares the request and the response body of an operation; `between` are the caches in between. */
    method CompareBoth(path: string, verb: string, oOp: Json, hOp: Json)
      returns (request: seq<SchemaDiff>, response: seq<SchemaDiff>, violations: seq<Violation>, ghost seen: Seen,
        ghost between: Caches)
      requires Valid() && OpSound(openai.rank, oOp) && OpSound(hadrian.rank, hOp)
      modifies openai, hadrian
      ensures Valid() && (request == [] && response == [] ==> violations == [])
      ensures Sighted(Pair(), path + " request", RequestSchema(oOp), RequestSchema(hOp), old(Now()), seen.request,
        between)
      ensures Sighted(Pair(), path + " response", ResponseSchema(oOp), ResponseSchema(hOp), between, seen.response,
        Now())
      ensures request == BodyDiffs(policy, seen.request) && response == BodyDiffs(policy, seen.response)
      ensures violations == BodyFound(policy, Place(path, Upper(verb), "request"), seen.request)
                            + BodyFound(policy, Place(path, Upper(verb), "response"), seen.response)
      ensures BothAcyclic(Pair()) ==>
        seen == Seen(PlainBodies(Pair(), path + " request", RequestSchema(oOp), RequestSchema(hOp)),
                     PlainBodies(Pair(), path + " response", ResponseSchema(oOp), ResponseSchema(hOp)))
    {
      var found, more;
      ghost var first, second;
      request, found, first :=
        CompareBodies(Place(path, Upper(verb), "request"), path + " request", RequestSchema(oOp), RequestSchema(hOp));
      between := Now();
      response, more, second :=
        CompareBodies(Place(path, Upper(verb), "response"), path + " response", ResponseSchema(oOp),
          ResponseSchema(hOp));
      violations := found + more;
      seen := Seen(first, second);
    }

    method CompareEndpoint(path: string, verb: string, oOp: Json, hOp: Json)
      returns (e: EndpointDiff, violations: seq<Violation>, ghost seen: Seen, ghost between: Caches)
      requires Valid() && OpSound(openai.rank, oOp) && OpSound(hadrian.rank, hOp)
      modifies openai, hadrian
      ensures Valid() && (!HasDiffs(e) ==> violations == [])
      ensures Sighted(Pair(), path + " request", RequestSchema(oOp), RequestSchema(hOp), old(Now()), seen.request,
        between)
      ensures Sighted(Pair(), path + " response", ResponseSchema(oOp), ResponseSchema(hOp), between, seen.response,
        Now())
      ensures violations == EndpointFound(policy, Op(path, verb), oOp, hOp, seen)
      ensures e == EndpointOf(policy, Op(path, verb), oOp, hOp, seen)
      ensures BothAcyclic(Pair()) ==>
        seen == Seen(PlainBodies(Pair(), path + " request", RequestSchema(oOp), RequestSchema(hOp)),
                     PlainBodies(Pair(), path + " response", ResponseSchema(oOp), ResponseSchema(hOp)))
    {
      var request, response, found;
      request, response, found, seen, between := CompareBoth(path, verb, oOp, hOp);
      var params := ParamDiffs(path, ParamsOf(oOp), ParamsOf(hOp), MissingInHadrian)
                    + ParamDiffs(path, ParamsOf(hOp), ParamsOf(oOp), HadrianExtension);
      e := EndpointDiff(path, Upper(verb), request, response, params, false);
      violations := found + ParamViolations(policy, path, verb, oOp, hOp);
      if params == [] {
        NoParamDiffs(policy, path, Place(path, Upper(verb), "param"), ParamsOf(oOp), ParamsOf(hOp));
      }
    }

    /** A visit of this checker: made by the resolvers from the caches before it, and without cycles seeing what the
        uncached resolver gives. */
    ghost predicate Good(v: Visit)
      requires SpecsSound(Pair())
    {
      Made(policy, Pair(), v) && (BothAcyclic(Pair()) ==> v.seen == PlainSeen(policy, Pair(), v.op))
    }

    method CheckOperation(path: string, verb: string) returns (e: EndpointDiff, violations: seq<Violation>,
      ghost v: Visit)
      requires Valid()
      modifies openai, hadrian
      ensures Valid() && (!e.missing && !HasDiffs(e) ==> violations == [])
      ensures v.op == Op(path, verb) && v.entry == Entry(e, violations) && Good(v)
      ensures v.before == old(Now()) && v.after == Now()
    {
      ghost var seen, between;
      if !Has(Verbs(hadrian.spec, HadrianPath(policy, path)), verb) {
        e := EndpointDiff(path, Upper(verb), [], [], [], true);
        violations := [Violation(MissingEndpoint, DocKey(path, Upper(verb), "", ""))];
        seen, between := NOTHING_SEEN, Now();
      } else {
        e, violations, seen, between := CompareEndpoint(path, verb, Operation(openai.spec, path, verb),
                                                        Operation(hadrian.spec, HadrianPath(policy, path), verb));
      }
      v := Visit(Op(path, verb), old(Now()), between, Now(), seen, Entry(e, violations));
    }

    /** Books a checked operation in the report. */
    static method Record(before: Report, e: EndpointDiff, violations: seq<Violation>) returns (r: Report)
      requires Balanced(before) && (!e.missing && !HasDiffs(e) ==> violations == [])
      ensures r == AddTo(before, e, violations) && Balanced(r)
    {
      r := before.(checked := before.checked + 1, violations := before.violations + violations);
      if e.missing || HasDiffs(e) {
        r := r.(withDiffs := r.withDiffs + [e]);
      } else {
        r := r.(conformant := r.conformant + 1);
      }
    }

    /** The visits of this checker, for the abstract reasoning about runs. */
    ghost function GoodOnes(): Visit -> bool
      requires SpecsSound(Pair())
    {
      (v: Visit) => Good(v)
    }

    /** One operation, added to the report so far. */
    method AddOperation(path: string, verb: string, before: Report) returns (r: Report, ghost v: Visit)
      requires Valid() && Balanced(before)
      modifies openai, hadrian
      ensures Valid() && Balanced(r) && v.op == Op(path, verb) && GoodOnes()(v)
      ensures v.before == old(Now()) && v.after == Now()
      ensures r == AddTo(before, v.entry.diff, v.entry.violations)
    {
      var e, violations;
      e, violations, v := CheckOperation(path, verb);
      r := Record(before, e, violations);
    }

    method CheckPath(path: string, verbs: seq<string>, before: Report) returns (r: Report, ghost vs: seq<Visit>)
      requires Valid() && Balanced(before)
      modifies openai, hadrian
      ensures Valid() && Balanced(r) && r == Booked(before, vs)
      ensures Traced(GoodOnes(), PathOps(policy, Pair(), path, verbs), old(Now()), vs, Now())
    {
      r, vs := before, [];
      var i := 0;
      while i < |verbs|
        invariant 0 <= i <= |verbs| && Valid() && Balanced(r) && r == Booked(before, vs)
        invariant Traced(GoodOnes(), PathOps(policy, Pair(), path, verbs[..i]), old(Now()), vs, Now())
      {
        assert verbs[..i + 1][..i] == verbs[..i];
        PathOpsSnoc(policy, Pair(), path, verbs[..i + 1]);
        if Has(Verbs(openai.spec, path), verbs[i]) && policy.verbInScope(path, verbs[i]) {
          ghost var c, v: Visit := Now(), *;
          r, v := AddOperation(path, verbs[i], r);
          BookedSnoc(before, vs, v);
          TracedSnoc(GoodOnes(), PathOps(policy, Pair(), path, verbs[..i]), old(Now()), vs, c, v, Now());
          vs := vs + [v];
        }
        i := i + 1;
      }
      assert verbs[..i] == verbs;
    }

    /** The whole check.  The visits are a run over the operations in scope from the caches on entry, so they are
        determined by these caches and the two specifications; the report is what follows from them. */
    method CheckConformance(filter: Option<string>) returns (r: Report, ghost vs: seq<Visit>)
      requires Valid()
      modifies openai, hadrian
      ensures Valid() && Balanced(r) && Runs(policy, Pair(), ScopeOps(policy, Pair(), filter), old(Now()), vs, Now())
      ensures r == Booked(EMPTY_REPORT, vs).(outOfScope := OutOfScope(policy, Paths(openai.spec)))
      ensures r.violations == [] <==> GateOpenFrom(policy, Pair(), filter, old(Now()))
      ensures BothAcyclic(Pair()) ==> (r.violations == [] <==> GateOpen(policy, Pair(), filter))
    {
      r, vs := CheckPaths(filter);
      BookedFound(EMPTY_REPORT, vs);
      GoodRun(vs, ScopeOps(policy, Pair(), filter), old(Now()), Now());
      GateExact(policy, Pair(), vs);
      GateDetermined(policy, Pair(), filter, old(Now()), vs, Now());
      if BothAcyclic(Pair()) { PlainGateExact(policy, Pair(), filter, vs); }
    }

    lemma GoodRun(vs: seq<Visit>, ops: seq<Op>, start: Caches, end: Caches)
      requires SpecsSound(Pair()) && Traced(GoodOnes(), ops, start, vs, end)
      ensures Runs(policy, Pair(), ops, start, vs, end)
      ensures BothAcyclic(Pair()) ==> AllPlain(policy, Pair(), vs)
    {
      forall i | 0 <= i < |vs|
        ensures Made(policy, Pair(), vs[i]) && (BothAcyclic(Pair()) ==>
          vs[i].seen == PlainSeen(policy, Pair(), vs[i].op))
      {
        assert GoodOnes()(vs[i]);
      }
    }

    /** One path more: it is out of scope, filtered out, or its operations are checked. */
    method NextPath(filter: Option<string>, rest: Fields, before: Report, ghost start: Caches, ghost done: seq<Visit>)
      returns (r: Report, ghost vs: seq<Visit>)
      requires Valid() && rest.Field?
      requires PathsSoFar(GoodOnes(), policy, Pair(), filter, before, start, done, Now(), rest)
      modifies openai, hadrian
      ensures Valid() && PathsSoFar(GoodOnes(), policy, Pair(), filter, r, start, vs, Now(), rest.rest)
    {
      r, vs := before, done;
      var path := rest.key;
      if !policy.pathInScope(path) {
        PathOutside(policy, Pair(), filter, rest);
        MoreSkipped(GoodOnes(), r, start, vs, Now(), AllOps(policy, Pair(), filter, rest.rest),
          ScopeOps(policy, Pair(), filter),
          path, OutOfScope(policy, rest.rest), OutOfScope(policy, Paths(openai.spec)));
        r := r.(outOfScope := r.outOfScope + [path]);
      } else if InScope(policy, filter, path) {
        ghost var more := PathOps(policy, Pair(), path, VERBS);
        r, vs := CheckPath(path, VERBS, before);
        PathFirst(policy, Pair(), filter, rest);
        MoreOps(GoodOnes(), before, start, done, old(Now()), AllOps(policy, Pair(), filter, rest),
          ScopeOps(policy, Pair(), filter),
          OutOfScope(policy, rest), OutOfScope(policy, Paths(openai.spec)),
          r, more, vs, Now(), AllOps(policy, Pair(), filter, rest.rest));
        vs := done + vs;
      } else {
        PathFiltered(policy, Pair(), filter, rest);
      }
    }

    /** The loop over the paths of the OpenAI specification. */
    method CheckPaths(filter: Option<string>) returns (r: Report, ghost vs: seq<Visit>)
      requires Valid()
      modifies openai, hadrian
      ensures Valid() && PathsSoFar(GoodOnes(), policy, Pair(), filter, r, old(Now()), vs, Now(), Empty)
    {
      r, vs := EMPTY_REPORT, [];
      var rest := Paths(openai.spec);
      while rest.Field?
        invariant Valid() && PathsSoFar(GoodOnes(), policy, Pair(), filter, r, old(Now()), vs, Now(), rest)
        decreases rest
      {
        r, vs := NextPath(filter, rest, r, old(Now()), vs);
        rest := rest.rest;
      }
    }
  }

  // ---------- runs of visits with some property ----------

  ghost predicate Traced(good: Visit -> bool, ops: seq<Op>, start: Caches, vs: seq<Visit>, now: Caches) {
    OpsOf(vs) == ops && Linked(start, vs, now) && forall i :: 0 <= i < |vs| ==> good(vs[i])
  }

  lemma TracedConcat(good: Visit -> bool, a: seq<Op>, start: Caches, vs: seq<Visit>, c: Caches, b: seq<Op>,
    ws: seq<Visit>, now: Caches)
    requires Traced(good, a, start, vs, c) && Traced(good, b, c, ws, now)
    ensures Traced(good, a + b, start, vs + ws, now)
  {
    LinkedConcat(start, vs, c, ws, now);
    assert OpsOf(vs + ws) == OpsOf(vs) + OpsOf(ws);
  }

  lemma TracedSnoc(good: Visit -> bool, ops: seq<Op>, start: Caches, vs: seq<Visit>, c: Caches, v: Visit, now: Caches)
    requires Traced(good, ops, start, vs, c) && good(v) && v.before == c && v.after == now
    ensures Traced(good, ops + [v.op], start, vs + [v], now)
  {
    assert [v][1..] == [];
    assert Linked(c, [v], now);
    assert OpsOf([v]) == [v.op];
    TracedConcat(good, ops, start, vs, c, [v.op], [v], now);
  }

  lemma BookedSnoc(r: Report, vs: seq<Visit>, v: Visit)
    ensures Booked(r, vs + [v]) == AddTo(Booked(r, vs), v.entry.diff, v.entry.violations)
  {
    BookedConcat(r, vs, [v]);
    assert [v][1..] == [];
  }

  /** The report after the paths before `rest`. */
  ghost predicate PathsSoFar(good: Visit -> bool, policy: Policy, s: Specs, filter: Option<string>,
                             r: Report, start: Caches, vs: seq<Visit>, now: Caches, rest: Fields)
  {
    SoFar(good, r, start, vs, now, AllOps(policy, s, filter, rest), ScopeOps(policy, s, filter),
      OutOfScope(policy, rest), OutOfScope(policy, Paths(s.openai)))
  }

  /** The report after `vs`, when the operations `left` and the paths `skipped` are still to come. */
  ghost predicate SoFar(good: Visit -> bool, r: Report, start: Caches, vs: seq<Visit>, now: Caches,
                        left: seq<Op>, all: seq<Op>, skipped: seq<string>, allSkipped: seq<string>)
  {
    && Balanced(r) && Traced(good, OpsOf(vs), start, vs, now)
    && OpsOf(vs) + left == all && r.outOfScope + skipped == allSkipped
    && r == Booked(EMPTY_REPORT, vs).(outOfScope := r.outOfScope)
  }

  /** A path out of scope has no operations, and is listed. */
  lemma PathOutside(policy: Policy, s: Specs, filter: Option<string>, rest: Fields)
    requires rest.Field? && !policy.pathInScope(rest.key)
    ensures AllOps(policy, s, filter, rest) == AllOps(policy, s, filter, rest.rest)
    ensures OutOfScope(policy, rest) == [rest.key] + OutOfScope(policy, rest.rest)
  {
    assert AllOps(policy, s, filter, rest) == [] + AllOps(policy, s, filter, rest.rest);
  }

  lemma MoreSkipped(good: Visit -> bool, r: Report, start: Caches, vs: seq<Visit>, now: Caches,
                    left: seq<Op>, all: seq<Op>, path: string, skipped: seq<string>, allSkipped: seq<string>)
    requires SoFar(good, r, start, vs, now, left, all, [path] + skipped, allSkipped)
    ensures SoFar(good, r.(outOfScope := r.outOfScope + [path]), start, vs, now, left, all, skipped, allSkipped)
  {
    Shift(r.outOfScope, [path], skipped);
  }

  /** A path that the filter leaves out has no operations, and is not listed. */
  lemma PathFiltered(policy: Policy, s: Specs, filter: Option<string>, rest: Fields)
    requires rest.Field? && policy.pathInScope(rest.key) && !InScope(policy, filter, rest.key)
    ensures AllOps(policy, s, filter, rest) == AllOps(policy, s, filter, rest.rest)
    ensures OutOfScope(policy, rest) == OutOfScope(policy, rest.rest)
  {
    assert AllOps(policy, s, filter, rest) == [] + AllOps(policy, s, filter, rest.rest);
    assert OutOfScope(policy, rest) == [] + OutOfScope(policy, rest.rest);
  }

  lemma MoreOps(good: Visit -> bool, r: Report, start: Caches, vs: seq<Visit>, c: Caches,
                left: seq<Op>, all: seq<Op>, skipped: seq<string>, allSkipped: seq<string>,
                next: Report, more: seq<Op>, ws: seq<Visit>, now: Caches, later: seq<Op>)
    requires SoFar(good, r, start, vs, c, left, all, skipped, allSkipped) && left == more + later
    requires Balanced(next) && next == Booked(r, ws) && Traced(good, more, c, ws, now)
    ensures SoFar(good, next, start, vs + ws, now, later, all, skipped, allSkipped)
  {
    Shift(OpsOf(vs), more, later);
    BookedMore(vs, ws, r, next);
    TracedConcat(good, OpsOf(vs), start, vs, c, more, ws, now);
  }

  /** The operations of a path in scope come before those of the later paths. */
  lemma PathFirst(policy: Policy, s: Specs, filter: Option<string>, rest: Fields)
    requires rest.Field? && InScope(policy, filter, rest.key)
    ensures AllOps(policy, s, filter, rest) == PathOps(policy, s, rest.key, VERBS)
      + AllOps(policy, s, filter, rest.rest)
    ensures OutOfScope(policy, rest) == OutOfScope(policy, rest.rest)
  {
    assert OutOfScope(policy, rest) == [] + OutOfScope(policy, rest.rest);
  }

  lemma BookedMore(vs: seq<Visit>, more: seq<Visit>, r: Report, next: Report)
    requires r == Booked(EMPTY_REPORT, vs).(outOfScope := r.outOfScope) && next == Booked(r, more)
    ensures next.outOfScope == r.outOfScope && next == Booked(EMPTY_REPORT, vs + more).(outOfScope := next.outOfScope)
  {
    BookedConcat(EMPTY_REPORT, vs, more);
    BookedScope(Booked(EMPTY_REPORT, vs), more, r.outOfScope);
  }
}
