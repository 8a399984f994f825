/** What a conformance run reads in the two specifications and what it reports about an operation, spelled out on the
    keys of the JSON. */
module OperationReading {
  import opened Basics
  import opened JsonValues
  import opened ResolverRuns
  import opened Conformance
  import opened GateTheorems
  import opened SchemaReading
  import opened DiffTheorems
  import opened ViolationTheorems
  import opened Reports

  // ---------- bodies ----------

  /** `j[a][b][c][d]` is `v`. */
  ghost predicate Below4(j: Json, a: string, b: string, c: string, d: string, v: Json) {
    exists x, y, z :: j.Object? && Get(j.fields, a) == Some(Object(x)) && Get(x, b) == Some(Object(y))
      && Get(y, c) == Some(Object(z)) && Get(z, d) == Some(v)
  }

  ghost predicate RequestBody(op: Json, v: Json) {
    Below4(op, "requestBody", "content", "application/json", "schema", v)
  }

  /** Only the response 200 counts. */
  ghost predicate ResponseBody(op: Json, v: Json) {
    exists responses :: op.Object? && Get(op.fields, "responses") == Some(Object(responses))
      && Below4(Object(responses), "200", "content", "application/json", "schema", v)
  }

  lemma DigStep(j: Json, k: string, keys: seq<string>)
    ensures Dig(j, [k] + keys) == match Get(Dict(j), k) case Some(v) => Dig(v, keys) case None => Object(Empty)
  {
    assert ([k] + keys)[1..] == keys;
  }

  lemma Dig4(j: Json, a: string, b: string, c: string, d: string)
    ensures forall v :: Below4(j, a, b, c, d, v) ==> Dig(j, [a] + ([b] + ([c] + ([d] + [])))) == v
    ensures (forall v :: !Below4(j, a, b, c, d, v)) ==> Dig(j, [a] + ([b] + ([c] + ([d] + [])))) == Object(Empty)
  {
    DigStep(j, a, [b] + ([c] + ([d] + [])));
    if Has(Dict(j), a) {
      var x := Get(Dict(j), a).value;
      DigStep(x, b, [c] + ([d] + []));
      if Has(Dict(x), b) {
        var y := Get(Dict(x), b).value;
        DigStep(y, c, [d] + []);
        if Has(Dict(y), c) {
          var z := Get(Dict(y), c).value;
          DigStep(z, d, []);
          if Has(Dict(z), d) { assert Below4(j, a, b, c, d, Get(Dict(z), d).value); }
        }
      }
    }
  }

  /** The request body that is compared. */
  lemma RequestExactly(op: Json)
    ensures forall v :: RequestBody(op, v) ==> RequestSchema(op) == v
    ensures (forall v :: !RequestBody(op, v)) ==> RequestSchema(op) == Object(Empty)
  {
    Dig4(op, "requestBody", "content", "application/json", "schema");
    assert ["requestBody"] + (["content"] + (["application/json"] + (["schema"] + [])))
        == ["requestBody", "content", "application/json", "schema"];
    forall v | Below4(op, "requestBody", "content", "application/json", "schema", v) ensures RequestBody(op, v) {}
  }

  /** The response body that is compared. */
  lemma ResponseExactly(op: Json)
    ensures forall v :: ResponseBody(op, v) ==> ResponseSchema(op) == v
    ensures (forall v :: !ResponseBody(op, v)) ==> ResponseSchema(op) == Object(Empty)
  {
    var rest := ["200"] + (["content"] + (["application/json"] + (["schema"] + [])));
    assert ["responses"] + rest == ["responses", "200", "content", "application/json", "schema"];
    DigStep(op, "responses", rest);
    if Has(Dict(op), "responses") {
      var responses := Get(Dict(op), "responses").value;
      Dig4(responses, "200", "content", "application/json", "schema");
      forall v | Below4(responses, "200", "content", "application/json", "schema", v) ensures ResponseBody(op, v) {}
    }
  }

  // ---------- parameters ----------

  /** A query parameter of that name. */
  predicate IsQuery(param: Json, name: string) {
    && param.Object? && Get(param.fields, "in") == Some(String("query"))
    && Get(param.fields, "name") == Some(String(name))
  }

  /** The last of the query parameters of that name. */
  ghost predicate LastQuery(params: List, name: string, param: Json) {
    exists before, after :: params == ListConcat(before, Cons(param, after)) && IsQuery(param, name)
      && forall q :: Member(q, after) ==> !IsQuery(q, name)
  }

  ghost predicate Query(op: Json, name: string, param: Json) {
    op.Object? && exists params :: Get(op.fields, "parameters") == Some(Array(params)) && LastQuery(params, name, param)
  }

  ghost predicate HasQuery(op: Json, name: string) { exists param :: Query(op, name, param) }

  /** The last query parameter of that name, by recursion. */
  function FindQuery(params: List, name: string): Option<Json> {
    if params.Nil? then None
    else
      var later := FindQuery(params.tail, name);
      if later.Some? then later else if IsQuery(params.head, name) then Some(params.head) else None
  }

  lemma {:induction false} FoundLast(params: List, name: string)
    requires FindQuery(params, name).Some?
    ensures LastQuery(params, name, FindQuery(params, name).value)
  {
    var param := FindQuery(params, name).value;
    if FindQuery(params.tail, name).Some? {
      FoundLast(params.tail, name);
      var before, after :| params.tail == ListConcat(before, Cons(param, after)) && IsQuery(param, name)
        && forall q :: Member(q, after) ==> !IsQuery(q, name);
      assert params == ListConcat(Cons(params.head, before), Cons(param, after));
    } else {
      NoneFound(params.tail, name);
      assert params == ListConcat(Nil, Cons(param, params.tail));
    }
  }

  lemma {:induction false} NoneFound(params: List, name: string)
    ensures FindQuery(params, name).None? <==> forall q :: Member(q, params) ==> !IsQuery(q, name)
  {
    if params.Cons? {
      NoneFound(params.tail, name);
      assert Member(params.head, params) && forall q :: Member(q, params.tail) ==> Member(q, params);
    }
  }

  lemma {:induction false} FoundBehind(before: List, params: List, name: string)
    requires FindQuery(params, name).Some?
    ensures FindQuery(ListConcat(before, params), name) == FindQuery(params, name)
  {
    if before.Cons? { FoundBehind(before.tail, params, name); }
  }

  lemma LastQueryExactly(params: List, name: string, param: Json)
    ensures LastQuery(params, name, param) <==> FindQuery(params, name) == Some(param)
  {
    if FindQuery(params, name) == Some(param) { FoundLast(params, name); }
    if LastQuery(params, name, param) {
      var before, after :| params == ListConcat(before, Cons(param, after)) && IsQuery(param, name)
        && forall q :: Member(q, after) ==> !IsQuery(q, name);
      NoneFound(after, name);
      FoundBehind(before, Cons(param, after), name);
    }
  }

  lemma {:induction false} QueryParamsFind(acc: Fields, params: List, name: string)
    ensures Get(QueryParams(acc, params), name) ==
      if FindQuery(params, name).Some? then FindQuery(params, name) else Get(acc, name)
    decreases params
  {
    if params.Cons? {
      var p := Dict(params.head);
      var next := match (Get(p, "in"), Get(p, "name"))
        case (Some(String(i)), Some(String(n))) => if i == "query" then Put(acc, n, params.head) else acc
        case _ => acc;
      QueryParamsFind(next, params.tail, name);
      if Has(p, "name") && Get(p, "name").value.String? { GetPut(acc, Get(p, "name").value.s, params.head, name); }
    }
  }

  /** The parameters compared are the last query parameter of each name. */
  lemma ParamExactly(op: Json, name: string, param: Json)
    ensures Get(ParamsOf(op), name) == Some(param) <==> Query(op, name, param)
  {
    if op.Object? && Has(op.fields, "parameters") && Get(op.fields, "parameters").value.Array? {
      var params := Get(op.fields, "parameters").value.items;
      QueryParamsFind(Empty, params, name);
      LastQueryExactly(params, name, param);
    }
  }

  lemma HasParamExactly(op: Json, name: string)
    ensures Has(ParamsOf(op), name) <==> HasQuery(op, name)
  {
    if Has(ParamsOf(op), name) { ParamExactly(op, name, Get(ParamsOf(op), name).value); }
    if param :| Query(op, name, param) { ParamExactly(op, name, param); }
  }

  // ---------- operations ----------

  /** `spec.paths[path][verb]` is `op`. */
  ghost predicate Declares(spec: Json, path: string, verb: string, op: Json) {
    exists paths, verbs :: spec.Object? && Get(spec.fields, "paths") == Some(Object(paths))
      && Get(paths, path) == Some(Object(verbs)) && Get(verbs, verb) == Some(op)
  }

  lemma DeclaresExactly(spec: Json, path: string, verb: string, op: Json)
    ensures Declares(spec, path, verb, op) <==> Get(Verbs(spec, path), verb) == Some(op)
    ensures Declares(spec, path, verb, op) ==> Operation(spec, path, verb) == op
  {
    if Get(Verbs(spec, path), verb) == Some(op) {
      var paths := Paths(spec);
      assert Get(spec.fields, "paths") == Some(Object(paths)) && Get(paths, path) == Some(Object(Verbs(spec, path)));
    }
  }

  /** The Hadrian path of an OpenAI path is the one it is mapped to, or else the path behind `/api/v1`. */
  lemma HadrianPathExactly(policy: Policy, path: string)
    ensures path !in policy.mapping || policy.mapping[path] == "" ==> HadrianPath(policy, path) == "/api/v1" + path
    ensures path in policy.mapping && policy.mapping[path] != "" ==> HadrianPath(policy, path) == policy.mapping[path]
  {
  }

  /** The methods, and how violations and the documentation name them. */
  lemma VerbsExactly(verb: string)
    ensures verb in VERBS <==> verb in {"get", "post", "put", "patch", "delete"}
    ensures Upper("get") == "GET" && Upper("post") == "POST" && Upper("put") == "PUT"
    ensures Upper("patch") == "PATCH" && Upper("delete") == "DELETE"
  {
    assert VERBS[0] == "get" && VERBS[1] == "post" && VERBS[2] == "put" && VERBS[3] == "patch" && VERBS[4] == "delete";
    assert "get"[0] == 'g' && "post"[1] == 'o' && "put"[1] == 'u' && "patch"[1] == 'a' && "delete"[0] == 'd';
  }

  /** A path is checked when it is in scope and contains the filter, if there is one. */
  lemma InScopeExactly(policy: Policy, filter: Option<string>, path: string)
    ensures InScope(policy, filter, path) <==>
      policy.pathInScope(path) && (filter.None? || filter.value == "" || exists i :: Occurs(path, filter.value, i))
  {
    if filter.Some? { ContainsExactly(path, filter.value); }
  }

  lemma {:induction false} OutOfScopeExactly(policy: Policy, paths: Fields, path: string)
    ensures path in OutOfScope(policy, paths) <==> Has(paths, path) && !policy.pathInScope(path)
  {
    if paths.Field? { OutOfScopeExactly(policy, paths.rest, path); }
  }

  // ---------- which bodies are compared ----------

  /** A body worth comparing: a dict with something in it. */
  ghost predicate Worth(j: Json) { j.Object? && exists k :: Has(j.fields, k) }

  lemma WorthExactly(j: Json)
    ensures Worth(j) <==> NonEmpty(j)
  {
    if NonEmpty(j) { assert Has(j.fields, j.fields.key); }
  }

  /** The request bodies of a visited operation are compared as the resolvers give them, if both sides have one. */
  lemma RequestSeen(policy: Policy, s: Specs, v: Visit, o: Json, h: Json)
    requires VisitSighted(policy, s, v) && Implemented(policy, s, v.op)
    requires RequestBody(OpenaiSide(s, v.op), o) && RequestBody(HadrianSide(policy, s, v.op), h)
    ensures if Worth(o) && Worth(h)
      then v.seen.request.Some? && v.seen.request.value.ctx == v.op.path + " request"
        && Gives(s.openai, v.before.openai, o, v.between.openai, v.seen.request.value.o)
        && Gives(s.hadrian, v.before.hadrian, h, v.between.hadrian, v.seen.request.value.h)
      else v.seen.request.None? && v.between == v.before
  {
    RequestExactly(OpenaiSide(s, v.op));
    RequestExactly(HadrianSide(policy, s, v.op));
    WorthExactly(o);
    WorthExactly(h);
  }

  /** So are the response bodies, from the caches that the request left. */
  lemma ResponseSeen(policy: Policy, s: Specs, v: Visit, o: Json, h: Json)
    requires VisitSighted(policy, s, v) && Implemented(policy, s, v.op)
    requires ResponseBody(OpenaiSide(s, v.op), o) && ResponseBody(HadrianSide(policy, s, v.op), h)
    ensures if Worth(o) && Worth(h)
      then v.seen.response.Some? && v.seen.response.value.ctx == v.op.path + " response"
        && Gives(s.openai, v.between.openai, o, v.after.openai, v.seen.response.value.o)
        && Gives(s.hadrian, v.between.hadrian, h, v.after.hadrian, v.seen.response.value.h)
      else v.seen.response.None? && v.after == v.between
  {
    ResponseExactly(OpenaiSide(s, v.op));
    ResponseExactly(HadrianSide(policy, s, v.op));
    WorthExactly(o);
    WorthExactly(h);
  }

  /** A body that one side lacks is not compared. */
  lemma BothHaveRequests(policy: Policy, s: Specs, v: Visit)
    requires VisitSighted(policy, s, v) && v.seen.request.Some?
    ensures exists o :: RequestBody(OpenaiSide(s, v.op), o)
    ensures exists h :: RequestBody(HadrianSide(policy, s, v.op), h)
  {
    RequestExactly(OpenaiSide(s, v.op));
    RequestExactly(HadrianSide(policy, s, v.op));
  }

  lemma BothHaveResponses(policy: Policy, s: Specs, v: Visit)
    requires VisitSighted(policy, s, v) && v.seen.response.Some?
    ensures exists o :: ResponseBody(OpenaiSide(s, v.op), o)
    ensures exists h :: ResponseBody(HadrianSide(policy, s, v.op), h)
  {
    ResponseExactly(OpenaiSide(s, v.op));
    ResponseExactly(HadrianSide(policy, s, v.op));
  }

  // ---------- what is reported about an operation ----------

  /** A query parameter that only OpenAI has and that is not documented, or one that only Hadrian has and that is not
      marked. */
  ghost predicate ParamFault(documented: set<DocKey>, path: string, verb: string, o: Json, h: Json, v: Violation) {
    var name := v.key.field;
    || (HasQuery(o, name) && !HasQuery(h, name) && NotDocumented(documented, Place(path, verb, "param"), name, v))
    || (exists param :: Query(h, name, param) && !HasQuery(o, name) && !MarkedBy(param, "**Hadrian Extension:**")
          && v == Violation(UnmarkedExtension, DocKey(path, verb, "param", name)))
  }

  lemma ParamFaultsExact(policy: Policy, path: string, verb: string, o: Json, h: Json, v: Violation)
    ensures v in ParamViolations(policy, path, verb, o, h) <==>
      ParamFault(policy.documented, path, Upper(verb), o, h, v)
  {
    var place, name := Place(path, Upper(verb), "param"), v.key.field;
    ViolationTheorems.InMissing(policy.documented, place, ParamsOf(o), ParamsOf(h), v);
    ViolationTheorems.InExtension(place, ParamsOf(h), ParamsOf(h), ParamsOf(o), v);
    HasParamExactly(o, name);
    HasParamExactly(h, name);
    if Has(ParamsOf(h), name) {
      var param := Get(ParamsOf(h), name).value;
      ParamExactly(h, name, param);
      MarkedExactly(param);
    }
    forall param | Query(h, name, param) ensures Get(ParamsOf(h), name) == Some(param) { ParamExactly(h, name, param); }
  }

  /** Some position below the compared bodies is at fault. */
  ghost predicate BodyFault(documented: set<DocKey>, place: Place, p: Option<Position>, v: Violation) {
    p.Some? && FaultBelow(documented, place, p.value, v)
  }

  lemma BodyFaultsExact(policy: Policy, place: Place, p: Option<Position>, v: Violation)
    ensures v in BodyFound(policy, place, p) <==> BodyFault(policy.documented, place, p, v)
  {
    if p.Some? { FaultsExact(policy.documented, place, p.value, v); }
  }

  /** An operation that Hadrian does not declare is one violation; of any other, the violations are those of its
      request, of its response and of its query parameters. */
  lemma OpFaultsExact(policy: Policy, s: Specs, op: Op, seen: Seen, v: Violation)
    ensures v in OpFound(policy, s, op, seen) <==>
      var verb := Upper(op.verb);
      if forall x :: !Declares(s.hadrian, HadrianPath(policy, op.path), op.verb, x)
      then v == Violation(MissingEndpoint, DocKey(op.path, verb, "", ""))
      else
        || BodyFault(policy.documented, Place(op.path, verb, "request"), seen.request, v)
        || BodyFault(policy.documented, Place(op.path, verb, "response"), seen.response, v)
        || ParamFault(policy.documented, op.path, verb, OpenaiSide(s, op), HadrianSide(policy, s, op), v)
  {
    ImplementedExactly(policy, s, op);
    BodyFaultsExact(policy, Place(op.path, Upper(op.verb), "request"), seen.request, v);
    BodyFaultsExact(policy, Place(op.path, Upper(op.verb), "response"), seen.response, v);
    ParamFaultsExact(policy, op.path, op.verb, OpenaiSide(s, op), HadrianSide(policy, s, op), v);
  }

  lemma ImplementedExactly(policy: Policy, s: Specs, op: Op)
    ensures Implemented(policy, s, op) <==> exists x :: Declares(s.hadrian, HadrianPath(policy, op.path), op.verb, x)
  {
    var path := HadrianPath(policy, op.path);
    if Implemented(policy, s, op) {
      DeclaresExactly(s.hadrian, path, op.verb, Get(Verbs(s.hadrian, path), op.verb).value);
    }
    if x :| Declares(s.hadrian, path, op.verb, x) { DeclaresExactly(s.hadrian, path, op.verb, x); }
  }

  // ---------- which operations count as conformant ----------

  /** The compared bodies look the same at every position reached. */
  ghost predicate BodyAlike(repr: Json -> string, p: Option<Position>) {
    p.Some? ==> AlikeBelow(repr, p.value)
  }

  lemma {:induction false} ParamDiffsExact(path: string, rest: Fields, other: Fields, kind: DiffKind)
    ensures ParamDiffs(path, rest, other, kind) == [] <==> forall name :: Has(rest, name) ==> Has(other, name)
  {
    if rest.Field? {
      ParamDiffsExact(path, rest.rest, other, kind);
      assert Has(rest, rest.key) && forall name :: Has(rest, name) <==> name == rest.key || Has(rest.rest, name);
    }
  }

  ghost predicate SameQueries(o: Json, h: Json) { forall name :: HasQuery(o, name) <==> HasQuery(h, name) }

  predicate Listed(e: EndpointDiff) { e.missing || HasDiffs(e) }

  /** An operation is not listed with differences exactly when Hadrian declares it, its compared bodies look the same
      at every position reached, and both sides have the same query parameters. */
  lemma ListedExactly(policy: Policy, s: Specs, op: Op, seen: Seen)
    ensures !Listed(OpDiff(policy, s, op, seen)) <==>
      && (exists x :: Declares(s.hadrian, HadrianPath(policy, op.path), op.verb, x))
      && BodyAlike(policy.repr, seen.request) && BodyAlike(policy.repr, seen.response)
      && SameQueries(OpenaiSide(s, op), HadrianSide(policy, s, op))
  {
    ImplementedExactly(policy, s, op);
    BodyAlikeExactly(policy, seen.request);
    BodyAlikeExactly(policy, seen.response);
    ParamsAlikeExactly(op.path, OpenaiSide(s, op), HadrianSide(policy, s, op));
  }

  lemma BodyAlikeExactly(policy: Policy, p: Option<Position>)
    ensures BodyDiffs(policy, p) == [] <==> BodyAlike(policy.repr, p)
  {
    if p.Some? { NoDiffsExactly(policy.repr, p.value); }
  }

  lemma ParamsAlikeExactly(path: string, o: Json, h: Json)
    ensures ParamDiffs(path, ParamsOf(o), ParamsOf(h), MissingInHadrian)
            + ParamDiffs(path, ParamsOf(h), ParamsOf(o), HadrianExtension) == [] <==>
      SameQueries(o, h)
  {
    ParamDiffsExact(path, ParamsOf(o), ParamsOf(h), MissingInHadrian);
    ParamDiffsExact(path, ParamsOf(h), ParamsOf(o), HadrianExtension);
    forall name ensures Has(ParamsOf(o), name) <==> HasQuery(o, name) { HasParamExactly(o, name); }
    forall name ensures Has(ParamsOf(h), name) <==> HasQuery(h, name) { HasParamExactly(h, name); }
  }

  /** The indices of the visits that are not listed. */
  function Unlisted(vs: seq<Visit>): set<int> {
    set i | 0 <= i < |vs| && !Listed(vs[i].entry.diff)
  }

  lemma BookedLast(r: Report, init: seq<Visit>, last: Visit)
    ensures Booked(r, init + [last]) == AddTo(Booked(r, init), last.entry.diff, last.entry.violations)
  {
    BookedConcat(r, init, [last]);
    var before := Booked(r, init);
    assert [last][1..] == [];
    assert Booked(before, [last]) == Booked(AddTo(before, last.entry.diff, last.entry.violations), [last][1..]);
  }

  lemma UnlistedLast(init: seq<Visit>, last: Visit)
    ensures Unlisted(init + [last]) == Unlisted(init) + if Listed(last.entry.diff) then {} else {|init|}
    ensures |Unlisted(init + [last])| == |Unlisted(init)| + if Listed(last.entry.diff) then 0 else 1
  {
    var vs := init + [last];
    assert forall i :: 0 <= i < |init| ==> vs[i] == init[i];
    assert |init| !in Unlisted(init);
  }

  /** A report counts every visit as checked, and those that are not listed as conformant. */
  lemma {:induction false} BookedCounts(r: Report, vs: seq<Visit>)
    ensures Booked(r, vs).checked == r.checked + |vs|
    ensures Booked(r, vs).conformant == r.conformant + |Unlisted(vs)|
    decreases |vs|
  {
    if vs == [] {
      assert Unlisted(vs) == {};
    } else {
      var n := |vs| - 1;
      assert vs == vs[..n] + [vs[n]];
      BookedCounts(r, vs[..n]);
      BookedLast(r, vs[..n], vs[n]);
      UnlistedLast(vs[..n], vs[n]);
    }
  }

  /** It lists exactly the other visits. */
  lemma {:induction false} BookedLists(r: Report, vs: seq<Visit>, e: EndpointDiff)
    ensures e in Booked(r, vs).withDiffs <==>
      e in r.withDiffs || exists i :: 0 <= i < |vs| && vs[i].entry.diff == e && Listed(e)
    decreases |vs|
  {
    if vs != [] {
      var n := |vs| - 1;
      var init := vs[..n];
      assert vs == init + [vs[n]];
      BookedLists(r, init, e);
      BookedLast(r, init, vs[n]);
      if i :| 0 <= i < |init| && init[i].entry.diff == e && Listed(e) { assert vs[i] == init[i]; }
      if i :| 0 <= i < |vs| && vs[i].entry.diff == e && Listed(e) && i < n { assert vs[i] == init[i]; }
    }
  }
}
