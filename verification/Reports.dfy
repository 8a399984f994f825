/** What a conformance run reports, given the resolved bodies that each operation is compared by; and that
    the report is clean exactly when every operation conforms. */
module Reports {
  import opened Basics
  import opened JsonValues
  import opened SchemaShape
  import opened Resolver
  import opened ResolverRuns
  import opened Conformance
  import opened GateTheorems
  import opened ComparisonLaws

  /** The tables of the script: what is documented, in scope and mapped, and `str`. */
  datatype Policy = Policy(documented: set<DocKey>,
                           repr: Json -> string,
                           pathInScope: string -> bool,
                           verbInScope: (string, string) -> bool,
                           mapping: map<string, string>)

  const VERBS: seq<string> := ["get", "post", "put", "patch", "delete"]

  function Upper(verb: string): string {
    if verb == "get" then "GET" else if verb == "post" then "POST" else if verb == "put" then "PUT"
    else if verb == "patch" then "PATCH" else if verb == "delete" then "DELETE" else verb
  }

  function HadrianPath(policy: Policy, path: string): string {
    if path in policy.mapping && policy.mapping[path] != "" then policy.mapping[path] else "/api/v1" + path
  }

  /** `j.get(k1, {}).get(k2, {})...` */
  function Dig(j: Json, keys: seq<string>): Json
    decreases |keys|
  {
    if keys == [] then j
    else match Get(Dict(j), keys[0])
      case Some(v) => Dig(v, keys[1..])
      case None => Object(Empty)
  }

  function RequestSchema(op: Json): Json { Dig(op, ["requestBody", "content", "application/json", "schema"]) }

  function ResponseSchema(op: Json): Json { Dig(op, ["responses", "200", "content", "application/json", "schema"]) }

  predicate NonEmpty(j: Json) { j.Object? && j.fields.Field? }

  /** `{p["name"]: p for p in parameters if p["in"] == "query"}` */
  function QueryParams(acc: Fields, params: List): Fields
    decreases params
  {
    if params.Nil? then acc
    else
      var p := Dict(params.head);
      QueryParams(
        match (Get(p, "in"), Get(p, "name"))
          case (Some(String(i)), Some(String(n))) => if i == "query" then Put(acc, n, params.head) else acc
          case _ => acc,
        params.tail)
  }

  function ParamsOf(op: Json): Fields {
    match Get(Dict(op), "parameters") case Some(Array(l)) => QueryParams(Empty, l) case _ => Empty
  }

  function ParamDiffs(path: string, rest: Fields, other: Fields, kind: DiffKind): seq<SchemaDiff> {
    if rest.Empty? then []
    else
      (if Has(other, rest.key) then [] else [SchemaDiff(path + " params", rest.key, kind, None, None)])
      + ParamDiffs(path, rest.rest, other, kind)
  }

  // ---------- one endpoint ----------

  datatype EndpointDiff = EndpointDiff(path: string, verb: string, request: seq<SchemaDiff>, response: seq<SchemaDiff>,
                                       params: seq<SchemaDiff>, missing: bool)

  predicate HasDiffs(e: EndpointDiff) { e.request != [] || e.response != [] || e.params != [] }

  /** The two specifications with their rankings. */
  datatype Specs = Specs(openai: Json, hadrian: Json, openaiRank: Ranking, hadrianRank: Ranking)

  // ---------- operations ----------

  datatype Op = Op(path: string, verb: string)

  function Paths(spec: Json): Fields { GetDict(Dict(spec), "paths") }

  function Verbs(spec: Json, path: string): Fields { GetDict(Paths(spec), path) }

  function Operation(spec: Json, path: string, verb: string): Json {
    match Get(Verbs(spec, path), verb) case Some(op) => op case None => Object(Empty)
  }

  /** An operation as each side declares it. */
  function OpenaiSide(s: Specs, op: Op): Json { Operation(s.openai, op.path, op.verb) }

  function HadrianSide(policy: Policy, s: Specs, op: Op): Json {
    Operation(s.hadrian, HadrianPath(policy, op.path), op.verb)
  }

  predicate InScope(policy: Policy, filter: Option<string>, path: string) {
    policy.pathInScope(path) && (filter.Some? && filter.value != "" ==> Contains(path, filter.value))
  }

  predicate Checked(policy: Policy, s: Specs, op: Op) {
    Has(Verbs(s.openai, op.path), op.verb) && policy.verbInScope(op.path, op.verb)
  }

  predicate Implemented(policy: Policy, s: Specs, op: Op) {
    Has(Verbs(s.hadrian, HadrianPath(policy, op.path)), op.verb)
  }

  /** The operations of a path that are checked, in order. */
  function PathOps(policy: Policy, s: Specs, path: string, verbs: seq<string>): seq<Op>
    decreases |verbs|
  {
    if verbs == [] then []
    else
      (if Checked(policy, s, Op(path, verbs[0])) then [Op(path, verbs[0])] else [])
      + PathOps(policy, s, path, verbs[1..])
  }

  function AllOps(policy: Policy, s: Specs, filter: Option<string>, paths: Fields): seq<Op>
    decreases paths
  {
    if paths.Empty? then []
    else
      (if InScope(policy, filter, paths.key) then PathOps(policy, s, paths.key, VERBS) else [])
      + AllOps(policy, s, filter, paths.rest)
  }

  lemma {:induction false} PathOpsMember(policy: Policy, s: Specs, path: string, verbs: seq<string>, op: Op)
    ensures op in PathOps(policy, s, path, verbs) <==> op.path == path && op.verb in verbs && Checked(policy, s, op)
    decreases |verbs|
  {
    if verbs != [] {
      PathOpsMember(policy, s, path, verbs[1..], op);
      assert op.verb in verbs <==> op.verb == verbs[0] || op.verb in verbs[1..];
    }
  }

  /** The operations checked are exactly those in scope. */
  lemma {:induction false} AllOpsMember(policy: Policy, s: Specs, filter: Option<string>, paths: Fields, op: Op)
    ensures op in AllOps(policy, s, filter, paths) <==>
      Has(paths, op.path) && InScope(policy, filter, op.path) && op.verb in VERBS && Checked(policy, s, op)
    decreases paths
  {
    if paths.Field? {
      AllOpsMember(policy, s, filter, paths.rest, op);
      PathOpsMember(policy, s, paths.key, VERBS, op);
    }
  }

  lemma {:induction false} PathOpsSnoc(policy: Policy, s: Specs, path: string, verbs: seq<string>)
    requires verbs != []
    ensures var n := |verbs| - 1;
      PathOps(policy, s, path, verbs)
      == PathOps(policy, s, path, verbs[..n])
         + if Checked(policy, s, Op(path, verbs[n])) then [Op(path, verbs[n])] else []
    decreases |verbs|
  {
    var n := |verbs| - 1;
    if n == 0 {
      assert verbs[1..] == [] && verbs[..0] == [];
    } else {
      PathOpsSnoc(policy, s, path, verbs[1..]);
      assert verbs[..n][1..] == verbs[1..][..n - 1] && verbs[..n][0] == verbs[0] && verbs[1..][n - 1] == verbs[n];
    }
  }

  // ---------- what an operation is compared by ----------

  /** The pairs of resolved bodies that were compared; none when one side has no such body. */
  datatype Seen = Seen(request: Option<Position>, response: Option<Position>)

  const NOTHING_SEEN := Seen(None, None)

  /** The caches of the two resolvers. */
  datatype Caches = Caches(openai: Cache, hadrian: Cache)

  /** From the caches `before`, resolving the bodies `o` and `h` gives the pair `p` they are compared by, and leaves
      the caches `after`. */
  ghost predicate Sighted(s: Specs, ctx: string, o: Json, h: Json, before: Caches, p: Option<Position>, after: Caches) {
    if NonEmpty(o) && NonEmpty(h)
    then p.Some? && p.value.ctx == ctx
      && Gives(s.openai, before.openai, o, after.openai, p.value.o)
      && Gives(s.hadrian, before.hadrian, h, after.hadrian, p.value.h)
    else p == None && after == before
  }

  /** A checked operation: the caches before it, between its request and its response, and after it; what it was
      compared by; and what was reported. */
  datatype Visit = Visit(op: Op, before: Caches, between: Caches, after: Caches, seen: Seen, entry: Entry)

  /** What a visit saw is what the resolvers give for the operation from the caches before it. */
  ghost predicate VisitSighted(policy: Policy, s: Specs, v: Visit) {
    var oOp, hOp := OpenaiSide(s, v.op), HadrianSide(policy, s, v.op);
    if Implemented(policy, s, v.op)
    then Sighted(s, v.op.path + " request", RequestSchema(oOp), RequestSchema(hOp), v.before, v.seen.request, v.between)
      && Sighted(s, v.op.path + " response", ResponseSchema(oOp), ResponseSchema(hOp), v.between, v.seen.response,
        v.after)
    else v.seen == NOTHING_SEEN && v.between == v.before && v.after == v.before
  }

  // ---------- violations and differences of an operation ----------

  function BodyFound(policy: Policy, place: Place, p: Option<Position>): seq<Violation> {
    if p.Some? then Found(policy.documented, place, p.value) else []
  }

  function BodyDiffs(policy: Policy, p: Option<Position>): seq<SchemaDiff> {
    if p.Some? then Diffs(policy.repr, p.value.ctx, p.value.o, p.value.h) else []
  }

  function ParamViolations(policy: Policy, path: string, verb: string, oOp: Json, hOp: Json): seq<Violation> {
    var place := Place(path, Upper(verb), "param");
    MissingViolations(policy.documented, place, ParamsOf(oOp), ParamsOf(hOp))
    + ExtensionViolations(place, ParamsOf(hOp), ParamsOf(hOp), ParamsOf(oOp))
  }

  function EndpointFound(policy: Policy, op: Op, oOp: Json, hOp: Json, seen: Seen): seq<Violation> {
    BodyFound(policy, Place(op.path, Upper(op.verb), "request"), seen.request)
    + BodyFound(policy, Place(op.path, Upper(op.verb), "response"), seen.response)
    + ParamViolations(policy, op.path, op.verb, oOp, hOp)
  }

  function EndpointOf(policy: Policy, op: Op, oOp: Json, hOp: Json, seen: Seen): EndpointDiff {
    EndpointDiff(op.path, Upper(op.verb), BodyDiffs(policy, seen.request), BodyDiffs(policy, seen.response),
      ParamDiffs(op.path, ParamsOf(oOp), ParamsOf(hOp), MissingInHadrian)
        + ParamDiffs(op.path, ParamsOf(hOp), ParamsOf(oOp), HadrianExtension),
      false)
  }

  function OpFound(policy: Policy, s: Specs, op: Op, seen: Seen): seq<Violation> {
    if !Implemented(policy, s, op) then [Violation(MissingEndpoint, DocKey(op.path, Upper(op.verb), "", ""))]
    else EndpointFound(policy, op, OpenaiSide(s, op), HadrianSide(policy, s, op), seen)
  }

  function OpDiff(policy: Policy, s: Specs, op: Op, seen: Seen): EndpointDiff {
    if !Implemented(policy, s, op) then EndpointDiff(op.path, Upper(op.verb), [], [], [], true)
    else EndpointOf(policy, op, OpenaiSide(s, op), HadrianSide(policy, s, op), seen)
  }

  // ---------- the whole report ----------

  datatype Report = Report(checked: nat, conformant: nat, withDiffs: seq<EndpointDiff>,
                           outOfScope: seq<string>, violations: seq<Violation>)

  const EMPTY_REPORT := Report(0, 0, [], [], [])

  /** Every checked operation is either fully conformant or listed with its differences,
      and a report without differences has no violations. */
  predicate Balanced(r: Report) {
    r.checked == r.conformant + |r.withDiffs| && (r.withDiffs == [] ==> r.violations == [])
  }

  /** An operation counts as conformant, or is listed with its differences. */
  function AddTo(r: Report, e: EndpointDiff, violations: seq<Violation>): Report {
    var listed := e.missing || HasDiffs(e);
    r.(checked := r.checked + 1, violations := r.violations + violations,
       conformant := r.conformant + (if listed then 0 else 1), withDiffs := r.withDiffs + (if listed then [e] else []))
  }

  /** What is reported about one operation. */
  datatype Entry = Entry(diff: EndpointDiff, violations: seq<Violation>)

  function EntryOf(policy: Policy, s: Specs, op: Op, seen: Seen): Entry {
    Entry(OpDiff(policy, s, op, seen), OpFound(policy, s, op, seen))
  }

  /** The report after more visits. */
  function Booked(r: Report, vs: seq<Visit>): Report
    decreases |vs|
  {
    if vs == [] then r else Booked(AddTo(r, vs[0].entry.diff, vs[0].entry.violations), vs[1..])
  }

  function OutOfScope(policy: Policy, paths: Fields): seq<string> {
    if paths.Empty? then []
    else (if policy.pathInScope(paths.key) then [] else [paths.key]) + OutOfScope(policy, paths.rest)
  }

  lemma {:induction false} BookedConcat(r: Report, a: seq<Visit>, b: seq<Visit>)
    ensures Booked(r, a + b) == Booked(Booked(r, a), b)
    decreases |a|
  {
    if a == [] {
      assert a + b == b;
    } else {
      assert (a + b)[0] == a[0] && (a + b)[1..] == a[1..] + b;
      BookedConcat(AddTo(r, a[0].entry.diff, a[0].entry.violations), a[1..], b);
    }
  }

  lemma {:induction false} BookedScope(r: Report, vs: seq<Visit>, scope: seq<string>)
    ensures Booked(r.(outOfScope := scope), vs) == Booked(r, vs).(outOfScope := scope)
    decreases |vs|
  {
    if vs != [] { BookedScope(AddTo(r, vs[0].entry.diff, vs[0].entry.violations), vs[1..], scope); }
  }

  function Collected(vs: seq<Visit>): seq<Violation> {
    if vs == [] then [] else vs[0].entry.violations + Collected(vs[1..])
  }

  /** The violations of a report are those of its visits, in order. */
  lemma {:induction false} BookedFound(r: Report, vs: seq<Visit>)
    ensures Booked(r, vs).violations == r.violations + Collected(vs)
    decreases |vs|
  {
    if vs == [] {
      assert r.violations + [] == r.violations;
    } else {
      var first := vs[0].entry.violations;
      BookedFound(AddTo(r, vs[0].entry.diff, first), vs[1..]);
      assert r.violations + first + Collected(vs[1..]) == r.violations + (first + Collected(vs[1..]));
    }
  }

  lemma {:induction false} CollectedEmpty(vs: seq<Visit>)
    ensures Collected(vs) == [] <==> forall i :: 0 <= i < |vs| ==> vs[i].entry.violations == []
  {
    if vs != [] {
      var rest := vs[1..];
      CollectedEmpty(rest);
      if forall i :: 0 <= i < |vs| ==> vs[i].entry.violations == [] {
        forall i | 0 <= i < |rest| ensures rest[i].entry.violations == [] { assert rest[i] == vs[i + 1]; }
      }
      if Collected(vs) == [] {
        forall i | 0 <= i < |vs| ensures vs[i].entry.violations == [] {
          if i > 0 { assert rest[i - 1] == vs[i]; }
        }
      }
    }
  }

  // ---------- runs ----------

  function OpsOf(vs: seq<Visit>): seq<Op> { seq(|vs|, i requires 0 <= i < |vs| => vs[i].op) }

  /** Each visit starts with the caches that the one before it left. */
  ghost predicate Linked(start: Caches, vs: seq<Visit>, end: Caches)
    decreases |vs|
  {
    if vs == [] then start == end else vs[0].before == start && Linked(vs[0].after, vs[1..], end)
  }

  lemma {:induction false} LinkedConcat(start: Caches, a: seq<Visit>, middle: Caches, b: seq<Visit>, end: Caches)
    requires Linked(start, a, middle) && Linked(middle, b, end)
    ensures Linked(start, a + b, end)
    decreases |a|
  {
    if a == [] {
      assert a + b == b;
    } else {
      assert (a + b)[0] == a[0] && (a + b)[1..] == a[1..] + b;
      LinkedConcat(a[0].after, a[1..], middle, b, end);
    }
  }

  /** A visit is what the resolvers and the comparison make of its operation. */
  ghost predicate Made(policy: Policy, s: Specs, v: Visit) {
    VisitSighted(policy, s, v) && v.entry == EntryOf(policy, s, v.op, v.seen)
  }

  ghost predicate AllMade(policy: Policy, s: Specs, vs: seq<Visit>) {
    forall i :: 0 <= i < |vs| ==> Made(policy, s, vs[i])
  }

  /** A run over `ops` from the caches `start` to the caches `end`. */
  ghost predicate Runs(policy: Policy, s: Specs, ops: seq<Op>, start: Caches, vs: seq<Visit>, end: Caches) {
    OpsOf(vs) == ops && Linked(start, vs, end) && AllMade(policy, s, vs)
  }

  lemma SameSight(s: Specs, ctx: string, o: Json, h: Json, before: Caches, p: Option<Position>, c: Caches,
    q: Option<Position>, d: Caches)
    requires Sighted(s, ctx, o, h, before, p, c) && Sighted(s, ctx, o, h, before, q, d)
    ensures p == q && c == d
  {
    if NonEmpty(o) && NonEmpty(h) {
      GivesOne(s.openai, before.openai, o, c.openai, p.value.o, d.openai, q.value.o);
      GivesOne(s.hadrian, before.hadrian, h, c.hadrian, p.value.h, d.hadrian, q.value.h);
    }
  }

  /** The same operation from the same caches sees the same. */
  lemma SameVisit(a: Policy, b: Policy, s: Specs, v: Visit, w: Visit)
    requires a.mapping == b.mapping && v.op == w.op && v.before == w.before
    requires VisitSighted(a, s, v) && VisitSighted(b, s, w)
    ensures v.between == w.between && v.after == w.after && v.seen == w.seen
  {
    if Implemented(a, s, v.op) {
      var op := v.op;
      var oOp, hOp := OpenaiSide(s, op), HadrianSide(a, s, op);
      SameSight(s, op.path + " request", RequestSchema(oOp), RequestSchema(hOp),
        v.before, v.seen.request, v.between, w.seen.request, w.between);
      SameSight(s, op.path + " response", ResponseSchema(oOp), ResponseSchema(hOp),
        v.between, v.seen.response, v.after, w.seen.response, w.after);
    }
  }

  /** What the visits of a run see is determined by the two specifications, the operations and the caches it starts
      from: with or without cycles, and whatever is documented. */
  lemma {:induction false} RunDetermined(a: Policy, b: Policy, s: Specs, ops: seq<Op>, start: Caches,
                                         vs: seq<Visit>, end: Caches, ws: seq<Visit>, stop: Caches)
    requires a.mapping == b.mapping && Runs(a, s, ops, start, vs, end) && Runs(b, s, ops, start, ws, stop)
    ensures end == stop && |vs| == |ws| == |ops|
    ensures forall i :: 0 <= i < |vs| ==> vs[i].op == ws[i].op && vs[i].seen == ws[i].seen
    decreases |ops|
  {
    assert |vs| == |ops| && |ws| == |ops|;
    if ops != [] {
      assert OpsOf(vs)[0] == vs[0].op && OpsOf(ws)[0] == ws[0].op;
      assert Made(a, s, vs[0]) && Made(b, s, ws[0]);
      SameVisit(a, b, s, vs[0], ws[0]);
      RunTail(a, s, ops, start, vs, end);
      RunTail(b, s, ops, start, ws, stop);
      RunDetermined(a, b, s, ops[1..], vs[0].after, vs[1..], end, ws[1..], stop);
      forall i | 0 <= i < |vs| ensures vs[i].op == ws[i].op && vs[i].seen == ws[i].seen {
        if i > 0 { assert vs[i] == vs[1..][i - 1] && ws[i] == ws[1..][i - 1]; }
      }
    }
  }

  lemma {:induction false} SameBooks(r: Report, vs: seq<Visit>, ws: seq<Visit>)
    requires |vs| == |ws| && forall i :: 0 <= i < |vs| ==> vs[i].entry == ws[i].entry
    ensures Booked(r, vs) == Booked(r, ws)
    decreases |vs|
  {
    if vs != [] {
      forall i | 0 <= i < |vs[1..]| ensures vs[1..][i].entry == ws[1..][i].entry {
        assert vs[1..][i] == vs[i + 1] && ws[1..][i] == ws[i + 1];
      }
      SameBooks(AddTo(r, vs[0].entry.diff, vs[0].entry.violations), vs[1..], ws[1..]);
    }
  }

  /** So is the report. */
  lemma ReportDetermined(policy: Policy, s: Specs, ops: seq<Op>, start: Caches, vs: seq<Visit>, end: Caches,
                         ws: seq<Visit>, stop: Caches, r: Report)
    requires Runs(policy, s, ops, start, vs, end) && Runs(policy, s, ops, start, ws, stop)
    ensures Booked(r, vs) == Booked(r, ws)
  {
    RunDetermined(policy, policy, s, ops, start, vs, end, ws, stop);
    forall i | 0 <= i < |vs| ensures vs[i].entry == ws[i].entry {
      assert Made(policy, s, vs[i]) && Made(policy, s, ws[i]);
    }
    SameBooks(r, vs, ws);
  }

  lemma RunTail(policy: Policy, s: Specs, ops: seq<Op>, start: Caches, vs: seq<Visit>, end: Caches)
    requires Runs(policy, s, ops, start, vs, end) && vs != []
    ensures Runs(policy, s, ops[1..], vs[0].after, vs[1..], end)
  {
    var rest := vs[1..];
    assert OpsOf(rest) == OpsOf(vs)[1..];
    forall i | 0 <= i < |rest| ensures Made(policy, s, rest[i]) { assert rest[i] == vs[i + 1]; }
  }

  // ---------- what a clean report means ----------

  ghost predicate BodyConforms(policy: Policy, place: Place, p: Option<Position>) {
    p.Some? ==> Conforms(policy.documented, place, p.value)
  }

  ghost predicate ParamsConform(policy: Policy, path: string, verb: string, oOp: Json, hOp: Json) {
    && (forall p :: Has(ParamsOf(oOp), p) && !Has(ParamsOf(hOp), p) ==>
          DocKey(path, Upper(verb), "param", p) in policy.documented)
    && (forall p :: Has(ParamsOf(hOp), p) && !Has(ParamsOf(oOp), p) ==> Marked(Get(ParamsOf(hOp), p).value))
  }

  /** The operation exists, and at every position reached in its bodies and for its parameters what differs is
      documented or marked. */
  ghost predicate OpConforms(policy: Policy, s: Specs, op: Op, seen: Seen) {
    && Implemented(policy, s, op)
    && BodyConforms(policy, Place(op.path, Upper(op.verb), "request"), seen.request)
    && BodyConforms(policy, Place(op.path, Upper(op.verb), "response"), seen.response)
    && ParamsConform(policy, op.path, op.verb, OpenaiSide(s, op), HadrianSide(policy, s, op))
  }

  lemma BodyExact(policy: Policy, place: Place, p: Option<Position>)
    ensures BodyFound(policy, place, p) == [] <==> BodyConforms(policy, place, p)
  {
    if p.Some? { ViolationsExact(policy.documented, place, p.value); }
  }

  lemma ParamsExact(policy: Policy, path: string, verb: string, oOp: Json, hOp: Json)
    ensures ParamViolations(policy, path, verb, oOp, hOp) == [] <==> ParamsConform(policy, path, verb, oOp, hOp)
  {
    var place := Place(path, Upper(verb), "param");
    MissingEmpty(policy.documented, place, ParamsOf(oOp), ParamsOf(hOp));
    ExtensionEmpty(place, ParamsOf(hOp), ParamsOf(hOp), ParamsOf(oOp));
    assert forall p :: At(place, p) == DocKey(path, Upper(verb), "param", p);
  }

  lemma OpExact(policy: Policy, s: Specs, op: Op, seen: Seen)
    ensures OpFound(policy, s, op, seen) == [] <==> OpConforms(policy, s, op, seen)
  {
    BodyExact(policy, Place(op.path, Upper(op.verb), "request"), seen.request);
    BodyExact(policy, Place(op.path, Upper(op.verb), "response"), seen.response);
    ParamsExact(policy, op.path, op.verb, OpenaiSide(s, op), HadrianSide(policy, s, op));
  }

  ghost predicate AllConform(policy: Policy, s: Specs, vs: seq<Visit>) {
    forall i :: 0 <= i < |vs| ==> OpConforms(policy, s, vs[i].op, vs[i].seen)
  }

  /** No violation is found exactly when every operation conforms by what it was compared by: with or without cycles
      in the specifications. */
  lemma GateExact(policy: Policy, s: Specs, vs: seq<Visit>)
    requires AllMade(policy, s, vs)
    ensures Collected(vs) == [] <==> AllConform(policy, s, vs)
  {
    CollectedEmpty(vs);
    forall i | 0 <= i < |vs| ensures vs[i].entry.violations == [] <==> OpConforms(policy, s, vs[i].op, vs[i].seen) {
      assert Made(policy, s, vs[i]);
      OpExact(policy, s, vs[i].op, vs[i].seen);
    }
  }

  /** The operations in scope, in order. */
  function ScopeOps(policy: Policy, s: Specs, filter: Option<string>): seq<Op> {
    AllOps(policy, s, filter, Paths(s.openai))
  }

  /** Every operation in scope exists and conforms by what the resolvers give for it, starting from the caches
      `start`. */
  ghost predicate GateOpenFrom(policy: Policy, s: Specs, filter: Option<string>, start: Caches) {
    exists vs, end :: Runs(policy, s, ScopeOps(policy, s, filter), start, vs, end) && AllConform(policy, s, vs)
  }

  /** The gate says the same about every run from the same caches. */
  lemma GateDetermined(policy: Policy, s: Specs, filter: Option<string>, start: Caches, vs: seq<Visit>, end: Caches)
    requires Runs(policy, s, ScopeOps(policy, s, filter), start, vs, end)
    ensures GateOpenFrom(policy, s, filter, start) <==> AllConform(policy, s, vs)
  {
    if GateOpenFrom(policy, s, filter, start) {
      var ws: seq<Visit>, stop: Caches :| Runs(policy, s, ScopeOps(policy, s, filter), start, ws, stop)
        && AllConform(policy, s, ws);
      RunDetermined(policy, policy, s, ScopeOps(policy, s, filter), start, vs, end, ws, stop);
      forall i | 0 <= i < |vs| ensures OpConforms(policy, s, vs[i].op, vs[i].seen) {
        assert OpConforms(policy, s, ws[i].op, ws[i].seen);
      }
    }
  }

  // ---------- specifications without cycles ----------

  ghost predicate BothAcyclic(s: Specs) {
    Acyclic(s.openai, s.openaiRank) && Acyclic(s.hadrian, s.hadrianRank)
  }

  /** The body schemas of an operation are sound. */
  predicate OpSound(rank: Ranking, op: Json) {
    Sound(rank, RequestSchema(op)) && Sound(rank, ResponseSchema(op))
  }

  ghost predicate AllSound(spec: Json, rank: Ranking) {
    forall path, verb :: OpSound(rank, Operation(spec, path, verb))
  }

  ghost predicate SpecsSound(s: Specs) { AllSound(s.openai, s.openaiRank) && AllSound(s.hadrian, s.hadrianRank) }

  /** Two bodies as the uncached resolver resolves them. */
  ghost function PlainBodies(s: Specs, ctx: string, o: Json, h: Json): Option<Position>
    requires BothAcyclic(s) && Sound(s.openaiRank, o) && Sound(s.hadrianRank, h)
  {
    if NonEmpty(o) && NonEmpty(h)
    then Some(Position(ctx, Plain(s.openai, s.openaiRank, o), Plain(s.hadrian, s.hadrianRank, h))) else None
  }

  ghost function PlainSeen(policy: Policy, s: Specs, op: Op): Seen
    requires BothAcyclic(s) && SpecsSound(s)
  {
    var oOp, hOp := OpenaiSide(s, op), HadrianSide(policy, s, op);
    if Implemented(policy, s, op)
    then Seen(PlainBodies(s, op.path + " request", RequestSchema(oOp), RequestSchema(hOp)),
              PlainBodies(s, op.path + " response", ResponseSchema(oOp), ResponseSchema(hOp)))
    else NOTHING_SEEN
  }

  ghost predicate AllPlain(policy: Policy, s: Specs, vs: seq<Visit>)
    requires BothAcyclic(s) && SpecsSound(s)
  {
    forall i :: 0 <= i < |vs| ==> vs[i].seen == PlainSeen(policy, s, vs[i].op)
  }

  /** Every in-scope operation of the OpenAI specification exists and conforms. */
  ghost predicate GateOpen(policy: Policy, s: Specs, filter: Option<string>)
    requires BothAcyclic(s) && SpecsSound(s)
  {
    forall op: Op ::
      Has(Paths(s.openai), op.path) && InScope(policy, filter, op.path) && op.verb in VERBS
        && Checked(policy, s, op) ==>
        OpConforms(policy, s, op, PlainSeen(policy, s, op))
  }

  lemma PlainGateOpens(policy: Policy, s: Specs, filter: Option<string>, vs: seq<Visit>)
    requires BothAcyclic(s) && SpecsSound(s) && OpsOf(vs) == ScopeOps(policy, s, filter) && AllPlain(policy, s, vs)
    requires AllConform(policy, s, vs)
    ensures GateOpen(policy, s, filter)
  {
    forall op: Op | Has(Paths(s.openai), op.path) && InScope(policy, filter, op.path) && op.verb in VERBS
      && Checked(policy, s, op)
      ensures OpConforms(policy, s, op, PlainSeen(policy, s, op))
    {
      AllOpsMember(policy, s, filter, Paths(s.openai), op);
      var i :| 0 <= i < |vs| && OpsOf(vs)[i] == op;
      assert OpConforms(policy, s, vs[i].op, vs[i].seen);
    }
  }

  /** Without cycles the gate is a property of the two specifications alone. */
  lemma PlainGateExact(policy: Policy, s: Specs, filter: Option<string>, vs: seq<Visit>)
    requires BothAcyclic(s) && SpecsSound(s) && OpsOf(vs) == ScopeOps(policy, s, filter) && AllPlain(policy, s, vs)
    ensures AllConform(policy, s, vs) <==> GateOpen(policy, s, filter)
  {
    if AllConform(policy, s, vs) { PlainGateOpens(policy, s, filter, vs); }
    if GateOpen(policy, s, filter) {
      forall i | 0 <= i < |vs| ensures OpConforms(policy, s, vs[i].op, vs[i].seen) {
        assert OpsOf(vs)[i] in OpsOf(vs);
        AllOpsMember(policy, s, filter, Paths(s.openai), vs[i].op);
      }
    }
  }

  // ---------- documenting one more key ----------

  function Document(policy: Policy, key: DocKey): Policy { policy.(documented := policy.documented + {key}) }

  lemma DocumentBody(policy: Policy, key: DocKey, place: Place, p: Option<Position>)
    ensures BodyFound(Document(policy, key), place, p) == Forgive(BodyFound(policy, place, p), key)
  {
    if p.Some? { DocumentOne(policy.documented, key, place, p.value.ctx, p.value.o, p.value.h); }
  }

  lemma DocumentParams(policy: Policy, key: DocKey, path: string, verb: string, oOp: Json, hOp: Json)
    ensures ParamViolations(Document(policy, key), path, verb, oOp, hOp)
      == Forgive(ParamViolations(policy, path, verb, oOp, hOp), key)
  {
    var place := Place(path, Upper(verb), "param");
    ForgiveMissing(policy.documented, key, place, ParamsOf(oOp), ParamsOf(hOp));
    ForgiveExtension(key, place, ParamsOf(hOp), ParamsOf(hOp), ParamsOf(oOp));
    ForgiveConcat(MissingViolations(policy.documented, place, ParamsOf(oOp), ParamsOf(hOp)),
                  ExtensionViolations(place, ParamsOf(hOp), ParamsOf(hOp), ParamsOf(oOp)), key);
  }

  lemma DocumentOp(policy: Policy, s: Specs, key: DocKey, op: Op, seen: Seen)
    ensures OpFound(Document(policy, key), s, op, seen) == Forgive(OpFound(policy, s, op, seen), key)
  {
    if Implemented(policy, s, op) {
      var oOp, hOp := OpenaiSide(s, op), HadrianSide(policy, s, op);
      var request := BodyFound(policy, Place(op.path, Upper(op.verb), "request"), seen.request);
      var response := BodyFound(policy, Place(op.path, Upper(op.verb), "response"), seen.response);
      DocumentBody(policy, key, Place(op.path, Upper(op.verb), "request"), seen.request);
      DocumentBody(policy, key, Place(op.path, Upper(op.verb), "response"), seen.response);
      DocumentParams(policy, key, op.path, op.verb, oOp, hOp);
      ForgiveConcat(request, response, key);
      ForgiveConcat(request + response, ParamViolations(policy, op.path, op.verb, oOp, hOp), key);
    } else {
      assert Forgive([], key) == [];
    }
  }

  lemma {:induction false} ForgiveCollected(a: seq<Visit>, b: seq<Visit>, key: DocKey)
    requires |a| == |b| && forall i :: 0 <= i < |a| ==> b[i].entry.violations == Forgive(a[i].entry.violations, key)
    ensures Collected(b) == Forgive(Collected(a), key)
  {
    if a != [] {
      forall i | 0 <= i < |a[1..]| ensures b[1..][i].entry.violations == Forgive(a[1..][i].entry.violations, key) {
        assert a[1..][i] == a[i + 1] && b[1..][i] == b[i + 1];
      }
      ForgiveCollected(a[1..], b[1..], key);
      ForgiveConcat(a[0].entry.violations, Collected(a[1..]), key);
    }
  }

  lemma {:induction false} DocumentScope(policy: Policy, s: Specs, key: DocKey, filter: Option<string>, paths: Fields)
    ensures AllOps(Document(policy, key), s, filter, paths) == AllOps(policy, s, filter, paths)
  {
    if paths.Field? {
      DocumentScope(policy, s, key, filter, paths.rest);
      DocumentVerbs(policy, s, key, paths.key, VERBS);
    }
  }

  lemma {:induction false} DocumentVerbs(policy: Policy, s: Specs, key: DocKey, path: string, verbs: seq<string>)
    ensures PathOps(Document(policy, key), s, path, verbs) == PathOps(policy, s, path, verbs)
  {
    if verbs != [] { DocumentVerbs(policy, s, key, path, verbs[1..]); }
  }

  /** A new entry of DOCUMENTED_MISSING_FIELDS removes its own violations from the report of a run, and no others:
      for any two runs from the same caches, one with and one without the entry. */
  lemma DocumentReport(policy: Policy, s: Specs, key: DocKey, filter: Option<string>, start: Caches,
                       vs: seq<Visit>, end: Caches, ws: seq<Visit>, stop: Caches)
    requires Runs(policy, s, ScopeOps(policy, s, filter), start, vs, end)
    requires Runs(Document(policy, key), s, ScopeOps(Document(policy, key), s, filter), start, ws, stop)
    ensures end == stop && Collected(ws) == Forgive(Collected(vs), key)
  {
    DocumentScope(policy, s, key, filter, Paths(s.openai));
    RunDetermined(policy, Document(policy, key), s, ScopeOps(policy, s, filter), start, vs, end, ws, stop);
    forall i | 0 <= i < |vs| ensures ws[i].entry.violations == Forgive(vs[i].entry.violations, key) {
      assert Made(policy, s, vs[i]) && Made(Document(policy, key), s, ws[i]);
      DocumentOp(policy, s, key, vs[i].op, vs[i].seen);
    }
    ForgiveCollected(vs, ws, key);
  }

  /** Parameters without differences have no violations. */
  lemma NoParamDiffs(policy: Policy, path: string, place: Place, oParams: Fields, hParams: Fields)
    requires ParamDiffs(path, oParams, hParams, MissingInHadrian) == []
    requires ParamDiffs(path, hParams, oParams, HadrianExtension) == []
    ensures MissingViolations(policy.documented, place, oParams, hParams) == []
    ensures ExtensionViolations(place, hParams, hParams, oParams) == []
  {
    AllThere(path, oParams, hParams, MissingInHadrian);
    AllThere(path, hParams, oParams, HadrianExtension);
    MissingEmpty(policy.documented, place, oParams, hParams);
    ExtensionEmpty(place, hParams, hParams, oParams);
  }

  lemma {:induction false} AllThere(path: string, rest: Fields, other: Fields, kind: DiffKind)
    requires ParamDiffs(path, rest, other, kind) == []
    ensures forall p :: Has(rest, p) ==> Has(other, p)
  {
    if rest.Field? { AllThere(path, rest.rest, other, kind); }
  }
}
