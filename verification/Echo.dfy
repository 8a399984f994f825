/** The request payload: what is stripped before it goes upstream, what is echoed in the response, and the
    response objects the echo is merged into. */
module Echo {
  import opened Basics
  import opened JsonValues
  import Codec

  datatype Includable =
    | FileSearchResults | InputImageUrl | ComputerOutputImageUrl | EncryptedReasoning | InterpreterOutputs
    | WebSearchSources | UsageIncremental

  datatype ReasoningConfig = ReasoningConfig(effort: Option<Json>, summary: Option<Json>)

  /** Values that are only passed on are kept in their encoded form. */
  datatype Payload = Payload(
    store: Option<bool>, background: Option<bool>, models: Option<Json>, provider: Option<Json>, plugins: Option<Json>,
    sovereignty: Option<Json>, skills: Option<Json>, taskBudget: Option<Json>, includes: Option<seq<Includable>>,
    tools: Option<List>, toolChoice: Option<Json>, parallelCalls: Option<bool>,
    temperature: Option<real>, topP: Option<real>, truncation: Option<Json>, text: Option<Json>,
    serviceTier: Option<Json>, presence: Option<real>, frequency: Option<real>,
    instructions: Option<string>, previousId: Option<string>, cacheKey: Option<string>, safetyId: Option<string>,
    maxOutput: Option<real>, metadata: Option<Fields>, reasoning: Option<ReasoningConfig>)

  // ---------- stripping ----------

  function Kept(includes: seq<Includable>): seq<Includable> {
    if includes == [] then []
    else if includes[0] == UsageIncremental then Kept(includes[1..])
    else [includes[0]] + Kept(includes[1..])
  }

  /** The payload as it goes upstream. */
  function Stripped(p: Payload): Payload {
    p.(store := Some(false), background := None, models := None, provider := None, plugins := None, sovereignty := None,
       skills := None, taskBudget := None,
       includes := if p.includes.None? || Kept(p.includes.value) == [] then None else Some(Kept(p.includes.value)))
  }

  /** The fields that are not the gateway's own are the same. */
  predicate SamePassedOn(p: Payload, q: Payload) {
    && q.tools == p.tools && q.toolChoice == p.toolChoice && q.parallelCalls == p.parallelCalls
    && q.temperature == p.temperature && q.topP == p.topP && q.truncation == p.truncation && q.text == p.text
    && q.serviceTier == p.serviceTier && q.presence == p.presence && q.frequency == p.frequency
    && q.instructions == p.instructions && q.previousId == p.previousId && q.cacheKey == p.cacheKey
    && q.safetyId == p.safetyId && q.maxOutput == p.maxOutput && q.metadata == p.metadata && q.reasoning == p.reasoning
  }

  class CreateResponsesPayload {
    var data: Payload

    constructor (p: Payload)
      ensures data == p
    {
      data := p;
    }

    method StripGatewayFields()
      modifies this
      ensures data == Stripped(old(data))
      ensures data.store == Some(false) && data.background == None && data.models == None && data.provider == None
      ensures data.plugins == None && data.sovereignty == None && data.skills == None && data.taskBudget == None
      ensures data.includes == match old(data.includes)
        case None => None
        case Some(values) => if forall i :: 0 <= i < |values| ==> values[i] == UsageIncremental then None
                             else Some(Kept(values))
      ensures SamePassedOn(old(data), data)
    {
      data := data.(store := Some(false));
      data := data.(background := None);
      data := data.(models := None);
      data := data.(provider := None);
      data := data.(plugins := None);
      data := data.(sovereignty := None);
      data := data.(skills := None);
      data := data.(taskBudget := None);
      if data.includes.Some? {
        var kept := Retain(data.includes.value);
        KeptSpecified(data.includes.value);
        NothingKept(data.includes.value);
        data := data.(includes := if kept == [] then None else Some(kept));
      }
    }
  }

  /** `retain`: one pass that keeps every value but the Hadrian extension. */
  method Retain(includes: seq<Includable>) returns (kept: seq<Includable>)
    ensures kept == Kept(includes)
  {
    kept := [];
    for i := 0 to |includes|
      invariant kept + Kept(includes[i..]) == Kept(includes)
    {
      assert includes[i..][0] == includes[i] && includes[i..][1..] == includes[i + 1..];
      if includes[i] != UsageIncremental {
        assert kept + [includes[i]] + Kept(includes[i + 1..]) == kept + ([includes[i]] + Kept(includes[i + 1..]));
        kept := kept + [includes[i]];
      }
    }
  }

  lemma {:induction false} KeptSpecified(includes: seq<Includable>)
    ensures UsageIncremental !in Kept(includes)
    ensures forall x :: x != UsageIncremental ==> multiset(Kept(includes))[x] == multiset(includes)[x]
    ensures UsageIncremental !in includes ==> Kept(includes) == includes
  {
    if includes != [] {
      KeptSpecified(includes[1..]);
      assert includes == [includes[0]] + includes[1..];
    }
  }

  lemma {:induction false} NothingKept(includes: seq<Includable>)
    ensures Kept(includes) == [] <==> forall i :: 0 <= i < |includes| ==> includes[i] == UsageIncremental
  {
    if includes != [] {
      NothingKept(includes[1..]);
      assert forall i :: 0 <= i < |includes[1..]| ==> includes[1..][i] == includes[i + 1];
      assert forall i :: 1 <= i < |includes| ==> includes[i] == includes[1..][i - 1];
    }
  }

  /** The order of the values that are kept is the order they came in. */
  lemma {:induction false} KeptInOrder(a: seq<Includable>, b: seq<Includable>)
    ensures Kept(a + b) == Kept(a) + Kept(b)
  {
    if a == [] {
      assert a + b == b;
    } else {
      assert (a + b)[0] == a[0] && (a + b)[1..] == a[1..] + b;
      KeptInOrder(a[1..], b);
    }
  }

  lemma StripTwice(p: Payload)
    ensures Stripped(Stripped(p)) == Stripped(p)
  {
    if p.includes.Some? {
      KeptSpecified(p.includes.value);
      KeptSpecified(Kept(p.includes.value));
    }
  }

  // ---------- echo ----------

  /** `entry(k).or_insert(null)` */
  function OrNull(fs: Fields, k: string): Fields { if Has(fs, k) then fs else Put(fs, k, Null) }

  /** Function tools are shown with all the fields a client may expect. */
  function EchoTool(tool: Json): Json {
    if tool.Object? && Get(tool.fields, "type") == Some(String("function")) then
      Object(OrNull(OrNull(tool.fields, "strict"), "description"))
    else tool
  }

  function EchoTools(tools: List): List {
    if tools.Nil? then Nil else Cons(EchoTool(tools.head), EchoTools(tools.tail))
  }

  function OrElse<T>(o: Option<T>, d: T): T { if o.Some? then o.value else d }

  function OptString(o: Option<string>): Json { if o.Some? then String(o.value) else Null }

  /** A value that must be one of `names`, or else the default. */
  function Known(o: Option<Json>, names: seq<string>, d: string): Json {
    if o.Some? && Codec.DecodeChoice(names, o.value).Some?
    then String(Codec.DecodeChoice(names, o.value).value.name) else String(d)
  }

  const MAX_I64 := 0x7fff_ffff_ffff_ffff

  function Clamp(n: int): int { if n > MAX_I64 then MAX_I64 else if n < -MAX_I64 - 1 then -MAX_I64 - 1 else n }

  /** A whole number of tokens is shown as an integer. */
  function EchoLimit(o: Option<real>): Json {
    if o.None? then Null
    else if o.value == o.value.Floor as real then Number(Clamp(o.value.Floor) as real)
    else Number(o.value)
  }

  function EchoReasoning(o: Option<ReasoningConfig>): Json {
    if o.None? then Null
    else Object(Field("effort", OrElse(o.value.effort, Null), Field("summary", OrElse(o.value.summary, Null), Empty)))
  }

  const PLAIN_TEXT := Object(Field("format", Object(Field("type", String("text"), Empty)), Empty))

  const ECHO_KEYS: seq<string> :=
    ["tools", "tool_choice", "parallel_tool_calls", "temperature", "top_p", "store", "background", "truncation", "text",
     "service_tier", "presence_penalty", "frequency_penalty", "instructions", "previous_response_id",
     "prompt_cache_key", "safety_identifier", "max_output_tokens", "metadata", "max_tool_calls", "top_logprobs",
     "reasoning"]

  function ToolValues(p: Payload): seq<Json> {
    [Array(EchoTools(OrElse(p.tools, Nil))),
     OrElse(p.toolChoice, String("auto")),
     Bool(OrElse(p.parallelCalls, true)),
     Number(OrElse(p.temperature, 1.0)),
     Number(OrElse(p.topP, 1.0))]
  }

  function OtherValues(p: Payload): seq<Json> {
    [Known(p.truncation, ["auto", "disabled"], "disabled"),
     OrElse(p.text, PLAIN_TEXT),
     Known(p.serviceTier, ["auto", "default", "flex", "priority", "scale"], "default"),
     Number(OrElse(p.presence, 0.0)),
     Number(OrElse(p.frequency, 0.0)),
     OptString(p.instructions),
     OptString(p.previousId),
     OptString(p.cacheKey),
     OptString(p.safetyId),
     EchoLimit(p.maxOutput),
     Object(OrElse(p.metadata, Empty)),
     Null,
     Number(0.0),
     EchoReasoning(p.reasoning)]
  }

  /** The value under each of `ECHO_KEYS`. */
  function EchoValues(p: Payload): (r: seq<Json>)
    ensures |r| == |ECHO_KEYS|
  {
    ToolValues(p) + [Bool(OrElse(p.store, true)), Bool(OrElse(p.background, false))] + OtherValues(p)
  }

  function Zip(keys: seq<string>, values: seq<Json>): Fields
    requires |keys| == |values|
  {
    if keys == [] then Empty else Field(keys[0], values[0], Zip(keys[1..], values[1..]))
  }

  function EchoFields(p: Payload): Fields { Zip(ECHO_KEYS, EchoValues(p)) }

  // ---------- maps built from two lists ----------

  lemma {:induction false} ZipHas(keys: seq<string>, values: seq<Json>, k: string)
    requires |keys| == |values|
    ensures Has(Zip(keys, values), k) <==> k in keys
  {
    if keys != [] {
      ZipHas(keys[1..], values[1..], k);
      assert keys == [keys[0]] + keys[1..];
    }
  }

  lemma {:induction false} ZipDistinct(keys: seq<string>, values: seq<Json>)
    requires |keys| == |values| && Distinct(keys)
    ensures DistinctKeys(Zip(keys, values))
  {
    if keys != [] {
      assert forall i :: 0 <= i < |keys[1..]| ==> keys[1..][i] == keys[i + 1];
      ZipDistinct(keys[1..], values[1..]);
      ZipHas(keys[1..], values[1..], keys[0]);
    }
  }

  lemma {:induction false} ZipPut(keys: seq<string>, values: seq<Json>, i: nat, v: Json)
    requires |keys| == |values| && Distinct(keys) && i < |keys|
    ensures Put(Zip(keys, values), keys[i], v) == Zip(keys, values[i := v])
  {
    if i > 0 {
      assert forall n :: 0 <= n < |keys[1..]| ==> keys[1..][n] == keys[n + 1];
      assert values[i := v][1..] == values[1..][i - 1 := v];
      ZipPut(keys[1..], values[1..], i - 1, v);
    } else {
      assert values[0 := v][1..] == values[1..];
    }
  }

  lemma EchoKeysDistinct()
    ensures Distinct(ECHO_KEYS)
  {
    assert "tools"[1] == 'o' && "top_p"[1] == 'o' && "tools"[2] == 'o' && "top_p"[2] == 'p' && "store"[0] == 's';
    assert "tool_choice"[1] == 'o' && "temperature"[1] == 'e' && "background"[0] == 'b' && "truncation"[0] == 't';
    assert "service_tier"[0] == 's' && "instructions"[0] == 'i' && "top_logprobs"[0] == 't';
    assert "presence_penalty"[1] == 'r' && "prompt_cache_key"[1] == 'r' && "presence_penalty"[2] == 'e'
      && "prompt_cache_key"[2] == 'o';
    assert "frequency_penalty"[0] == 'f' && "safety_identifier"[0] == 's' && "max_output_tokens"[0] == 'm';
  }

  // ---------- the echo, key by key ----------

  lemma {:induction false} ZipGet(keys: seq<string>, values: seq<Json>, i: nat)
    requires |keys| == |values| && Distinct(keys) && i < |keys|
    ensures Get(Zip(keys, values), keys[i]) == Some(values[i])
  {
    if i > 0 {
      assert forall n :: 0 <= n < |keys[1..]| ==> keys[1..][n] == keys[n + 1];
      ZipGet(keys[1..], values[1..], i - 1);
    }
  }

  lemma EchoAt(p: Payload, i: nat)
    requires i < |ECHO_KEYS|
    ensures Get(EchoFields(p), ECHO_KEYS[i]) == Some(EchoValues(p)[i])
  {
    EchoKeysDistinct();
    ZipGet(ECHO_KEYS, EchoValues(p), i);
  }

  /** `fs[k]` is the value given, or else the default. */
  predicate ShowsNumber(fs: Fields, k: string, o: Option<real>, d: real) {
    Get(fs, k) == Some(Number(if o.Some? then o.value else d))
  }

  predicate ShowsFlag(fs: Fields, k: string, o: Option<bool>, d: bool) {
    Get(fs, k) == Some(Bool(if o.Some? then o.value else d))
  }

  predicate ShowsJson(fs: Fields, k: string, o: Option<Json>, d: Json) {
    Get(fs, k) == Some(if o.Some? then o.value else d)
  }

  predicate ShowsString(fs: Fields, k: string, o: Option<string>) {
    Get(fs, k) == Some(if o.Some? then String(o.value) else Null)
  }

  lemma EchoedTools(p: Payload)
    ensures var fs := EchoFields(p);
      && Get(fs, "tools") == Some(Array(EchoTools(if p.tools.Some? then p.tools.value else Nil)))
      && ShowsJson(fs, "tool_choice", p.toolChoice, String("auto"))
      && ShowsFlag(fs, "parallel_tool_calls", p.parallelCalls, true)
  {
    assert ECHO_KEYS[0] == "tools" && ECHO_KEYS[1] == "tool_choice" && ECHO_KEYS[2] == "parallel_tool_calls";
    EchoAt(p, 0);
    EchoAt(p, 1);
    EchoAt(p, 2);
  }

  lemma EchoedSampling(p: Payload)
    ensures var fs := EchoFields(p);
      && ShowsNumber(fs, "temperature", p.temperature, 1.0) && ShowsNumber(fs, "top_p", p.topP, 1.0)
      && ShowsFlag(fs, "store", p.store, true) && ShowsFlag(fs, "background", p.background, false)
  {
    assert ECHO_KEYS[3] == "temperature" && ECHO_KEYS[4] == "top_p" && ECHO_KEYS[5] == "store";
    assert ECHO_KEYS[6] == "background";
    EchoAt(p, 3);
    EchoAt(p, 4);
    EchoAt(p, 5);
    EchoAt(p, 6);
  }

  lemma EchoedFormats(p: Payload)
    ensures var fs := EchoFields(p);
      && Get(fs, "truncation") == Some(Known(p.truncation, ["auto", "disabled"], "disabled"))
      && ShowsJson(fs, "text", p.text, PLAIN_TEXT)
      && Get(fs, "service_tier")
         == Some(Known(p.serviceTier, ["auto", "default", "flex", "priority", "scale"], "default"))
      && ShowsNumber(fs, "presence_penalty", p.presence, 0.0) && ShowsNumber(fs, "frequency_penalty", p.frequency, 0.0)
  {
    assert ECHO_KEYS[7] == "truncation" && ECHO_KEYS[8] == "text" && ECHO_KEYS[9] == "service_tier";
    assert ECHO_KEYS[10] == "presence_penalty" && ECHO_KEYS[11] == "frequency_penalty";
    EchoAt(p, 7);
    EchoAt(p, 8);
    EchoAt(p, 9);
    EchoAt(p, 10);
    EchoAt(p, 11);
  }

  lemma EchoedTexts(p: Payload)
    ensures var fs := EchoFields(p);
      && ShowsString(fs, "instructions", p.instructions) && ShowsString(fs, "previous_response_id", p.previousId)
      && ShowsString(fs, "prompt_cache_key", p.cacheKey) && ShowsString(fs, "safety_identifier", p.safetyId)
  {
    assert ECHO_KEYS[12] == "instructions" && ECHO_KEYS[13] == "previous_response_id";
    assert ECHO_KEYS[14] == "prompt_cache_key" && ECHO_KEYS[15] == "safety_identifier";
    EchoAt(p, 12);
    EchoAt(p, 13);
    EchoAt(p, 14);
    EchoAt(p, 15);
  }

  lemma EchoedRest(p: Payload)
    ensures var fs := EchoFields(p);
      && Get(fs, "max_output_tokens") == Some(EchoLimit(p.maxOutput))
      && Get(fs, "metadata") == Some(Object(if p.metadata.Some? then p.metadata.value else Empty))
      && Get(fs, "max_tool_calls") == Some(Null) && Get(fs, "top_logprobs") == Some(Number(0.0))
      && Get(fs, "reasoning") == Some(EchoReasoning(p.reasoning))
  {
    assert ECHO_KEYS[16] == "max_output_tokens" && ECHO_KEYS[17] == "metadata" && ECHO_KEYS[18] == "max_tool_calls";
    assert ECHO_KEYS[19] == "top_logprobs" && ECHO_KEYS[20] == "reasoning";
    EchoAt(p, 16);
    EchoAt(p, 17);
    EchoAt(p, 18);
    EchoAt(p, 19);
    EchoAt(p, 20);
  }

  /** A named setting is echoed when its name is known; a missing or unknown one shows as the default. */
  lemma KnownMeaning(o: Option<Json>, names: seq<string>, d: string, name: string)
    ensures o == None ==> Known(o, names, d) == String(d)
    ensures o == Some(String(name)) ==> Known(o, names, d) == String(if name in names then name else d)
  {
  }

  /** A limit that is a whole number of 64 bits is shown as it is, and so is a fraction. */
  lemma LimitMeaning(n: real)
    ensures n == n.Floor as real && -MAX_I64 - 1 <= n.Floor <= MAX_I64 ==> EchoLimit(Some(n)) == Number(n)
    ensures n != n.Floor as real ==> EchoLimit(Some(n)) == Number(n)
    ensures EchoLimit(None) == Null
  {
  }

  /** Both parts of the reasoning settings are shown, null when they are missing. */
  lemma ReasoningMeaning(o: Option<ReasoningConfig>)
    ensures o.None? ==> EchoReasoning(o) == Null
    ensures o.Some? ==>
      && EchoReasoning(o).Object?
      && ShowsJson(EchoReasoning(o).fields, "effort", o.value.effort, Null)
      && ShowsJson(EchoReasoning(o).fields, "summary", o.value.summary, Null)
  {
    assert "effort"[0] == 'e' && "summary"[0] == 's';
    if o.Some? {
      var last := Field("summary", OrElse(o.value.summary, Null), Empty);
      assert Get(last, "summary") == Some(last.value) && EchoReasoning(o).fields.rest == last;
    }
  }

  /** Every tool is echoed in its place. A function shows `strict` and `description`, null when it has none; nothing
      else of a tool changes. */
  lemma {:induction false} ToolsEchoed(before: List, tool: Json, after: List)
    ensures EchoTools(ListConcat(before, Cons(tool, after)))
         == ListConcat(EchoTools(before), Cons(EchoTool(tool), EchoTools(after)))
  {
    if before.Cons? { ToolsEchoed(before.tail, tool, after); }
  }

  lemma ToolMeaning(fs: Fields, k: string)
    ensures Get(fs, "type") != Some(String("function")) ==> EchoTool(Object(fs)) == Object(fs)
    ensures EchoTool(Object(fs)).Object?
    ensures Get(fs, "type") == Some(String("function")) ==>
      Get(EchoTool(Object(fs)).fields, k)
      == if (k == "strict" || k == "description") && Get(fs, k) == None then Some(Null) else Get(fs, k)
  {
    OrNullKey(fs, "strict", k);
    OrNullKey(OrNull(fs, "strict"), "description", k);
  }

  lemma OrNullKey(fs: Fields, k: string, x: string)
    ensures Get(OrNull(fs, k), x) == if x == k && Get(fs, k) == None then Some(Null) else Get(fs, x)
  {
    GetPut(fs, k, Null, x);
  }

  // ---------- echo and strip ----------

  lemma ValuesAfterStrip(p: Payload)
    ensures EchoValues(Stripped(p)) == EchoValues(p)[5 := Bool(false)][6 := Bool(false)]
  {
    assert ToolValues(Stripped(p)) == ToolValues(p);
    assert OtherValues(Stripped(p)) == OtherValues(p);
    var a, b := ToolValues(p), OtherValues(p);
    var s, t := Bool(OrElse(p.store, true)), Bool(OrElse(p.background, false));
    assert (a + [s, t] + b)[5 := Bool(false)][6 := Bool(false)] == a + [Bool(false), Bool(false)] + b;
  }

  /** Echoing after stripping is echoing before it, with `store` and `background` false. */
  lemma EchoAfterStrip(p: Payload)
    ensures EchoFields(Stripped(p)) == Put(Put(EchoFields(p), "store", Bool(false)), "background", Bool(false))
  {
    var values := EchoValues(p);
    EchoKeysDistinct();
    assert ECHO_KEYS[5] == "store" && ECHO_KEYS[6] == "background";
    ZipPut(ECHO_KEYS, values, 5, Bool(false));
    ZipPut(ECHO_KEYS, values[5 := Bool(false)], 6, Bool(false));
    ValuesAfterStrip(p);
  }

  const RESERVED: seq<string> :=
    ["id", "object", "created_at", "model", "status", "output", "completed_at", "error", "incomplete_details", "usage"]

  lemma ReservedApart(i: nat, j: nat)
    requires i < |RESERVED| && j < |ECHO_KEYS|
    ensures RESERVED[i] != ECHO_KEYS[j]
  {
    assert "created_at"[0] == 'c' && "background"[0] == 'b' && "truncation"[0] == 't';
    assert "model"[0] == 'm' && "error"[0] == 'e' && "usage"[0] == 'u' && "tools"[0] == 't' && "top_p"[0] == 't'
      && "store"[0] == 's';
    assert "completed_at"[0] == 'c' && "service_tier"[0] == 's' && "instructions"[0] == 'i' && "top_logprobs"[0] == 't';
  }

  /** The echo never touches the fields that describe the response itself. */
  lemma EchoSparesReserved(p: Payload, k: string)
    requires k in RESERVED
    ensures !Has(EchoFields(p), k)
  {
    ZipHas(ECHO_KEYS, EchoValues(p), k);
    var i :| 0 <= i < |RESERVED| && RESERVED[i] == k;
    if k in ECHO_KEYS {
      var j :| 0 <= j < |ECHO_KEYS| && ECHO_KEYS[j] == k;
      ReservedApart(i, j);
    }
  }

  // ---------- the response objects ----------

  /** The object of a streaming event before the echo is added. */
  function StreamingBase(id: string, model: string, createdAt: real, status: string, output: Json): Fields {
    Zip(RESERVED, [String(id), String("response"), Number(createdAt), String(model), String(status), output,
                   Null, Null, Null, Null])
  }

  /** The fields of a streaming event itself. */
  lemma BaseMeaning(id: string, model: string, createdAt: real, status: string, output: Json)
    ensures var fs := StreamingBase(id, model, createdAt, status, output);
      && Get(fs, "id") == Some(String(id)) && Get(fs, "object") == Some(String("response"))
      && Get(fs, "created_at") == Some(Number(createdAt)) && Get(fs, "model") == Some(String(model))
      && Get(fs, "status") == Some(String(status)) && Get(fs, "output") == Some(output)
      && Get(fs, "completed_at") == Some(Null) && Get(fs, "error") == Some(Null)
      && Get(fs, "incomplete_details") == Some(Null) && Get(fs, "usage") == Some(Null)
  {
    var values := [String(id), String("response"), Number(createdAt), String(model), String(status), output,
                   Null, Null, Null, Null];
    ReservedDistinct();
    forall i | 0 <= i < |RESERVED| ensures Get(Zip(RESERVED, values), RESERVED[i]) == Some(values[i]) {
      ZipGet(RESERVED, values, i);
    }
    assert RESERVED[0] == "id" && RESERVED[1] == "object" && RESERVED[2] == "created_at" && RESERVED[3] == "model";
    assert RESERVED[4] == "status" && RESERVED[5] == "output" && RESERVED[6] == "completed_at";
    assert RESERVED[7] == "error" && RESERVED[8] == "incomplete_details" && RESERVED[9] == "usage";
  }

  lemma ReservedDistinct()
    ensures Distinct(RESERVED)
  {
    assert "object"[1] == 'b' && "output"[1] == 'u' && "created_at"[1] == 'r' && "completed_at"[1] == 'o';
    assert "model"[0] == 'm' && "error"[0] == 'e' && "usage"[0] == 'u';
  }

  /** Inserts the echoed fields one after the other. */
  method BuildStreamingResponse(id: string, model: string, createdAt: real, status: string, output: Json, echo: Fields)
    returns (obj: Fields)
    ensures obj == PutAll(StreamingBase(id, model, createdAt, status, output), echo)
  {
    obj := StreamingBase(id, model, createdAt, status, output);
    var rest := echo;
    while rest.Field?
      invariant PutAll(obj, rest) == PutAll(StreamingBase(id, model, createdAt, status, output), echo)
      decreases rest
    {
      obj := Put(obj, rest.key, rest.value);
      rest := rest.rest;
    }
  }

  /** A streaming event shows its own fields as built and, beside them, exactly the echo. */
  lemma StreamingMeaning(id: string, model: string, createdAt: real, status: string, output: Json, p: Payload,
    k: string)
    ensures var base := StreamingBase(id, model, createdAt, status, output);
      var obj := PutAll(base, EchoFields(p));
      && (k in RESERVED ==> Get(obj, k) == Get(base, k))
      && (k !in RESERVED ==> k in ECHO_KEYS ==> Get(obj, k) == Get(EchoFields(p), k))
      && (k !in ECHO_KEYS ==> Get(obj, k) == Get(base, k))
  {
    var base := StreamingBase(id, model, createdAt, status, output);
    EchoKeysDistinct();
    ZipDistinct(ECHO_KEYS, EchoValues(p));
    ZipHas(ECHO_KEYS, EchoValues(p), k);
    GetPutAll(base, EchoFields(p), k);
    if k in RESERVED { EchoSparesReserved(p, k); }
  }

  /** The echo without the reasoning, if the response has its own. */
  function Merged(echo: Fields, ownReasoning: bool): Fields {
    if ownReasoning then Without(echo, "reasoning") else echo
  }

  /** `own` is the encoded response; `now` the time to show when it is completed. */
  method ToJsonWithEcho(own: Fields, completed: bool, now: real, ownReasoning: bool, echo: Fields) returns (obj: Fields)
    ensures obj == PutAll(if completed then Put(own, "completed_at", Number(now)) else own, Merged(echo, ownReasoning))
  {
    obj := own;
    if completed { obj := Put(obj, "completed_at", Number(now)); }
    ghost var start := obj;
    var rest := echo;
    while rest.Field?
      invariant PutAll(obj, Merged(rest, ownReasoning)) == PutAll(start, Merged(echo, ownReasoning))
      decreases rest
    {
      if !(rest.key == "reasoning" && ownReasoning) {
        obj := Put(obj, rest.key, rest.value);
      }
      rest := rest.rest;
    }
  }

  lemma {:induction false} WithoutDistinct(fs: Fields, k: string)
    requires DistinctKeys(fs)
    ensures DistinctKeys(Without(fs, k))
  {
    if fs.Field? {
      WithoutDistinct(fs.rest, k);
      GetWithout(fs.rest, k, fs.key);
    }
  }

  /** What a completed or partial response shows under each key. */
  lemma ResponseMeaning(own: Fields, completed: bool, now: real, ownReasoning: bool, p: Payload, k: string)
    ensures var base := if completed then Put(own, "completed_at", Number(now)) else own;
      var obj := PutAll(base, Merged(EchoFields(p), ownReasoning));
      && (k == "completed_at" ==> Get(obj, k) == (if completed then Some(Number(now)) else Get(own, k)))
      && (k !in ECHO_KEYS && k != "completed_at" ==> Get(obj, k) == Get(own, k))
      && (k in RESERVED && k != "completed_at" ==> Get(obj, k) == Get(own, k))
      && (k == "reasoning" && ownReasoning ==> Get(obj, k) == Get(own, k))
      && (k in ECHO_KEYS && !(k == "reasoning" && ownReasoning) ==> Get(obj, k) == Get(EchoFields(p), k))
  {
    var start := if completed then Put(own, "completed_at", Number(now)) else own;
    var echo := EchoFields(p);
    EchoKeysDistinct();
    ZipDistinct(ECHO_KEYS, EchoValues(p));
    ZipHas(ECHO_KEYS, EchoValues(p), k);
    WithoutDistinct(echo, "reasoning");
    GetWithout(echo, "reasoning", k);
    GetPutAll(start, Merged(echo, ownReasoning), k);
    GetPut(own, "completed_at", Number(now), k);
    if k in RESERVED { EchoSparesReserved(p, k); }
    assert "completed_at" in RESERVED by { assert RESERVED[6] == "completed_at"; }
    assert "reasoning"[0] == 'r' && "completed_at"[0] == 'c';
  }
}
