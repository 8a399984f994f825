/** Output items sent back as input: what each of the fourteen variants is read as. */
module ResponseReplay {
  import opened Basics
  import opened JsonValues
  import opened Codec
  import opened ResponseItems
  import opened ResponseTheorems
  import opened ResponseInput

  // ---------- alternatives by index ----------

  function Listed(shapes: seq<Shape>, end: Shapes): Shapes {
    if shapes == [] then end else Alternative(shapes[0], Listed(shapes[1..], end))
  }

  lemma {:induction false} ListedOption(shapes: seq<Shape>, end: Shapes, n: nat, v: Val)
    ensures n < |shapes| ==>
      && (TypedOption(Listed(shapes, end), n, v) <==> Typed(shapes[n], v))
      && (Typed(shapes[n], v) ==> EncodeOption(Listed(shapes, end), n, v) == Encode(shapes[n], v))
    ensures n >= |shapes| ==>
      && (TypedOption(Listed(shapes, end), n, v) <==> TypedOption(end, n - |shapes|, v))
      && (TypedOption(end, n - |shapes|, v) ==>
            EncodeOption(Listed(shapes, end), n, v) == EncodeOption(end, n - |shapes|, v))
  {
    if shapes != [] && n > 0 { ListedOption(shapes[1..], end, n - 1, v); }
  }

  function Common(): seq<Shape> {
    [Record(WebSearchCall()), Record(FileSearchCall()), Record(ShellCall()), Record(ShellCallOutput()),
      Record(McpListTools()),
     Record(McpCall()), Record(McpApprovalRequest())]
  }

  lemma ListedSeven(a: Shape, b: Shape, c: Shape, d: Shape, e: Shape, f: Shape, g: Shape, end: Shapes)
    ensures Listed([a, b, c, d, e, f, g], end)
         == Alternative(a, Alternative(b, Alternative(c, Alternative(d,
           Alternative(e, Alternative(f, Alternative(g, end)))))))
  {
    var s := [a, b, c, d, e, f, g];
    assert s[1..] == [b, c, d, e, f, g] && s[2..] == [c, d, e, f, g] && s[3..] == [d, e, f, g];
    assert s[4..] == [e, f, g] && s[5..] == [f, g] && s[6..] == [g] && s[7..] == [];
    assert s[1..][1..] == s[2..] && s[2..][1..] == s[3..] && s[3..][1..] == s[4..];
    assert s[4..][1..] == s[5..] && s[5..][1..] == s[6..] && s[6..][1..] == s[7..];
    assert Listed(s[6..], end) == Alternative(g, end);
    assert Listed(s[5..], end) == Alternative(f, Listed(s[6..], end));
    assert Listed(s[4..], end) == Alternative(e, Listed(s[5..], end));
    assert Listed(s[3..], end) == Alternative(d, Listed(s[4..], end));
    assert Listed(s[2..], end) == Alternative(c, Listed(s[3..], end));
    assert Listed(s[1..], end) == Alternative(b, Listed(s[2..], end));
  }

  /** The shared alternatives of the two unions have the same values and encodings in both. */
  lemma CommonOption(end: Shapes, n: nat, v: Val)
    ensures n < 7 ==>
      && (TypedOption(CommonItems(end), n, v) <==> Typed(Common()[n], v))
      && (Typed(Common()[n], v) ==> EncodeOption(CommonItems(end), n, v) == Encode(Common()[n], v))
    ensures n >= 7 ==>
      && (TypedOption(CommonItems(end), n, v) <==> TypedOption(end, n - 7, v))
      && (TypedOption(end, n - 7, v) ==> EncodeOption(CommonItems(end), n, v) == EncodeOption(end, n - 7, v))
  {
    ListedSeven(Record(WebSearchCall()), Record(FileSearchCall()), Record(ShellCall()), Record(ShellCallOutput()),
      Record(McpListTools()), Record(McpCall()), Record(McpApprovalRequest()), end);
    assert CommonItems(end) == Listed(Common(), end);
    ListedOption(Common(), end, n, v);
  }

  // ---------- the later alternatives ----------

  const LATER_TAGS :=
    ["function_call", "web_search_call", "file_search_call", "shell_call", "shell_call_output", "mcp_list_tools",
      "mcp_call",
     "mcp_approval_request", "mcp_approval_response", "tool_search_call", "tool_search_output", "compaction",
       "image_generation_call"]

  lemma ApprovalResponseSound()
    ensures SoundFields(McpApprovalResponse()) && Tags(McpApprovalResponse()) == ["mcp_approval_response"]
  {
  }

  lemma LaterTagsSplit()
    ensures ["function_call"] + (SEARCH_TAGS + (WORK_TAGS + (["mcp_approval_request"]
      + (["mcp_approval_response"] + LAST_TAGS)))) == LATER_TAGS
  {
  }

  lemma LaterTagged()
    ensures TaggedBy(LaterItems(), LATER_TAGS)
  {
    LastTagged();
    ApprovalResponseSound();
    FunctionCallSound();
    TaggedStep(McpApprovalResponse(), "mcp_approval_response", LastItems(), LAST_TAGS);
    var end, tags := Alternative(Record(McpApprovalResponse()), LastItems()), ["mcp_approval_response"] + LAST_TAGS;
    CommonTagged(end, tags);
    TaggedStep(OutputFunctionCall(), "function_call", CommonItems(end),
      SEARCH_TAGS + (WORK_TAGS + (["mcp_approval_request"] + tags)));
    LaterTagsSplit();
  }

  lemma LaterTagsDistinct()
    ensures Distinct(LATER_TAGS)
  {
    assert "file_search_call"[0] == 'f' && "tool_search_call"[0] == 't';
    assert "shell_call"[0] == 's' && "compaction"[0] == 'c';
    assert "mcp_approval_response"[0] == 'm' && "image_generation_call"[0] == 'i';
  }

  /** The encoding of an alternative carries its tag. */
  lemma {:induction false} EncodedWithTag(options: Shapes, tags: seq<string>, n: nat, v: Val)
    requires TaggedBy(options, tags) && TypedOption(options, n, v)
    ensures n < |tags|
    ensures var j := EncodeOption(options, n, v); j.Object? && Get(j.fields, "type") == Some(String(tags[n]))
    decreases options
  {
    if n == 0 {
      EncodedTag(options.shape.fields, v.vals);
      assert Tags(options.shape.fields) == [tags[0]];
    } else {
      EncodedWithTag(options.rest, tags[1..], n - 1, v);
    }
  }

  // ---------- who refuses what ----------

  lemma TaggedRefuse(fs: Fields, t: string)
    requires Get(fs, "type") == Some(String(t)) && t != "reasoning" && t != "message" && t != "function_call_output"
    ensures Decode(Record(Reasoning()), Object(fs)) == None && Decode(Record(FunctionCallOutput()), Object(fs)) == None
    ensures Decode(Record(OutputMessage()), Object(fs)) == None
  {
    InputTags();
    MessageNames();
    WrongTag(Reasoning(), fs);
    WrongTag(FunctionCallOutput(), fs);
    WrongTag(OutputMessage(), fs);
    RecordFromObject(Reasoning(), fs);
    RecordFromObject(FunctionCallOutput(), fs);
    RecordFromObject(OutputMessage(), fs);
  }

  lemma CallRefuses(fs: Fields, t: string)
    requires Get(fs, "type") == Some(String(t)) && t != "function_call"
    ensures Decode(Record(FunctionToolCall()), Object(fs)) == None
  {
    InputTags();
    WrongTag(FunctionToolCall(), fs);
    RecordFromObject(FunctionToolCall(), fs);
  }

  /** An optional tag that is there must be the right one, too. */
  lemma KindRefuses(name: string, rest: Members, fs: Fields, t: string)
    requires Get(fs, "type") == Some(String(t)) && t != name
    ensures DecodeFields(Opt("type", Choice([name]), rest), fs) == None
  {
    assert Decode(Choice([name]), String(t)) == None;
    assert Decode(Nullable(Choice([name])), String(t)) == None;
  }

  lemma InputsRefuse(fs: Fields, t: string)
    requires Get(fs, "type") == Some(String(t)) && t != "message"
    ensures Decode(Record(EasyMessage()), Object(fs)) == None && Decode(Record(MessageItem()), Object(fs)) == None
  {
    KindRefuses("message", EasyMessage().rest, fs, t);
    KindRefuses("message", MessageItem().rest.rest, fs, t);
    assert DecodeFields(MessageItem().rest, fs) == None;
    RecordFromObject(EasyMessage(), fs);
    RecordFromObject(MessageItem(), fs);
  }

  // ---------- what is read ----------

  lemma LaterRead(a: Shape, b: Shape, c: Shape, d: Shape, e: Shape, f: Shape, later: Shapes, j: Json)
    requires Decode(a, j).None? && Decode(b, j).None? && Decode(c, j).None? && Decode(d, j).None?
      && Decode(e, j).None? && Decode(f, j).None?
    ensures Decode(FirstOf(Alternative(a, Alternative(b, Alternative(c,
      Alternative(d, Alternative(e, Alternative(f, later))))))), j)
         == DecodeFirst(later, 6, j)
  {
    InOrder(a, b, c, d, e, f, later, j);
  }

  /** An alternative among differently tagged ones is found again, under its index. */
  lemma TaggedDecodes(options: Shapes, tags: seq<string>, start: nat, k: nat, v: Val)
    requires TaggedBy(options, tags) && Distinct(tags) && TypedOption(options, k, v)
    ensures DecodeFirst(options, start, EncodeOption(options, k, v)) == Some(OptionV(start + k, v))
  {
    DistinctTagsSound(options, tags);
    RoundTripOption(options, start, k, v);
  }

  lemma LaterTaggedAs(later: Shapes, tags: seq<string>)
    requires later == LaterItems() && tags == LATER_TAGS
    ensures TaggedBy(later, tags) && Distinct(tags)
  {
    LaterTagged();
    LaterTagsDistinct();
  }

  /** The alternatives after the output message, other than function calls, are read as themselves. */
  lemma LaterAsInput(later: Shapes, k: nat, v: Val)
    requires later == LaterItems() && k > 0 && TypedOption(later, k, v)
    ensures Decode(FirstOf(InputItems(later)), EncodeOption(later, k, v)) == Some(OptionV(6 + k, v))
  {
    var tags := LATER_TAGS;
    LaterTaggedAs(later, tags);
    TaggedAsInput(later, tags, k, v);
  }

  lemma TaggedAsInput(later: Shapes, tags: seq<string>, k: nat, v: Val)
    requires tags == LATER_TAGS && TaggedBy(later, tags) && Distinct(tags) && k > 0 && TypedOption(later, k, v)
    ensures Decode(FirstOf(InputItems(later)), EncodeOption(later, k, v)) == Some(OptionV(6 + k, v))
  {
    TaggedDecodes(later, tags, 6, k, v);
    EncodedWithTag(later, tags, k, v);
    OtherTag(k);
    LaterFromTag(later, EncodeOption(later, k, v).fields, tags[k]);
  }

  lemma OtherTag(k: nat)
    requires 0 < k < |LATER_TAGS|
    ensures var t := LATER_TAGS[k];
      t != "reasoning" && t != "message" && t != "function_call_output" && t != "function_call"
  {
    assert LATER_TAGS[0] == "function_call";
    LaterTagsDistinct();
    assert "mcp_approval_request"[0] == 'm' && "function_call_output"[0] == 'f';
  }

  lemma LaterFromTag(later: Shapes, fs: Fields, t: string)
    requires Get(fs, "type") == Some(String(t))
    requires t != "reasoning" && t != "message" && t != "function_call_output" && t != "function_call"
    ensures Decode(FirstOf(InputItems(later)), Object(fs)) == DecodeFirst(later, 6, Object(fs))
  {
    TaggedRefuse(fs, t);
    CallRefuses(fs, t);
    InputsRefuse(fs, t);
    LaterRead(Record(Reasoning()), Record(EasyMessage()), Record(MessageItem()), Record(FunctionToolCall()),
      Record(FunctionCallOutput()), Record(OutputMessage()), later, Object(fs));
  }

  /** The index that an output variant has among the input variants, other than messages, reasoning and calls. */
  function InputIndex(i: nat): nat { if i < 10 then i + 4 else i + 5 }

  lemma OutputIsLater(later: Shapes, i: nat, v: Val)
    requires later == LaterItems() && i >= 3 && TypedOption(OutputItems(), i, v)
    ensures TypedOption(later, InputIndex(i) - 6, v)
    ensures EncodeOption(later, InputIndex(i) - 6, v) == EncodeOption(OutputItems(), i, v)
  {
    ThreeFurther(Record(OutputMessage()), Record(Reasoning()), Record(OutputFunctionCall()), CommonItems(LastItems()),
      i, v);
    SharedLater(LastItems(), Record(OutputFunctionCall()), Record(McpApprovalResponse()), i - 3, v);
  }

  /** The alternatives of one union in the other, which has one alternative more before `last` and one at the start. */
  lemma SharedLater(last: Shapes, first: Shape, extra: Shape, n: nat, v: Val)
    requires TypedOption(CommonItems(last), n, v)
    ensures var later := Alternative(first, CommonItems(Alternative(extra, last)));
      var k := if n < 7 then n + 1 else n + 2;
      TypedOption(later, k, v) && EncodeOption(later, k, v) == EncodeOption(CommonItems(last), n, v)
  {
    var end := Alternative(extra, last);
    CommonOption(last, n, v);
    if n < 7 {
      CommonOption(end, n, v);
      OneFurther(first, CommonItems(end), n + 1, v);
    } else {
      CommonOption(end, n + 1, v);
      OneFurther(extra, last, n - 6, v);
      OneFurther(first, CommonItems(end), n + 2, v);
    }
  }

  lemma OneFurther(a: Shape, rest: Shapes, n: nat, v: Val)
    requires n > 0
    ensures TypedOption(Alternative(a, rest), n, v) <==> TypedOption(rest, n - 1, v)
    ensures TypedOption(rest, n - 1, v) ==> EncodeOption(Alternative(a, rest), n, v) == EncodeOption(rest, n - 1, v)
  {
  }

  lemma ThreeFurther(a: Shape, b: Shape, c: Shape, rest: Shapes, n: nat, v: Val)
    requires n >= 3
    ensures var all := Alternative(a, Alternative(b, Alternative(c, rest)));
      && (TypedOption(all, n, v) <==> TypedOption(rest, n - 3, v))
      && (TypedOption(rest, n - 3, v) ==> EncodeOption(all, n, v) == EncodeOption(rest, n - 3, v))
  {
    OneFurther(a, Alternative(b, Alternative(c, rest)), n, v);
    OneFurther(b, Alternative(c, rest), n - 1, v);
    OneFurther(c, rest, n - 2, v);
  }

  /** The eleven output variants other than messages, reasoning and function calls come back as what they were. */
  lemma OutputAsInput(later: Shapes, i: nat, v: Val)
    requires later == LaterItems() && i >= 3 && TypedOption(OutputItems(), i, v)
    ensures Decode(FirstOf(InputItems(later)), EncodeOption(OutputItems(), i, v)) == Some(OptionV(InputIndex(i), v))
  {
    OutputIsLater(later, i, v);
    LaterAsInput(later, InputIndex(i) - 6, v);
  }

  /** So does reasoning, which is tried first. */
  lemma ReasoningAsInput(later: Shapes, vals: Vals)
    requires TypedFields(Reasoning(), vals)
    ensures Decode(FirstOf(InputItems(later)), Object(EncodeFields(Reasoning(), vals)))
      == Some(OptionV(0, RecordV(vals)))
  {
    var j := Object(EncodeFields(Reasoning(), vals));
    ReasoningSound();
    RoundTrip(Record(Reasoning()), RecordV(vals));
    InOrder(Record(Reasoning()), Record(EasyMessage()), Record(MessageItem()), Record(FunctionToolCall()),
      Record(FunctionCallOutput()), Record(OutputMessage()), later, j);
  }

  // ---------- function calls ----------

  /** A text option as it is written before other fields. */
  function IdThen(id: Val, rest: Fields): Fields {
    if id.SomeV? && id.v.TextV? then Field("id", String(id.v.s), rest) else rest
  }

  /** A status option as it is written. */
  function StatusField(status: Val): Fields {
    if status.SomeV? && status.v.ChoiceV? then Field("status", String(status.v.name), Empty) else Empty
  }

  /** The encoding of an output function call. */
  function CallFields(id: Val, name: string, arguments: string, callId: string, status: Val): Fields {
    Field("type", String("function_call"), IdThen(id, Field("name", String(name), Field("arguments", String(arguments),
      Field("call_id", String(callId), StatusField(status))))))
  }

  /** The values of an output function call. */
  function CallVals(id: Val, name: string, arguments: string, callId: string, status: Val): Vals {
    Then(ChoiceV("function_call"), Then(id, Then(TextV(name),
      Then(TextV(arguments), Then(TextV(callId), Then(status, NoVals))))))
  }

  /** The same call as a function tool call, which needs an id. */
  function ToolVals(id: string, name: string, arguments: string, callId: string, status: Val): Vals {
    Then(ChoiceV("function_call"), Then(TextV(id), Then(TextV(callId),
      Then(TextV(name), Then(TextV(arguments), Then(status, NoVals))))))
  }

  predicate IsId(id: Val) { id.NoneV? || (id.SomeV? && id.v.TextV?) }

  predicate IsStatus(status: Val) {
    status.NoneV? || (status.SomeV? && status.v.ChoiceV? && Typed(CALL_STATUS, status.v))
  }

  lemma CallTyped(id: Val, name: string, arguments: string, callId: string, status: Val)
    requires IsId(id) && IsStatus(status)
    ensures TypedFields(OutputFunctionCall(), CallVals(id, name, arguments, callId, status))
    ensures EncodeFields(OutputFunctionCall(), CallVals(id, name, arguments, callId, status))
      == CallFields(id, name, arguments, callId, status)
  {
    var m := OutputFunctionCall();
    var v5 := Then(status, NoVals);
    var v4 := Then(TextV(callId), v5);
    var v3 := Then(TextV(arguments), v4);
    var v2 := Then(TextV(name), v3);
    var v1 := Then(id, v2);
    var f4 := Field("call_id", String(callId), StatusField(status));
    assert TypedFields(m.rest.rest.rest.rest.rest, v5) && EncodeFields(m.rest.rest.rest.rest.rest, v5)
      == StatusField(status);
    assert TypedFields(m.rest.rest.rest.rest, v4) && EncodeFields(m.rest.rest.rest.rest, v4) == f4;
    var f3 := Field("arguments", String(arguments), f4);
    assert TypedFields(m.rest.rest.rest, v3) && EncodeFields(m.rest.rest.rest, v3) == f3;
    var f2 := Field("name", String(name), f3);
    assert TypedFields(m.rest.rest, v2) && EncodeFields(m.rest.rest, v2) == f2;
    assert TypedFields(m.rest, v1) && EncodeFields(m.rest, v1) == IdThen(id, f2);
  }

  /** Every output function call has this form. */
  lemma CallForm(vals: Vals) returns (id: Val, name: string, arguments: string, callId: string, status: Val)
    requires TypedFields(OutputFunctionCall(), vals)
    ensures IsId(id) && IsStatus(status) && vals == CallVals(id, name, arguments, callId, status)
  {
    var m := OutputFunctionCall();
    assert TypedFields(m.rest, vals.tail);
    assert TypedFields(m.rest.rest, vals.tail.tail);
    assert TypedFields(m.rest.rest.rest, vals.tail.tail.tail);
    assert TypedFields(m.rest.rest.rest.rest, vals.tail.tail.tail.tail);
    assert TypedFields(m.rest.rest.rest.rest.rest, vals.tail.tail.tail.tail.tail);
    id, name, arguments := vals.tail.head, vals.tail.tail.head.s, vals.tail.tail.tail.head.s;
    callId, status := vals.tail.tail.tail.tail.head.s, vals.tail.tail.tail.tail.tail.head;
  }

  /** What a reader of single fields finds. */
  lemma CallGets(id: Val, name: string, arguments: string, callId: string, status: Val)
    requires IsId(id) && IsStatus(status)
    ensures var fs := CallFields(id, name, arguments, callId, status);
      && Get(fs, "type") == Some(String("function_call"))
      && Get(fs, "id") == (if id.SomeV? then Some(String(id.v.s)) else None)
      && Get(fs, "call_id") == Some(String(callId)) && Get(fs, "name") == Some(String(name))
      && Get(fs, "arguments") == Some(String(arguments)) && Get(fs, "status") == Get(StatusField(status), "status")
  {
    var f4 := Field("call_id", String(callId), StatusField(status));
    var f3 := Field("arguments", String(arguments), f4);
    var f2 := Field("name", String(name), f3);
    var f1 := IdThen(id, f2);
    assert Get(f4, "id") == None && Get(f4, "status") == Get(StatusField(status), "status");
    assert Get(f3, "id") == None && Get(f3, "call_id") == Some(String(callId))
      && Get(f3, "status") == Get(f4, "status");
    assert "name"[0] == 'n' && "type"[0] == 't';
    assert Get(f2, "id") == None && Get(f2, "call_id") == Some(String(callId))
      && Get(f2, "arguments") == Some(String(arguments));
    assert Get(f2, "name") == Some(String(name)) && Get(f2, "status") == Get(f4, "status");
    assert Get(f1, "call_id") == Get(f2, "call_id") && Get(f1, "arguments") == Get(f2, "arguments");
    assert Get(f1, "name") == Get(f2, "name") && Get(f1, "status") == Get(f4, "status");
  }

  /** A function tool call takes it exactly when it has an id. */
  lemma ToolTakes(id: Val, name: string, arguments: string, callId: string, status: Val)
    requires IsId(id) && IsStatus(status)
    ensures DecodeFields(FunctionToolCall(), CallFields(id, name, arguments, callId, status))
         == (if id.SomeV? then Some(ToolVals(id.v.s, name, arguments, callId, status)) else None)
  {
    var fs := CallFields(id, name, arguments, callId, status);
    var m := FunctionToolCall();
    CallGets(id, name, arguments, callId, status);
    assert DecodeFields(m.rest.rest.rest.rest.rest, fs) == Some(Then(status, NoVals));
    PresentField(m.rest.rest.rest.rest, fs, String(arguments));
    PresentField(m.rest.rest.rest, fs, String(name));
    PresentField(m.rest.rest, fs, String(callId));
    if id.SomeV? { PresentField(m.rest, fs, String(id.v.s)); }
    PresentField(m, fs, String("function_call"));
  }

  lemma FourthOrSeventh(a: Shape, b: Shape, c: Shape, d: Shape, e: Shape, f: Shape, later: Shapes, j: Json)
    requires Decode(a, j).None? && Decode(b, j).None? && Decode(c, j).None? && Decode(e, j).None? && Decode(f, j).None?
    ensures Decode(FirstOf(Alternative(a, Alternative(b, Alternative(c,
      Alternative(d, Alternative(e, Alternative(f, later))))))), j)
         == (if Decode(d, j).Some? then Some(OptionV(3, Decode(d, j).value)) else DecodeFirst(later, 6, j))
  {
    InOrder(a, b, c, d, e, f, later, j);
  }

  lemma FormAsInput(later: Shapes, id: Val, name: string, arguments: string, callId: string, status: Val)
    requires later == LaterItems() && IsId(id) && IsStatus(status)
    ensures Decode(FirstOf(InputItems(later)), Object(CallFields(id, name, arguments, callId, status)))
         == Some(if id.SomeV? then OptionV(3, RecordV(ToolVals(id.v.s, name, arguments, callId, status)))
                 else OptionV(6, RecordV(CallVals(id, name, arguments, callId, status))))
  {
    var fs, vals := CallFields(id, name, arguments, callId, status), CallVals(id, name, arguments, callId, status);
    CallTyped(id, name, arguments, callId, status);
    CallGets(id, name, arguments, callId, status);
    TaggedRefuse(fs, "function_call");
    InputsRefuse(fs, "function_call");
    ToolTakes(id, name, arguments, callId, status);
    RecordFromObject(FunctionToolCall(), fs);
    FourthOrSeventh(Record(Reasoning()), Record(EasyMessage()), Record(MessageItem()), Record(FunctionToolCall()),
      Record(FunctionCallOutput()), Record(OutputMessage()), later, Object(fs));
    FirstLater(later, vals, fs);
  }

  /** The values of an output function call with an id, as a function tool call orders them. */
  function Reordered(vals: Vals): Vals
    requires TypedFields(OutputFunctionCall(), vals) && vals.tail.head.SomeV?
  {
    var id, name, arguments, callId := vals.tail.head.v, vals.tail.tail.head, vals.tail.tail.tail.head,
      vals.tail.tail.tail.tail.head;
    Then(vals.head, Then(id, Then(callId, Then(name, Then(arguments, vals.tail.tail.tail.tail.tail)))))
  }

  /** An output function call without an id is read back as itself; one with an id is taken by the function tool call
      before it, with the same contents. */
  lemma CallAsInput(later: Shapes, vals: Vals)
    requires later == LaterItems() && TypedFields(OutputFunctionCall(), vals)
    ensures var read := Decode(FirstOf(InputItems(later)), Object(EncodeFields(OutputFunctionCall(), vals)));
      && (read == Some(OptionV(6, RecordV(vals))) <==> vals.tail.head.NoneV?)
      && (!vals.tail.head.NoneV? ==> vals.tail.head.SomeV? && read == Some(OptionV(3, RecordV(Reordered(vals)))))
  {
    var id, name, arguments, callId, status := CallForm(vals);
    CallTyped(id, name, arguments, callId, status);
    FormAsInput(later, id, name, arguments, callId, status);
  }

  lemma FirstLater(later: Shapes, vals: Vals, fs: Fields)
    requires later == LaterItems() && TypedFields(OutputFunctionCall(), vals)
      && fs == EncodeFields(OutputFunctionCall(), vals)
    ensures DecodeFirst(later, 6, Object(fs)) == Some(OptionV(6, RecordV(vals)))
  {
    FunctionCallSound();
    RoundTrip(Record(OutputFunctionCall()), RecordV(vals));
    OneFirst(Record(OutputFunctionCall()), later.rest, 6, Object(fs));
  }
}
