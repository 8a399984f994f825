/** Which items survive being encoded and decoded. */
module ResponseTheorems {
  import opened Basics
  import opened JsonValues
  import opened Codec
  import opened ResponseItems

  // ---------- every declaration can be decoded ----------

  lemma AnnotationSound()
    ensures Sound(Annotation())
  {
    assert SoundFields(FileCitation()) && SoundFields(UrlCitation());
    assert SoundFields(FilePath()) && SoundFields(ContainerFileCitation());
  }

  lemma OutputTextShapes(annotation: Shape)
    requires Sound(annotation)
    ensures SoundShapes(Need("text", Text, Default("annotations", Vector(annotation), VectorV(NoVals),
      Default("logprobs", Vector(Raw), VectorV(NoVals), NoMembers))))
  {
    var logprobs := Default("logprobs", Vector(Raw), VectorV(NoVals), NoMembers);
    assert SoundShapes(logprobs);
    assert SoundShapes(Default("annotations", Vector(annotation), VectorV(NoVals), logprobs));
  }

  lemma OutputTextSound()
    ensures SoundFields(OutputText())
  {
    AnnotationSound();
    assert DistinctNames(OutputText());
    OutputTextShapes(Annotation());
  }

  lemma OutputContentSound()
    ensures Sound(OutputContent())
  {
    OutputTextSound();
    assert SoundFields(Need("refusal", Text, NoMembers));
  }

  lemma MessageNames()
    ensures DistinctNames(OutputMessage()) && Tags(OutputMessage()) == ["message"]
  {
    assert "type"[0] == 't' && "role"[0] == 'r';
  }

  lemma MessageShapes(inner: Shape)
    requires Sound(inner)
    ensures SoundShapes(Need("id", Text, Tag("message", Need("role", Text, Need("content", Vector(inner),
      Opt("status", CALL_STATUS, OptDefault("phase", Choice(["commentary", "final_answer"]), NoMembers)))))))
  {
    var status := Opt("status", CALL_STATUS, OptDefault("phase", Choice(["commentary", "final_answer"]), NoMembers));
    var content := Need("content", Vector(inner), status);
    var role := Need("role", Text, content);
    assert SoundShapes(status);
    assert SoundShapes(content);
    assert SoundShapes(role);
    assert SoundShapes(Tag("message", role));
  }

  lemma MessageSound()
    ensures SoundFields(OutputMessage()) && Tags(OutputMessage()) == ["message"]
  {
    OutputContentSound();
    MessageNames();
    MessageShapes(OutputContent());
  }

  lemma ReasoningNames()
    ensures DistinctNames(Reasoning()) && Tags(Reasoning()) == ["reasoning"]
  {
  }

  lemma ReasoningShapes(content: Shape, summary: Shape)
    requires Sound(content) && Sound(summary)
    ensures SoundShapes(Tag("reasoning", Need("id", Text, OptDefault("content", Vector(content),
      Need("summary", Vector(summary),
      Opt("encrypted_content", Text, Opt("status", CALL_STATUS,
        Opt("signature", Text, Opt("format", REASONING_FORMAT, NoMembers)))))))))
  {
    var encrypted := Opt("encrypted_content", Text, Opt("status", CALL_STATUS,
      Opt("signature", Text, Opt("format", REASONING_FORMAT, NoMembers))));
    assert SoundShapes(encrypted);
    var s := Need("summary", Vector(summary), encrypted);
    assert SoundShapes(s);
    var c := OptDefault("content", Vector(content), s);
    assert SoundShapes(c);
    assert SoundShapes(Need("id", Text, c));
  }

  lemma ReasoningSound()
    ensures SoundFields(Reasoning()) && Tags(Reasoning()) == ["reasoning"]
  {
    assert Sound(TaggedText("reasoning_text")) && Sound(TaggedText("summary_text"));
    ReasoningNames();
    ReasoningShapes(TaggedText("reasoning_text"), TaggedText("summary_text"));
  }

  lemma FunctionCallSound()
    ensures SoundFields(OutputFunctionCall()) && Tags(OutputFunctionCall()) == ["function_call"]
  {
  }

  lemma WebSearchNames()
    ensures DistinctNames(WebSearchCall()) && Tags(WebSearchCall()) == ["web_search_call"]
  {
  }

  lemma WebSearchShapes(action: Shape, none: Val)
    requires Sound(action)
    ensures SoundShapes(Tag("web_search_call", Need("id", Text, Need("status", SEARCH_STATUS,
      Default("action", action, none, OptDefault("replay_content", Text, NoMembers))))))
  {
    var replay := OptDefault("replay_content", Text, NoMembers);
    assert SoundShapes(replay);
    var act := Default("action", action, none, replay);
    assert SoundShapes(act);
    assert SoundShapes(Need("id", Text, Need("status", SEARCH_STATUS, act)));
  }

  lemma WebSearchSound()
    ensures SoundFields(WebSearchCall()) && Tags(WebSearchCall()) == ["web_search_call"]
  {
    assert SoundFields(WebSearchAction());
    WebSearchNames();
    WebSearchShapes(Record(WebSearchAction()), NO_SEARCH);
  }

  lemma FileSearchSound()
    ensures SoundFields(FileSearchCall()) && Tags(FileSearchCall()) == ["file_search_call"]
  {
    assert SoundFields(SearchResult());
    var replay := OptDefault("replay_content", Text, NoMembers);
    assert SoundFields(replay) && SoundFields(Opt("results", Vector(Record(SearchResult())), replay));
  }

  lemma ShellCallNames()
    ensures DistinctNames(ShellCall()) && Tags(ShellCall()) == ["shell_call"]
  {
  }

  lemma ShellCallShapes(action: Shape, environment: Shape)
    requires Sound(action) && Sound(environment) && !environment.Nullable? && !environment.FirstOf?
    ensures SoundShapes(Tag("shell_call", Need("id", Text, Need("call_id", Text, Need("action", action,
      Need("status", CALL_STATUS, OptDefault("environment", environment,
        OptDefault("created_by", Text, NoMembers))))))))
  {
    var author := OptDefault("created_by", Text, NoMembers);
    assert SoundShapes(author);
    var e := OptDefault("environment", environment, author);
    assert SoundShapes(e);
    var s := Need("status", CALL_STATUS, e);
    assert SoundShapes(s);
    var a := Need("action", action, s);
    assert SoundShapes(a);
    assert SoundShapes(Need("id", Text, Need("call_id", Text, a)));
  }

  lemma ShellCallSound()
    ensures SoundFields(ShellCall()) && Tags(ShellCall()) == ["shell_call"]
  {
    assert SoundFields(ShellAction());
    assert Sound(ShellEnvironment());
    ShellCallNames();
    ShellCallShapes(Record(ShellAction()), ShellEnvironment());
  }

  lemma ShellChunkSound()
    ensures SoundFields(ShellChunk())
  {
    assert Sound(ShellOutcome());
  }

  lemma ContainerFileSound()
    ensures SoundFields(ContainerFile())
  {
  }

  lemma ShellOutputNames()
    ensures DistinctNames(ShellCallOutput()) && Tags(ShellCallOutput()) == ["shell_call_output"]
  {
    assert "status"[0] == 's' && "output"[0] == 'o';
  }

  lemma ShellOutputShapes(chunk: Shape, file: Shape)
    requires Sound(chunk) && Sound(file)
    ensures SoundShapes(Tag("shell_call_output", Need("id", Text, Need("call_id", Text, Need("status", CALL_STATUS,
      Need("output", Vector(chunk), OptDefault("max_output_length", U64,
      Few("output_files", file, OptDefault("created_by", Text, NoMembers)))))))))
  {
    var author := OptDefault("created_by", Text, NoMembers);
    assert SoundShapes(author);
    var files := Few("output_files", file, author);
    assert SoundShapes(files);
    var most := OptDefault("max_output_length", U64, files);
    assert SoundShapes(most);
    var output := Need("output", Vector(chunk), most);
    assert SoundShapes(output);
    var status := Need("status", CALL_STATUS, output);
    assert SoundShapes(status);
    assert SoundShapes(Need("id", Text, Need("call_id", Text, status)));
  }

  lemma ShellOutputSound()
    ensures SoundFields(ShellCallOutput()) && Tags(ShellCallOutput()) == ["shell_call_output"]
  {
    ShellChunkSound();
    ContainerFileSound();
    ShellOutputNames();
    ShellOutputShapes(Record(ShellChunk()), Record(ContainerFile()));
  }

  lemma McpSound()
    ensures SoundFields(McpListTools()) && Tags(McpListTools()) == ["mcp_list_tools"]
    ensures SoundFields(McpApprovalRequest()) && Tags(McpApprovalRequest()) == ["mcp_approval_request"]
  {
    assert SoundFields(McpTool());
  }

  lemma McpCallSound()
    ensures SoundFields(McpCall()) && Tags(McpCall()) == ["mcp_call"]
  {
  }

  lemma ToolSearchSound()
    ensures SoundFields(ToolSearchCall()) && Tags(ToolSearchCall()) == ["tool_search_call"]
    ensures SoundFields(ToolSearchOutput()) && Tags(ToolSearchOutput()) == ["tool_search_output"]
  {
  }

  lemma LastSound()
    ensures SoundFields(Compaction()) && Tags(Compaction()) == ["compaction"]
    ensures SoundFields(ImageGeneration()) && Tags(ImageGeneration()) == ["image_generation_call"]
  {
  }

  // ---------- unions of structs with a tag each ----------

  /** The alternatives are structs whose mandatory tags are the strings `tags`. */
  predicate TaggedBy(options: Shapes, tags: seq<string>) {
    if options.NoShapes? then tags == []
    else
      && tags != [] && options.shape.Record? && SoundFields(options.shape.fields)
      && Tags(options.shape.fields) == [tags[0]] && TaggedBy(options.rest, tags[1..])
  }

  lemma {:induction false} DistinctTagsApart(a: Shape, options: Shapes, tag: string, tags: seq<string>)
    requires a.Record? && Tags(a.fields) == [tag] && TaggedBy(options, tags) && tag !in tags
    ensures ApartFromAll(a, options)
    decreases options
  {
    if options.Alternative? { DistinctTagsApart(a, options.rest, tag, tags[1..]); }
  }

  /** Different mandatory tags are enough to tell the alternatives apart. */
  lemma {:induction false} DistinctTagsSound(options: Shapes, tags: seq<string>)
    requires TaggedBy(options, tags) && Distinct(tags)
    ensures SoundOptions(options)
    decreases options
  {
    if options.Alternative? {
      assert forall i :: 0 <= i < |tags[1..]| ==> tags[1..][i] == tags[i + 1];
      DistinctTagsApart(options.shape, options.rest, tags[0], tags[1..]);
      DistinctTagsSound(options.rest, tags[1..]);
    }
  }

  lemma TaggedStep(fields: Members, tag: string, rest: Shapes, tags: seq<string>)
    requires SoundFields(fields) && Tags(fields) == [tag] && TaggedBy(rest, tags)
    ensures TaggedBy(Alternative(Record(fields), rest), [tag] + tags)
  {
    assert ([tag] + tags)[1..] == tags;
  }

  const LAST_TAGS := ["tool_search_call", "tool_search_output", "compaction", "image_generation_call"]

  lemma LastTagged()
    ensures TaggedBy(LastItems(), LAST_TAGS)
  {
    LastSound();
    ToolSearchSound();
    var image := Alternative(Record(ImageGeneration()), NoShapes);
    TaggedStep(ImageGeneration(), "image_generation_call", NoShapes, []);
    var compaction := Alternative(Record(Compaction()), image);
    TaggedStep(Compaction(), "compaction", image, ["image_generation_call"]);
    TaggedStep(ToolSearchOutput(), "tool_search_output", compaction, ["compaction", "image_generation_call"]);
    TaggedStep(ToolSearchCall(), "tool_search_call", Alternative(Record(ToolSearchOutput()), compaction),
      ["tool_search_output", "compaction", "image_generation_call"]);
    assert LAST_TAGS == ["tool_search_call"] + ["tool_search_output", "compaction", "image_generation_call"];
  }

  predicate SoundTag(fields: Members, tag: string) { SoundFields(fields) && Tags(fields) == [tag] }

  lemma ThreeTagged(a: Members, ta: string, b: Members, tb: string, c: Members, tc: string, end: Shapes,
    tags: seq<string>)
    requires SoundTag(a, ta) && SoundTag(b, tb) && SoundTag(c, tc) && TaggedBy(end, tags)
    ensures TaggedBy(Alternative(Record(a), Alternative(Record(b), Alternative(Record(c), end))), [ta, tb, tc] + tags)
  {
    TaggedStep(c, tc, end, tags);
    var o1, t1 := Alternative(Record(c), end), [tc] + tags;
    TaggedStep(b, tb, o1, t1);
    var o2, t2 := Alternative(Record(b), o1), [tb] + t1;
    TaggedStep(a, ta, o2, t2);
    assert [ta] + t2 == [ta, tb, tc] + tags;
  }

  lemma WorkTagged(end: Shapes, tags: seq<string>)
    requires TaggedBy(end, tags)
    ensures TaggedBy(
      Alternative(Record(ShellCallOutput()), Alternative(Record(McpListTools()), Alternative(Record(McpCall()),
        Alternative(Record(McpApprovalRequest()), end)))),
      ["shell_call_output", "mcp_list_tools", "mcp_call"] + (["mcp_approval_request"] + tags))
  {
    McpSound();
    McpCallSound();
    ShellOutputSound();
    TaggedStep(McpApprovalRequest(), "mcp_approval_request", end, tags);
    ThreeTagged(ShellCallOutput(), "shell_call_output", McpListTools(), "mcp_list_tools", McpCall(), "mcp_call",
      Alternative(Record(McpApprovalRequest()), end), ["mcp_approval_request"] + tags);
  }

  const SEARCH_TAGS := ["web_search_call", "file_search_call", "shell_call"]
  const WORK_TAGS := ["shell_call_output", "mcp_list_tools", "mcp_call"]

  lemma CommonTagged(end: Shapes, tags: seq<string>)
    requires TaggedBy(end, tags)
    ensures TaggedBy(CommonItems(end), SEARCH_TAGS + (WORK_TAGS + (["mcp_approval_request"] + tags)))
  {
    WorkTagged(end, tags);
    ShellCallSound();
    FileSearchSound();
    WebSearchSound();
    ThreeTagged(WebSearchCall(), "web_search_call", FileSearchCall(), "file_search_call", ShellCall(), "shell_call",
      CommonItems(end).rest.rest.rest, WORK_TAGS + (["mcp_approval_request"] + tags));
  }

  const OUTPUT_TAGS :=
    ["message", "reasoning", "function_call", "web_search_call", "file_search_call", "shell_call", "shell_call_output",
     "mcp_list_tools", "mcp_call", "mcp_approval_request", "tool_search_call", "tool_search_output", "compaction",
       "image_generation_call"]

  lemma OutputTagsDistinct()
    ensures Distinct(OUTPUT_TAGS)
  {
    assert "file_search_call"[0] == 'f' && "tool_search_call"[0] == 't';
    assert "shell_call"[0] == 's' && "compaction"[0] == 'c';
  }

  /** The union of output items, for any declarations with these tags. */
  lemma UnionSound(message: Members, reasoning: Members, call: Members, common: Shapes, tags: seq<string>)
    requires SoundTag(message, "message") && SoundTag(reasoning, "reasoning") && SoundTag(call, "function_call")
    requires TaggedBy(common, tags) && ["message", "reasoning", "function_call"] + tags == OUTPUT_TAGS
    ensures SoundOptions(Alternative(Record(message), Alternative(Record(reasoning),
      Alternative(Record(call), common))))
  {
    ThreeTagged(message, "message", reasoning, "reasoning", call, "function_call", common, tags);
    OutputTagsDistinct();
    DistinctTagsSound(Alternative(Record(message), Alternative(Record(reasoning), Alternative(Record(call), common))),
      OUTPUT_TAGS);
  }

  lemma OutputTagsSplit()
    ensures ["message", "reasoning", "function_call"] + (SEARCH_TAGS
      + (WORK_TAGS + (["mcp_approval_request"] + LAST_TAGS))) == OUTPUT_TAGS
  {
  }

  lemma OutputItemsSound()
    ensures SoundOptions(OutputItems())
  {
    LastTagged();
    CommonTagged(LastItems(), LAST_TAGS);
    MessageSound();
    ReasoningSound();
    FunctionCallSound();
    OutputTagsSplit();
    UnionSound(OutputMessage(), Reasoning(), OutputFunctionCall(), CommonItems(LastItems()),
      SEARCH_TAGS + (WORK_TAGS + (["mcp_approval_request"] + LAST_TAGS)));
  }

  /** Every output item decodes back to itself, as the same variant. */
  lemma OutputItemRoundTrip(item: Val)
    requires Typed(OUTPUT_ITEM, item)
    ensures Decode(OUTPUT_ITEM, Encode(OUTPUT_ITEM, item)) == Some(item)
  {
    OutputItemsSound();
    RoundTrip(OUTPUT_ITEM, item);
  }

  // ---------- output messages sent back as input ----------

  /** What an encoded output message shows to a reader of its fields. */
  lemma MessageFields(vals: Vals)
    requires TypedFields(OutputMessage(), vals)
    ensures vals.Then? && vals.tail.Then? && vals.tail.tail.Then? && vals.tail.tail.tail.Then?
    ensures var fs := EncodeFields(OutputMessage(), vals);
      var role, content := vals.tail.tail.head, vals.tail.tail.tail.head;
      && role.TextV? && content.VectorV? && TypedAll(OutputContent(), content.items)
      && Get(fs, "type") == Some(String("message")) && Get(fs, "role") == Some(String(role.s))
      && Get(fs, "content") == Some(Array(EncodeAll(OutputContent(), content.items)))
  {
    var m := OutputMessage();
    assert TypedFields(m.rest, vals.tail);
    assert TypedFields(m.rest.rest, vals.tail.tail);
    assert TypedFields(m.rest.rest.rest, vals.tail.tail.tail);
    var content := EncodeFields(m.rest.rest.rest, vals.tail.tail.tail);
    var role := EncodeFields(m.rest.rest, vals.tail.tail);
    var tag := EncodeFields(m.rest, vals.tail);
    assert content.key == "content" && role.rest == content && role.key == "role" && tag.rest == role
      && tag.key == "type";
    var fs := EncodeFields(m, vals);
    assert fs.rest == tag && fs.key == "id";
    assert "type"[0] == 't' && "role"[0] == 'r';
    assert Get(role, "role") == Some(role.value) && Get(role, "content") == Some(content.value);
    assert Get(tag, "role") == Some(role.value) && Get(tag, "content") == Some(content.value);
    assert Get(tag, "type") == Some(tag.value);
    assert vals.tail.head == ChoiceV("message");
  }

  /** No part of an output message is a part of an input message. */
  lemma PartRefused(v: Val)
    requires Typed(OutputContent(), v)
    ensures Decode(InputContent(), Encode(OutputContent(), v)) == None
  {
    assert v.tag == "output_text" || v.tag == "refusal";
    assert "output_text"[0] == 'o' && "refusal"[0] == 'r';
    assert "input_text"[0] == 'i' && "input_image"[0] == 'i' && "input_file"[0] == 'i' && "input_audio"[0] == 'i';
  }

  /** The parts of an output message pass for input parts only when there are none. */
  lemma PartsRefused(items: Vals)
    requires TypedAll(OutputContent(), items)
    ensures DecodeAll(InputContent(), EncodeAll(OutputContent(), items))
      == (if items.NoVals? then Some(NoVals) else None)
  {
    if items.Then? { PartRefused(items.head); }
  }

  function Before(first: Option<Val>, more: Option<Vals>): Option<Vals> {
    if first.Some? && more.Some? then Some(Then(first.value, more.value)) else None
  }

  lemma PresentField(fields: Members, fs: Fields, j: Json)
    requires fields.Member? && Get(fs, fields.name) == Some(j)
    ensures DecodeFields(fields, fs) == Before(Decode(fields.shape, j), DecodeFields(fields.rest, fs))
  {
  }

  /** A struct of an optional field and two mandatory ones. */
  lemma ThreeFields(kind: Shape, role: Shape, content: Shape, fs: Fields, t: Json, r: Json, c: Json)
    requires Get(fs, "type") == Some(t) && Get(fs, "role") == Some(r) && Get(fs, "content") == Some(c)
    ensures DecodeFields(Opt("type", kind, Need("role", role, Need("content", content, NoMembers))), fs)
         == Before(Decode(Nullable(kind), t), Before(Decode(role, r), Before(Decode(content, c), Some(NoVals))))
  {
    var last := Need("content", content, NoMembers);
    PresentField(last, fs, c);
    PresentField(Need("role", role, last), fs, r);
    PresentField(Opt("type", kind, Need("role", role, last)), fs, t);
  }

  lemma PartsAsContent(items: Vals)
    requires TypedAll(OutputContent(), items)
    ensures Decode(EasyContent(), Array(EncodeAll(OutputContent(), items)))
         == (if items.NoVals? then Some(OptionV(1, VectorV(NoVals))) else None)
  {
    PartsRefused(items);
    assert Decode(Text, Array(EncodeAll(OutputContent(), items))) == None;
  }

  /** An easy message takes an output message exactly when its role is one of the four and it is empty. */
  lemma EasyTakes(fs: Fields, role: string, items: Vals)
    requires TypedAll(OutputContent(), items) && Get(fs, "type") == Some(String("message"))
    requires Get(fs, "role") == Some(String(role))
    requires Get(fs, "content") == Some(Array(EncodeAll(OutputContent(), items)))
    ensures DecodeFields(EasyMessage(), fs)
         == (if role in EASY_ROLES && items.NoVals? then
               Some(Then(SomeV(ChoiceV("message")), Then(ChoiceV(role), Then(OptionV(1, VectorV(NoVals)), NoVals))))
             else None)
  {
    PartsAsContent(items);
    ThreeFields(Choice(["message"]), Choice(EASY_ROLES), EasyContent(), fs, String("message"), String(role),
      Array(EncodeAll(OutputContent(), items)));
  }
}
