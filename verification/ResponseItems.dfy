/** The declarations of the Responses API items, as shapes. */
module ResponseItems {
  import opened Codec

  // ---------- the ways a field is declared ----------

  function Need(name: string, shape: Shape, rest: Members): Members { Member(name, shape, Must, false, rest) }

  /** An option that is left out when there is none. */
  function Opt(name: string, shape: Shape, rest: Members): Members {
    Member(name, Nullable(shape), Absent(NoneV), true, rest)
  }

  /** The same, with an explicit default. */
  function OptDefault(name: string, shape: Shape, rest: Members): Members {
    Member(name, Nullable(shape), Defaulted(NoneV), true, rest)
  }

  /** An option that is written as null when there is none. */
  function Shown(name: string, shape: Shape, rest: Members): Members {
    Member(name, Nullable(shape), Defaulted(NoneV), false, rest)
  }

  function Default(name: string, shape: Shape, v: Val, rest: Members): Members {
    Member(name, shape, Defaulted(v), false, rest)
  }

  /** A vector that is left out when it is empty. */
  function Few(name: string, of: Shape, rest: Members): Members {
    Member(name, Vector(of), Defaulted(VectorV(NoVals)), true, rest)
  }

  function Tag(name: string, rest: Members): Members { Need("type", Choice([name]), rest) }

  const U64 := Whole(0, 0x1_0000_0000_0000_0000)
  const I32 := Whole(-0x8000_0000, 0x8000_0000)
  const CALL_STATUS := Choice(["in_progress", "completed", "incomplete"])
  const SEARCH_STATUS := Choice(["completed", "searching", "in_progress", "failed"])
  const IMAGE_STATUS := Choice(["in_progress", "completed", "generating", "failed"])
  const MCP_STATUS := Choice(["in_progress", "calling", "completed", "incomplete", "failed"])
  const EXECUTION := Choice(["server", "client"])

  // ---------- messages ----------

  function FileCitation(): Members { Need("file_id", Text, Need("filename", Text, Need("index", U64, NoMembers))) }

  function UrlCitation(): Members {
    Need("url", Text, Need("title", Text, Need("start_index", U64, Need("end_index", U64, NoMembers))))
  }

  function FilePath(): Members { Need("file_id", Text, Need("index", U64, NoMembers)) }

  function ContainerFileCitation(): Members {
    Need("container_id", Text, Need("file_id", Text, Need("filename", Text,
    Default("start_index", U64, WholeV(0), Default("end_index", U64, WholeV(0), OptDefault("index", U64, NoMembers))))))
  }

  function Annotation(): Shape {
    Tagged(Case("file_citation", FileCitation(), Case("url_citation", UrlCitation(),
      Case("file_path", FilePath(), Case("container_file_citation", ContainerFileCitation(), NoCases)))))
  }

  function OutputText(): Members {
    Need("text", Text,
    Default("annotations", Vector(Annotation()), VectorV(NoVals),
    Default("logprobs", Vector(Raw), VectorV(NoVals), NoMembers)))
  }

  function OutputContent(): Shape {
    Tagged(Case("output_text", OutputText(), Case("refusal", Need("refusal", Text, NoMembers), NoCases)))
  }

  function OutputMessage(): Members {
    Need("id", Text, Tag("message", Need("role", Text, Need("content", Vector(OutputContent()),
    Opt("status", CALL_STATUS, OptDefault("phase", Choice(["commentary", "final_answer"]), NoMembers))))))
  }

  // ---------- reasoning ----------

  function TaggedText(tag: string): Shape { Record(Tag(tag, Need("text", Text, NoMembers))) }

  const REASONING_FORMAT :=
    Choice(["unknown", "openai-responses-v1", "xai-responses-v1", "anthropic-claude-v1", "google-gemini-v1"])

  function Reasoning(): Members {
    Tag("reasoning", Need("id", Text,
    OptDefault("content", Vector(TaggedText("reasoning_text")),
    Need("summary", Vector(TaggedText("summary_text")),
    Opt("encrypted_content", Text, Opt("status", CALL_STATUS, Opt("signature", Text,
    Opt("format", REASONING_FORMAT, NoMembers))))))))
  }

  // ---------- function calls ----------

  function OutputFunctionCall(): Members {
    Tag("function_call", Opt("id", Text, Need("name", Text, Need("arguments", Text, Need("call_id", Text,
    Opt("status", CALL_STATUS, NoMembers))))))
  }

  function FunctionToolCall(): Members {
    Tag("function_call", Need("id", Text, Need("call_id", Text, Need("name", Text, Need("arguments", Text,
    Opt("status", CALL_STATUS, NoMembers))))))
  }

  function FunctionCallOutput(): Members {
    Tag("function_call_output", Opt("id", Text, Need("call_id", Text,
      Need("output", Text, Opt("status", CALL_STATUS, NoMembers)))))
  }

  // ---------- searches ----------

  function WebSearchAction(): Members {
    Tag("search", Default("query", Text, TextV(""), Few("queries", Text,
    OptDefault("sources", Vector(Record(Tag("url", Need("url", Text, NoMembers)))), NoMembers))))
  }

  const NO_SEARCH := RecordV(Then(ChoiceV("search"), Then(TextV(""), Then(VectorV(NoVals), Then(NoneV, NoVals)))))

  function WebSearchCall(): Members {
    Tag("web_search_call", Need("id", Text, Need("status", SEARCH_STATUS,
    Default("action", Record(WebSearchAction()), NO_SEARCH, OptDefault("replay_content", Text, NoMembers)))))
  }

  function SearchResult(): Members {
    Need("file_id", Text, Need("filename", Text, Need("score", Real,
      Opt("attributes", Dict(Raw), Need("text", Text, NoMembers)))))
  }

  function FileSearchCall(): Members {
    Tag("file_search_call", Need("id", Text, Need("queries", Vector(Text), Need("status", SEARCH_STATUS,
    Opt("results", Vector(Record(SearchResult())), OptDefault("replay_content", Text, NoMembers))))))
  }

  // ---------- shell ----------

  function ShellAction(): Members {
    Need("commands", Vector(Text), OptDefault("timeout_ms", U64, OptDefault("max_output_length", U64,
    OptDefault("env", Dict(Text), OptDefault("working_directory", Text, NoMembers)))))
  }

  function ShellEnvironment(): Shape {
    Tagged(Case("local", NoMembers, Case("container_reference", Need("container_id", Text, NoMembers), NoCases)))
  }

  function ShellCall(): Members {
    Tag("shell_call", Need("id", Text, Need("call_id", Text, Need("action", Record(ShellAction()),
    Need("status", CALL_STATUS, OptDefault("environment", ShellEnvironment(),
      OptDefault("created_by", Text, NoMembers)))))))
  }

  function ShellOutcome(): Shape {
    Tagged(Case("exit", Need("exit_code", I32, NoMembers), Case("timeout", NoMembers, NoCases)))
  }

  function ShellChunk(): Members {
    Need("stdout", Text, Need("stderr", Text, Need("outcome", ShellOutcome(),
      OptDefault("created_by", Text, NoMembers))))
  }

  function ContainerFile(): Members {
    Need("container_id", Text, Need("file_id", Text, Need("filename", Text, Need("path", Text, Need("bytes", U64,
    Opt("content_type", Text, Need("source", Choice(["user", "assistant"]), NoMembers)))))))
  }

  function ShellCallOutput(): Members {
    Tag("shell_call_output", Need("id", Text, Need("call_id", Text, Need("status", CALL_STATUS,
    Need("output", Vector(Record(ShellChunk())), OptDefault("max_output_length", U64,
    Few("output_files", Record(ContainerFile()), OptDefault("created_by", Text, NoMembers))))))))
  }

  // ---------- MCP ----------

  function McpTool(): Members {
    Need("name", Text, OptDefault("description", Text, Need("input_schema", Raw,
      OptDefault("annotations", Raw, NoMembers))))
  }

  function McpListTools(): Members {
    Tag("mcp_list_tools", Need("id", Text, Need("server_label", Text, Need("tools", Vector(Record(McpTool())),
    Shown("error", Text, NoMembers)))))
  }

  function McpCall(): Members {
    Tag("mcp_call", Need("id", Text, Need("server_label", Text, Need("name", Text, Need("arguments", Text,
    Need("status", MCP_STATUS, Shown("output", Text, Shown("error", Text,
      Shown("approval_request_id", Text, NoMembers)))))))))
  }

  function McpApprovalRequest(): Members {
    Tag("mcp_approval_request", Need("id", Text, Need("server_label", Text,
      Need("name", Text, Need("arguments", Text, NoMembers)))))
  }

  function McpApprovalResponse(): Members {
    Tag("mcp_approval_response", Need("approval_request_id", Text,
      Need("approve", Flag, OptDefault("reason", Text, NoMembers))))
  }

  // ---------- tool search, compaction, images ----------

  function ToolSearchCall(): Members {
    Tag("tool_search_call", Need("id", Text, Shown("call_id", Text, Need("execution", EXECUTION, Need("arguments", Raw,
    Need("status", CALL_STATUS, NoMembers))))))
  }

  function ToolSearchOutput(): Members {
    Tag("tool_search_output", Need("id", Text, Shown("call_id", Text, Need("execution", EXECUTION,
    Need("tools", Vector(Raw), Need("status", CALL_STATUS, NoMembers))))))
  }

  function Compaction(): Members {
    Tag("compaction", Need("id", Text, Need("encrypted_content", Text, OptDefault("created_by", Text, NoMembers))))
  }

  function ImageGeneration(): Members {
    Tag("image_generation_call", Need("id", Text, Opt("result", Text, Need("status", IMAGE_STATUS, NoMembers))))
  }

  // ---------- input messages ----------

  const CACHE_CONTROL := Record(Need("type", Choice(["ephemeral"]), NoMembers))

  function InputText(): Members { Need("text", Text, Opt("cache_control", CACHE_CONTROL, NoMembers)) }

  function InputImage(): Members {
    Default("detail", Choice(["auto", "high", "low"]), ChoiceV("auto"),
      Opt("image_url", Text, Opt("cache_control", CACHE_CONTROL, NoMembers)))
  }

  function InputFile(): Members {
    Opt("file_id", Text, Opt("file_data", Text, Opt("filename", Text,
      Opt("file_url", Text, Opt("cache_control", CACHE_CONTROL, NoMembers)))))
  }

  function InputAudio(): Members {
    Need("input_audio", Record(Need("data", Text, Need("format", Choice(["mp3", "wav"]), NoMembers))),
      Opt("cache_control", CACHE_CONTROL, NoMembers))
  }

  function InputContent(): Shape {
    Tagged(Case("input_text", InputText(), Case("input_image", InputImage(), Case("input_file", InputFile(),
      Case("input_audio", InputAudio(), NoCases)))))
  }

  const EASY_ROLES := ["user", "system", "assistant", "developer"]
  const ITEM_ROLES := ["user", "system", "developer"]

  function EasyContent(): Shape { FirstOf(Alternative(Text, Alternative(Vector(InputContent()), NoShapes))) }

  function EasyMessage(): Members {
    Opt("type", Choice(["message"]), Need("role", Choice(EASY_ROLES), Need("content", EasyContent(), NoMembers)))
  }

  function MessageItem(): Members {
    Opt("id", Text, Opt("type", Choice(["message"]), Need("role", Choice(ITEM_ROLES),
      Need("content", Vector(InputContent()), NoMembers))))
  }

  // ---------- the unions ----------

  /** The alternatives after the function calls, which both unions share. */
  function CommonItems(end: Shapes): Shapes {
    Alternative(Record(WebSearchCall()), Alternative(Record(FileSearchCall()), Alternative(Record(ShellCall()),
    Alternative(Record(ShellCallOutput()), Alternative(Record(McpListTools()), Alternative(Record(McpCall()),
    Alternative(Record(McpApprovalRequest()), end)))))))
  }

  function LastItems(): Shapes {
    Alternative(Record(ToolSearchCall()), Alternative(Record(ToolSearchOutput()), Alternative(Record(Compaction()),
    Alternative(Record(ImageGeneration()), NoShapes))))
  }

  function OutputItems(): Shapes {
    Alternative(Record(OutputMessage()), Alternative(Record(Reasoning()),
      Alternative(Record(OutputFunctionCall()), CommonItems(LastItems()))))
  }

  const OUTPUT_ITEM := FirstOf(OutputItems())

  /** The input union up to the output message; `later` are the alternatives after it. */
  function InputItems(later: Shapes): Shapes {
    Alternative(Record(Reasoning()), Alternative(Record(EasyMessage()), Alternative(Record(MessageItem()),
    Alternative(Record(FunctionToolCall()), Alternative(Record(FunctionCallOutput()),
      Alternative(Record(OutputMessage()), later))))))
  }

  /** The alternatives of the input union after the output message. */
  function LaterItems(): Shapes {
    Alternative(Record(OutputFunctionCall()), CommonItems(Alternative(Record(McpApprovalResponse()), LastItems())))
  }
}
