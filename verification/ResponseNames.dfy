/** Which keys each item must have, and which it may have. */
module ResponseNames {
  import opened Basics
  import opened JsonValues
  import opened Codec
  import opened CodecMeaning
  import opened ResponseItems

  /** The names of the members that must be there. */
  function Needed(fields: Members): seq<string> {
    if fields.NoMembers? then [] else (if fields.missing.Must? then [fields.name] else []) + Needed(fields.rest)
  }

  /** The names of the members that may be missing. */
  function Allowed(fields: Members): seq<string> {
    if fields.NoMembers? then [] else (if fields.missing.Must? then [] else [fields.name]) + Allowed(fields.rest)
  }

  /** An object without a needed key is refused; a key that is neither needed nor allowed is ignored. */
  lemma {:induction false} NamesMatter(fields: Members, fs: Fields, k: string, v: Json)
    ensures k in Needed(fields) && Get(fs, k) == None ==> DecodeFields(fields, fs) == None
    ensures k !in Needed(fields) && k !in Allowed(fields) ==>
      DecodeFields(fields, Put(fs, k, v)) == DecodeFields(fields, fs)
  {
    NamesExactly(fields, k);
    if Mandatory(fields, k) && Get(fs, k) == None { MustBeThere(fields, fs, k); }
    if !HasName(fields, k) { UnknownIgnored(fields, fs, k, v); }
  }

  lemma {:induction false} NamesExactly(fields: Members, k: string)
    ensures k in Needed(fields) <==> Mandatory(fields, k)
    ensures k in Needed(fields) || k in Allowed(fields) <==> HasName(fields, k)
  {
    if fields.Member? { NamesExactly(fields.rest, k); }
  }

  /** The keys of output messages and reasoning. */
  lemma MessageNames()
    ensures Needed(OutputMessage()) == ["id", "type", "role", "content"]
    ensures Allowed(OutputMessage()) == ["status", "phase"]
    ensures Needed(Reasoning()) == ["type", "id", "summary"]
    ensures Allowed(Reasoning()) == ["content", "encrypted_content", "status", "signature", "format"]
  {
  }

  /** The keys of function calls. */
  lemma CallNames()
    ensures Needed(OutputFunctionCall()) == ["type", "name", "arguments", "call_id"]
    ensures Allowed(OutputFunctionCall()) == ["id", "status"]
    ensures Needed(FunctionToolCall()) == ["type", "id", "call_id", "name", "arguments"]
    ensures Allowed(FunctionToolCall()) == ["status"]
    ensures Needed(FunctionCallOutput()) == ["type", "call_id", "output"]
    ensures Allowed(FunctionCallOutput()) == ["id", "status"]
  {
  }

  /** The keys of input messages. */
  lemma InputNames()
    ensures Needed(EasyMessage()) == ["role", "content"]
    ensures Allowed(EasyMessage()) == ["type"]
    ensures Needed(MessageItem()) == ["role", "content"]
    ensures Allowed(MessageItem()) == ["id", "type"]
  {
  }

  /** The keys of searches. */
  lemma SearchNames()
    ensures Needed(WebSearchCall()) == ["type", "id", "status"]
    ensures Allowed(WebSearchCall()) == ["action", "replay_content"]
    ensures Needed(WebSearchAction()) == ["type"]
    ensures Allowed(WebSearchAction()) == ["query", "queries", "sources"]
    ensures Needed(FileSearchCall()) == ["type", "id", "queries", "status"]
    ensures Allowed(FileSearchCall()) == ["results", "replay_content"]
    ensures Needed(SearchResult()) == ["file_id", "filename", "score", "text"]
    ensures Allowed(SearchResult()) == ["attributes"]
  {
  }

  /** The keys of shell calls. */
  lemma ShellNames()
    ensures Needed(ShellCall()) == ["type", "id", "call_id", "action", "status"]
    ensures Allowed(ShellCall()) == ["environment", "created_by"]
  {
  }

  /** The keys of shell actions. */
  lemma ShellActionNames()
    ensures Needed(ShellAction()) == ["commands"]
    ensures Allowed(ShellAction()) == ["timeout_ms", "max_output_length", "env", "working_directory"]
  {
  }

  /** The keys of shell outputs. */
  lemma ShellOutputNames()
    ensures Needed(ShellCallOutput()) == ["type", "id", "call_id", "status", "output"]
    ensures Allowed(ShellCallOutput()) == ["max_output_length", "output_files", "created_by"]
  {
  }

  /** The keys of the parts of a shell output. */
  lemma ShellChunkNames()
    ensures Needed(ShellChunk()) == ["stdout", "stderr", "outcome"]
    ensures Allowed(ShellChunk()) == ["created_by"]
  {
  }

  /** The keys of files in a container. */
  lemma ContainerFileNames()
    ensures Needed(ContainerFile()) == ["container_id", "file_id", "filename", "path", "bytes", "source"]
    ensures Allowed(ContainerFile()) == ["content_type"]
  {
  }

  /** The keys of MCP items. */
  lemma McpNames()
    ensures Needed(McpListTools()) == ["type", "id", "server_label", "tools"]
    ensures Allowed(McpListTools()) == ["error"]
    ensures Needed(McpTool()) == ["name", "input_schema"]
    ensures Allowed(McpTool()) == ["description", "annotations"]
    ensures Needed(McpCall()) == ["type", "id", "server_label", "name", "arguments", "status"]
    ensures Allowed(McpCall()) == ["output", "error", "approval_request_id"]
    ensures Needed(McpApprovalRequest()) == ["type", "id", "server_label", "name", "arguments"]
    ensures Allowed(McpApprovalRequest()) == []
    ensures Needed(McpApprovalResponse()) == ["type", "approval_request_id", "approve"]
    ensures Allowed(McpApprovalResponse()) == ["reason"]
  {
  }

  /** The keys of tool searches, compaction and images. */
  lemma OtherNames()
    ensures Needed(ToolSearchCall()) == ["type", "id", "execution", "arguments", "status"]
    ensures Allowed(ToolSearchCall()) == ["call_id"]
    ensures Needed(ToolSearchOutput()) == ["type", "id", "execution", "tools", "status"]
    ensures Allowed(ToolSearchOutput()) == ["call_id"]
    ensures Needed(Compaction()) == ["type", "id", "encrypted_content"]
    ensures Allowed(Compaction()) == ["created_by"]
    ensures Needed(ImageGeneration()) == ["type", "id", "status"]
    ensures Allowed(ImageGeneration()) == ["result"]
  {
  }
}
