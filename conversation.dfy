/** The data that flows through one query: messages, response blocks, requests and errors. */
module Conversation {
  import opened Wrappers
  import opened Json
  import opened Catalog

  /** The model identifier and output bound sent with every LLM request. */
  const Model: string := "claude-3-5-sonnet-20241022"
  const MaxTokens: nat := 1000

  datatype Role = User | Assistant

  /** A message carries either text or the content list of a tool result. */
  datatype Content = TextContent(text: string) | ToolResultContent(items: seq<Value>)

  datatype Message = Message(role: Role, content: Content)

  /**
   * A content block of an LLM response. A tool-use block may carry a `text` attribute;
   * blocks of any other type are `Other`.
   */
  datatype Block = Text(text: string) | ToolUse(name: string, input: Value, attachedText: Option<string>) | Other

  /** What `call_tool` returns. `isError` is the server's in-band failure flag. */
  datatype ToolResult = ToolResult(content: seq<Value>, isError: bool)

  /** One call of the LLM API: `tools` is present only when the tool list is passed. */
  datatype LlmRequest = LlmRequest(model: string, maxTokens: nat, messages: seq<Message>, tools: Option<seq<ToolSpec>>)

  /** One call of the tool server's `call_tool`. */
  datatype ToolRequest = ToolRequest(name: string, args: Value)

  /** Why a query ends with an exception instead of an answer. */
  datatype QueryError =
    | ListToolsFailed(reason: string)
    | ApiFailed(reason: string)
    | ToolFailed(reason: string)
    | EmptyContinuation        // `response.content[0]` on an empty content list
    | ContinuationWithoutText  // `response.content[0].text` on a block without `text`

  /**
   * The remote parties, as deterministic functions: the tool server's answer to `list_tools`,
   * the LLM API, the tool server's `call_tool`, and the rendering of tool arguments in the
   * answer's log line.
   */
  datatype Remote = Remote(
    listTools: Result<seq<ToolDescriptor>, string>,
    llm: LlmRequest -> Result<seq<Block>, string>,
    callTool: ToolRequest -> Result<ToolResult, string>,
    show: Value -> string)
}
