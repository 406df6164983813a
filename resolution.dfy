/**
 * The specification of `process_query`: the state after each content block of the first
 * LLM response, as a fold over those blocks.
 */
module Resolution {
  import opened Wrappers
  import opened Catalog
  import opened Strings
  import opened Conversation

  /**
   * The state of one query: the conversation history, the answer buffer, every LLM request
   * and every tool call made so far, and the error that ended the query, if any.
   */
  datatype Turn = Turn(
    history: seq<Message>,
    answer: seq<string>,
    llmCalls: seq<LlmRequest>,
    toolCalls: seq<ToolRequest>,
    failure: Option<QueryError>)

  function QueryMessage(query: string): Message
  {
    Message(User, TextContent(query))
  }

  /** The first LLM request: the initial history and the whole tool list. */
  function FirstRequest(query: string, tools: seq<ToolDescriptor>): LlmRequest
  {
    LlmRequest(Model, MaxTokens, [QueryMessage(query)], Some(ToAnthropicTools(tools)))
  }

  /** A continuation request: the history so far and no tool list. */
  function Continuation(history: seq<Message>): LlmRequest
  {
    LlmRequest(Model, MaxTokens, history, None)
  }

  /** The assistant message added before a tool result when the tool-use block has non-empty text. */
  function Commentary(text: Option<string>): (m: seq<Message>)
    ensures |m| <= 1
    ensures m != [] <==> text.Some? && text.value != ""
    ensures m != [] ==> m[0] == Message(Assistant, TextContent(text.value))
  {
    if text.Some? && text.value != "" then [Message(Assistant, TextContent(text.value))] else []
  }

  /** The user message that hands a tool's result back to the LLM. */
  function ResultMessage(result: ToolResult): Message
  {
    Message(User, ToolResultContent(result.content))
  }

  /** The answer line that logs a tool call. */
  function CallLog(show: Json.Value -> string, call: ToolRequest): string
  {
    "[Calling tool " + call.name + " with args " + show(call.args) + "]"
  }

  /** `response.content[0].text` of a continuation response. */
  function ContinuationText(response: Result<seq<Block>, string>): (r: Result<string, QueryError>)
    ensures response.Failure? ==> r == Failure(ApiFailed(response.error))
    ensures response.Success? && response.value == [] ==> r == Failure(EmptyContinuation)
    ensures response.Success? && response.value != [] && response.value[0].Text? ==>
      r == Success(response.value[0].text)
    ensures && response.Success? && response.value != []
            && response.value[0].ToolUse? && response.value[0].attachedText.Some?
            ==> r == Success(response.value[0].attachedText.value)
    ensures && response.Success? && response.value != []
            && (response.value[0].Other? || (response.value[0].ToolUse? && response.value[0].attachedText.None?))
            ==> r == Failure(ContinuationWithoutText)
    ensures r.Success? <==>
      response.Success? && response.value != [] &&
      (response.value[0].Text? || (response.value[0].ToolUse? && response.value[0].attachedText.Some?))
  {
    match response
    case Failure(e) => Failure(ApiFailed(e))
    case Success(blocks) =>
      if blocks == [] then Failure(EmptyContinuation)
      else match blocks[0]
        case Text(t) => Success(t)
        case ToolUse(_, _, Some(t)) => Success(t)
        case _ => Failure(ContinuationWithoutText)
  }

  /**
   * One iteration of the loop over the first response's blocks. A failed query stays failed;
   * otherwise the block adds at most one tool call and one LLM request.
   */
  function Step(remote: Remote, s: Turn, b: Block): (r: Turn)
    ensures s.failure.Some? ==> r == s
    ensures |r.toolCalls| <= |s.toolCalls| + 1 && |r.llmCalls| <= |s.llmCalls| + 1
  {
    if s.failure.Some? then s
    else match b
      case Text(t) => s.(answer := s.answer + [t])
      case Other => s
      case ToolUse(name, input, text) =>
        var call := ToolRequest(name, input);
        var dispatched := s.toolCalls + [call];
        match remote.callTool(call)
        case Failure(e) => s.(toolCalls := dispatched, failure := Some(ToolFailed(e)))
        case Success(result) =>
          var history := s.history + Commentary(text) + [ResultMessage(result)];
          var request := Continuation(history);
          var logged := s.answer + [CallLog(remote.show, call)];
          var t := Turn(history, logged, s.llmCalls + [request], dispatched, None);
          match ContinuationText(remote.llm(request))
          case Failure(e) => t.(failure := Some(e))
          case Success(text) => t.(answer := logged + [text])
  }

  /**
   * The state after the blocks `bs`, in order. A failed state is left as it is, and each block
   * adds at most one tool call and one LLM request.
   */
  function Walk(remote: Remote, s: Turn, bs: seq<Block>): (r: Turn)
    ensures s.failure.Some? ==> r == s
    ensures |r.toolCalls| <= |s.toolCalls| + |bs| && |r.llmCalls| <= |s.llmCalls| + |bs|
    decreases |bs|
  {
    if bs == [] then s else Step(remote, Walk(remote, s, bs[..|bs| - 1]), bs[|bs| - 1])
  }

  /** The walk only appends: history, answer and both call logs keep what they held. */
  lemma {:induction false} WalkOnlyAppends(remote: Remote, s: Turn, bs: seq<Block>)
    ensures var r := Walk(remote, s, bs);
      s.history <= r.history && s.answer <= r.answer && s.llmCalls <= r.llmCalls && s.toolCalls <= r.toolCalls
    decreases |bs|
  {
    if bs != [] {
      var before := Walk(remote, s, bs[..|bs| - 1]);
      WalkOnlyAppends(remote, s, bs[..|bs| - 1]);
      StepOnlyAppends(remote, before, bs[|bs| - 1]);
    }
  }

  /** A step only appends: history, answer and both call logs keep what they held. */
  lemma StepOnlyAppends(remote: Remote, s: Turn, b: Block)
    ensures var r := Step(remote, s, b);
      s.history <= r.history && s.answer <= r.answer && s.llmCalls <= r.llmCalls && s.toolCalls <= r.toolCalls
  {
    if s.failure.None? && b.ToolUse? && remote.callTool(ToolRequest(b.name, b.input)).Success? {
      var history := s.history + Commentary(b.attachedText) + [ResultMessage(remote.callTool(ToolRequest(b.name, b.input)).value)];
      assert s.history <= history;
    }
  }

  /**
   * The whole query: list the tools, call the LLM once with them, then walk its blocks. The
   * history always starts with the query, and the first LLM request, made exactly when the
   * tools could be listed, carries the initial history and the whole tool list.
   */
  function Resolve(remote: Remote, query: string): (r: Turn)
    ensures r.history != [] && r.history[0] == QueryMessage(query)
    ensures r.llmCalls == [] <==> remote.listTools.Failure?
    ensures remote.listTools.Success? ==> r.llmCalls[0] == FirstRequest(query, remote.listTools.value)
  {
    var history := [QueryMessage(query)];
    match remote.listTools
    case Failure(e) => Turn(history, [], [], [], Some(ListToolsFailed(e)))
    case Success(tools) =>
      var request := FirstRequest(query, tools);
      var start := Turn(history, [], [request], [], None);
      match remote.llm(request)
      case Failure(e) => start.(failure := Some(ApiFailed(e)))
      case Success(blocks) =>
        WalkOnlyAppends(remote, start, blocks);
        Walk(remote, start, blocks)
  }

  /** What `process_query` returns or raises. */
  function Reply(t: Turn): (r: Result<string, QueryError>)
    ensures r.Failure? <==> t.failure.Some?
  {
    if t.failure.Some? then Failure(t.failure.value) else Success(Join("\n", t.answer))
  }

  /** Once the query has failed, later blocks change nothing. */
  lemma {:induction false} StopsAtFailure(remote: Remote, s: Turn, bs: seq<Block>, k: nat)
    requires k <= |bs|
    requires Walk(remote, s, bs[..k]).failure.Some?
    ensures Walk(remote, s, bs) == Walk(remote, s, bs[..k])
    decreases |bs|
  {
    if k < |bs| {
      var init := bs[..|bs| - 1];
      assert init[..k] == bs[..k];
      StopsAtFailure(remote, s, init, k);
    } else {
      assert bs[..k] == bs;
    }
  }
}
