/** `MCPClient.process_query` and `MCPClient.chat_loop`, proved against `Resolution.Resolve`. */
module Client {
  import opened Wrappers
  import opened Catalog
  import opened Strings
  import opened Conversation
  import opened Resolution

  /**
   * Answers one query. The history and the answer buffer are lists extended in place; the loop
   * runs over the content of the first response only, even though `response` is reassigned to
   * each continuation. Besides the reply, returns the final history and, in order, every LLM
   * request and every tool call made.
   */
  method ProcessQuery(remote: Remote, query: string)
    returns (reply: Result<string, QueryError>, history: seq<Message>, llmCalls: seq<LlmRequest>, toolCalls: seq<ToolRequest>)
    ensures var t := Resolve(remote, query);
      reply == Reply(t) && history == t.history && llmCalls == t.llmCalls && toolCalls == t.toolCalls
  {
    history := [QueryMessage(query)];
    llmCalls, toolCalls := [], [];
    var listed := remote.listTools;
    if listed.Failure? {
      reply := Failure(ListToolsFailed(listed.error));
      return;
    }
    var availableTools := ToAnthropicTools(listed.value);
    var request := LlmRequest(Model, MaxTokens, history, Some(availableTools));
    llmCalls := [request];
    var response := remote.llm(request);
    if response.Failure? {
      reply := Failure(ApiFailed(response.error));
      return;
    }
    var content := response.value;
    var finalText: seq<string> := [];
    ghost var start := Turn(history, [], llmCalls, [], None);
    for i := 0 to |content|
      invariant Walk(remote, start, content[..i]) == Turn(history, finalText, llmCalls, toolCalls, None)
    {
      assert content[..i + 1][..i] == content[..i];
      ghost var before := Turn(history, finalText, llmCalls, toolCalls, None);
      assert Walk(remote, start, content[..i + 1]) == Step(remote, before, content[i]);
      match content[i]
      case Text(text) =>
        finalText := finalText + [text];
      case Other =>
      case ToolUse(name, input, text) =>
        var call := ToolRequest(name, input);
        toolCalls := toolCalls + [call];
        var result := remote.callTool(call);
        if result.Failure? {
          reply := Failure(ToolFailed(result.error));
          StopsAtFailure(remote, start, content, i + 1);
          return;
        }
        finalText := finalText + [CallLog(remote.show, call)];
        if text.Some? && text.value != "" {
          history := history + [Message(Assistant, TextContent(text.value))];
        }
        history := history + [ResultMessage(result.value)];
        assert history == before.history + Commentary(text) + [ResultMessage(result.value)];
        var continuation := Continuation(history);
        llmCalls := llmCalls + [continuation];
        response := remote.llm(continuation);
        var first := ContinuationText(response);
        if first.Failure? {
          reply := Failure(first.error);
          StopsAtFailure(remote, start, content, i + 1);
          return;
        }
        finalText := finalText + [first.value];
    }
    assert content[..|content|] == content;
    reply := Success(Join("\n", finalText));
  }

  /** `str(e)` of the exception that ended a query. */
  function Describe(e: QueryError): string
  {
    match e
    case ListToolsFailed(reason) => reason
    case ApiFailed(reason) => reason
    case ToolFailed(reason) => reason
    case EmptyContinuation => "list index out of range"
    case ContinuationWithoutText => "object has no attribute 'text'"
  }

  /** What the shell prints for a query's outcome: the answer, or the caught error. */
  function Display(reply: Result<string, QueryError>): string
  {
    match reply
    case Success(answer) => "\n" + answer
    case Failure(e) => "\nError: " + Describe(e)
  }

  /** A caught error is never shown the way an answer is, unless that answer itself starts with `Error: `. */
  lemma DisplayTellsFailureApart(e: QueryError, answer: string)
    requires !("Error: " <= answer)
    ensures Display(Failure(e)) != Display(Success(answer))
  {
    var shown := Display(Failure(e));
    assert shown[1..8] == "Error: ";
  }

  /** What the shell prints for one input line that is not `quit`: each query starts afresh. */
  function Respond(remote: Remote, line: string): string
  {
    Display(Reply(Resolve(remote, Strip(line))))
  }

  predicate IsQuit(line: string)
  {
    Lower(Strip(line)) == "quit"
  }

  /** The index of the first line that asks to quit, or the number of lines. */
  function QuitAt(lines: seq<string>): (k: nat)
    ensures k <= |lines|
    ensures forall j :: 0 <= j < k ==> !IsQuit(lines[j])
    ensures k < |lines| ==> IsQuit(lines[k])
    decreases |lines|
  {
    if lines == [] then 0
    else if IsQuit(lines[0]) then 0
    else 1 + QuitAt(lines[1..])
  }

  /** One turn of the shell: strip the line, stop on `quit`, otherwise answer it and catch any error. */
  method ReadEvalPrint(remote: Remote, line: string) returns (quit: bool, shown: string)
    ensures quit == IsQuit(line)
    ensures !quit ==> shown == Respond(remote, line)
  {
    var query := Strip(line);
    quit := Lower(query) == "quit";
    shown := "";
    if !quit {
      var reply, _, _, _ := ProcessQuery(remote, query);
      shown := Display(reply);
    }
  }

  /** What the shell prints for each of `lines`, none of which asks to quit. */
  function Answers(remote: Remote, lines: seq<string>): (r: seq<string>)
    ensures |r| == |lines|
    decreases |lines|
  {
    if lines == [] then [] else Answers(remote, lines[..|lines| - 1]) + [Respond(remote, lines[|lines| - 1])]
  }

  /** Each answer is the response to the line at the same place. */
  lemma {:induction false} AnswersRespond(remote: Remote, lines: seq<string>)
    ensures forall j :: 0 <= j < |lines| ==> Answers(remote, lines)[j] == Respond(remote, lines[j])
    decreases |lines|
  {
    if lines != [] {
      var init := lines[..|lines| - 1];
      AnswersRespond(remote, init);
      forall j | 0 <= j < |lines| ensures Answers(remote, lines)[j] == Respond(remote, lines[j]) {
        if j < |init| {
          assert lines[j] == init[j];
        }
      }
    }
  }

  /**
   * The shell over a finite sequence of input lines: every line before the first `quit` is
   * answered, a failed query included, and the lines after it are never read.
   */
  method ChatLoop(remote: Remote, lines: seq<string>) returns (shown: seq<string>)
    ensures |shown| == QuitAt(lines)
    ensures forall j :: 0 <= j < |shown| ==> shown[j] == Respond(remote, lines[j])
  {
    shown := [];
    var i := 0;
    while i < |lines|
      invariant i <= QuitAt(lines)
      invariant shown == Answers(remote, lines[..i])
    {
      var quit, response := ReadEvalPrint(remote, lines[i]);
      if quit {
        assert i == QuitAt(lines);
        break;
      }
      assert lines[..i + 1][..i] == lines[..i];
      shown := shown + [response];
      i := i + 1;
    }
    AnswersRespond(remote, lines[..i]);
  }
}
