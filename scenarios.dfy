/** Two worked queries against scripted remote parties. */
module Scenarios {
  import opened Wrappers
  import opened Json
  import opened Catalog
  import opened Strings
  import opened Conversation
  import opened Resolution

  const AddArgs: Value := Object([("a", Number(2)), ("b", Number(3))])

  /** A server with one `add` tool and an LLM that asks for it first and then states the sum. */
  function AddingRemote(): Remote
  {
    Remote(
      Success([ToolDescriptor("add", Some("Add two numbers"), Object([]))]),
      (request: LlmRequest) =>
        if request.tools.Some? then Success([ToolUse("add", AddArgs, None)])
        else Success([Text("The sum is 5")]),
      (call: ToolRequest) => Success(ToolResult([Str("5")], false)),
      (args: Value) => "{'a': 2, 'b': 3}")
  }

  const AddQuery: string := "Add 2 and 3"
  const AddLog: string := "[Calling tool add with args {'a': 2, 'b': 3}]"
  const AddResult: ToolResult := ToolResult([Str("5")], false)

  /** The state before the first response's blocks are walked. */
  function AddStart(): Turn
  {
    Turn([QueryMessage(AddQuery)], [], [FirstRequest(AddQuery, AddingRemote().listTools.value)], [], None)
  }

  /** The single tool-use block is dispatched once and continued once. */
  lemma AddStep()
    ensures Step(AddingRemote(), AddStart(), ToolUse("add", AddArgs, None)) == Turn(
      [QueryMessage(AddQuery), ResultMessage(AddResult)],
      [AddLog, "The sum is 5"],
      AddStart().llmCalls + [Continuation([QueryMessage(AddQuery), ResultMessage(AddResult)])],
      [ToolRequest("add", AddArgs)],
      None)
  {
    var remote := AddingRemote();
    var call := ToolRequest("add", AddArgs);
    assert remote.callTool(call) == Success(AddResult);
    var h := [QueryMessage(AddQuery), ResultMessage(AddResult)];
    assert AddStart().history + Commentary(None) + [ResultMessage(AddResult)] == h;
    assert remote.llm(Continuation(h)) == Success([Text("The sum is 5")]);
    AddLogLine();
  }

  /** The log line written for the `add` call. */
  lemma AddLogLine()
    ensures CallLog(AddingRemote().show, ToolRequest("add", AddArgs)) == AddLog
  {
    assert AddingRemote().show(AddArgs) == "{'a': 2, 'b': 3}";
    var prefix := "[Calling tool " + "add";
    assert prefix == "[Calling tool add";
    var named := prefix + " with args ";
    assert named == "[Calling tool add with args ";
    var shown := named + "{'a': 2, 'b': 3}";
    assert shown == "[Calling tool add with args {'a': 2, 'b': 3}";
    assert shown + "]" == AddLog;
  }

  /** The query walks exactly that one block. */
  lemma AddResolve()
    ensures Resolve(AddingRemote(), AddQuery) == Step(AddingRemote(), AddStart(), ToolUse("add", AddArgs, None))
  {
    var remote := AddingRemote();
    var blocks := [ToolUse("add", AddArgs, None)];
    assert remote.llm(FirstRequest(AddQuery, remote.listTools.value)) == Success(blocks);
    assert blocks[..0] == [];
    assert Walk(remote, AddStart(), blocks[..0]) == AddStart();
  }

  /**
   * One tool call, two LLM requests, and an answer that holds the tool-call log line before the
   * continuation's text.
   */
  lemma AddTwoNumbers()
    ensures var t := Resolve(AddingRemote(), AddQuery);
      && t.toolCalls == [ToolRequest("add", AddArgs)]
      && |t.llmCalls| == 2 && t.llmCalls[1].tools == None
      && t.history == [QueryMessage(AddQuery), Message(User, ToolResultContent([Str("5")]))]
      && Reply(t) == Success("[Calling tool add with args {'a': 2, 'b': 3}]\nThe sum is 5")
  {
    AddResolve();
    AddStep();
    var answer := [AddLog, "The sum is 5"];
    assert answer[..1] == [AddLog];
    assert Join("\n", answer) == AddLog + "\n" + "The sum is 5";
    assert AddLog + "\n" + "The sum is 5" == "[Calling tool add with args {'a': 2, 'b': 3}]\nThe sum is 5";
  }

  /** A server without tools whose LLM replies with one text block. */
  function PlainRemote(text: string): Remote
  {
    Remote(
      Success([]),
      (request: LlmRequest) => Success([Text(text)]),
      (call: ToolRequest) => Failure("no such tool"),
      (args: Value) => "")
  }

  /** With no tools and a plain text reply, the answer is that text and nothing else happens. */
  lemma PlainAnswer(query: string, text: string)
    ensures var t := Resolve(PlainRemote(text), query);
      && t.llmCalls == [FirstRequest(query, [])] && t.toolCalls == []
      && t.history == [QueryMessage(query)]
      && Reply(t) == Success(text)
  {
    var remote := PlainRemote(text);
    var first := FirstRequest(query, []);
    var start := Turn([QueryMessage(query)], [], [first], [], None);
    var blocks := [Text(text)];
    assert remote.llm(first) == Success(blocks);
    assert Walk(remote, start, blocks[..0]) == start;
    var after := Walk(remote, start, blocks);
    assert after == start.(answer := [text]);
    assert Resolve(remote, query) == after;
  }
}
