# mcp-client query resolution, modelled in Dafny

This project models the core of a small Model Context Protocol (MCP) client. The client
starts one tool server as a child process and answers user queries by calling an LLM API.
The LLM may ask for tools, which the client runs on the server before asking the LLM to go on.

The model covers the following parts of `mcp-client/client.py`:

* `MCPClient.process_query`: one query, as a sequential state machine.
  * It lists the server's tools and maps them to the LLM's tool declarations.
  * It calls the LLM once with those tools.
  * It then walks the content blocks of that first response. Text blocks go to the answer
    buffer. Each tool-use block is dispatched with `call_tool`. Its result is appended to the
    history, and one continuation call is made to the LLM, without the tool list. The first
    block's text of that continuation goes to the answer.
  * The answer buffer is joined with newlines.
* The choice of `python` or `node` from the script's suffix, and the steps of
  `connect_to_server`.
* The tool-catalog list comprehension.
* `chat_loop`, over a finite sequence of input lines: an error in one query is shown and the
  loop goes on.

## How the model is built

* Remote parties are deterministic functions held in a `Conversation.Remote` value:
  * the tool server's answer to `list_tools`;
  * the LLM API, from a request (model, output bound, history snapshot, optional tool list)
    to a list of content blocks, or an error;
  * `call_tool`, from a tool name and arguments to a result, or an error;
  * the rendering of the tool arguments in the answer's log line (Python's `str` of a dict).
* `Resolution.Resolve` is the specification. It folds one step per block of the first
  response (`Resolution.Walk`) and records the history, the answer buffer, every LLM request
  and every tool call.
* `Client.ProcessQuery` is the imperative version. It has a loop over the first response's
  content and appends to the history and the answer buffer in place. Its contract proves that
  it equals `Resolve`, including its early exits on exceptions.
* `ResolutionProperties` gives independent reference definitions. They say, block by block and
  without threading a state, which tool calls are made, which messages are appended, which
  continuation requests are sent and which answer lines are written. `WalkClosedForm` proves
  the fold equal to them. The properties of a query are then proved from them.

Some behaviour of the code may be unexpected in such a client:

* The code makes a single pass over the first response. There is no loop over rounds, no
  termination on a tool-free response and no round limit. Tool-use blocks in continuation
  responses are never dispatched.
* The answer is not only the texts. For every tool-use block it holds the line
  `[Calling tool <name> with args <args>]` followed by the continuation's first text. So a
  query asking to add 2 and 3 (`Scenarios.AddTwoNumbers`) answers with
  `"[Calling tool add with args {'a': 2, 'b': 3}]\nThe sum is 5"`,
  not with `"The sum is 5"` alone.
* A server-reported tool error (the result's `isError` flag) is not looked at. That result is
  appended to the history like any other. Only an exception from `call_tool` ends the query.

## Model

| member | source | states |
|---|---|---|
| `Launch.ServerParameters` | mcp-client/client.py:37-49 | a path ending in `.py` gives command `python`, one ending in `.js` gives `node`, both with the path as the only argument and no extra environment; any other path is refused with the `ValueError` message |
| `Launch.Connect` | mcp-client/client.py:27-63 | a path with a bad suffix is refused before any process is started or any remote step is taken; otherwise the server is first spawned with the selected parameters, then initialized, then listed, and success announces exactly the listed tool names |
| `Catalog.ToAnthropicTools` | mcp-client/client.py:89-93 | the LLM's tool list has the server's length and order, and each entry copies name, description and input schema unchanged |
| `Catalog.CatalogRoundTrip` | mcp-client/client.py:89-93 | the mapping loses nothing: the server's tool list is recovered from the LLM's tool list |
| `Catalog.CatalogInjective` | mcp-client/client.py:89-93 | two server catalogs that give the same LLM tool list are equal |
| `Catalog.Names` | mcp-client/client.py:63 | the announced names are the tools' names, one per tool, in order |
| `Strings.JoinEnds` | mcp-client/client.py:144 | a join of one or more lines starts with the first line and ends with the last |
| `Strings.JoinCons` | mcp-client/client.py:144 | the join is the first line, the separator, then the join of the rest |
| `Strings.StripIsTrimmedSlice` | mcp-client/client.py:159 | the stripped query is a contiguous slice of the input, only whitespace was removed around it, and it neither starts nor ends with whitespace |
| `Strings.StripStartSpec` | mcp-client/client.py:159 | leading-whitespace removal keeps a suffix of the input, drops only whitespace, and leaves no leading whitespace |
| `Strings.StripEndSpec` | mcp-client/client.py:159 | trailing-whitespace removal keeps a prefix of the input, drops only whitespace, and leaves no trailing whitespace |
| `Strings.LowerPointwise` | mcp-client/client.py:162 | lower-casing keeps the length and maps each character on its own |
| `Resolution.Commentary` | mcp-client/client.py:122-126 | an assistant message precedes a tool result exactly when the tool-use block carries non-empty text, and it holds that text |
| `Resolution.ContinuationText` | mcp-client/client.py:134-141 | a continuation yields text exactly when the API call succeeded and its first block has a text, and then yields that text, whether the block is a text block or a tool use carrying text; an API error, an empty content list (`IndexError`) and a first block without text (`AttributeError`) each give their own error |
| `Resolution.Step` | mcp-client/client.py:108-141 | one block leaves a failed query as it is; otherwise it adds at most one tool call and at most one LLM request |
| `Resolution.StepOnlyAppends` | mcp-client/client.py:108-141 | one block only appends to the history, the answer buffer and both call logs |
| `Resolution.Walk` | mcp-client/client.py:107-141 | the loop over the blocks leaves a failed query as it is and makes at most one tool call and one LLM request per block |
| `Resolution.WalkOnlyAppends` | mcp-client/client.py:79-141 | history, answer buffer and both call logs are only ever appended to, never reordered or shortened |
| `Resolution.Resolve` | mcp-client/client.py:65-144 | on every outcome the history starts with the user message holding the query; an LLM request is made exactly when the tools could be listed, and the first one carries the initial history and the whole mapped tool list |
| `Resolution.Reply` | mcp-client/client.py:143-144 | a query raises exactly when an exception ended it |
| `Resolution.StopsAtFailure` | mcp-client/client.py:107-141 | once an exception has ended the query, the remaining blocks change nothing |
| `ResolutionProperties.StepPlain` | mcp-client/client.py:108-110 | a text block appends its text to the answer, and any other non-tool block is ignored, in agreement with the reference definitions |
| `ResolutionProperties.StepToolUse` | mcp-client/client.py:111-141 | a tool-use block adds exactly one tool call, the commentary and result messages, one continuation request and two answer lines, unless the tool call or the continuation fails |
| `ResolutionProperties.StepClosedForm` | mcp-client/client.py:107-141 | one more block of any kind keeps the fold in agreement with the reference definitions |
| `ResolutionProperties.WalkClosedForm` | mcp-client/client.py:104-141 | the walk over the first response succeeds exactly when every tool call and every continuation succeeds; the history, answer, LLM requests and tool calls are then exactly the reference definitions |
| `ResolutionProperties.WalkDispatchesInOrder` | mcp-client/client.py:107-117 | whatever the outcome, the tool calls made are a prefix of the tool-use blocks of the walked response, in emission order |
| `ResolutionProperties.StepContinuation` | mcp-client/client.py:127-138 | whatever happens in a step, the LLM request it adds, if any, goes without the tool list, with the fixed model and output bound, on a history that strictly extends the old one and is a prefix of the new one, and it ends with the user message holding a tool result |
| `ResolutionProperties.WalkContinuations` | mcp-client/client.py:107-141 | whatever the outcome of the walk, a failed one included, every LLM request it adds is such a continuation, on a history longer than the starting one and a prefix of the final one |
| `ResolutionProperties.ToolFailureEndsQuery` | mcp-client/client.py:116-131 | a failing `call_tool` ends the query with its error; no LLM call is made and nothing is added to history or answer for that block or after it |
| `ResolutionProperties.ContinuationFailureEndsQuery` | mcp-client/client.py:119-141 | a continuation without a leading text ends the query after its request, with the tool result already in the history and the log line in the answer |
| `ResolutionProperties.ClosedFormSizes` | mcp-client/client.py:104-141 | a completed walk makes one continuation request per tool-use block, appends one or two messages per tool-use block, and writes one answer line per text block and two per tool-use block |
| `ResolutionProperties.ContinuationsSeeResults` | mcp-client/client.py:127-138 | in a completed walk, every continuation request is made without the tool list, with the fixed model and output bound, on a history longer than the one the walk started from that is a prefix of the final history, and ends with a user message holding a tool result |
| `ResolutionProperties.ContinuationsCarryOwnResults` | mcp-client/client.py:111-138 | in a completed walk, the continuation requests pair up with the tool calls: each call succeeded, each continuation ends with the result of its own call, and each continuation's history is a proper prefix of the next one's |
| `ResolutionProperties.NoToolUseClosedForm` | mcp-client/client.py:107-110 | blocks without tool use always complete, append nothing, request nothing and contribute exactly their texts |
| `ResolutionProperties.ToolRequestsPrefix` | mcp-client/client.py:107-117 | for every prefix of the blocks, its tool calls are a prefix of the blocks' tool calls |
| `ResolutionProperties.ListToolsFailureEndsQuery` | mcp-client/client.py:86-87 | a failing `list_tools` ends the query before any LLM request or tool call |
| `ResolutionProperties.FirstCallFailureEndsQuery` | mcp-client/client.py:95-101 | a failing first LLM call ends the query after that single request, with no tool call |
| `ResolutionProperties.ResolveClosedForm` | mcp-client/client.py:65-144 | once the first response is in, the query succeeds exactly when its blocks complete, with history, answer, requests and tool calls as the reference definitions give them after the single first request |
| `ResolutionProperties.DispatchesOnlyFirstResponse` | mcp-client/client.py:107-141 | every tool call of a query is a tool-use block of the first response, in emission order; continuation responses are never dispatched |
| `ResolutionProperties.OnlyFirstCarriesTools` | mcp-client/client.py:95-141 | whatever the outcome of a query, its first LLM request carries the mapped tool list and every later one goes without it, with the fixed model and output bound, on a history longer than the query alone that is a prefix of the final history and ends with the user message holding a tool result |
| `ResolutionProperties.SuccessfulQueryShape` | mcp-client/client.py:87-144 | a successful query calls one tool per tool-use block in order and makes 1 + that many LLM requests, the first with the mapped tool list; the history grows by one or two messages per tool use; the answer has one line per text and two per tool use, newline-joined |
| `ResolutionProperties.SuccessfulContinuations` | mcp-client/client.py:87-144 | in a successful query every LLM request after the first goes without the tool list, on a history longer than the query alone and a prefix of the final history, ending with the result of the tool call at the same position; each such history is a proper prefix of the next |
| `ResolutionProperties.NoToolUseQuery` | mcp-client/client.py:104-144 | a first response without tool use makes exactly one LLM call and no tool call, leaves the history as the query alone, and answers with its texts joined by newlines |
| `Client.ProcessQuery` | mcp-client/client.py:65-144 | the in-place loop over the first response's content returns or raises what `Resolve` says, with the same final history, LLM requests and tool calls |
| `Client.DisplayTellsFailureApart` | mcp-client/client.py:166-172 | a caught error is never printed as an answer would be, unless that answer itself starts with `Error: ` |
| `Client.QuitAt` | mcp-client/client.py:156-163 | the loop stops at the first line that strips and lower-cases to `quit` and at no earlier line |
| `Client.ReadEvalPrint` | mcp-client/client.py:157-172 | one line is a quit request exactly when it strips and lower-cases to `quit`; any other line is answered as a fresh query, with an exception shown instead of raised |
| `Client.ChatLoop` | mcp-client/client.py:146-172 | every line before the first `quit` gets exactly one printed response computed from that line alone with a fresh history, a failed query included, and no line after `quit` is read |
| `Scenarios.AddStep` | mcp-client/client.py:111-141 | the `add` tool-use block is dispatched once, its result is appended as one user message, one continuation is requested, and the log line and the continuation's text are written |
| `Scenarios.AddResolve` | mcp-client/client.py:86-107 | the `add` query lists the tools, makes its first call, and walks that call's single block |
| `Scenarios.AddTwoNumbers` | mcp-client/client.py:104-144 | one `add` tool use gives one tool call, two LLM requests, and the answer of the log line and the continuation's text |
| `Scenarios.PlainAnswer` | mcp-client/client.py:104-110 | a plain text reply with no tools is the whole answer, after one LLM call and no tool call |

## Left out

* The Anthropic API client, the MCP `ClientSession`, `stdio_client` and the server process are
  not modelled. They are foreign network and process calls. They appear only as the functions
  of `Remote`, and `Connect` takes the server's answers as parameters.
  * A failure of process launch or of the stdio transport itself is not modelled.
  * The remote parties are deterministic functions of their requests. Replies that change from
    one call to the next are not modelled.
* `asyncio`, `await`, `AsyncExitStack` and `cleanup` are not modelled. They are asynchronous
  resource plumbing with no logic beyond closing once.
* `load_dotenv`, `sys.argv` handling and `main` are not modelled. They are environment and
  process I/O.
* `Client.ChatLoop`: the console is not modelled. It reads from a finite sequence of lines and
  returns, in order, the text printed for each line before `quit`, so `input()` and `print()`
  themselves are absent.
  * The two banner lines printed at start-up and the `Query: ` input prompt are not modelled.
  * The model's loop ends when the lines run out. The source instead catches the `EOFError`
    from `input()` and keeps asking.
  * An exception raised while printing is not modelled.
* `Client.Describe`: the text of an `AttributeError` is approximated. The source's text names
  the block's class, and the model does not.
* The exact Python rendering of the tool arguments is left abstract (`Remote.show`).
* `Strings.Lower`: only ASCII letters are lower-cased. For the comparison with `quit` this is
  exact, because no other character lower-cases to one of its letters.
* JSON numbers are integers only. Floating-point values in tool arguments, schemas or results
  are not modelled.
