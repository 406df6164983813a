/**
 * Reference definitions that say, block by block and without threading a state, what a query
 * dispatches, appends to its history, sends to the LLM and writes to its answer; and the
 * lemmas that the fold in `Resolution` agrees with them.
 */
module ResolutionProperties {
  import opened Wrappers
  import opened Catalog
  import opened Strings
  import opened Conversation
  import opened Resolution

  /** The tool calls the blocks ask for, in emission order. */
  function ToolRequests(bs: seq<Block>): (r: seq<ToolRequest>)
    decreases |bs|
  {
    if bs == [] then []
    else
      var init := ToolRequests(bs[..|bs| - 1]);
      match bs[|bs| - 1]
      case ToolUse(name, input, _) => init + [ToolRequest(name, input)]
      case _ => init
  }

  /** The texts of the text blocks, in emission order. */
  function Texts(bs: seq<Block>): seq<string>
    decreases |bs|
  {
    if bs == [] then []
    else
      var init := Texts(bs[..|bs| - 1]);
      match bs[|bs| - 1]
      case Text(t) => init + [t]
      case _ => init
  }

  /** The number of tool-use blocks whose text is non-empty. */
  function Commented(bs: seq<Block>): nat
    decreases |bs|
  {
    if bs == [] then 0
    else
      var last := bs[|bs| - 1];
      Commented(bs[..|bs| - 1]) + (if last.ToolUse? && Commentary(last.attachedText) != [] then 1 else 0)
  }

  /** The messages one block adds to the history when its tool call succeeds. */
  function Exchange(remote: Remote, b: Block): seq<Message>
  {
    match b
    case ToolUse(name, input, text) =>
      (match remote.callTool(ToolRequest(name, input))
       case Success(result) => Commentary(text) + [ResultMessage(result)]
       case Failure(_) => [])
    case _ => []
  }

  /** The messages the blocks add to the history. */
  function Appended(remote: Remote, bs: seq<Block>): seq<Message>
    decreases |bs|
  {
    if bs == [] then [] else Appended(remote, bs[..|bs| - 1]) + Exchange(remote, bs[|bs| - 1])
  }

  /** The continuation requests, for a history that was `h` before the blocks. */
  function Requests(remote: Remote, h: seq<Message>, bs: seq<Block>): seq<LlmRequest>
    decreases |bs|
  {
    if bs == [] then []
    else
      Requests(remote, h, bs[..|bs| - 1]) +
      (if bs[|bs| - 1].ToolUse? then [Continuation(h + Appended(remote, bs))] else [])
  }

  /** The answer lines the blocks contribute. */
  function Transcript(remote: Remote, h: seq<Message>, bs: seq<Block>): seq<string>
    decreases |bs|
  {
    if bs == [] then []
    else
      var init := Transcript(remote, h, bs[..|bs| - 1]);
      match bs[|bs| - 1]
      case Text(t) => init + [t]
      case Other => init
      case ToolUse(name, input, _) =>
        var reply := ContinuationText(remote.llm(Continuation(h + Appended(remote, bs))));
        init + [CallLog(remote.show, ToolRequest(name, input)), if reply.Success? then reply.value else ""]
  }

  /** Every tool call succeeds and every continuation starts with a text. */
  predicate Completes(remote: Remote, h: seq<Message>, bs: seq<Block>)
    decreases |bs|
  {
    bs == [] ||
    (Completes(remote, h, bs[..|bs| - 1]) &&
     match bs[|bs| - 1]
     case ToolUse(name, input, _) =>
       remote.callTool(ToolRequest(name, input)).Success? &&
       ContinuationText(remote.llm(Continuation(h + Appended(remote, bs)))).Success?
     case _ => true)
  }

  /** The state the reference definitions predict after the blocks `bs`, starting from `s`. */
  function ClosedForm(remote: Remote, s: Turn, bs: seq<Block>): Turn
  {
    Turn(
      s.history + Appended(remote, bs),
      s.answer + Transcript(remote, s.history, bs),
      s.llmCalls + Requests(remote, s.history, bs),
      s.toolCalls + ToolRequests(bs),
      None)
  }

  /** One more block: stepping the predicted state agrees with the prediction for the longer sequence. */
  lemma StepClosedForm(remote: Remote, s: Turn, bs: seq<Block>)
    requires s.failure.None? && bs != []
    requires Completes(remote, s.history, bs[..|bs| - 1])
    ensures var next := Step(remote, ClosedForm(remote, s, bs[..|bs| - 1]), bs[|bs| - 1]);
      && (next.failure.None? <==> Completes(remote, s.history, bs))
      && (next.failure.None? ==> next == ClosedForm(remote, s, bs))
  {
    if bs[|bs| - 1].ToolUse? {
      StepToolUse(remote, s, bs);
    } else {
      StepPlain(remote, s, bs);
    }
  }

  lemma StepPlain(remote: Remote, s: Turn, bs: seq<Block>)
    requires s.failure.None? && bs != [] && !bs[|bs| - 1].ToolUse?
    requires Completes(remote, s.history, bs[..|bs| - 1])
    ensures var next := Step(remote, ClosedForm(remote, s, bs[..|bs| - 1]), bs[|bs| - 1]);
      && Completes(remote, s.history, bs)
      && next == ClosedForm(remote, s, bs)
  {
    var init := bs[..|bs| - 1];
    assert Appended(remote, bs) == Appended(remote, init);
    assert Requests(remote, s.history, bs) == Requests(remote, s.history, init);
    assert ToolRequests(bs) == ToolRequests(init);
  }

  lemma StepToolUse(remote: Remote, s: Turn, bs: seq<Block>)
    requires s.failure.None? && bs != [] && bs[|bs| - 1].ToolUse?
    requires Completes(remote, s.history, bs[..|bs| - 1])
    ensures var next := Step(remote, ClosedForm(remote, s, bs[..|bs| - 1]), bs[|bs| - 1]);
      && (next.failure.None? <==> Completes(remote, s.history, bs))
      && (next.failure.None? ==> next == ClosedForm(remote, s, bs))
  {
    var last := bs[|bs| - 1];
    if remote.callTool(ToolRequest(last.name, last.input)).Success? {
      StepToolCalled(remote, s, bs);
    } else {
      var next := Step(remote, ClosedForm(remote, s, bs[..|bs| - 1]), last);
      assert next.failure.Some?;
      assert !Completes(remote, s.history, bs);
    }
  }

  /** A tool-use block whose call succeeds, in agreement with the reference definitions. */
  lemma StepToolCalled(remote: Remote, s: Turn, bs: seq<Block>)
    requires s.failure.None? && bs != [] && bs[|bs| - 1].ToolUse?
    requires Completes(remote, s.history, bs[..|bs| - 1])
    requires remote.callTool(ToolRequest(bs[|bs| - 1].name, bs[|bs| - 1].input)).Success?
    ensures var next := Step(remote, ClosedForm(remote, s, bs[..|bs| - 1]), bs[|bs| - 1]);
      && (next.failure.None? <==> Completes(remote, s.history, bs))
      && (next.failure.None? ==> next == ClosedForm(remote, s, bs))
  {
    var init, last := bs[..|bs| - 1], bs[|bs| - 1];
    var before := ClosedForm(remote, s, init);
    var call := ToolRequest(last.name, last.input);
    var exchange := Commentary(last.attachedText) + [ResultMessage(remote.callTool(call).value)];
    var grown := s.history + Appended(remote, bs);
    var reply := ContinuationText(remote.llm(Continuation(grown)));
    var next := Step(remote, before, last);
    ToolCalledExtends(remote, s.history, bs);
    StepCallsTool(remote, before, last);
    assert next.history == grown;
    if reply.Success? {
      var after := ClosedForm(remote, s, bs);
      var lines := [CallLog(remote.show, call), reply.value];
      assert after.answer == next.answer by {
        ConcatAssoc(s.answer, Transcript(remote, s.history, init), lines);
      }
      assert after.llmCalls == next.llmCalls by {
        ConcatAssoc(s.llmCalls, Requests(remote, s.history, init), [Continuation(grown)]);
      }
      assert after.toolCalls == next.toolCalls by {
        ConcatAssoc(s.toolCalls, ToolRequests(init), [call]);
      }
    }
  }

  /** A final block that is not a tool use leaves every reference definition but the texts as it was. */
  lemma PlainExtends(remote: Remote, h: seq<Message>, bs: seq<Block>)
    requires bs != [] && !bs[|bs| - 1].ToolUse?
    ensures var init := bs[..|bs| - 1];
      && Appended(remote, bs) == Appended(remote, init)
      && h + Appended(remote, bs) == h + Appended(remote, init)
      && (Completes(remote, h, bs) <==> Completes(remote, h, init))
      && Requests(remote, h, bs) == Requests(remote, h, init)
      && ToolRequests(bs) == ToolRequests(init)
  {
  }

  lemma PrefixOfAppend<T>(a: seq<T>, b: seq<T>)
    ensures a <= a + b
    ensures b != [] ==> a < a + b && (a + b)[|a + b| - 1] == b[|b| - 1]
  {
    assert (a + b)[..|a|] == a;
  }

  lemma ConcatAssoc<T>(a: seq<T>, b: seq<T>, c: seq<T>)
    ensures a + (b + c) == (a + b) + c
  {
  }

  /** A tool-use block on a live query whose call succeeds: what the step appends, and when it fails. */
  lemma StepCallsTool(remote: Remote, t: Turn, b: Block)
    requires t.failure.None? && b.ToolUse?
    requires remote.callTool(ToolRequest(b.name, b.input)).Success?
    ensures var call := ToolRequest(b.name, b.input);
      var grown := t.history + (Commentary(b.attachedText) + [ResultMessage(remote.callTool(call).value)]);
      var reply := ContinuationText(remote.llm(Continuation(grown)));
      var r := Step(remote, t, b);
      && r.history == grown
      && r.toolCalls == t.toolCalls + [call]
      && r.llmCalls == t.llmCalls + [Continuation(grown)]
      && (r.failure.None? <==> reply.Success?)
      && (reply.Success? ==> r.answer == t.answer + [CallLog(remote.show, call), reply.value])
  {
    var call := ToolRequest(b.name, b.input);
    var grown := t.history + Commentary(b.attachedText) + [ResultMessage(remote.callTool(call).value)];
    assert grown == t.history + (Commentary(b.attachedText) + [ResultMessage(remote.callTool(call).value)]);
  }

  /** How a final tool-use block whose call succeeds extends each reference definition. */
  lemma ToolCalledExtends(remote: Remote, h: seq<Message>, bs: seq<Block>)
    requires bs != [] && bs[|bs| - 1].ToolUse?
    requires remote.callTool(ToolRequest(bs[|bs| - 1].name, bs[|bs| - 1].input)).Success?
    ensures var init, last := bs[..|bs| - 1], bs[|bs| - 1];
      var call := ToolRequest(last.name, last.input);
      var grown := h + Appended(remote, bs);
      var reply := ContinuationText(remote.llm(Continuation(grown)));
      && Appended(remote, bs) == Appended(remote, init) + (Commentary(last.attachedText) + [ResultMessage(remote.callTool(call).value)])
      && grown == (h + Appended(remote, init)) + (Commentary(last.attachedText) + [ResultMessage(remote.callTool(call).value)])
      && (Completes(remote, h, bs) <==> Completes(remote, h, init) && reply.Success?)
      && Requests(remote, h, bs) == Requests(remote, h, init) + [Continuation(grown)]
      && ToolRequests(bs) == ToolRequests(init) + [call]
      && (reply.Success? ==> Transcript(remote, h, bs) == Transcript(remote, h, init) + [CallLog(remote.show, call), reply.value])
  {
  }

  /**
   * The fold agrees with the reference definitions: the query survives the blocks exactly when
   * they complete, and then history, answer, LLM requests and tool calls are the old ones
   * extended by what the reference definitions say.
   */
  lemma {:induction false} WalkClosedForm(remote: Remote, s: Turn, bs: seq<Block>)
    requires s.failure.None?
    ensures Walk(remote, s, bs).failure.None? <==> Completes(remote, s.history, bs)
    ensures Completes(remote, s.history, bs) ==> Walk(remote, s, bs) == ClosedForm(remote, s, bs)
    decreases |bs|
  {
    if bs == [] {
      assert ClosedForm(remote, s, bs) == s;
    } else {
      var init := bs[..|bs| - 1];
      WalkClosedForm(remote, s, init);
      if Completes(remote, s.history, init) {
        StepClosedForm(remote, s, bs);
      }
    }
  }

  /**
   * Whatever the outcome, the tool calls made are a prefix of the tool-use blocks of the walked
   * response, in emission order: nothing else is ever dispatched.
   */
  lemma {:induction false} WalkDispatchesInOrder(remote: Remote, s: Turn, bs: seq<Block>)
    requires s.failure.None?
    ensures Walk(remote, s, bs).toolCalls <= s.toolCalls + ToolRequests(bs)
    decreases |bs|
  {
    if bs != [] {
      var init := bs[..|bs| - 1];
      WalkDispatchesInOrder(remote, s, init);
      WalkClosedForm(remote, s, init);
    }
  }

  /**
   * Whatever the outcome, every LLM request the walk adds is a continuation: made without the
   * tool list, with the fixed model and output bound, on a history that extends the starting one
   * and is a prefix of the final one, and that ends with the user message holding a tool result.
   */
  lemma {:induction false} WalkContinuations(remote: Remote, s: Turn, bs: seq<Block>)
    ensures var r := Walk(remote, s, bs);
      && s.llmCalls <= r.llmCalls
      && forall i :: |s.llmCalls| <= i < |r.llmCalls| ==> Continues(s.history, r.llmCalls[i], r.history)
    decreases |bs|
  {
    if bs != [] {
      var init := bs[..|bs| - 1];
      var mid, r := Walk(remote, s, init), Walk(remote, s, bs);
      WalkContinuations(remote, s, init);
      WalkOnlyAppends(remote, s, init);
      StepContinuation(remote, mid, bs[|bs| - 1]);
      forall i | |s.llmCalls| <= i < |r.llmCalls| ensures Continues(s.history, r.llmCalls[i], r.history) {
        if i < |mid.llmCalls| {
          assert r.llmCalls[i] == mid.llmCalls[i] && Continues(s.history, mid.llmCalls[i], mid.history);
        } else {
          assert Continues(mid.history, r.llmCalls[i], r.history);
        }
      }
    }
  }

  /** The request a step adds, if any, is a continuation on the step's own new history. */
  lemma StepContinuation(remote: Remote, s: Turn, b: Block)
    ensures var r := Step(remote, s, b);
      && s.llmCalls <= r.llmCalls
      && s.history <= r.history
      && forall i :: |s.llmCalls| <= i < |r.llmCalls| ==> Continues(s.history, r.llmCalls[i], r.history)
  {
    StepOnlyAppends(remote, s, b);
    if s.failure.None? && b.ToolUse? && remote.callTool(ToolRequest(b.name, b.input)).Success? {
      var exchange := Commentary(b.attachedText) + [ResultMessage(remote.callTool(ToolRequest(b.name, b.input)).value)];
      PrefixOfAppend(s.history, exchange);
      ConcatAssoc(s.history, Commentary(b.attachedText), [ResultMessage(remote.callTool(ToolRequest(b.name, b.input)).value)]);
    }
  }

  /**
   * A tool call that fails ends the query with that error: the call is recorded, and neither
   * the history, nor the answer, nor the LLM requests change for that block or after it.
   */
  lemma ToolFailureEndsQuery(remote: Remote, s: Turn, bs: seq<Block>, k: nat)
    requires k < |bs| && bs[k].ToolUse?
    requires Walk(remote, s, bs[..k]).failure.None?
    requires remote.callTool(ToolRequest(bs[k].name, bs[k].input)).Failure?
    ensures var before, after := Walk(remote, s, bs[..k]), Walk(remote, s, bs);
      && after.failure == Some(ToolFailed(remote.callTool(ToolRequest(bs[k].name, bs[k].input)).error))
      && after.history == before.history
      && after.answer == before.answer
      && after.llmCalls == before.llmCalls
      && after.toolCalls == before.toolCalls + [ToolRequest(bs[k].name, bs[k].input)]
  {
    assert bs[..k + 1][..k] == bs[..k];
    StopsAtFailure(remote, s, bs, k + 1);
  }

  /**
   * A continuation without a leading text ends the query after its request was made, with the
   * tool result already in the history and the tool call logged in the answer.
   */
  lemma ContinuationFailureEndsQuery(remote: Remote, s: Turn, bs: seq<Block>, k: nat)
    requires k < |bs| && bs[k].ToolUse?
    requires Walk(remote, s, bs[..k]).failure.None?
    requires remote.callTool(ToolRequest(bs[k].name, bs[k].input)).Success?
    requires var before := Walk(remote, s, bs[..k]);
      var h := before.history + Commentary(bs[k].attachedText)
               + [ResultMessage(remote.callTool(ToolRequest(bs[k].name, bs[k].input)).value)];
      ContinuationText(remote.llm(Continuation(h))).Failure?
    ensures var before, after := Walk(remote, s, bs[..k]), Walk(remote, s, bs);
      var call := ToolRequest(bs[k].name, bs[k].input);
      && after.failure.Some?
      && after.history == before.history + Commentary(bs[k].attachedText) + [ResultMessage(remote.callTool(call).value)]
      && after.answer == before.answer + [CallLog(remote.show, call)]
      && after.llmCalls == before.llmCalls + [Continuation(after.history)]
      && after.toolCalls == before.toolCalls + [call]
  {
    assert bs[..k + 1][..k] == bs[..k];
    StopsAtFailure(remote, s, bs, k + 1);
  }

  /** The sizes of what a completed walk adds. */
  lemma {:induction false} ClosedFormSizes(remote: Remote, h: seq<Message>, bs: seq<Block>)
    requires Completes(remote, h, bs)
    ensures |Requests(remote, h, bs)| == |ToolRequests(bs)|
    ensures |Appended(remote, bs)| == |ToolRequests(bs)| + Commented(bs)
    ensures |Transcript(remote, h, bs)| == |Texts(bs)| + 2 * |ToolRequests(bs)|
    decreases |bs|
  {
    if bs != [] {
      ClosedFormSizes(remote, h, bs[..|bs| - 1]);
    }
  }

  /**
   * A continuation request: made without the tool list, with the fixed model and output bound,
   * on a history that extends `h` strictly and is a prefix of `bound`, and that ends with the
   * user message holding a tool result.
   */
  ghost predicate Continues(h: seq<Message>, r: LlmRequest, bound: seq<Message>)
  {
    && r.tools == None
    && r.model == Model && r.maxTokens == MaxTokens
    && h < r.messages <= bound
    && r.messages[|r.messages| - 1].role == User
    && r.messages[|r.messages| - 1].content.ToolResultContent?
  }

  /**
   * In a completed walk, each request is a continuation on a history that extends `h` and is a
   * prefix of the final history.
   */
  lemma {:induction false} ContinuationsSeeResults(remote: Remote, h: seq<Message>, bs: seq<Block>)
    requires Completes(remote, h, bs)
    ensures var rs := Requests(remote, h, bs);
      forall i :: 0 <= i < |rs| ==> Continues(h, rs[i], h + Appended(remote, bs))
    decreases |bs|
  {
    if bs != [] {
      var init, last := bs[..|bs| - 1], bs[|bs| - 1];
      ContinuationsSeeResults(remote, h, init);
      var rs0, rs := Requests(remote, h, init), Requests(remote, h, bs);
      var before, grown := h + Appended(remote, init), h + Appended(remote, bs);
      if last.ToolUse? {
        var result := ResultMessage(remote.callTool(ToolRequest(last.name, last.input)).value);
        var exchange := Commentary(last.attachedText) + [result];
        ToolCalledExtends(remote, h, bs);
        PrefixOfAppend(h, Appended(remote, init));
        PrefixOfAppend(before, exchange);
        forall i | 0 <= i < |rs| ensures Continues(h, rs[i], grown) {
          if i < |rs0| {
            assert rs[i] == rs0[i] && Continues(h, rs0[i], before);
          } else {
            assert rs[i] == Continuation(grown);
          }
        }
      } else {
        PlainExtends(remote, h, bs);
        forall i | 0 <= i < |rs| ensures Continues(h, rs[i], grown) {
          assert rs[i] == rs0[i] && grown == before;
        }
      }
    }
  }

  /**
   * Requests `rs` pair up with tool calls `ts`: each call succeeded, each request ends with its
   * call's result, and each request's history is a proper prefix of the next one's.
   */
  ghost predicate Carried(remote: Remote, rs: seq<LlmRequest>, ts: seq<ToolRequest>)
  {
    && |rs| == |ts|
    && (forall i :: 0 <= i < |rs| ==>
          && remote.callTool(ts[i]).Success?
          && rs[i].messages != []
          && rs[i].messages[|rs[i].messages| - 1] == ResultMessage(remote.callTool(ts[i]).value))
    && (forall i, j :: 0 <= i < j < |rs| ==> rs[i].messages < rs[j].messages)
  }

  /**
   * In a completed walk, each request ends with the result of its own tool call (the one at the
   * same position among the tool-use blocks), and each one's history is a proper prefix of the
   * next one's.
   */
  lemma {:induction false} ContinuationsCarryOwnResults(remote: Remote, h: seq<Message>, bs: seq<Block>)
    requires Completes(remote, h, bs)
    ensures Carried(remote, Requests(remote, h, bs), ToolRequests(bs))
    decreases |bs|
  {
    if bs != [] {
      var init := bs[..|bs| - 1];
      ContinuationsCarryOwnResults(remote, h, init);
      if bs[|bs| - 1].ToolUse? {
        ContinuationsSeeResults(remote, h, init);
        CarryOneMore(remote, h, bs);
      } else {
        PlainExtends(remote, h, bs);
      }
    }
  }

  /** The step of `ContinuationsCarryOwnResults` for a final tool-use block. */
  lemma CarryOneMore(remote: Remote, h: seq<Message>, bs: seq<Block>)
    requires bs != [] && bs[|bs| - 1].ToolUse? && Completes(remote, h, bs)
    requires var init := bs[..|bs| - 1];
      var rs := Requests(remote, h, init);
      && Carried(remote, rs, ToolRequests(init))
      && forall i :: 0 <= i < |rs| ==> Continues(h, rs[i], h + Appended(remote, init))
    ensures Carried(remote, Requests(remote, h, bs), ToolRequests(bs))
  {
    var init, last := bs[..|bs| - 1], bs[|bs| - 1];
    var rs0, ts0 := Requests(remote, h, init), ToolRequests(init);
    var call := ToolRequest(last.name, last.input);
    assert remote.callTool(call).Success?;
    var result := remote.callTool(call).value;
    var before := h + Appended(remote, init);
    var grown := h + Appended(remote, bs);
    ToolCalledExtends(remote, h, bs);
    assert before < grown;
    assert grown[|grown| - 1] == ResultMessage(result);
    forall i | 0 <= i < |rs0| ensures rs0[i].messages <= before {
      assert Continues(h, rs0[i], before);
    }
    AppendCarried(remote, rs0, ts0, Continuation(grown), call, before, Requests(remote, h, bs), ToolRequests(bs));
  }

  /** Appending one request that carries its call's result, on a longer history, keeps the pairing. */
  lemma AppendCarried(remote: Remote, rs: seq<LlmRequest>, ts: seq<ToolRequest>, r: LlmRequest, t: ToolRequest,
                      before: seq<Message>, rs': seq<LlmRequest>, ts': seq<ToolRequest>)
    requires Carried(remote, rs, ts)
    requires forall i :: 0 <= i < |rs| ==> rs[i].messages <= before
    requires before < r.messages
    requires remote.callTool(t).Success?
    requires r.messages[|r.messages| - 1] == ResultMessage(remote.callTool(t).value)
    requires rs' == rs + [r] && ts' == ts + [t]
    ensures Carried(remote, rs', ts')
  {
    forall i, j | 0 <= i < j < |rs'| ensures rs'[i].messages < rs'[j].messages {
      assert rs'[i] == rs[i];
      if j < |rs| {
        assert rs'[j] == rs[j];
      }
    }
    forall i | 0 <= i < |rs'|
      ensures && remote.callTool(ts'[i]).Success?
              && rs'[i].messages != []
              && rs'[i].messages[|rs'[i].messages| - 1] == ResultMessage(remote.callTool(ts'[i]).value)
    {
      if i < |rs| {
        assert rs'[i] == rs[i] && ts'[i] == ts[i];
      }
    }
  }

  /**
   * Without tool-use blocks the blocks complete, add nothing to the history, make no request,
   * and contribute exactly their texts.
   */
  lemma {:induction false} NoToolUseClosedForm(remote: Remote, h: seq<Message>, bs: seq<Block>)
    requires ToolRequests(bs) == []
    ensures Completes(remote, h, bs)
    ensures Appended(remote, bs) == [] && Requests(remote, h, bs) == []
    ensures Transcript(remote, h, bs) == Texts(bs)
    decreases |bs|
  {
    if bs != [] {
      ToolRequestsPrefix(bs, |bs| - 1);
      NoToolUseClosedForm(remote, h, bs[..|bs| - 1]);
    }
  }

  /** The tool requests of a prefix of the blocks are a prefix of theirs. */
  lemma {:induction false} ToolRequestsPrefix(bs: seq<Block>, k: nat)
    requires k <= |bs|
    ensures ToolRequests(bs[..k]) <= ToolRequests(bs)
    decreases |bs|
  {
    if k < |bs| {
      var init := bs[..|bs| - 1];
      ToolRequestsPrefix(init, k);
      assert init[..k] == bs[..k];
      assert ToolRequests(init) <= ToolRequests(bs);
    } else {
      assert bs[..k] == bs;
    }
  }

  /** A failing `list_tools` ends the query before any LLM request or tool call. */
  lemma ListToolsFailureEndsQuery(remote: Remote, query: string)
    requires remote.listTools.Failure?
    ensures var t := Resolve(remote, query);
      && t.history == [QueryMessage(query)]
      && t.llmCalls == [] && t.toolCalls == [] && t.answer == []
      && Reply(t) == Failure(ListToolsFailed(remote.listTools.error))
  {
  }

  /** A failing first LLM call ends the query after that one request, with no tool call. */
  lemma FirstCallFailureEndsQuery(remote: Remote, query: string, tools: seq<ToolDescriptor>)
    requires remote.listTools == Success(tools)
    requires remote.llm(FirstRequest(query, tools)).Failure?
    ensures var t := Resolve(remote, query);
      && t.history == [QueryMessage(query)]
      && t.llmCalls == [FirstRequest(query, tools)] && t.toolCalls == []
      && Reply(t) == Failure(ApiFailed(remote.llm(FirstRequest(query, tools)).error))
  {
  }

  /**
   * Once the first response `blocks` is in, the query succeeds exactly when its blocks complete,
   * and then its state is the one the reference definitions give.
   */
  lemma ResolveClosedForm(remote: Remote, query: string, tools: seq<ToolDescriptor>, blocks: seq<Block>)
    requires remote.listTools == Success(tools)
    requires remote.llm(FirstRequest(query, tools)) == Success(blocks)
    ensures var t, h0 := Resolve(remote, query), [QueryMessage(query)];
      && (t.failure.None? <==> Completes(remote, h0, blocks))
      && (t.failure.None? ==> t == Turn(
            h0 + Appended(remote, blocks),
            Transcript(remote, h0, blocks),
            [FirstRequest(query, tools)] + Requests(remote, h0, blocks),
            ToolRequests(blocks),
            None))
  {
    var start := Turn([QueryMessage(query)], [], [FirstRequest(query, tools)], [], None);
    WalkClosedForm(remote, start, blocks);
  }

  /**
   * Every tool call of a query comes from the first response, in emission order: tool-use
   * blocks of continuation responses are never dispatched.
   */
  lemma DispatchesOnlyFirstResponse(remote: Remote, query: string, tools: seq<ToolDescriptor>, blocks: seq<Block>)
    requires remote.listTools == Success(tools)
    requires remote.llm(FirstRequest(query, tools)) == Success(blocks)
    ensures Resolve(remote, query).toolCalls <= ToolRequests(blocks)
  {
    WalkDispatchesInOrder(remote, Turn([QueryMessage(query)], [], [FirstRequest(query, tools)], [], None), blocks);
  }

  /**
   * Whatever the outcome of a query, only its first LLM request carries the tool list. Every
   * later one goes without it, on a history longer than the query alone that is a prefix of the
   * final history and ends with the user message holding a tool result.
   */
  lemma OnlyFirstCarriesTools(remote: Remote, query: string)
    ensures var t := Resolve(remote, query);
      && (t.llmCalls != [] ==> t.llmCalls[0].tools == Some(ToAnthropicTools(remote.listTools.value)))
      && forall i :: 1 <= i < |t.llmCalls| ==>
           && t.llmCalls[i].tools == None
           && t.llmCalls[i].model == Model && t.llmCalls[i].maxTokens == MaxTokens
           && [QueryMessage(query)] < t.llmCalls[i].messages <= t.history
           && t.llmCalls[i].messages[|t.llmCalls[i].messages| - 1].role == User
           && t.llmCalls[i].messages[|t.llmCalls[i].messages| - 1].content.ToolResultContent?
  {
    if remote.listTools.Success? {
      var request := FirstRequest(query, remote.listTools.value);
      if remote.llm(request).Success? {
        WalkContinuations(remote, Turn([QueryMessage(query)], [], [request], [], None), remote.llm(request).value);
      }
    }
  }

  /**
   * A query that succeeds made one tool call per tool-use block of the first response, in order;
   * 1 + that many LLM requests, the first with the tool list; a history grown by one or two
   * messages per tool use; and an answer of one line per text block and two per tool-use block,
   * joined with newlines.
   */
  lemma SuccessfulQueryShape(remote: Remote, query: string, tools: seq<ToolDescriptor>, blocks: seq<Block>)
    requires remote.listTools == Success(tools)
    requires remote.llm(FirstRequest(query, tools)) == Success(blocks)
    requires Resolve(remote, query).failure.None?
    ensures var t := Resolve(remote, query);
      && t.toolCalls == ToolRequests(blocks)
      && |t.llmCalls| == 1 + |ToolRequests(blocks)|
      && t.llmCalls[0].tools == Some(ToAnthropicTools(tools))
      && |t.history| == 1 + |ToolRequests(blocks)| + Commented(blocks)
      && |t.answer| == |Texts(blocks)| + 2 * |ToolRequests(blocks)|
      && Reply(t) == Success(Join("\n", t.answer))
  {
    ResolveClosedForm(remote, query, tools, blocks);
    ClosedFormSizes(remote, [QueryMessage(query)], blocks);
  }

  /**
   * In a query that succeeds, every LLM request after the first is made without the tool list,
   * on a history that extends the query, is a prefix of the final history, is longer than the
   * previous request's, and ends with the result of the tool call that this request continues.
   */
  lemma SuccessfulContinuations(remote: Remote, query: string, tools: seq<ToolDescriptor>, blocks: seq<Block>)
    requires remote.listTools == Success(tools)
    requires remote.llm(FirstRequest(query, tools)) == Success(blocks)
    requires Resolve(remote, query).failure.None?
    ensures var t := Resolve(remote, query);
      var continuations := t.llmCalls[1..];
      && |continuations| == |t.toolCalls|
      && (forall i :: 0 <= i < |continuations| ==>
            && continuations[i].tools == None
            && [QueryMessage(query)] < continuations[i].messages <= t.history
            && remote.callTool(t.toolCalls[i]).Success?
            && continuations[i].messages[|continuations[i].messages| - 1]
               == ResultMessage(remote.callTool(t.toolCalls[i]).value))
      && (forall i, j :: 0 <= i < j < |continuations| ==> continuations[i].messages < continuations[j].messages)
  {
    var h0 := [QueryMessage(query)];
    ResolveClosedForm(remote, query, tools, blocks);
    var t := Resolve(remote, query);
    assert t.llmCalls[1..] == Requests(remote, h0, blocks);
    ContinuationsSeeResults(remote, h0, blocks);
    ContinuationsCarryOwnResults(remote, h0, blocks);
  }

  /**
   * A first response without tool-use blocks makes no other call, leaves the history as the
   * query alone, and answers with its texts joined by newlines.
   */
  lemma NoToolUseQuery(remote: Remote, query: string, tools: seq<ToolDescriptor>, blocks: seq<Block>)
    requires remote.listTools == Success(tools)
    requires remote.llm(FirstRequest(query, tools)) == Success(blocks)
    requires ToolRequests(blocks) == []
    ensures var t := Resolve(remote, query);
      && t == Turn([QueryMessage(query)], Texts(blocks), [FirstRequest(query, tools)], [], None)
      && Reply(t) == Success(Join("\n", Texts(blocks)))
  {
    NoToolUseClosedForm(remote, [QueryMessage(query)], blocks);
    ResolveClosedForm(remote, query, tools, blocks);
  }
}
