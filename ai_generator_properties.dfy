/**
 * What the orchestrator promises: the provider-call budget, the forced final
 * call, the shape of the conversation it builds (it only grows, assistant
 * replies appear in call order, and every tool invocation is answered by
 * exactly one result with the same id in the next message), and how a reply's
 * text becomes the answer.
 */
module AIGeneratorProperties {
  import opened Wrappers
  import opened Conversation
  import opened AIGenerator

  // ---------------------------------------------------------------------------
  // Reading a reply

  /** The concatenated text is empty exactly when every text block is empty. */
  lemma {:induction false} TextOfEmpty(content: seq<Block>)
    ensures TextOf(content) == "" <==>
      forall k :: 0 <= k < |content| && content[k].Text? ==> content[k].text == ""
    decreases |content|
  {
    if content != [] {
      var init := content[..|content| - 1];
      TextOfEmpty(init);
      assert forall k :: 0 <= k < |init| ==> init[k] == content[k];
    }
  }

  /** A reply without non-empty text yields the apology. */
  lemma ApologyWhenNoText(content: seq<Block>)
    requires forall k :: 0 <= k < |content| && content[k].Text? ==> content[k].text == ""
    ensures FinalText(content) == APOLOGY
  {
    TextOfEmpty(content);
  }

  // ---------------------------------------------------------------------------
  // Tool execution

  /** Selecting the invocations distributes over concatenation: a filter that keeps order. */
  lemma {:induction false} ToolUsesAppend(a: seq<Block>, b: seq<Block>)
    ensures ToolUses(a + b) == ToolUses(a) + ToolUses(b)
    decreases |b|
  {
    if b == [] {
      assert a + b == a;
    } else {
      var b' := b[..|b| - 1];
      assert (a + b)[..|a + b| - 1] == a + b';
      ToolUsesAppend(a, b');
    }
  }

  /** A single block is kept exactly when it is an invocation. */
  lemma ToolUsesSingle(b: Block)
    ensures ToolUses([b]) == if b.ToolUse? then [b] else []
  {
    assert [b][..0] == [];
  }

  /** Results answer invocations one for one: same count, same order, same ids. */
  ghost predicate Answers(uses: seq<Block>, results: seq<Block>) {
    && |results| == |uses|
    && forall k :: 0 <= k < |results| ==>
         uses[k].ToolUse? && results[k].ToolResult? && results[k].toolUseId == uses[k].id
  }

  lemma ToolResultsAnswer(content: seq<Block>, d: Dispatch)
    ensures Answers(ToolUses(content), ToolResults(content, d))
  {
  }

  // ---------------------------------------------------------------------------
  // The provider-call budget

  /** The number of calls that offered tools. */
  function ToolCallCount(calls: seq<Request>): (n: nat)
    ensures n <= |calls|
    decreases |calls|
  {
    if calls == [] then 0
    else ToolCallCount(calls[..|calls| - 1]) + (if calls[|calls| - 1].tools.Some? then 1 else 0)
  }

  lemma {:induction false} ToolCallCountAll(calls: seq<Request>)
    requires forall k :: 0 <= k < |calls| ==> calls[k].tools.Some?
    ensures ToolCallCount(calls) == |calls|
    decreases |calls|
  {
    if calls != [] {
      ToolCallCountAll(calls[..|calls| - 1]);
    }
  }

  /** A call with the generator's model, the fixed sampling parameters and the request's system text. */
  predicate FixedParams(e: Env, r: Request) {
    r.model == e.g.model && r.temperature == TEMPERATURE && r.maxTokens == MAX_TOKENS && r.system == e.system
  }

  /** The loop only appends calls, and at least one. */
  lemma {:induction false} RoundsCallsGrow(e: Env, round: int, messages: seq<Message>, calls: seq<Request>)
    ensures calls < Rounds(e, round, messages, calls).calls
    decreases e.g.maxToolRounds - round
  {
    var s := RoundStep(e, round, messages, calls);
    if s.Continue? {
      RoundsCallsGrow(e, round + 1, s.messages, s.calls);
      RoundsOnContinue(e, round, messages, calls);
    } else {
      RoundsOnStop(e, round, messages, calls);
    }
  }

  /**
   * The last call: one that offers tools comes within the round budget; one
   * without tools is the forced final call, made once the whole budget is
   * used, on the conversation plus the final instruction.
   */
  lemma {:induction false} RoundsLastCall(e: Env, round: int, messages: seq<Message>, calls: seq<Request>)
    ensures |Rounds(e, round, messages, calls).calls| > 0
    ensures var run := Rounds(e, round, messages, calls);
      var last := run.calls[|run.calls| - 1];
      && (last.tools.Some? ==> |run.calls| <= |calls| + RoundsLeft(e.g.maxToolRounds, round))
      && (last.tools.None? ==>
            && |run.calls| == |calls| + RoundsLeft(e.g.maxToolRounds, round) + 1
            && last.messages == run.messages + [FINAL_MESSAGE])
    decreases e.g.maxToolRounds - round
  {
    var s := RoundStep(e, round, messages, calls);
    if s.Continue? {
      RoundsLastCall(e, round + 1, s.messages, s.calls);
      RoundsOnContinue(e, round, messages, calls);
    } else {
      RoundsOnStop(e, round, messages, calls);
    }
  }

  /** The starting conversation stays a prefix of the final conversation and of the first call's messages. */
  lemma {:induction false} RoundsKeepMessages(e: Env, round: int, messages: seq<Message>, calls: seq<Request>)
    ensures |calls| < |Rounds(e, round, messages, calls).calls|
    ensures messages <= Rounds(e, round, messages, calls).messages
    ensures messages <= Rounds(e, round, messages, calls).calls[|calls|].messages
    decreases e.g.maxToolRounds - round
  {
    var s := RoundStep(e, round, messages, calls);
    RoundsCallsGrow(e, round, messages, calls);
    if s.Continue? {
      RoundsKeepMessages(e, round + 1, s.messages, s.calls);
      RoundsCallsGrow(e, round + 1, s.messages, s.calls);
      RoundsOnContinue(e, round, messages, calls);
      var run := Rounds(e, round + 1, s.messages, s.calls);
      assert run.calls[|calls|] == ToolRequest(e, messages) by {
        assert run.calls[..|s.calls|] == s.calls;
      }
    } else {
      RoundsOnStop(e, round, messages, calls);
    }
  }

  /** Every call the loop issues carries the generator's model, the fixed sampling parameters and the same system text. */
  lemma {:induction false} RoundsCallFixed(e: Env, round: int, messages: seq<Message>, calls: seq<Request>)
    requires forall k :: 0 <= k < |calls| ==> FixedParams(e, calls[k])
    ensures forall k :: 0 <= k < |Rounds(e, round, messages, calls).calls| ==>
      FixedParams(e, Rounds(e, round, messages, calls).calls[k])
    decreases e.g.maxToolRounds - round
  {
    var s := RoundStep(e, round, messages, calls);
    if s.Continue? {
      assert FixedParams(e, ToolRequest(e, messages));
      assert forall k :: 0 <= k < |s.calls| ==> FixedParams(e, s.calls[k]);
      RoundsCallFixed(e, round + 1, s.messages, s.calls);
      RoundsOnContinue(e, round, messages, calls);
    } else {
      RoundsOnStop(e, round, messages, calls);
      assert forall k :: 0 <= k < |calls| ==> s.run.calls[k] == s.run.calls[..|calls|][k];
    }
  }

  /** Every call the loop issues but the last offers the tools. */
  lemma {:induction false} RoundsCallTools(e: Env, round: int, messages: seq<Message>, calls: seq<Request>)
    requires forall k :: 0 <= k < |calls| ==> calls[k].tools == Some(e.tools)
    ensures forall k :: 0 <= k < |Rounds(e, round, messages, calls).calls| - 1 ==>
      Rounds(e, round, messages, calls).calls[k].tools == Some(e.tools)
    decreases e.g.maxToolRounds - round
  {
    var s := RoundStep(e, round, messages, calls);
    if s.Continue? {
      RoundsCallTools(e, round + 1, s.messages, s.calls);
      RoundsOnContinue(e, round, messages, calls);
    } else {
      RoundsOnStop(e, round, messages, calls);
      assert forall k :: 0 <= k < |calls| ==> s.run.calls[k] == s.run.calls[..|calls|][k];
    }
  }

  /** At most one tool-enabled call per round, and at most one call without tools. */
  lemma RoundsCallBudget(e: Env, messages: seq<Message>)
    ensures var issued := Rounds(e, 0, messages, []).calls;
      && 0 < |issued|
      && ToolCallCount(issued) <= RoundsLeft(e.g.maxToolRounds, 0)
      && |issued| - ToolCallCount(issued) <= 1
  {
    RoundsCallsGrow(e, 0, messages, []);
    RoundsLastCall(e, 0, messages, []);
    RoundsCallTools(e, 0, messages, []);
    var issued := Rounds(e, 0, messages, []).calls;
    ToolCallCountAll(issued[..|issued| - 1]);
  }

  /**
   * When every reply within the budget asks for tools and names at least one,
   * the loop uses its whole budget and then makes the forced final call: one call per remaining
   * round plus one, the last without tools, whose first text is the answer.
   */
  lemma {:induction false} RoundsAllToolUse(e: Env, round: int, messages: seq<Message>, calls: seq<Request>)
    requires |calls| + RoundsLeft(e.g.maxToolRounds, round) < |e.responses|
    requires forall k :: |calls| <= k < |calls| + RoundsLeft(e.g.maxToolRounds, round) ==>
      e.responses[k].stopReason == TOOL_USE && ToolUses(e.responses[k].content) != []
    ensures var run := Rounds(e, round, messages, calls);
      var last := |calls| + RoundsLeft(e.g.maxToolRounds, round);
      && |run.calls| == last + 1
      && run.calls[last].tools.None?
      && run.calls[last].messages == run.messages + [FINAL_MESSAGE]
      && run.outcome == FirstText(e.responses[last].content)
    decreases e.g.maxToolRounds - round
  {
    var s := RoundStep(e, round, messages, calls);
    if round < e.g.maxToolRounds {
      assert ToolResults(e.responses[|calls|].content, e.dispatch) != [];
      assert s.Continue?;
      RoundsAllToolUse(e, round + 1, s.messages, s.calls);
      RoundsOnContinue(e, round, messages, calls);
    } else {
      RoundsOnStop(e, round, messages, calls);
    }
  }

  /** A reply that does not ask for tools ends the loop at once with its text. */
  lemma RoundsStopOnAnswer(e: Env, round: int, messages: seq<Message>, calls: seq<Request>)
    requires round < e.g.maxToolRounds && |calls| < |e.responses|
    requires e.responses[|calls|].stopReason != TOOL_USE
    ensures Rounds(e, round, messages, calls) ==
      Run(Answer(FinalText(e.responses[|calls|].content)),
          calls + [ToolRequest(e, messages)],
          messages + [AssistantMessage(e.responses[|calls|].content)])
  {
  }

  // ---------------------------------------------------------------------------
  // The conversation

  /**
   * Every assistant message is followed either by nothing or by a user
   * message whose results answer its invocations one for one, by id.
   */
  ghost predicate Paired(ms: seq<Message>)
    decreases |ms|
  {
    || ms == []
    || (&& ms[0].role == Assistant
        && ms[0].content.Blocks?
        && (|ms| == 1 ||
            (&& ms[1].role == User
             && ms[1].content.Blocks?
             && Answers(ToolUses(ms[0].content.blocks), ms[1].content.blocks)
             && Paired(ms[2..]))))
  }

  lemma {:induction false} ExchangesArePaired(ms: seq<Message>, rs: seq<Response>, d: Dispatch)
    requires Exchanges(ms, rs, d)
    ensures Paired(ms)
    decreases |ms|
  {
    if |ms| >= 2 {
      ToolResultsAnswer(rs[0].content, d);
      ExchangesArePaired(ms[2..], rs[1..], d);
    }
  }

  /** One reply that invoked tools, then its results, in front of further exchanges. */
  lemma ExchangesCons(response: Response, d: Dispatch, ms: seq<Message>, rs: seq<Response>)
    requires response.stopReason == TOOL_USE && ToolResults(response.content, d) != []
    requires Exchanges(ms, rs, d)
    ensures Exchanges([AssistantMessage(response.content), ResultsMessage(ToolResults(response.content, d))] + ms,
                      [response] + rs, d)
  {
    var all := [AssistantMessage(response.content), ResultsMessage(ToolResults(response.content, d))] + ms;
    assert all[2..] == ms && ([response] + rs)[1..] == rs;
  }

  /**
   * The conversation only grows by exchanges: the starting messages stay a
   * prefix, and what the loop adds is the exchanges of the replies consumed,
   * in order.
   */
  lemma {:induction false} RoundsTranscript(e: Env, round: int, messages: seq<Message>, calls: seq<Request>)
    requires |calls| <= |e.responses|
    ensures messages <= Rounds(e, round, messages, calls).messages
    ensures Exchanges(Rounds(e, round, messages, calls).messages[|messages|..], e.responses[|calls|..], e.dispatch)
    decreases e.g.maxToolRounds - round
  {
    var s := RoundStep(e, round, messages, calls);
    if s.Continue? {
      RoundsTranscript(e, round + 1, s.messages, s.calls);
      RoundsOnContinue(e, round, messages, calls);
      var run := Rounds(e, round + 1, s.messages, s.calls);
      var response := e.responses[|calls|];
      ExchangesCons(response, e.dispatch, run.messages[|s.messages|..], e.responses[|s.calls|..]);
      assert run.messages[|messages|..]
          == [AssistantMessage(response.content), ResultsMessage(ToolResults(response.content, e.dispatch))]
             + run.messages[|s.messages|..];
      assert e.responses[|calls|..] == [response] + e.responses[|s.calls|..];
    } else {
      RoundsOnStop(e, round, messages, calls);
    }
  }

  // ---------------------------------------------------------------------------
  // Whole requests

  /** Without tools or without a registry: one call, on the query alone, without tools. */
  lemma RespondWithoutTools(g: Generator, query: string, history: Option<string>, tools: seq<ToolDefinition>,
                            toolManager: Option<Dispatch>, responses: seq<Response>)
    requires tools == [] || toolManager.None?
    ensures var run := Respond(g, query, history, tools, toolManager, responses);
      && run.calls == [PlainRequest(g, [UserQuery(query)], SystemContent(g.systemPrompt, history))]
      && run.messages == [UserQuery(query)]
      && (|responses| > 0 ==> run.outcome == FirstText(responses[0].content))
  {
  }

  /**
   * With tools and a registry: at most `maxToolRounds` tool-enabled calls and
   * at most one call without tools; the first call carries the query alone;
   * the conversation starts with the query and every invocation in it is
   * answered by id in the next message.
   */
  lemma RespondWithTools(g: Generator, query: string, history: Option<string>, tools: seq<ToolDefinition>,
                         toolManager: Option<Dispatch>, responses: seq<Response>)
    requires tools != [] && toolManager.Some?
    ensures var run := Respond(g, query, history, tools, toolManager, responses);
      && 1 <= |run.calls| <= RoundsLeft(g.maxToolRounds, 0) + 1
      && ToolCallCount(run.calls) <= RoundsLeft(g.maxToolRounds, 0)
      && |run.calls| - ToolCallCount(run.calls) <= 1
      && [UserQuery(query)] <= run.calls[0].messages
      && run.calls[0].system == SystemContent(g.systemPrompt, history)
      && [UserQuery(query)] <= run.messages
      && Paired(run.messages[1..])
  {
    var e := Env(g, SystemContent(g.systemPrompt, history), tools, toolManager.value, responses);
    var start := [UserQuery(query)];
    RoundsCallBudget(e, start);
    RoundsCallFixed(e, 0, start, []);
    RoundsKeepMessages(e, 0, start, []);
    RoundsTranscript(e, 0, start, []);
    var run := Rounds(e, 0, start, []);
    assert run.calls[0..] == run.calls;
    ExchangesArePaired(run.messages[1..], responses[0..], e.dispatch);
  }

  /** A first reply that does not ask for tools: exactly one call, and its text is the answer. */
  lemma RespondFirstAnswer(g: Generator, query: string, history: Option<string>, tools: seq<ToolDefinition>,
                           toolManager: Option<Dispatch>, responses: seq<Response>)
    requires tools != [] && toolManager.Some? && g.maxToolRounds >= 1
    requires |responses| > 0 && responses[0].stopReason != TOOL_USE
    ensures var run := Respond(g, query, history, tools, toolManager, responses);
      && |run.calls| == 1
      && run.calls[0].tools == Some(tools)
      && run.outcome == Answer(FinalText(responses[0].content))
  {
  }

  /**
   * The first `maxToolRounds` replies all ask for tools: `maxToolRounds`
   * tool-enabled calls, then the forced final call without tools on the
   * conversation plus the final instruction, `maxToolRounds + 1` calls in all;
   * the first text of the reply to that call is the answer.
   */
  lemma RespondAllToolUse(g: Generator, query: string, history: Option<string>, tools: seq<ToolDefinition>,
                          toolManager: Option<Dispatch>, responses: seq<Response>)
    requires tools != [] && toolManager.Some? && g.maxToolRounds >= 0
    requires g.maxToolRounds < |responses|
    requires forall k :: 0 <= k < g.maxToolRounds ==>
      responses[k].stopReason == TOOL_USE && ToolUses(responses[k].content) != []
    ensures var run := Respond(g, query, history, tools, toolManager, responses);
      && |run.calls| == g.maxToolRounds + 1
      && ToolCallCount(run.calls) == g.maxToolRounds
      && run.calls[g.maxToolRounds].tools.None?
      && run.calls[g.maxToolRounds].messages == run.messages + [FINAL_MESSAGE]
      && run.outcome == FirstText(responses[g.maxToolRounds].content)
  {
    var e := Env(g, SystemContent(g.systemPrompt, history), tools, toolManager.value, responses);
    var start := [UserQuery(query)];
    RoundsAllToolUse(e, 0, start, []);
    RoundsCallTools(e, 0, start, []);
    var run := Rounds(e, 0, start, []);
    ToolCallCountAll(run.calls[..g.maxToolRounds]);
  }

  /**
   * The single-round path: exactly one call, without tools; the caller's
   * messages stay a prefix; then the reply, then its results only if it
   * invoked any tool, answered by id.
   */
  lemma SingleRoundShape(g: Generator, initial: Response, base: BaseParams, d: Dispatch, responses: seq<Response>)
    ensures var run := SingleRound(g, initial, base, d, responses);
      && |run.calls| == 1
      && run.calls[0].tools.None?
      && run.calls[0].messages == run.messages
      && base.messages <= run.messages
      && run.messages[|base.messages|] == AssistantMessage(initial.content)
      && (|run.messages| == |base.messages| + 2 <==> ToolUses(initial.content) != [])
      && Paired(run.messages[|base.messages|..])
  {
    var run := SingleRound(g, initial, base, d, responses);
    var ms := run.messages[|base.messages|..];
    ToolResultsAnswer(initial.content, d);
    if ToolUses(initial.content) != [] {
      assert ms[2..] == [];
    }
  }
}
