/**
 * The orchestrator: one answer to a user query, produced by a bounded loop of
 * provider calls interleaved with tool runs.
 *
 * The provider is modelled as the script of replies it gives, in call order:
 * call number k (counting from 0) receives `responses[k]`; a call made after
 * the script has run out is a transport fault, which ends the request with a
 * `Fatal` outcome instead of an answer. Every call issued is recorded, with
 * its parameters, in the `calls` of the run. The tool registry is seen as a
 * total function from a tool name and its arguments to a `ToolOutcome`.
 */
module AIGenerator {
  import opened Wrappers
  import opened Conversation

  const TEMPERATURE: int := 0
  const MAX_TOKENS: int := 800
  const DEFAULT_MAX_TOOL_ROUNDS: int := 3
  const TOOL_USE: string := "tool_use"
  const APOLOGY: string := "I apologize, but I couldn't generate a proper response."
  const HISTORY_HEADER: string := "\n\nPrevious conversation:\n"
  const FINAL_INSTRUCTION: string := "Please provide your final answer based on the information gathered."
  const TOOL_FAILED: string := "Tool execution failed: "

  /** Reasons a request fails instead of producing an answer. */
  const PROVIDER_FAILED: string := "provider call failed"
  const EMPTY_REPLY: string := "IndexError: list index out of range"
  const NO_TEXT: string := "AttributeError: first content block has no text"

  /**
   * The generator's configuration, fixed at construction. The system prompt's
   * wording is not modelled; it is whatever string the generator carries.
   */
  datatype Generator = Generator(model: string, maxToolRounds: int, systemPrompt: string)

  /** A generator built without an explicit round budget: three tool rounds. */
  function DefaultGenerator(model: string, systemPrompt: string): (g: Generator)
    ensures g.model == model && g.systemPrompt == systemPrompt
    ensures g.maxToolRounds == 3
  {
    Generator(model, DEFAULT_MAX_TOOL_ROUNDS, systemPrompt)
  }

  /** How the registry answers one tool invocation. */
  type Dispatch = (string, ToolArgs) -> ToolOutcome

  /** An answer, or the failure that propagated out of the request. */
  datatype Outcome = Answer(text: string) | Fatal(reason: string)

  /** What one request did: its outcome, every provider call issued, and the final conversation. */
  datatype Run = Run(outcome: Outcome, calls: seq<Request>, messages: seq<Message>)

  /** Everything a tool-enabled loop depends on besides its own state. */
  datatype Env = Env(
    g: Generator,
    system: string,
    tools: seq<ToolDefinition>,
    dispatch: Dispatch,
    responses: seq<Response>)

  // ---------------------------------------------------------------------------
  // System content

  /**
   * The system instruction: the prompt alone, or the prompt followed by the
   * previous conversation when a non-empty history is given.
   */
  function SystemContent(prompt: string, history: Option<string>): (s: string)
    ensures |prompt| <= |s|
    ensures s[..|prompt|] == prompt
    ensures s == prompt <==> history.None? || history.value == ""
    ensures history.Some? && history.value != "" ==>
      |s| == |prompt| + |HISTORY_HEADER| + |history.value| &&
      s[|prompt|..|prompt| + |HISTORY_HEADER|] == HISTORY_HEADER &&
      s[|prompt| + |HISTORY_HEADER|..] == history.value
  {
    if history.Some? && history.value != "" then prompt + HISTORY_HEADER + history.value else prompt
  }

  // ---------------------------------------------------------------------------
  // Messages and requests

  function UserQuery(query: string): Message {
    Message(User, Plain(query))
  }

  function AssistantMessage(content: seq<Block>): Message {
    Message(Assistant, Blocks(content))
  }

  function ResultsMessage(results: seq<Block>): Message {
    Message(User, Blocks(results))
  }

  const FINAL_MESSAGE: Message := Message(User, Plain(FINAL_INSTRUCTION))

  /** A call that offers the tools (with tool choice "auto"). */
  function ToolRequest(e: Env, messages: seq<Message>): Request {
    Request(e.g.model, TEMPERATURE, MAX_TOKENS, messages, e.system, Some(e.tools))
  }

  /** A call without tools. */
  function PlainRequest(g: Generator, messages: seq<Message>, system: string): Request {
    Request(g.model, TEMPERATURE, MAX_TOKENS, messages, system, None)
  }

  // ---------------------------------------------------------------------------
  // Reading a reply

  function BlockText(b: Block): string {
    if b.Text? then b.text else ""
  }

  /** The text blocks of a reply, concatenated in order; other blocks contribute nothing. */
  function TextOf(content: seq<Block>): string
    decreases |content|
  {
    if content == [] then ""
    else TextOf(content[..|content| - 1]) + BlockText(content[|content| - 1])
  }

  /** The answer a final reply yields: its text, or the apology when that text is empty. */
  function FinalText(content: seq<Block>): (r: string)
    ensures r != ""
    ensures TextOf(content) != "" ==> r == TextOf(content)
  {
    var text := TextOf(content);
    if text != "" then text else APOLOGY
  }

  /** `content[0].text`: fails when the reply is empty or starts with a non-text block. */
  function FirstText(content: seq<Block>): (r: Outcome)
    ensures r.Answer? <==> |content| > 0 && content[0].Text?
    ensures r.Answer? ==> r.text == content[0].text
  {
    if |content| == 0 then Fatal(EMPTY_REPLY)
    else if content[0].Text? then Answer(content[0].text)
    else Fatal(NO_TEXT)
  }

  // ---------------------------------------------------------------------------
  // Tool execution

  /** The tool invocations of a reply, in emitted order. */
  function ToolUses(content: seq<Block>): (r: seq<Block>)
    ensures |r| <= |content|
    ensures forall k :: 0 <= k < |r| ==> r[k].ToolUse?
    decreases |content|
  {
    if content == [] then []
    else
      var last := content[|content| - 1];
      ToolUses(content[..|content| - 1]) + (if last.ToolUse? then [last] else [])
  }

  /** The result block for one invocation; an exception becomes a failure text. */
  function RunTool(use: Block, d: Dispatch): (r: Block)
    requires use.ToolUse?
    ensures r.ToolResult? && r.toolUseId == use.id
    ensures d(use.name, use.input).Returned? ==> r.content == d(use.name, use.input).text
    ensures d(use.name, use.input).Raised? ==> r.content == TOOL_FAILED + d(use.name, use.input).message
  {
    var text := match d(use.name, use.input)
      case Returned(t) => t
      case Raised(m) => TOOL_FAILED + m;
    ToolResult(use.id, text)
  }

  /** One result per invocation, in emitted order, each carrying its invocation's id. */
  function ToolResults(content: seq<Block>, d: Dispatch): (r: seq<Block>)
    ensures |r| == |ToolUses(content)|
    ensures forall k :: 0 <= k < |r| ==> r[k] == RunTool(ToolUses(content)[k], d)
    decreases |content|
  {
    if content == [] then []
    else
      var last := content[|content| - 1];
      ToolResults(content[..|content| - 1], d) + (if last.ToolUse? then [RunTool(last, d)] else [])
  }

  // ---------------------------------------------------------------------------
  // The specification of the bounded loop

  /** How many tool-enabled rounds remain when `round` rounds have been counted. */
  function RoundsLeft(maxToolRounds: int, round: int): nat {
    if maxToolRounds - round > 0 then maxToolRounds - round else 0
  }

  /** The forced final call: no tools, and the instruction to answer appended. */
  function FinalCall(g: Generator, system: string, messages: seq<Message>, calls: seq<Request>,
                     responses: seq<Response>): Run
  {
    var request := PlainRequest(g, messages + [FINAL_MESSAGE], system);
    var outcome := if |calls| < |responses| then FirstText(responses[|calls|].content) else Fatal(PROVIDER_FAILED);
    Run(outcome, calls + [request], messages)
  }

  /** The outcome of one round: the loop goes on with a longer conversation, or stops with a run. */
  datatype Step = Continue(messages: seq<Message>, calls: seq<Request>) | Stop(run: Run)

  /**
   * One round from a state in which `round` rounds have been counted, the
   * conversation is `messages` and `calls` have been issued: within the
   * budget, a tool-enabled call whose reply either brings tool results (the
   * loop goes on) or ends the request; past the budget, the forced final call.
   */
  function RoundStep(e: Env, round: int, messages: seq<Message>, calls: seq<Request>): (s: Step)
    ensures s.Continue? ==>
      && round < e.g.maxToolRounds && |calls| < |e.responses|
      && s.calls == calls + [ToolRequest(e, messages)]
      && s.messages == messages + [AssistantMessage(e.responses[|calls|].content),
                                   ResultsMessage(ToolResults(e.responses[|calls|].content, e.dispatch))]
      && e.responses[|calls|].stopReason == TOOL_USE
      && ToolResults(e.responses[|calls|].content, e.dispatch) != []
    ensures s.Stop? ==> |s.run.calls| == |calls| + 1 && s.run.calls[..|calls|] == calls
    ensures s.Stop? && round < e.g.maxToolRounds ==> s.run.calls[|calls|] == ToolRequest(e, messages)
    ensures s.Stop? && round >= e.g.maxToolRounds ==>
      && s.run.calls[|calls|] == PlainRequest(e.g, messages + [FINAL_MESSAGE], e.system)
      && s.run.messages == messages
    ensures s.Stop? && round < e.g.maxToolRounds ==>
      s.run.messages == messages + (if |calls| < |e.responses| then [AssistantMessage(e.responses[|calls|].content)] else [])
  {
    if round < e.g.maxToolRounds then
      var calls' := calls + [ToolRequest(e, messages)];
      if |calls| < |e.responses| then
        var response := e.responses[|calls|];
        var messages' := messages + [AssistantMessage(response.content)];
        var results := if response.stopReason == TOOL_USE then ToolResults(response.content, e.dispatch) else [];
        if results != [] then Continue(messages' + [ResultsMessage(results)], calls')
        else Stop(Run(Answer(FinalText(response.content)), calls', messages'))
      else Stop(Run(Fatal(PROVIDER_FAILED), calls', messages))
    else Stop(FinalCall(e.g, e.system, messages, calls, e.responses))
  }

  /**
   * `ms` is the conversation the replies `rs` produce, in order: each reply
   * appears as an assistant message, followed (except possibly for the last)
   * by one user message holding the results of its tool invocations; only a
   * reply that stopped for tool use and produced results is followed so.
   */
  ghost predicate Exchanges(ms: seq<Message>, rs: seq<Response>, d: Dispatch)
    decreases |ms|
  {
    || ms == []
    || (&& |rs| > 0
        && ms[0] == AssistantMessage(rs[0].content)
        && (|ms| == 1 ||
            (&& rs[0].stopReason == TOOL_USE
             && ToolResults(rs[0].content, d) != []
             && ms[1] == ResultsMessage(ToolResults(rs[0].content, d))
             && Exchanges(ms[2..], rs[1..], d))))
  }

  /** The loop from a state in which `round` rounds have been counted: rounds until one stops. */
  function Rounds(e: Env, round: int, messages: seq<Message>, calls: seq<Request>): Run
    decreases e.g.maxToolRounds - round
  {
    match RoundStep(e, round, messages, calls)
    case Stop(run) => run
    case Continue(messages', calls') => Rounds(e, round + 1, messages', calls')
  }

  /** A round that stops ends the loop with its run. */
  lemma RoundsOnStop(e: Env, round: int, messages: seq<Message>, calls: seq<Request>)
    requires RoundStep(e, round, messages, calls).Stop?
    ensures Rounds(e, round, messages, calls) == RoundStep(e, round, messages, calls).run
  {
  }

  /** A round that goes on leaves the rest to the next round. */
  lemma RoundsOnContinue(e: Env, round: int, messages: seq<Message>, calls: seq<Request>)
    requires RoundStep(e, round, messages, calls).Continue?
    ensures var s := RoundStep(e, round, messages, calls);
      Rounds(e, round, messages, calls) == Rounds(e, round + 1, s.messages, s.calls)
  {
  }

  /** A whole request: the tool loop when tools and a registry are both given, else one plain call. */
  function Respond(g: Generator, query: string, history: Option<string>, tools: seq<ToolDefinition>,
                   toolManager: Option<Dispatch>, responses: seq<Response>): Run
  {
    var system := SystemContent(g.systemPrompt, history);
    var messages := [UserQuery(query)];
    if tools != [] && toolManager.Some? then
      Rounds(Env(g, system, tools, toolManager.value, responses), 0, messages, [])
    else
      var outcome := if |responses| > 0 then FirstText(responses[0].content) else Fatal(PROVIDER_FAILED);
      Run(outcome, [PlainRequest(g, messages, system)], messages)
  }

  /** The parameters the single-round path is handed: the conversation so far and the system text. */
  datatype BaseParams = BaseParams(messages: seq<Message>, system: string)

  /** The single-round path: run the tools of one reply, then one final call without tools. */
  function SingleRound(g: Generator, initial: Response, base: BaseParams, d: Dispatch,
                       responses: seq<Response>): Run
  {
    var results := ToolResults(initial.content, d);
    var messages := base.messages + [AssistantMessage(initial.content)]
                    + (if results != [] then [ResultsMessage(results)] else []);
    var outcome := if |responses| > 0 then FirstText(responses[0].content) else Fatal(PROVIDER_FAILED);
    Run(outcome, [PlainRequest(g, messages, base.system)], messages)
  }

  // ---------------------------------------------------------------------------
  // The operations

  method GenerateResponse(g: Generator, query: string, history: Option<string>,
                          tools: seq<ToolDefinition>, toolManager: Option<Dispatch>,
                          responses: seq<Response>)
    returns (outcome: Outcome, calls: seq<Request>, messages: seq<Message>)
    ensures Run(outcome, calls, messages) == Respond(g, query, history, tools, toolManager, responses)
  {
    var system := SystemContent(g.systemPrompt, history);
    messages := [Message(User, Plain(query))];
    if tools != [] && toolManager.Some? {
      outcome, calls, messages := HandleSequentialToolCalling(g, messages, system, tools, toolManager.value, responses);
      return;
    }
    calls := [Request(g.model, TEMPERATURE, MAX_TOKENS, messages, system, None)];
    if |responses| == 0 {
      outcome := Fatal(PROVIDER_FAILED);
      return;
    }
    outcome := FirstText(responses[0].content);
  }

  method HandleSequentialToolCalling(g: Generator, messages0: seq<Message>, system: string,
                                     tools: seq<ToolDefinition>, dispatch: Dispatch,
                                     responses: seq<Response>)
    returns (outcome: Outcome, calls: seq<Request>, messages: seq<Message>)
    ensures Run(outcome, calls, messages) == Rounds(Env(g, system, tools, dispatch, responses), 0, messages0, [])
  {
    ghost var e := Env(g, system, tools, dispatch, responses);
    var roundCount := 0;
    messages, calls := messages0, [];
    while roundCount < g.maxToolRounds
      invariant Rounds(e, roundCount, messages, calls) == Rounds(e, 0, messages0, [])
      decreases g.maxToolRounds - roundCount
    {
      ghost var round, before, issued := roundCount, messages, calls;
      roundCount := roundCount + 1;
      var ended;
      ended, calls, messages := ToolRound(g, system, tools, dispatch, responses, round, messages, calls);
      if ended.Some? {
        outcome := ended.value;
        RoundsOnStop(e, round, before, issued);
        return;
      }
      RoundsOnContinue(e, round, before, issued);
    }
    RoundsOnStop(e, roundCount, messages, calls);
    outcome, calls := ForcedFinalCall(g, system, messages, calls, responses);
  }

  /** Once the budget is used: one more call, without tools, on the conversation plus the final instruction. */
  method ForcedFinalCall(g: Generator, system: string, messages: seq<Message>, calls0: seq<Request>,
                         responses: seq<Response>)
    returns (outcome: Outcome, calls: seq<Request>)
    ensures Run(outcome, calls, messages) == FinalCall(g, system, messages, calls0, responses)
  {
    var finalRequest := Request(g.model, TEMPERATURE, MAX_TOKENS,
                                messages + [Message(User, Plain(FINAL_INSTRUCTION))], system, None);
    calls := calls0 + [finalRequest];
    if |calls0| >= |responses| {
      outcome := Fatal(PROVIDER_FAILED);
      return;
    }
    var finalResponse := responses[|calls0|];
    outcome := FirstText(finalResponse.content);
  }

  /**
   * The body of the loop: one tool-enabled call; the request ends with an
   * outcome when the provider fails or the reply brings no tool results,
   * otherwise the reply and its results are appended to the conversation.
   */
  method ToolRound(g: Generator, system: string, tools: seq<ToolDefinition>, dispatch: Dispatch,
                   responses: seq<Response>, ghost round: int, messages0: seq<Message>, calls0: seq<Request>)
    returns (ended: Option<Outcome>, calls: seq<Request>, messages: seq<Message>)
    requires round < g.maxToolRounds
    ensures var s := RoundStep(Env(g, system, tools, dispatch, responses), round, messages0, calls0);
      if ended.Some? then s == Stop(Run(ended.value, calls, messages)) else s == Continue(messages, calls)
  {
    var request := Request(g.model, TEMPERATURE, MAX_TOKENS, messages0, system, Some(tools));
    messages := messages0;
    calls := calls0 + [request];
    if |calls0| >= |responses| {
      return Some(Fatal(PROVIDER_FAILED)), calls, messages;
    }
    var response := responses[|calls0|];
    messages := messages + [Message(Assistant, Blocks(response.content))];
    if response.stopReason == TOOL_USE {
      var results := ExecuteToolCalls(response.content, dispatch);
      if results != [] {
        messages := messages + [Message(User, Blocks(results))];
        return None, calls, messages;
      }
    }
    var text := ExtractText(response.content);
    ended := Some(Answer(if text != "" then text else APOLOGY));
  }

  method ExecuteToolCalls(content: seq<Block>, dispatch: Dispatch) returns (results: seq<Block>)
    ensures results == ToolResults(content, dispatch)
  {
    results := [];
    for i := 0 to |content|
      invariant results == ToolResults(content[..i], dispatch)
    {
      assert content[..i + 1][..i] == content[..i];
      var block := content[i];
      if block.ToolUse? {
        var text;
        match dispatch(block.name, block.input) {
          case Returned(t) => text := t;
          case Raised(m) => text := TOOL_FAILED + m;
        }
        results := results + [ToolResult(block.id, text)];
      }
    }
    assert content[..|content|] == content;
  }

  method ExtractText(content: seq<Block>) returns (text: string)
    ensures text == TextOf(content)
  {
    text := "";
    for i := 0 to |content|
      invariant text == TextOf(content[..i])
    {
      assert content[..i + 1][..i] == content[..i];
      if content[i].Text? {
        text := text + content[i].text;
      }
    }
    assert content[..|content|] == content;
  }

  method HandleToolExecution(g: Generator, initial: Response, base: BaseParams, dispatch: Dispatch,
                             responses: seq<Response>)
    returns (outcome: Outcome, calls: seq<Request>, messages: seq<Message>)
    ensures Run(outcome, calls, messages) == SingleRound(g, initial, base, dispatch, responses)
  {
    messages := base.messages;
    messages := messages + [Message(Assistant, Blocks(initial.content))];
    var results := ExecuteToolCalls(initial.content, dispatch);
    if results != [] {
      messages := messages + [Message(User, Blocks(results))];
    }
    assert messages == base.messages + [AssistantMessage(initial.content)]
                       + (if results != [] then [ResultsMessage(results)] else []);
    calls := [Request(g.model, TEMPERATURE, MAX_TOKENS, messages, base.system, None)];
    if |responses| == 0 {
      outcome := Fatal(PROVIDER_FAILED);
      return;
    }
    outcome := FirstText(responses[0].content);
  }
}
