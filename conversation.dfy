/**
 * The message shapes exchanged with the text-generation provider: content
 * blocks, conversation messages, the parameters of one provider call, the
 * provider's reply, and what a tool invocation produces.
 */
module Conversation {
  import opened Wrappers

  /** A JSON-like argument value, as the provider emits it in a tool invocation's input. */
  datatype Value = Str(s: string) | Int(i: int) | Null

  /** The keyword arguments of one tool invocation. */
  type ToolArgs = map<string, Value>

  /**
   * A content block: text, a request to run a tool (emitted by the provider),
   * or the outcome of one tool run (sent back by the orchestrator).
   */
  datatype Block =
    | Text(text: string)
    | ToolUse(id: string, name: string, input: ToolArgs)
    | ToolResult(toolUseId: string, content: string)

  datatype Role = User | Assistant

  /** A message's content is either a plain string or a list of blocks. */
  datatype Content = Plain(text: string) | Blocks(blocks: seq<Block>)

  datatype Message = Message(role: Role, content: Content)

  /** A tool's descriptor; `name` may be missing in a malformed definition. */
  datatype ToolDefinition = ToolDefinition(
    name: Option<string>,
    description: string,
    properties: seq<string>,
    required: seq<string>)

  /**
   * The parameters of one provider call. `tools` is present exactly when the
   * call offers tools; such a call also sets the tool choice to "auto".
   */
  datatype Request = Request(
    model: string,
    temperature: int,
    maxTokens: int,
    messages: seq<Message>,
    system: string,
    tools: Option<seq<ToolDefinition>>)

  /** The provider's reply: its content blocks and why it stopped. */
  datatype Response = Response(content: seq<Block>, stopReason: string)

  /** What running one tool produced: a text, or an exception with its message. */
  datatype ToolOutcome = Returned(text: string) | Raised(message: string)
}
