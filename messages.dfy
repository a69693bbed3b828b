/** The canonical (OpenAI-shaped) chat messages the proxy accepts, the
    provider tags, and the errors the adaptation code throws. */
module Messages {
  import opened Wrappers
  import opened Json

  const SYSTEM := "system"
  const USER := "user"
  const ASSISTANT := "assistant"
  const TOOL := "tool"
  const FUNCTION := "function"

  /** A legacy `function_call` carried by an assistant message. */
  datatype FunctionCall = FunctionCall(name: string, arguments: string)

  /** A modern `tool_calls` entry. */
  datatype ToolCall = ToolCall(id: string, name: string, arguments: string)

  /** A canonical message. Roles are strings, as in the source, so that
      "any other role" is representable; `None` is `null`/`undefined`. */
  datatype Message = Message(
    role: string,
    content: Option<string>,
    name: Option<string>,
    functionCall: Option<FunctionCall>,
    toolCalls: Option<seq<ToolCall>>,
    toolCallId: Option<string>)

  /** A message that has only a role and a content. */
  function Plain(role: string, content: string): Message {
    Message(role, Some(content), None, None, None, None)
  }

  /** The provider tags. */
  datatype Provider =
    | OpenAI
    | Anthropic
    | AnthropicBedrock
    | Llama31Bedrock
    | OpenAICompatibleProvider

  /** Everything the modelled code throws. */
  datatype ProxyError =
    | EmptyMessages
    | FirstMessageNotSystem
    | UnsupportedProvider(provider: Provider)
    | UnsupportedModel(model: string)
    | InvalidRole(role: string)
    | MissingModel(text: string)
    | InvalidToolDefinition(tool: Object)
    | NotAList
}
