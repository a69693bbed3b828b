/** Builders of Anthropic content-block messages
    (src/utils/inputFormatAdapterUtils/anthropicInputFormatAdapterUtils/messageFormatters.ts). */
module MessageFormatters {
  import opened Wrappers
  import opened Messages

  /** A content block of type TEXT. `text` is `None` where the source
      passes `undefined` (a standard message with neither content nor a
      function call). */
  datatype ContentBlock = TextContent(text: Option<string>)

  /** A message in the vendor's content-block form. */
  datatype AnthropicMessage = AnthropicMessage(role: string, content: seq<ContentBlock>)

  const PLACEHOLDER_TEXT := ":"

  function CreateTextContent(text: Option<string>): (b: ContentBlock)
    ensures b.TextContent? && b.text == text
  {
    TextContent(text)
  }

  /** The `":"` filler message of the requested role. */
  function CreatePlaceholderMessage(role: string): (m: AnthropicMessage)
    requires role == USER || role == ASSISTANT
    ensures m.role == role
    ensures m.content == [TextContent(Some(PLACEHOLDER_TEXT))]
  {
    AnthropicMessage(role, [CreateTextContent(Some(PLACEHOLDER_TEXT))])
  }

  /** A message whose role is neither user nor assistant becomes a user
      placeholder followed by an assistant message with its content. */
  function FormatNonStandardMessage(msg: Message): (r: seq<AnthropicMessage>)
    ensures |r| == 2
    ensures r[0] == CreatePlaceholderMessage(USER)
    ensures r[1].role == ASSISTANT
    ensures r[1].content == [TextContent(Some(msg.content.GetOr("")))]
  {
    [ CreatePlaceholderMessage(USER),
      AnthropicMessage(ASSISTANT, [CreateTextContent(Some(msg.content.GetOr("")))]) ]
  }

  /** `msg.content ?? msg.function_call?.arguments`. */
  function StandardText(msg: Message): Option<string> {
    if msg.content.Some? then msg.content
    else if msg.functionCall.Some? then Some(msg.functionCall.value.arguments)
    else None
  }

  /** A user or assistant message keeps its role and carries its content,
      or its function call's arguments, as its only text block. */
  function FormatStandardMessage(msg: Message): (m: AnthropicMessage)
    ensures m.role == msg.role
    ensures |m.content| == 1
    ensures msg.content.Some? ==> m.content[0].text == msg.content
    ensures msg.content.None? && msg.functionCall.Some? ==>
              m.content[0].text == Some(msg.functionCall.value.arguments)
    ensures msg.content.None? && msg.functionCall.None? ==> m.content[0].text.None?
  {
    AnthropicMessage(msg.role, [CreateTextContent(StandardText(msg))])
  }
}
