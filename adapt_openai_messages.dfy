/** The field-defaulting map over canonical messages for the OpenAI
    provider (src/utils/inputFormatAdapterUtils/adaptOpenAIMessages.ts). */
module OpenAIMessageMap {
  import opened Wrappers
  import opened Messages

  /** An outgoing OpenAI message: a `function` message keeps its `name`
      (possibly `undefined`); every other message has only a role and a content. */
  datatype OpenAIMessage =
    | FunctionMessage(role: string, content: string, name: Option<string>)
    | RoleContentMessage(role: string, content: string)

  /** The `??` default of the content: `""` for a `function` message,
      `"function call"` for any other. */
  function DefaultContent(role: string): string {
    if role == FUNCTION then "" else "function call"
  }

  /** One message of the map. */
  function AdaptMessage(msg: Message): (r: OpenAIMessage)
    ensures r.role == msg.role
    ensures r.FunctionMessage? <==> msg.role == FUNCTION
    ensures r.FunctionMessage? ==> r.name == msg.name
    ensures msg.content.Some? ==> r.content == msg.content.value
    ensures msg.content.None? && msg.role == FUNCTION ==> r.content == ""
    ensures msg.content.None? && msg.role != FUNCTION ==> r.content == "function call"
  {
    if msg.role == FUNCTION then FunctionMessage(msg.role, msg.content.GetOr(""), msg.name)
    else RoleContentMessage(msg.role, msg.content.GetOr("function call"))
  }

  /** The default export: the bare mapped list. */
  function AdaptOpenAIMessages(messages: seq<Message>): (r: seq<OpenAIMessage>)
    ensures |r| == |messages|
    ensures forall i :: 0 <= i < |messages| ==> r[i] == AdaptMessage(messages[i])
  {
    if |messages| == 0 then [] else [AdaptMessage(messages[0])] + AdaptOpenAIMessages(messages[1..])
  }

  /** An outgoing message read back as a canonical message. */
  function AsMessage(m: OpenAIMessage): (r: Message)
    ensures r.role == m.role && r.content == Some(m.content)
  {
    match m
    case FunctionMessage(role, content, name) => Message(role, Some(content), name, None, None, None)
    case RoleContentMessage(role, content) => Plain(role, content)
  }

  /** Adapting is idempotent: re-adapting the output, read back as
      canonical messages, gives the same output, because the defaults are
      filled in once and never change again. */
  lemma AdaptIdempotent(messages: seq<Message>)
    ensures forall i :: 0 <= i < |messages| ==>
              AdaptMessage(AsMessage(AdaptOpenAIMessages(messages)[i])) == AdaptOpenAIMessages(messages)[i]
  {
  }
}
