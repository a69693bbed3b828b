/** The OpenAI branch of the input adapter
    (src/utils/inputFormatAdapterUtils/openAIAdapter.ts). */
module OpenAIAdapter {
  import opened Wrappers
  import opened Messages
  import opened OpenAIMessageMap

  /** The wrapped result: only `adaptedMessages`, never a system prompt. */
  datatype OpenAIAdapted = OpenAIAdapted(adaptedMessages: seq<OpenAIMessage>)

  /** The same field-defaulting map as the bare list, wrapped in a record. */
  function AdaptOpenAIMessagesWrapped(messages: seq<Message>): (r: OpenAIAdapted)
    ensures |r.adaptedMessages| == |messages|
    ensures forall i :: 0 <= i < |messages| ==>
              && r.adaptedMessages[i].role == messages[i].role
              && (r.adaptedMessages[i].FunctionMessage? <==> messages[i].role == FUNCTION)
              && (messages[i].role == FUNCTION ==> r.adaptedMessages[i].name == messages[i].name)
              && r.adaptedMessages[i].content == messages[i].content.GetOr(DefaultContent(messages[i].role))
  {
    OpenAIAdapted(seq(|messages|, i requires 0 <= i < |messages| => AdaptMessage(messages[i])))
  }

  /** The wrapped and the bare adapters agree on every input. */
  lemma WrappedAgreesWithBare(messages: seq<Message>)
    ensures AdaptOpenAIMessagesWrapped(messages).adaptedMessages == AdaptOpenAIMessages(messages)
  {
  }
}
