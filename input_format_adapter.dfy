/** Provider dispatch of the input adaptation (src/middleware/InputFormatAdapter.ts). */
module InputFormatAdapter {
  import opened Wrappers
  import opened Messages
  import opened MessageFormatters
  import opened RoleHandler
  import opened MessageProcessor
  import opened Validators
  import opened AnthropicAdapter
  import OpenAIMessageMap
  import opened OpenAIAdapter

  /** The adapted list, in the shape of the provider it is for. */
  datatype AdaptedList =
    | OpenAIList(openAIMessages: seq<OpenAIMessageMap.OpenAIMessage>)
    | AnthropicList(anthropicMessages: seq<AnthropicMessage>)

  /** `{adaptedMessages, systemPrompt?}`. */
  datatype Adapted = Adapted(adaptedMessages: AdaptedList, systemPrompt: Option<string>)

  /** OPENAI goes to the OpenAI map and gets no system prompt, ANTHROPIC_BEDROCK
      to the Anthropic adapter, and every other provider tag is an error.
      `None` is a `null`/`undefined` message list, on which the OpenAI map's
      `messages.map` call throws. The dispatch reads only the provider tag. */
  method AdaptMessages(messages: Option<seq<Message>>, provider: Provider) returns (r: Result<Adapted, ProxyError>)
    ensures provider == OpenAI && messages.Some? ==>
              r == Ok(Adapted(OpenAIList(OpenAIMessageMap.AdaptOpenAIMessages(messages.value)), None))
    ensures provider == OpenAI && messages.None? ==> r == Err(NotAList)
    ensures provider == AnthropicBedrock && ValidateMessages(messages).Fail? ==>
              r == Err(ValidateMessages(messages).error)
    ensures provider == AnthropicBedrock && ValidateMessages(messages).Pass? ==>
              r == Ok(Adapted(AnthropicList(Alternated(ExpandAll(messages.value[1..]))),
                              Some(messages.value[0].content.GetOr(""))))
    ensures provider !in {OpenAI, AnthropicBedrock} ==> r == Err(UnsupportedProvider(provider))
  {
    match provider {
      case OpenAI =>
        if messages.None? {
          return Err(NotAList);
        }
        var wrapped := AdaptOpenAIMessagesWrapped(messages.value);
        WrappedAgreesWithBare(messages.value);
        return Ok(Adapted(OpenAIList(wrapped.adaptedMessages), None));
      case AnthropicBedrock =>
        var anthropic := AdaptAnthropicMessages(messages);
        if anthropic.Err? {
          return Err(anthropic.error);
        }
        return Ok(Adapted(AnthropicList(anthropic.value.adaptedMessages), Some(anthropic.value.systemPrompt)));
      case _ =>
        return Err(UnsupportedProvider(provider));
    }
  }
}
