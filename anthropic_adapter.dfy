/** Validate, then process (src/utils/inputFormatAdapterUtils/anthropicAdapter.ts). */
module AnthropicAdapter {
  import opened Wrappers
  import opened Messages
  import opened MessageFormatters
  import opened RoleHandler
  import opened MessageProcessor
  import opened Validators

  /** A list that fails validation throws the validator's error before any
      processing; otherwise the result is `processMessages` of the list. */
  method AdaptAnthropicMessages(messages: Option<seq<Message>>) returns (r: Result<Processed, ProxyError>)
    ensures ValidateMessages(messages).Fail? ==> r == Err(ValidateMessages(messages).error)
    ensures ValidateMessages(messages).Pass? ==>
              && r.Ok?
              && r.value.systemPrompt == messages.value[0].content.GetOr("")
              && r.value.adaptedMessages == Alternated(ExpandAll(messages.value[1..]))
              && Alternates(r.value.adaptedMessages)
  {
    var v := ValidateMessages(messages);
    if v.Fail? {
      return Err(v.error);
    }
    var processed := ProcessMessages(messages.value);
    AlternatedAlternates(ExpandAll(messages.value[1..]));
    r := Ok(processed);
  }
}
