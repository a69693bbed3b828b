/** The two guards of an Anthropic-family request
    (src/utils/inputFormatAdapterUtils/anthropicInputFormatAdapterUtils/validators.ts). */
module Validators {
  import opened Wrappers
  import opened Messages

  /** `None` is a `null` or `undefined` list. The emptiness check comes
      first, then the role of the first message; a list that passes is not
      changed (it is a value). */
  function ValidateMessages(messages: Option<seq<Message>>): (r: Outcome<ProxyError>)
    ensures r == Fail(EmptyMessages) <==> messages.None? || |messages.value| == 0
    ensures r == Fail(FirstMessageNotSystem) <==>
              messages.Some? && |messages.value| > 0 && messages.value[0].role != SYSTEM
    ensures r.Pass? <==> messages.Some? && |messages.value| > 0 && messages.value[0].role == SYSTEM
  {
    if messages.None? || |messages.value| == 0 then Fail(EmptyMessages)
    else if messages.value[0].role != SYSTEM then Fail(FirstMessageNotSystem)
    else Pass
  }
}
