/** Model name to provider routing (src/middleware/ProviderFinder.ts).
    The three supported-model enumerations are parameters. */
module ProviderFinder {
  import opened Wrappers
  import opened Messages

  /** The sets are consulted in a fixed order: OpenAI, then Bedrock-Anthropic,
      then Llama; a model in none of them is an error naming the model. */
  function GetProvider(model: string, openAIModels: set<string>, bedrockAnthropicModels: set<string>,
                       llamaModels: set<string>): (r: Result<Provider, ProxyError>)
    ensures r == Ok(OpenAI) <==> model in openAIModels
    ensures r == Ok(AnthropicBedrock) <==> model !in openAIModels && model in bedrockAnthropicModels
    ensures r == Ok(Llama31Bedrock) <==>
              model !in openAIModels && model !in bedrockAnthropicModels && model in llamaModels
    ensures r == Err(UnsupportedModel(model)) <==>
              model !in openAIModels && model !in bedrockAnthropicModels && model !in llamaModels
  {
    if model in openAIModels then Ok(OpenAI)
    else if model in bedrockAnthropicModels then Ok(AnthropicBedrock)
    else if model in llamaModels then Ok(Llama31Bedrock)
    else Err(UnsupportedModel(model))
  }

  /** Routing never selects the direct Anthropic provider nor the
      OpenAI-compatible provider, whatever the model and the sets. */
  lemma NeverAnthropicOrCompatible(model: string, openAIModels: set<string>,
                                   bedrockAnthropicModels: set<string>, llamaModels: set<string>)
    ensures GetProvider(model, openAIModels, bedrockAnthropicModels, llamaModels) != Ok(Anthropic)
    ensures GetProvider(model, openAIModels, bedrockAnthropicModels, llamaModels) != Ok(OpenAICompatibleProvider)
    ensures GetProvider(model, openAIModels, bedrockAnthropicModels, llamaModels).Ok? <==>
              model in openAIModels + bedrockAnthropicModels + llamaModels
  {
  }
}
