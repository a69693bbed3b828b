# llm-proxy, modelled in Dafny

llm-proxy is a TypeScript service that accepts OpenAI-style chat requests
and forwards them to OpenAI, to Anthropic models on AWS Bedrock, to Llama
3.1 on AWS Bedrock, or to any OpenAI-compatible endpoint. It translates the
messages into the provider's format on the way in and translates the
provider's answers, streamed or not, back into OpenAI's format on the way
out. This project models the translation logic and proves properties of it.

The model is organised by source file.

- **Input side**
  - `Validators`, `MessageFormatters`, `RoleHandler`, `MessageProcessor` and `AnthropicAdapter` turn an OpenAI message list into an Anthropic system prompt plus strictly alternating user/assistant messages.
  - `OpenAIMessageMap` and `OpenAIAdapter` normalise OpenAI messages.
  - `LlamaPrompt` renders messages into a Llama 3 prompt.
  - `ProviderFinder` and `InputFormatAdapter` choose the provider and dispatch on it.
- **Services**
  - `AnthropicService` converts tools and builds requests. It also rewrites the event stream so that the `message_stop` event carries the token usage.
  - `LlamaService` builds requests. It injects the tool prompt into the system block and holds the prompt text itself.
  - `OpenAICompatibleService` normalises tools and builds requests.
  - `ReplaceObjectKey` renames a key.
- **Output side**
  - `LlamaNonStream`, `LlamaStream` and `LlamaToolCallChunk` convert Llama chunks to OpenAI responses.
  - `LlamaFunctionCall` models the function-call extraction regex.
  - `AnthropicReconstruction` folds Anthropic stream events into one response and converts a `tool_use` block into an OpenAI tool-call chunk.
  - `StreamGenerator` models the streaming generator's Anthropic and Llama branches.
- **Judge:** `LlmAsJudge` builds the evaluation prompt and decides the verdict.
- **Shared modules:**
  - `Wrappers`, `Json` and `Messages` hold the common data types;
  - `Strings` holds string search, trimming, `split`/`join`/`replaceAll` and decimal rendering;
  - `AnthropicEvents` and `LlamaChunks` hold the event and chunk records.

Three kinds of dependency are not modelled directly:

- **Host functions become parameters.** `JSON.parse`, `JSON.stringify`, `Date.now()` and the output adapter that the streaming generator calls are passed in as parameters.
- **Async generators become sequences.** A generator is modelled as the finite sequence it consumes and the sequence it yields.
- **Updates in place become methods with loops.** The source updates arrays and accumulators in place in:
  - the role-alternation splice loop;
  - the message-processing loop;
  - the stream reconstruction fold;
  - the Llama three-chunk window.

  Each of these is a method with a loop, proved equal to a specification function. The function's properties are proved as lemmas.

## Model

| member | source | states |
|---|---|---|
| Validators.ValidateMessages | src/utils/inputFormatAdapterUtils/anthropicInputFormatAdapterUtils/validators.ts:1-11 | Fails with "empty" exactly when the list is missing or empty, and with "first not system" exactly when the first message is not a system message. It passes exactly when neither applies. |
| MessageFormatters.CreateTextContent | src/utils/inputFormatAdapterUtils/anthropicInputFormatAdapterUtils/messageFormatters.ts:6-11 | A single text block that carries the given text. |
| MessageFormatters.CreatePlaceholderMessage | src/utils/inputFormatAdapterUtils/anthropicInputFormatAdapterUtils/messageFormatters.ts:13-18 | A message of the requested role whose only block is the placeholder text. |
| MessageFormatters.FormatNonStandardMessage | src/utils/inputFormatAdapterUtils/anthropicInputFormatAdapterUtils/messageFormatters.ts:20-28 | A user placeholder followed by an assistant message that holds the original content, or "" when there is none. |
| MessageFormatters.FormatStandardMessage | src/utils/inputFormatAdapterUtils/anthropicInputFormatAdapterUtils/messageFormatters.ts:30-33 | Keeps the role and has one text block. The block holds the content if present, else the function call's arguments, else nothing. |
| RoleHandler.OppositeRole | src/utils/inputFormatAdapterUtils/anthropicInputFormatAdapterUtils/roleHandler.ts:14-16 | Always user or assistant, and never the given role. |
| RoleHandler.EnsureAlternatingRoles | src/utils/inputFormatAdapterUtils/anthropicInputFormatAdapterUtils/roleHandler.ts:4-23 | The in-place splice loop computes exactly the specification `Alternated` of its input. |
| RoleHandler.SpliceKeepsInvariant | src/utils/inputFormatAdapterUtils/anthropicInputFormatAdapterUtils/roleHandler.ts:9-20 | One loop step keeps the splice loop's invariant. A placeholder is inserted exactly when two neighbours share a role. |
| RoleHandler.Alternated | src/utils/inputFormatAdapterUtils/anthropicInputFormatAdapterUtils/roleHandler.ts:4-23 | The reference result: a placeholder of the opposite role between each equal-role neighbour pair. Specification function; `AlternatedAlternates`, `AlternatedOnlyInserts`, `AlternatedLength` and `AlternatedIdempotent` state it. |
| RoleHandler.AlternatedAlternates | src/utils/inputFormatAdapterUtils/anthropicInputFormatAdapterUtils/roleHandler.ts:4-23 | No two neighbouring messages of the result share a role. |
| RoleHandler.AlternatedEnds | src/utils/inputFormatAdapterUtils/anthropicInputFormatAdapterUtils/roleHandler.ts:4-23 | A non-empty input keeps its first and last message. |
| RoleHandler.AlternatedLength | src/utils/inputFormatAdapterUtils/anthropicInputFormatAdapterUtils/roleHandler.ts:9-20 | The result is longer than the input by the number of equal-role neighbour pairs. |
| RoleHandler.AlternatedOnlyInserts | src/utils/inputFormatAdapterUtils/anthropicInputFormatAdapterUtils/roleHandler.ts:11-17 | Deleting the inserted positions gives back the input exactly. Nothing is dropped, changed or reordered. |
| RoleHandler.InsertedCount | src/utils/inputFormatAdapterUtils/anthropicInputFormatAdapterUtils/roleHandler.ts:11-17 | The number of inserted positions equals the number of equal-role neighbour pairs. |
| RoleHandler.InsertedArePlaceholders | src/utils/inputFormatAdapterUtils/anthropicInputFormatAdapterUtils/roleHandler.ts:11-17 | Every inserted message is a placeholder whose role is opposite to that of the message before it. |
| RoleHandler.AlternatedKeepsAlternating | src/utils/inputFormatAdapterUtils/anthropicInputFormatAdapterUtils/roleHandler.ts:9-20 | An already alternating list is returned unchanged. |
| RoleHandler.AlternatedIdempotent | src/utils/inputFormatAdapterUtils/anthropicInputFormatAdapterUtils/roleHandler.ts:4-23 | Applying the alternation twice gives the same result as applying it once. |
| RoleHandler.AlternatedSnoc | src/utils/inputFormatAdapterUtils/anthropicInputFormatAdapterUtils/roleHandler.ts:9-20 | Appending a message extends the result by the bridge between the last two messages. The insertion mask grows the same way. |
| RoleHandler.KeptAppend | src/utils/inputFormatAdapterUtils/anthropicInputFormatAdapterUtils/roleHandler.ts:11-17 | Deleting masked positions distributes over concatenation, and so does counting them. |
| RoleHandler.BridgeKept | src/utils/inputFormatAdapterUtils/anthropicInputFormatAdapterUtils/roleHandler.ts:11-17 | One step inserts at most one message, inserts one exactly when the roles are equal, and keeps the next message. |
| RoleHandler.ComposeKept | src/utils/inputFormatAdapterUtils/anthropicInputFormatAdapterUtils/roleHandler.ts:11-17 | Adding one step to a prefix keeps the prefix's original messages and then the new one. |
| RoleHandler.InsertedMaskLength | src/utils/inputFormatAdapterUtils/anthropicInputFormatAdapterUtils/roleHandler.ts:9-20 | The insertion mask has one entry per output message. |
| RoleHandler.AlternatesPrefix | src/utils/inputFormatAdapterUtils/anthropicInputFormatAdapterUtils/roleHandler.ts:9-20 | Dropping the last message of an alternating list leaves it alternating. |
| RoleHandler.SpliceStep | src/utils/inputFormatAdapterUtils/anthropicInputFormatAdapterUtils/roleHandler.ts:9-20 | The result on a prefix ends with the prefix's last message. Extending the prefix by one appends that message's bridge. |
| MessageProcessor.ProcessMessages | src/utils/inputFormatAdapterUtils/anthropicInputFormatAdapterUtils/messageProcessor.ts:8-30 | The system prompt is the first message's content, or "". The other messages are expanded one by one and then passed through the role alternation. |
| MessageProcessor.ProcessedProperties | src/utils/inputFormatAdapterUtils/anthropicInputFormatAdapterUtils/messageProcessor.ts:8-30 | The processed messages alternate and every one is well shaped. Deleting the inserted placeholders gives back the expanded input. Each non-standard message adds exactly one message. |
| MessageProcessor.ExpandAllAppend | src/utils/inputFormatAdapterUtils/anthropicInputFormatAdapterUtils/messageProcessor.ts:18-24 | Expansion distributes over concatenation. |
| MessageProcessor.ExpandAllLength | src/utils/inputFormatAdapterUtils/anthropicInputFormatAdapterUtils/messageProcessor.ts:18-24 | The expansion has one message per input message plus one per non-standard message. |
| MessageProcessor.ExpandAllShape | src/utils/inputFormatAdapterUtils/anthropicInputFormatAdapterUtils/messageProcessor.ts:18-24 | Every expanded message has exactly one text block. |
| MessageProcessor.AlternatedShape | src/utils/inputFormatAdapterUtils/anthropicInputFormatAdapterUtils/messageProcessor.ts:26-29 | The alternation keeps every message well shaped. |
| MessageProcessor.KeptMember | src/utils/inputFormatAdapterUtils/anthropicInputFormatAdapterUtils/messageProcessor.ts:26-29 | A position that is not masked survives the deletion of masked positions. |
| AnthropicAdapter.AdaptAnthropicMessages | src/utils/inputFormatAdapterUtils/anthropicAdapter.ts:5-13 | Validation errors are returned as they are. Otherwise the result is the system prompt and the processed messages. |
| OpenAIMessageMap.AdaptMessage | src/utils/inputFormatAdapterUtils/adaptOpenAIMessages.ts:3-17 | Keeps the role. A function message keeps its name. Content is the original, or "" for a function message, or "function call" for any other message. |
| OpenAIMessageMap.AdaptOpenAIMessages | src/utils/inputFormatAdapterUtils/adaptOpenAIMessages.ts:3-17 | Maps every message with `AdaptMessage`, keeping length and order. |
| OpenAIMessageMap.AsMessage | src/utils/inputFormatAdapterUtils/adaptOpenAIMessages.ts:3-17 | Reads an adapted message back as a message with the same role and content. |
| OpenAIMessageMap.AdaptIdempotent | src/utils/inputFormatAdapterUtils/adaptOpenAIMessages.ts:3-17 | Adapting an already adapted message changes nothing. |
| OpenAIAdapter.AdaptOpenAIMessagesWrapped | src/utils/inputFormatAdapterUtils/openAIAdapter.ts:3-21 | Per message: the same role, the name for function messages, and the content or its role default. There is no system prompt. |
| OpenAIAdapter.WrappedAgreesWithBare | src/utils/inputFormatAdapterUtils/openAIAdapter.ts:3-21 | The wrapped adapter and the bare message map agree on every message list. |
| LlamaPrompt.FirstInvalidRole | src/utils/inputFormatAdapterUtils/openAIToLlamaMessage.ts:9-12 | The leftmost message whose role Llama does not know, or none exactly when all roles are known. |
| LlamaPrompt.OpenAIToLlamaMessage | src/utils/inputFormatAdapterUtils/openAIToLlamaMessage.ts:3-18 | The first invalid role raises an error naming it. Otherwise the result is the begin-of-text marker followed by one segment per message, in order. |
| LlamaPrompt.RenderAllAppend | src/utils/inputFormatAdapterUtils/openAIToLlamaMessage.ts:14 | Rendering distributes over concatenation. |
| LlamaPrompt.SegmentsAppend | src/utils/inputFormatAdapterUtils/openAIToLlamaMessage.ts:14 | The segments of a concatenation are the concatenated segments. |
| LlamaPrompt.SegmentsSnoc | src/utils/inputFormatAdapterUtils/openAIToLlamaMessage.ts:14 | The loop step: one more message appends its segment. |
| LlamaPrompt.ContentText | src/utils/inputFormatAdapterUtils/openAIToLlamaMessage.ts:14 | The interpolation of a content: the text, or `null` when it is missing. Specification function without a contract. |
| LlamaPrompt.Segment | src/utils/inputFormatAdapterUtils/openAIToLlamaMessage.ts:14 | One message's text: header, role, header end, newline, content, end-of-turn, newline. Specification function; `SegmentEnds` states it. |
| LlamaPrompt.SegmentEnds | src/utils/inputFormatAdapterUtils/openAIToLlamaMessage.ts:14 | Every segment ends with the end-of-turn marker and a newline. |
| LlamaPrompt.PromptShape | src/utils/inputFormatAdapterUtils/openAIToLlamaMessage.ts:3-18 | The prompt starts with begin-of-text. An empty list gives only that marker. A non-empty list ends with the end-of-turn marker. |
| LlamaPrompt.PromptCons | src/utils/inputFormatAdapterUtils/openAIToLlamaMessage.ts:3-18 | The prompt of m::ms is the marker, then m's segment, then the rest. |
| ProviderFinder.GetProvider | src/middleware/ProviderFinder.ts:9-33 | OpenAI iff the model is an OpenAI model. Bedrock Anthropic iff it is not OpenAI but is Bedrock. Llama likewise after both. An unsupported-model error iff it is in no list. |
| ProviderFinder.NeverAnthropicOrCompatible | src/middleware/ProviderFinder.ts:9-33 | The lookup never yields the direct Anthropic or OpenAI-compatible providers, and it succeeds exactly for listed models. |
| InputFormatAdapter.AdaptMessages | src/middleware/InputFormatAdapter.ts:7-24 | OpenAI goes to the OpenAI map and Bedrock Anthropic to the Anthropic adapter, with its validation errors. Every other provider is an unsupported-provider error. |
| AnthropicService.FieldIfDefined | src/services/AnthropicService.ts:32-43 | The key is present exactly when the value is defined, and then holds it. No other key is present. |
| AnthropicService.SchemaOf | src/services/AnthropicService.ts:32-54 | A truthy schema. The tool's truthy `input_schema` wins, then its truthy `parameters`, then the default schema. |
| AnthropicService.ConvertTool | src/services/AnthropicService.ts:23-63 | The result is always a `custom` tool with a truthy schema. An Anthropic-shaped tool keeps its name and description, an OpenAI function tool takes them from `function`, and any other tool is treated as a best effort. |
| AnthropicService.ConvertToolsToAnthropicFormat | src/services/AnthropicService.ts:23-63 | No tools give `[]`. Otherwise the result is the element-wise conversion. |
| AnthropicService.ConvertToolIdempotent | src/services/AnthropicService.ts:23-63 | A converted tool is Anthropic-shaped. Converting a recognised tool twice gives the same result as converting it once. |
| AnthropicService.BuildRequest | src/services/AnthropicService.ts:84-103 | A missing or empty model is an error. Otherwise `max_tokens` defaults to 1024 and the system prompt to "". Tools are sent exactly when the conversion is non-empty. |
| AnthropicService.FirstStop | src/services/AnthropicService.ts:145-169 | The index of the leftmost `message_stop` event, or none when there is none. |
| AnthropicService.StreamEvents | src/services/AnthropicService.ts:145-169 | The stream loop yields exactly the specification `Yielded`. |
| AnthropicService.Yielded | src/services/AnthropicService.ts:145-169 | The events the stream loop yields: everything before the first stop, then one synthesised stop. Specification function; `StreamEvents` and `YieldedShape` state it. |
| AnthropicService.YieldedShape | src/services/AnthropicService.ts:145-169 | Nothing is added: every yielded event before the last one is the vendor's event at the same position, and none of them is a stop. The output holds a stop exactly when the input does, and then only as its last event. |
| LlamaService.SystemBlockEnd | src/services/AwsBedrockLlama3Service.ts:101-105 | The end-of-turn position of the first system block at or after p. |
| LlamaService.SystemBlockEndIsLeftmost | src/services/AwsBedrockLlama3Service.ts:101-105 | The regex's match is the leftmost system block, and it has none exactly when no system block exists. |
| LlamaService.MarkerIsFirstAfterHeader | src/services/AwsBedrockLlama3Service.ts:101-102 | The lazy match ends at the first end-of-turn marker after the header. |
| LlamaService.InjectToolPrompt | src/services/AwsBedrockLlama3Service.ts:104-117 | With no system block, the messages are unchanged. Otherwise the tool prompt is inserted just before the system block's end-of-turn marker. |
| LlamaService.InjectionOnlyInserts | src/services/AwsBedrockLlama3Service.ts:104-117 | Removing the inserted text gives back the messages. The result is never shorter. |
| LlamaService.MaxGenLen | src/services/AwsBedrockLlama3Service.ts:33 | `max_tokens` if it is truthy, else 100, and never 0. |
| LlamaService.BuildCompletionRequest | src/services/AwsBedrockLlama3Service.ts:28-36 | A missing or empty model is an error. Otherwise the body holds the prompt and `max_gen_len`. |
| LlamaService.BuildStreamRequest | src/services/AwsBedrockLlama3Service.ts:62-124 | The model check and `max_gen_len` as above. The prompt is `StreamPrompt`: the messages with the tool prompt, exactly as the service writes it, injected. |
| LlamaService.ToolsText | src/services/AwsBedrockLlama3Service.ts:69 | `JSON.stringify(tools, null, 2)` in the template: the stringified tools, or the text `undefined` when no tools are given. Specification function; it has no contract of its own. |
| LlamaService.ToolPromptAsWritten | src/services/AwsBedrockLlama3Service.ts:66-99 | The tool prompt with the service's own format and example, which carry the two defects listed under Findings. Specification function; `ToolPromptCalls.FormatAsWrittenYieldsNothing` and `ToolPromptCalls.ExampleAsWrittenYieldsNothing` state what it leads to. |
| LlamaService.ToolPrompt | src/services/AwsBedrockLlama3Service.ts:66-99 | The same prompt with a format and an example the extraction accepts: the corrected definition. Specification function; `ToolPromptCalls.FormatYieldsItsCall` and `ToolPromptCalls.ExampleYieldsItsCall` state its property. |
| LlamaService.StreamPrompt | src/services/AwsBedrockLlama3Service.ts:101-117 | The streaming prompt: `InjectToolPrompt` applied to the messages and `ToolPromptAsWritten`. Specification function; `LlamaService.InjectToolPrompt` and `LlamaService.InjectionOnlyInserts` state its shape. |
| OpenAICompatibleService.FunctionOf | src/services/OpenAICompatibleService.ts:15-24 | The rebuilt `function` holds exactly name and parameters, plus the description when present. |
| OpenAICompatibleService.NormalizeTool | src/services/OpenAICompatibleService.ts:9-29 | A function tool passes through and a flat tool is reshaped. Anything else is an invalid-tool error, and exactly then. |
| OpenAICompatibleService.NormalizedIsFunctionTool | src/services/OpenAICompatibleService.ts:9-29 | A normalised tool is a function tool, and normalising it again changes nothing. |
| OpenAICompatibleService.NormalizeAll | src/services/OpenAICompatibleService.ts:5-31 | On success, one tool per input tool. |
| OpenAICompatibleService.NormalizeAllSpec | src/services/OpenAICompatibleService.ts:5-31 | Succeeds iff every tool normalises, and then the result is element-wise. Otherwise the error is that of the first bad tool. |
| OpenAICompatibleService.NormalizeTools | src/services/OpenAICompatibleService.ts:5-31 | Absent tools stay absent. Present tools stay a list of the same length. |
| OpenAICompatibleService.NormalizeAllIdempotent | src/services/OpenAICompatibleService.ts:5-31 | Normalising normalised tools changes nothing. |
| OpenAICompatibleService.BuildCompletionRequest | src/services/OpenAICompatibleService.ts:57-70 | A missing or empty model is an error. Otherwise the tools go out unchanged as `functions`. |
| OpenAICompatibleService.BuildStreamRequest | src/services/OpenAICompatibleService.ts:91-107 | The model check comes first and a normalisation error aborts. Otherwise tools are sent exactly when given, and usage is requested. |
| ReplaceObjectKey.ReplaceKey | src/utils/servicesUtils/replaceObjectKey.ts:9-15 | Without the old key, the object is unchanged. Otherwise its value moves to the new key and the other keys stay. |
| ReplaceObjectKey.ReplaceKeyRoundTrip | src/utils/servicesUtils/replaceObjectKey.ts:9-15 | Renaming to a fresh key and back restores the object. |
| ReplaceObjectKey.ReplaceKeyInObjects | src/utils/servicesUtils/replaceObjectKey.ts:1-16 | No array gives `[]`. Otherwise the rename is applied to each object, keeping length and order. |
| ReplaceObjectKey.ReplaceSameKeyIsIdentity | src/utils/servicesUtils/replaceObjectKey.ts:1-16 | Renaming a key to itself changes nothing. |
| LlamaNonStream.StrOr | src/utils/outputFormatAdapterUtils/convertLlamaToOpenAINonStream.ts:3 | A non-empty string wins; otherwise the fallback is used. |
| LlamaNonStream.ConvertLlamaToOpenAINonStream | src/utils/outputFormatAdapterUtils/convertLlamaToOpenAINonStream.ts:1-28 | Default id and fingerprint, and trimmed content. The finish reason is present exactly when the stop reason is a non-empty string. The counts default to 0 and the total is their sum. |
| LlamaNonStream.NonStreamContent | src/utils/outputFormatAdapterUtils/convertLlamaToOpenAINonStream.ts:12 | The content is a slice of the generation with only white space cut at both ends, and it neither starts nor ends with white space. |
| LlamaStream.SumOf | src/utils/outputFormatAdapterUtils/convertLlamaToOpenAIStream.ts:24 | JavaScript's `+` on the two counts. A null count adds as 0. The sum is NaN (none) exactly when either count is `undefined`. Two numbers give their sum. |
| LlamaStream.DeltaContent | src/utils/outputFormatAdapterUtils/convertLlamaToOpenAIStream.ts:12 | The generation if it is non-empty, else the delta's content, else "". |
| LlamaStream.ConvertLlamaToOpenAIStream | src/utils/outputFormatAdapterUtils/convertLlamaToOpenAIStream.ts:1-35 | The id passes through. `created` and `model` use their defaults when falsy. The finish reason is "stop" and usage is present exactly when the stop reason is not null. The total is NaN exactly when a count is `undefined`; otherwise it is the sum with null counts as 0. |
| LlamaFunctionCall.ParseFunctionCall | src/utils/outputFormatAdapterUtils/convertLlamaToOpenAIStreamToolCall.ts:4-18 | `generation.match` with the function-call regex: the match at the leftmost position that has one, with its name and arguments. Specification function; `ParseIsLeftmost`, `ParsedShape`, `NoCommaNoMatch` and `CallTextParses` state its properties. |
| LlamaFunctionCall.ParseIsLeftmost | src/utils/outputFormatAdapterUtils/convertLlamaToOpenAIStreamToolCall.ts:4-18 | The extracted call is the match at the leftmost position that has one. Nothing is extracted exactly when no position matches. |
| LlamaFunctionCall.ParsedShape | src/utils/outputFormatAdapterUtils/convertLlamaToOpenAIStreamToolCall.ts:6-7 | The name is non-empty and quote-free, and the arguments run from a `{` to a `}`. |
| LlamaFunctionCall.NoCommaNoMatch | src/utils/outputFormatAdapterUtils/convertLlamaToOpenAIStreamToolCall.ts:6-7 | A generation without a comma never yields a call. |
| LlamaFunctionCall.CallTextParses | src/utils/outputFormatAdapterUtils/convertLlamaToOpenAIStreamToolCall.ts:6-7 | A call written in the pattern's layout is extracted with exactly its name and arguments (round trip). The name is non-empty and quote-free. The arguments run from `{` to `}` and may hold nested objects; they only must not contain the closing tag `}</function>`. |
| LlamaFunctionCall.NoEarlierEnd | src/utils/outputFormatAdapterUtils/convertLlamaToOpenAIStreamToolCall.ts:7 | Inside such arguments, no `}` before the last one can end the lazy group, because a closing tag that starts inside them cannot reach past them. |
| LlamaFunctionCall.NestedCallParses | src/utils/outputFormatAdapterUtils/convertLlamaToOpenAIStreamToolCall.ts:5-7 | A call whose parameters are the nested object `{"a":{"b":1}}` is extracted whole. |
| LlamaFunctionCall.ArgumentsEndIsLeast | src/utils/outputFormatAdapterUtils/convertLlamaToOpenAIStreamToolCall.ts:7 | The lazy `\{.*?\}` stops at the first `}` that the closing `}</function>` follows. |
| LlamaFunctionCall.QuoteFreeEndIsQuoteFree | src/utils/outputFormatAdapterUtils/convertLlamaToOpenAIStreamToolCall.ts:7 | `[^"]+` consumes only characters that are not quotes. |
| LlamaFunctionCall.MatchAt | src/utils/outputFormatAdapterUtils/convertLlamaToOpenAIStreamToolCall.ts:6-7 | A match at a position exists exactly when the pattern's stages all succeed there. |
| LlamaFunctionCall.StagesMatch | src/utils/outputFormatAdapterUtils/convertLlamaToOpenAIStreamToolCall.ts:6-7 | When the stages succeed at p, the captures are the name between the quotes and the braced arguments. |
| LlamaFunctionCall.SpanFacts | src/utils/outputFormatAdapterUtils/convertLlamaToOpenAIStreamToolCall.ts:6-7 | A match starts with `<function>`, has a quote-free name, and has arguments from `{` to `}`. |
| LlamaToolCallChunk.CallOrDefault | src/utils/outputFormatAdapterUtils/convertLlamaToOpenAIStreamToolCall.ts:34 | The extracted call, or a null name with arguments `"{}"`. |
| LlamaToolCallChunk.ConvertLlamaToOpenAIStreamToolCall | src/utils/outputFormatAdapterUtils/convertLlamaToOpenAIStreamToolCall.ts:20-42 | The id is `stream-` followed by the time, `created` is the time in seconds, and the constants are fixed. The finish reason is present exactly when the stop reason is a non-empty string. The function call is the extracted call, or the `null` name with `"{}"` arguments when nothing is extracted. |
| LlamaToolCallChunk.ToolCallChunkCall | src/utils/outputFormatAdapterUtils/convertLlamaToOpenAIStreamToolCall.ts:20-34 | A name is present exactly when the regex matches somewhere. The name and arguments are then the two groups of the leftmost match and are well formed; otherwise the arguments are `"{}"`. |
| LlamaToolCallChunk.ToolCallChunkRoundTrip | src/utils/outputFormatAdapterUtils/convertLlamaToOpenAIStreamToolCall.ts:4-34 | A generation that lays out a call in the accepted form gives a chunk whose function call is exactly that name and those arguments. This holds for any non-empty quote-free name and any braced arguments without `}</function>`, nested objects included. |
| ToolPromptCalls.FormatYieldsItsCall | src/services/AwsBedrockLlama3Service.ts:73-80 | The corrected format line is extracted as its own call. |
| ToolPromptCalls.ExampleYieldsItsCall | src/services/AwsBedrockLlama3Service.ts:82-91 | The corrected example is extracted as its own call. |
| ToolPromptCalls.FormatAsWrittenYieldsNothing | src/services/AwsBedrockLlama3Service.ts:73-80 | The format as written yields no call. |
| ToolPromptCalls.ExampleAsWrittenYieldsNothing | src/services/AwsBedrockLlama3Service.ts:82-91 | The example as written yields no call. |
| AnthropicReconstruction.ReconstructAnthropicResponse | src/index.ts:94-170 | The event loop computes the fold of `Step` over the chunks. The result is a "message" from the "assistant". |
| AnthropicReconstruction.FoldFromAppend | src/index.ts:105-159 | Folding a concatenation is folding the second part from the state the first part left. |
| AnthropicReconstruction.Step | src/index.ts:105-158 | One iteration of the event loop: the event's type first, then the Bedrock metrics. Specification function; `StepBlocks`, `StepDeltaOpen`, `StepInput`, `StepOutput` and `StepStrings` state its effect. |
| AnthropicReconstruction.Close | src/index.ts:131-142 | The block a `content_block_stop` appends: a tool block gets the parse of its joined argument fragments as input, or `{}` when the parse fails. Specification function; `BlockLifecycle` states it. |
| AnthropicReconstruction.Finish | src/index.ts:161-169 | The response the fold's final state gives: an assistant "message" with the collected blocks and scalars. Specification function; `ReconstructAnthropicResponse` and `ScalarsAreLastSupplied` state it. |
| AnthropicReconstruction.StepBlocks | src/index.ts:131-142 | A content block is appended only by a `content_block_stop` while one is open. Every other event leaves the block list alone. |
| AnthropicReconstruction.BlocksOnlyGrow | src/index.ts:105-159 | Blocks are only ever appended: the list before is a prefix of the list after. |
| AnthropicReconstruction.StepDeltaOpen | src/index.ts:118-129 | One delta extends the open block's text or the tool-argument buffer and changes no block. |
| AnthropicReconstruction.DeltasWhileOpen | src/index.ts:118-129 | After any run of events other than block starts and stops (`ping`, message-level events and metrics are skipped), the open block's text has grown by the text deltas in order and the argument buffer by the JSON fragments. |
| AnthropicReconstruction.BlockLifecycle | src/index.ts:113-142 | Start, any events other than block starts and stops, and stop append exactly one block with the accumulated text. A tool block's input is the parse of the joined fragments, or `{}` when the parse fails. |
| AnthropicReconstruction.LastAppend | src/index.ts:105-159 | The last supplied value of a concatenation comes from the second part if it supplies one, else from the first. |
| AnthropicReconstruction.StepInput | src/index.ts:106-158 | One event sets input tokens to the last value it supplies, or keeps them. |
| AnthropicReconstruction.StepOutput | src/index.ts:106-158 | One event sets output tokens to the last value it supplies, or keeps them. |
| AnthropicReconstruction.StepStrings | src/index.ts:106-147 | One event sets id, model and stop reason to the values it supplies, or keeps them. |
| AnthropicReconstruction.ScalarsAreLastSupplied | src/index.ts:105-159 | Token counts, stop reason, id and model each end as the last value any event supplied, or as 0 or "" when none did. |
| AnthropicReconstruction.AnthropicToolCallToStreamChunk | src/index.ts:172-209 | The id falls back to `anthropic-` followed by the time. A string input passes through and any other input is stringified. The token counts are copied and the total is their sum. |
| StreamGenerator.FirstToolUse | src/index.ts:326-333 | The first `tool_use` block, or none exactly when there is none. |
| StreamGenerator.AdaptEach | src/index.ts:334-343 | Each buffered event is adapted, in order. |
| StreamGenerator.AnthropicOutputs | src/index.ts:309-345 | What the Anthropic branch yields: the first `tool_use` block of the reconstruction when a tool use started, else each event adapted. Specification function; `AnthropicBranch` states its properties. |
| StreamGenerator.CollectEvents | src/index.ts:313-324 | The buffering loop keeps every event, and its flag is set exactly when some event starts a `tool_use` block. |
| StreamGenerator.AnthropicBranch | src/index.ts:309-345 | With a `tool_use` start, at most one tool-call chunk is produced. Otherwise every event is adapted once and in order. |
| StreamGenerator.FirstMarkerIs | src/index.ts:353-380 | The leftmost window where a `<` chunk and then a `function` chunk follow. |
| StreamGenerator.NoFirstMarker | src/index.ts:353-380 | No window has the marker. |
| StreamGenerator.AdaptAllAt | src/index.ts:367-379 | Adapting a run keeps its length, and element i adapts chunk i. |
| StreamGenerator.GenerationsCons | src/index.ts:382-392 | The reduce concatenates generations left to right. |
| StreamGenerator.MergeChunks | src/index.ts:382-392 | The reduce loop gives the first accumulated chunk with all generations concatenated. |
| StreamGenerator.FlushBuffer | src/index.ts:393-401 | The flush loop adapts each leftover chunk as stream text with no function-call flag. |
| StreamGenerator.ScanChunk | src/index.ts:353-380 | One window step keeps the scan phase's invariant. It either emits the oldest buffered chunk or switches to accumulating at the marker. |
| StreamGenerator.LlamaOutputs | src/index.ts:347-402 | What the Llama branch yields, defined from the first marker window. Specification function; `LlamaWithoutMarker` and `LlamaWithMarker` state its properties. |
| StreamGenerator.YieldCall | src/index.ts:382-392 | At the end of a stream with the marker, the yields are completed by the one merged function-call response. |
| StreamGenerator.YieldRest | src/index.ts:393-402 | At the end of a stream without the marker, the yields are completed by flushing the window. |
| StreamGenerator.LlamaBranch | src/index.ts:347-402 | The generator's outputs are exactly `LlamaOutputs`: text before the marker and one merged function-call response from it, or everything as text. |
| StreamGenerator.LlamaWithoutMarker | src/index.ts:353-401 | Without a marker every chunk is emitted once and in order. All but the last two chunks carry `isFunctionCall: false`; the last two are flushed and carry none. |
| StreamGenerator.LlamaWithMarker | src/index.ts:353-392 | With the marker at k, the k earlier chunks are text, followed by one function-call response whose generation is everything from k on. |
| StreamGenerator.MergedBeginsWithMarker | src/index.ts:382-392 | The merged generation holds the marker chunks' `<` and `function` right after the first accumulated chunk's text. |
| LlmAsJudge.RoleLabel | src/utils/llmAsJudge.ts:49-58 | The role's label in the trajectory. Specification function; `RoleLabelKnown` states it. |
| LlmAsJudge.RoleLabelKnown | src/utils/llmAsJudge.ts:49-58 | The label is "Unknown" exactly for roles outside the five known ones. Tool and function messages are both labelled "Tool". |
| LlmAsJudge.ContentText | src/utils/llmAsJudge.ts:59-62 | A string content as it is; a missing one as `JSON.stringify(null)`, that is `null`. Specification function without a contract. |
| LlmAsJudge.Turn | src/utils/llmAsJudge.ts:63 | The line `Turn <index + 1> [<label>]: <content>` of one message. Specification function; `Turns` and `TrajectorySnoc` state it. |
| LlmAsJudge.Turns | src/utils/llmAsJudge.ts:47-64 | One numbered turn per message, in order, counting from 1. |
| LlmAsJudge.Trajectory | src/utils/llmAsJudge.ts:47-65 | The turns joined by blank lines. Specification function; `Turns` and `TrajectorySnoc` state it. |
| LlmAsJudge.TrajectorySnoc | src/utils/llmAsJudge.ts:47-65 | Appending a message appends a blank-line separator and its turn. |
| LlmAsJudge.ReplaceAllAbsent | src/utils/llmAsJudge.ts:68-74 | Replacing a pattern that does not occur changes nothing. |
| LlmAsJudge.LastContent | src/utils/llmAsJudge.ts:71 | `messages[messages.length - 1]?.content \|\| ""`: the last message's content, or "" for an empty list or a missing content. Specification function without a contract. |
| LlmAsJudge.EnhancedPrompt | src/utils/llmAsJudge.ts:68-74 | The judge prompt with `{{messages[-1]}}`, `{{messages}}` and `{{trajectory}}` replaced in that order. Specification function; `EnhancedPromptWithoutPlaceholders` and `Strings.ReplaceAllIsSplitJoin` state it. |
| LlmAsJudge.EnhancedPromptWithoutPlaceholders | src/utils/llmAsJudge.ts:68-74 | A judge prompt without any placeholder is used as it is. |
| LlmAsJudge.JsonSpan | src/utils/llmAsJudge.ts:104-110 | The match of `/\{[\s\S]*\}/` as a range: when there is one, it is non-empty and inside the text. `JsonSpanSpec` states it fully. |
| LlmAsJudge.JudgeMessages | src/utils/llmAsJudge.ts:77-86 | A system message with the enhanced prompt, then a user message that holds the full trajectory right after the fixed introduction. |
| LlmAsJudge.FirstIndexOf | src/utils/llmAsJudge.ts:104-110 | The leftmost occurrence at or after `from`, or none. |
| LlmAsJudge.LastIndexOf | src/utils/llmAsJudge.ts:104-110 | The rightmost occurrence before `upto`, or none. |
| LlmAsJudge.JsonSpanSpec | src/utils/llmAsJudge.ts:104-110 | No span exactly when there is no `{` before some `}`. Otherwise the span runs from the first `{` through the last `}`. |
| LlmAsJudge.JudgeVerdict | src/utils/llmAsJudge.ts:100-151 | A parsed object passes exactly when `passed` is `true` or `"true"`. A parse failure passes on the four fallback keywords, and no JSON passes on the six keywords, both case-insensitively. |
| LlmAsJudge.FallbackKeywords | src/utils/llmAsJudge.ts:122-151 | The fallback after a parse failure is stricter than the one without JSON. "true" passes only the latter. |
| LlmAsJudge.ErrorResult | src/utils/llmAsJudge.ts:159-165 | Not passed and no usage. The response is the error prefix followed by the message. |
| Strings.ContainsIff | src/utils/llmAsJudge.ts:122-131 | `includes` holds exactly when the word occurs at some position. |
| Strings.IndexOfFrom | src/services/AwsBedrockLlama3Service.ts:101-102 | The leftmost occurrence at or after `from`, or none. |
| Strings.FirstWhereIsLeast | src/index.ts:353-380 | The search finds the least position that satisfies the predicate, and none means no position does. |
| Strings.SkipSpacesStops | src/utils/outputFormatAdapterUtils/convertLlamaToOpenAIStreamToolCall.ts:7 | `\s*` consumes only white space and stops before a character that is not white space. |
| Strings.SkipSpacesBack | src/utils/outputFormatAdapterUtils/convertLlamaToOpenAINonStream.ts:12 | Cutting white space from the end removes only white space and stops at a character that is not white space. |
| Strings.TrimSpec | src/utils/outputFormatAdapterUtils/convertLlamaToOpenAINonStream.ts:12 | `trim` is a slice with only white space outside it and no white space at its ends. |
| Strings.ToLower | src/utils/llmAsJudge.ts:122-131 | Same length, lowering each character. |
| Strings.NatToString | src/index.ts:182 | Non-empty and made of decimal digits. |
| Strings.Split | src/utils/llmAsJudge.ts:68-74 | There is always at least one part. |
| Strings.ReplaceAllIsSplitJoin | src/utils/llmAsJudge.ts:68-74 | `replace` with a global pattern is split-then-join. |
| Strings.SplitJoinRoundTrip | src/utils/llmAsJudge.ts:68-74 | Joining the parts of a split with the pattern itself gives back the input. |
| Strings.JoinSnoc | src/utils/llmAsJudge.ts:47-65 | Joining one more part appends the separator and the part. |
| Strings.JoinConsFirst | src/utils/llmAsJudge.ts:68-74 | A character in front of the first part is in front of the join. |
| LlamaChunks.TruthyReason | src/utils/outputFormatAdapterUtils/convertLlamaToOpenAINonStream.ts:15 | The stop reason when it is a non-empty string, and none otherwise. |

## Left out

- Floating-point values are not modelled: temperature, `top_p` and the judge's numeric score.
- The SDK calls are not modelled: the Anthropic, Bedrock and OpenAI clients.
  - Each service is modelled up to the request it would send.
  - The stream loops are modelled over the events the SDK would yield.
- `Date.now()` is a parameter (`now`).
- `JSON.parse` is the parameter `parse` (`None` models a throw) and `JSON.stringify` is the parameter `stringify`.
- The output adapter that `index.ts` calls is the parameter `adapt`.
  - `OutputFormatAdapter.adaptResponse` declares two parameters, but the generator passes one record.
  - The model passes that record, with its stream and function-call flags, to `adapt` as it is and leaves the adaptation itself uninterpreted.
- Async generators are modelled as finite sequences. Laziness, cancellation and a consumer that stops early are not modelled.
- The OpenAI and OpenAI-compatible branches of the streaming generator yield each vendor chunk unchanged, without `adapt`. They are not modelled separately.
- The judge's `generateLLMResponse` call, the extraction of the judge's text from the SDK response, and the numeric score are not modelled. `JudgeVerdict` takes the judge's text as input.
- LlamaPrompt.OpenAIToLlamaMessage: a message whose content is absent is rendered as `null`, like a content that is JSON `null`. The source's template (src/utils/inputFormatAdapterUtils/openAIToLlamaMessage.ts:14) prints `undefined` for an absent content. The message type keeps one "missing" case, not two.
- LlamaPrompt.ContentText: prints a missing content as `null`; the source prints `undefined` when the content is absent and `null` when it is JSON `null`.
- LlamaChunks.LlamaChunk: `generation` is always a string. The source has three behaviours for a chunk without one, and none is modelled:
  - LlamaStream.ConvertLlamaToOpenAIStream: the `||` fallback to the delta's content (src/utils/outputFormatAdapterUtils/convertLlamaToOpenAIStream.ts:12) is modelled only for the empty string.
  - LlamaNonStream.ConvertLlamaToOpenAINonStream: `.trim()` on a missing generation throws a TypeError (src/utils/outputFormatAdapterUtils/convertLlamaToOpenAINonStream.ts:12).
  - LlamaToolCallChunk.ConvertLlamaToOpenAIStreamToolCall: `.match` on a missing generation throws a TypeError (src/utils/outputFormatAdapterUtils/convertLlamaToOpenAIStreamToolCall.ts:8).
- LlamaStream.SumOf: NaN is modelled as an absent total. What the serialiser then sends for NaN (JSON `null`) is not modelled.
- ReplaceObjectKey.ReplaceKey: objects are maps, so two JavaScript details are not modelled. The `in` test also finds inherited properties such as `toString`, which a map does not have. The spread puts the renamed key last, and a map has no key order.
- LlmAsJudge.ContentText: a missing content renders as `null`. The source renders an absent (`undefined`) content as `undefined`, a distinction the message type does not keep.
- LlmAsJudge.EnhancedPrompt: the replacement text is inserted literally. The source's `String.replace` would expand `$` patterns such as `$&` in the replacement.
- Strings.ToLower folds ASCII letters only. JavaScript's `toLowerCase` folds all of Unicode.
- JSON numbers are integers, and tool definitions that are not objects are not modelled.
- AnthropicService.ConvertTool: the debug logging of unknown shapes is not modelled.
- `LlamaFunctionCall` models one regex, stage by stage, rather than a regex engine. Each greedy part (`\s*`, `[^"]+`) is followed by a character it cannot consume, so backtracking into it cannot produce another match.

## Findings

| source | as written | input that shows it | evidently intended | confidence | as-written member | corrected member |
|---|---|---|---|---|---|---|
| src/services/AwsBedrockLlama3Service.ts:73-91 against src/utils/outputFormatAdapterUtils/convertLlamaToOpenAIStreamToolCall.ts:6-7 | The extraction regex needs `",` right after the name and `}</function>` with nothing between the brace and the closing tag. Both the tool prompt's format and its example fail it twice. They put no comma after the `"function_name"` value (lines 75 and 85). They also put a line break between the closing `}` and `</function>`: the format at lines 79-80, the example at lines 89-91 with a blank line. | A generation that copies the format exactly, or the example (`get_current_weather`) exactly | A model reply that follows the prompt's own format or example is extracted as a function call | not executed | ToolPromptCalls.FormatAsWrittenYieldsNothing, ToolPromptCalls.ExampleAsWrittenYieldsNothing | ToolPromptCalls.FormatYieldsItsCall, ToolPromptCalls.ExampleYieldsItsCall |
