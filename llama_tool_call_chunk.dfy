/** The chunk `convertLlamaToOpenAIStreamToolCall` builds from an
    accumulated Llama generation
    (src/utils/outputFormatAdapterUtils/convertLlamaToOpenAIStreamToolCall.ts).
    The clock reading `Date.now()` is the parameter `now`. */
module LlamaToolCallChunk {
  import opened Wrappers
  import opened Strings
  import opened LlamaChunks
  import opened LlamaFunctionCall

  const CHUNK_OBJECT := "chat.completion.chunk"
  const LLAMA_MODEL := "aws-bedrock-llama3x"
  const DEFAULT_ARGUMENTS := "{}"

  /** `delta.function_call`; a `None` name is `null`. */
  datatype CallDelta = CallDelta(name: Option<string>, arguments: string)

  /** The `usage` record of an OpenAI chunk (never filled in here). */
  datatype ChunkUsage = ChunkUsage(promptTokens: int, completionTokens: int, totalTokens: int)

  /** The chunk: one choice, whose delta carries the call. `None` is `null`. */
  datatype ToolCallChunk = ToolCallChunk(
    id: string,
    objectType: string,
    created: int,
    model: string,
    systemFingerprint: Option<string>,
    index: nat,
    role: string,
    content: Option<string>,
    functionCall: CallDelta,
    refusal: Option<string>,
    finishReason: Option<string>,
    usage: Option<ChunkUsage>)

  /** `functionCall || { name: null, arguments: "{}" }`. */
  function CallOrDefault(m: Option<FunctionCallMatch>): (d: CallDelta)
    ensures m.Some? ==> d.name == Some(m.value.name) && d.arguments == m.value.arguments
    ensures m.None? ==> d.name.None? && d.arguments == DEFAULT_ARGUMENTS
  {
    match m
    case Some(c) => CallDelta(Some(c.name), c.arguments)
    case None => CallDelta(None, DEFAULT_ARGUMENTS)
  }

  function ConvertLlamaToOpenAIStreamToolCall(chunk: LlamaChunk, now: nat): (r: ToolCallChunk)
    ensures r.id == "stream-" + NatToString(now) && r.created == now / 1000
    ensures r.objectType == CHUNK_OBJECT && r.model == LLAMA_MODEL && r.systemFingerprint.None?
    ensures r.index == 0 && r.role == "assistant" && r.content.None? && r.refusal.None? && r.usage.None?
    ensures r.finishReason.Some? <==> chunk.stopReason.Reason? && chunk.stopReason.text != ""
    ensures r.finishReason.Some? ==> r.finishReason.value == chunk.stopReason.text
    ensures r.functionCall == CallOrDefault(ParseFunctionCall(chunk.generation))
  {
    ToolCallChunk(
      "stream-" + NatToString(now), CHUNK_OBJECT, now / 1000, LLAMA_MODEL, None,
      0, "assistant", None, CallOrDefault(ParseFunctionCall(chunk.generation)), None,
      TruthyReason(chunk.stopReason), None)
  }

  /** The chunk names a function exactly when the pattern matches somewhere
      in the generation. The name and the arguments are then the two groups
      of the leftmost match: the name is non-empty and quote-free and the
      arguments are the raw text from a `{` to a `}`. Otherwise the call is
      the `null` name with `"{}"` arguments. */
  lemma ToolCallChunkCall(chunk: LlamaChunk, now: nat)
    ensures var d := ConvertLlamaToOpenAIStreamToolCall(chunk, now).functionCall;
            d.name.Some? <==> exists i :: 0 <= i <= |chunk.generation| && MatchAt(chunk.generation, i).Some?
    ensures var d := ConvertLlamaToOpenAIStreamToolCall(chunk, now).functionCall;
            d.name.Some? ==>
              exists i :: 0 <= i <= |chunk.generation|
                          && MatchAt(chunk.generation, i) == Some(FunctionCallMatch(d.name.value, d.arguments))
                          && forall j :: 0 <= j < i ==> MatchAt(chunk.generation, j).None?
    ensures var d := ConvertLlamaToOpenAIStreamToolCall(chunk, now).functionCall;
            d.name.Some? ==> IsName(d.name.value) && IsBraced(d.arguments)
    ensures var d := ConvertLlamaToOpenAIStreamToolCall(chunk, now).functionCall;
            d.name.None? ==> d.arguments == DEFAULT_ARGUMENTS
  {
    var g := chunk.generation;
    var d := ConvertLlamaToOpenAIStreamToolCall(chunk, now).functionCall;
    assert d == CallOrDefault(ParseFunctionCall(g));
    ParseIsLeftmost(g);
    if ParseFunctionCall(g).Some? {
      ParsedShape(g);
    }
  }

  /** A generation that lays a call out in the form the pattern accepts
      becomes a chunk that carries exactly that call. */
  lemma ToolCallChunkRoundTrip(name: string, arguments: string, chunk: LlamaChunk, now: nat)
    requires chunk.generation == CallText(name, arguments)
    requires IsName(name) && IsBraced(arguments) && NoCloseTag(arguments)
    ensures ConvertLlamaToOpenAIStreamToolCall(chunk, now).functionCall == CallDelta(Some(name), arguments)
  {
    CallTextParses(name, arguments);
  }
}
