/** The non-streaming converter
    (src/utils/outputFormatAdapterUtils/convertLlamaToOpenAINonStream.ts).
    The clock reading `Date.now()` is the parameter `now`. */
module LlamaNonStream {
  import opened Wrappers
  import opened Strings
  import opened LlamaChunks

  const DEFAULT_ID := "default_id"
  const DEFAULT_FINGERPRINT := "default_fingerprint"
  const COMPLETION_OBJECT := "text_completion"
  const NON_STREAM_MODEL := "aws-bedrock-llama"

  /** `usage`, with the cached and reasoning token details. */
  datatype CompletionUsage = CompletionUsage(
    promptTokens: int,
    completionTokens: int,
    totalTokens: int,
    cachedTokens: int,
    reasoningTokens: int)

  /** The completion record, with its single choice flattened into it;
      `logprobs` is always `null` and left out. */
  datatype Completion = Completion(
    id: string,
    objectType: string,
    created: int,
    model: string,
    index: nat,
    role: string,
    content: string,
    finishReason: Option<string>,
    usage: CompletionUsage,
    systemFingerprint: string)

  /** `s || fallback` on an optional string. */
  function StrOr(s: Option<string>, fallback: string): (r: string)
    ensures s.Some? && s.value != "" ==> r == s.value
    ensures s.None? || s.value == "" ==> r == fallback
  {
    if s.Some? && s.value != "" then s.value else fallback
  }

  function ConvertLlamaToOpenAINonStream(chunk: LlamaChunk, now: int): (r: Completion)
    ensures r.id == StrOr(chunk.id, DEFAULT_ID) && r.systemFingerprint == StrOr(chunk.systemFingerprint, DEFAULT_FINGERPRINT)
    ensures r.objectType == COMPLETION_OBJECT && r.created == now && r.model == NON_STREAM_MODEL
    ensures r.index == 0 && r.role == "assistant"
    ensures r.content == Trim(chunk.generation)
    ensures r.finishReason.Some? <==> chunk.stopReason.Reason? && chunk.stopReason.text != ""
    ensures r.finishReason.Some? ==> r.finishReason.value == chunk.stopReason.text
    ensures r.usage.promptTokens == CountOr(chunk.promptTokenCount, 0)
    ensures r.usage.completionTokens == CountOr(chunk.generationTokenCount, 0)
    ensures r.usage.totalTokens == r.usage.promptTokens + r.usage.completionTokens
    ensures r.usage.cachedTokens == 0 && r.usage.reasoningTokens == 0
  {
    var prompt := CountOr(chunk.promptTokenCount, 0);
    var completion := CountOr(chunk.generationTokenCount, 0);
    Completion(
      StrOr(chunk.id, DEFAULT_ID), COMPLETION_OBJECT, now, NON_STREAM_MODEL, 0, "assistant",
      Trim(chunk.generation), TruthyReason(chunk.stopReason),
      CompletionUsage(prompt, completion, prompt + completion, 0, 0),
      StrOr(chunk.systemFingerprint, DEFAULT_FINGERPRINT))
  }

  /** The content is the generation with the white space around it removed
      and nothing else: a contiguous part of the generation that neither
      starts nor ends with white space. */
  lemma NonStreamContent(chunk: LlamaChunk, now: int)
    ensures var c := ConvertLlamaToOpenAINonStream(chunk, now).content;
            && (exists i, j :: 0 <= i <= j <= |chunk.generation| && c == chunk.generation[i..j]
                                && AllSpace(chunk.generation[..i]) && AllSpace(chunk.generation[j..]))
            && (c == [] || (!IsSpace(c[0]) && !IsSpace(c[|c| - 1])))
  {
    TrimSpec(chunk.generation);
  }
}

/** The streaming converter
    (src/utils/outputFormatAdapterUtils/convertLlamaToOpenAIStream.ts).
    The clock reading `Date.now()` is the parameter `now`. */
module LlamaStream {
  import opened Wrappers
  import opened LlamaChunks

  const CHUNK_OBJECT := "chat.completion.chunk"
  const DEFAULT_MODEL := "gpt-4o-2024-08-06"
  const STOP := "stop"

  /** `usage` of a terminal chunk. The counts are copied as they are
      (missing, `null` or a number); the total is their JavaScript sum,
      `None` when it is `NaN`. The token details are all 0. */
  datatype StreamUsage = StreamUsage(promptTokens: TokenCount, completionTokens: TokenCount, totalTokens: Option<int>)

  /** The chunk record with its single choice flattened into it; the
      `logprobs` fields are always `null` and left out. `finishReason` is
      the choice's, `stopReason` the top-level copy of `stop_reason`. */
  datatype StreamChunk = StreamChunk(
    id: Option<string>,
    objectType: string,
    created: int,
    model: string,
    index: nat,
    content: string,
    finishReason: Option<string>,
    stopReason: StopReason,
    usage: Option<StreamUsage>)

  /** `chunk.stop_reason !== null`: `undefined` counts as terminal. */
  predicate IsStop(chunk: LlamaChunk) {
    !chunk.stopReason.Null?
  }

  /** A count as a number operand of `+`: `null` converts to 0, a missing
      count to `NaN` (`None`). */
  function Operand(c: TokenCount): (r: Option<int>)
    ensures r.None? <==> c.UndefinedCount?
    ensures c.NullCount? ==> r == Some(0)
    ensures c.Count? ==> r == Some(c.value)
  {
    match c
    case UndefinedCount => None
    case NullCount => Some(0)
    case Count(n) => Some(n)
  }

  /** `a + b` on two counts: `NaN` (`None`) exactly when one of them is
      missing; a `null` count adds nothing. */
  function SumOf(a: TokenCount, b: TokenCount): (r: Option<int>)
    ensures r.None? <==> a.UndefinedCount? || b.UndefinedCount?
    ensures a.NullCount? && b.Count? ==> r == Some(b.value)
    ensures a.Count? && b.NullCount? ==> r == Some(a.value)
    ensures a.Count? && b.Count? ==> r == Some(a.value + b.value)
    ensures a.NullCount? && b.NullCount? ==> r == Some(0)
  {
    var x, y := Operand(a), Operand(b);
    if x.Some? && y.Some? then Some(x.value + y.value) else None
  }

  /** `generation || delta?.content || ""`. */
  function DeltaContent(chunk: LlamaChunk): (r: string)
    ensures chunk.generation != "" ==> r == chunk.generation
    ensures chunk.generation == "" && chunk.deltaContent.Some? ==> r == chunk.deltaContent.value
    ensures chunk.generation == "" && chunk.deltaContent.None? ==> r == ""
  {
    if chunk.generation != "" then chunk.generation
    else if chunk.deltaContent.Some? && chunk.deltaContent.value != "" then chunk.deltaContent.value
    else ""
  }

  function ConvertLlamaToOpenAIStream(chunk: LlamaChunk, now: int): (r: StreamChunk)
    ensures r.id == chunk.id && r.objectType == CHUNK_OBJECT && r.index == 0
    ensures r.created == if chunk.created.Some? && chunk.created.value != 0 then chunk.created.value else now / 1000
    ensures r.model == if chunk.model.Some? && chunk.model.value != "" then chunk.model.value else DEFAULT_MODEL
    ensures r.content == DeltaContent(chunk)
    ensures r.finishReason == Some(STOP) <==> IsStop(chunk)
    ensures r.finishReason.None? <==> !IsStop(chunk)
    ensures r.stopReason == chunk.stopReason
    ensures r.usage.Some? <==> IsStop(chunk)
    ensures r.usage.Some? ==>
              && r.usage.value.promptTokens == chunk.promptTokenCount
              && r.usage.value.completionTokens == chunk.generationTokenCount
              && (r.usage.value.totalTokens.None? <==>
                    chunk.promptTokenCount.UndefinedCount? || chunk.generationTokenCount.UndefinedCount?)
              && (r.usage.value.totalTokens.Some? ==>
                    r.usage.value.totalTokens.value == CountOr(chunk.promptTokenCount, 0) + CountOr(chunk.generationTokenCount, 0))
  {
    var isStop := IsStop(chunk);
    StreamChunk(
      chunk.id, CHUNK_OBJECT,
      if chunk.created.Some? && chunk.created.value != 0 then chunk.created.value else now / 1000,
      if chunk.model.Some? && chunk.model.value != "" then chunk.model.value else DEFAULT_MODEL,
      0, DeltaContent(chunk),
      if isStop then Some(STOP) else None,
      chunk.stopReason,
      if isStop
      then Some(StreamUsage(chunk.promptTokenCount, chunk.generationTokenCount,
                            SumOf(chunk.promptTokenCount, chunk.generationTokenCount)))
      else None)
  }
}
