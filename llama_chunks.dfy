/** The chunks Bedrock's Llama 3 models produce, as the proxy reads them. */
module LlamaChunks {
  import opened Wrappers

  /** `stop_reason` is compared both with `||` and with `!== null`, so the
      model keeps `undefined` and `null` apart. */
  datatype StopReason = Undefined | Null | Reason(text: string)

  /** A token count as a chunk carries it. Bedrock sends `null` counts on
      the chunks that do not report them, and the converters treat `null`
      and a missing count differently (`null + n` is `n`, `undefined + n`
      is `NaN`), so the two are kept apart. */
  datatype TokenCount = UndefinedCount | NullCount | Count(value: int)

  /** A Llama chunk. `None` is a missing property; `generation` is always
      present. `deltaContent` is `delta.content`. */
  datatype LlamaChunk = LlamaChunk(
    id: Option<string>,
    generation: string,
    stopReason: StopReason,
    promptTokenCount: TokenCount,
    generationTokenCount: TokenCount,
    model: Option<string>,
    created: Option<int>,
    systemFingerprint: Option<string>,
    deltaContent: Option<string>)

  /** `stop_reason || null`: a non-empty reason, or `null`. */
  function TruthyReason(r: StopReason): (o: Option<string>)
    ensures o.Some? <==> r.Reason? && r.text != ""
    ensures o.Some? ==> o.value == r.text
  {
    if r.Reason? && r.text != "" then Some(r.text) else None
  }

  /** `x || fallback` on a count: `undefined`, `null` and 0 give the fallback. */
  function CountOr(x: TokenCount, fallback: int): (r: int)
    ensures x.Count? && x.value != 0 ==> r == x.value
    ensures !x.Count? || x.value == 0 ==> r == fallback
  {
    if x.Count? && x.value != 0 then x.value else fallback
  }
}
