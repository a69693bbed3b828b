/** The Anthropic streaming events as the proxy reads them, shared by the
    service's usage fold and by the response reconstruction. Every optional
    property is an `Option`; `None` is `null` or `undefined`. */
module AnthropicEvents {
  import opened Wrappers
  import opened Json

  const MESSAGE_START := "message_start"
  const CONTENT_BLOCK_START := "content_block_start"
  const CONTENT_BLOCK_DELTA := "content_block_delta"
  const CONTENT_BLOCK_STOP := "content_block_stop"
  const MESSAGE_DELTA := "message_delta"
  const MESSAGE_STOP := "message_stop"
  const TEXT_DELTA := "text_delta"
  const INPUT_JSON_DELTA := "input_json_delta"
  const TEXT_BLOCK := "text"
  const TOOL_USE_BLOCK := "tool_use"

  /** `usage: {input_tokens?, output_tokens?}`. */
  datatype Usage = Usage(inputTokens: Option<int>, outputTokens: Option<int>)

  /** `message` of a `message_start` event. */
  datatype MessageInfo = MessageInfo(id: Option<string>, model: Option<string>, usage: Option<Usage>)

  /** A content block; `blockType` is its `type`. */
  datatype ContentBlock = ContentBlock(
    blockType: string,
    id: Option<string>,
    name: Option<string>,
    text: Option<string>,
    input: Option<Json>)

  /** `delta` of a content-block delta or a message delta. */
  datatype Delta = Delta(
    deltaType: Option<string>,
    text: Option<string>,
    partialJson: Option<string>,
    stopReason: Option<string>)

  /** `amazon-bedrock-invocationMetrics`. */
  datatype Metrics = Metrics(inputTokenCount: Option<int>, outputTokenCount: Option<int>)

  /** One event of the vendor stream. */
  datatype Event = Event(
    eventType: string,
    message: Option<MessageInfo>,
    contentBlock: Option<ContentBlock>,
    delta: Option<Delta>,
    usage: Option<Usage>,
    metrics: Option<Metrics>)

  /** A string property read with `||`: `undefined` and `""` are falsy. */
  predicate TruthyStr(s: Option<string>) {
    s.Some? && s.value != ""
  }
}
