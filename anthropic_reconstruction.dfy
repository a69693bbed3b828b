/** `reconstructAnthropicResponse` and `anthropicToolCallToStreamChunk`
    (src/index.ts): the buffered Anthropic events folded into one message,
    and the single tool-call chunk built from it. `parse` is `JSON.parse`
    (`None` when it throws), `stringify` is `JSON.stringify` and `now` is
    `Date.now()`. */
module AnthropicReconstruction {
  import opened Wrappers
  import opened Json
  import opened Strings
  import opened AnthropicEvents

  /** The loop's local variables: the message so far, the open block and
      the `partial_json` fragments since that block started. */
  datatype Reconstruction = Reconstruction(
    id: string,
    model: string,
    blocks: seq<ContentBlock>,
    stopReason: string,
    inputTokens: int,
    outputTokens: int,
    current: Option<ContentBlock>,
    toolArgs: seq<string>)

  const INITIAL := Reconstruction("", "", [], "", 0, 0, None, [])

  /** `a ?? b` on a count. */
  function Count(a: Option<int>, b: int): int {
    if a.Some? then a.value else b
  }

  /** `a || b` on a string. */
  function StrOr(a: Option<string>, b: string): string {
    if TruthyStr(a) then a.value else b
  }

  /** `{}`, the input of a tool block whose arguments do not parse. */
  const EMPTY_INPUT := JObj(map[])

  /** The block as pushed on `content_block_stop`: a `tool_use` block gets
      its input parsed from the joined fragments. */
  function Close(b: ContentBlock, args: seq<string>, parse: string -> Option<Json>): ContentBlock {
    if b.blockType == TOOL_USE_BLOCK then b.(input := Some(parse(Join(args, "")).GetOr(EMPTY_INPUT))) else b
  }

  function OnMessageStart(st: Reconstruction, m: MessageInfo): Reconstruction {
    var u := m.usage;
    st.(id := StrOr(m.id, st.id), model := StrOr(m.model, st.model),
        inputTokens := Count(if u.Some? then u.value.inputTokens else None, st.inputTokens),
        outputTokens := Count(if u.Some? then u.value.outputTokens else None, st.outputTokens))
  }

  function OnBlockDelta(st: Reconstruction, d: Delta): Reconstruction {
    var st1 :=
      if d.deltaType == Some(TEXT_DELTA) && st.current.Some? && st.current.value.blockType == TEXT_BLOCK
      then st.(current := Some(st.current.value.(text := Some(st.current.value.text.GetOr("") + d.text.GetOr("")))))
      else st;
    if d.deltaType == Some(INPUT_JSON_DELTA) && TruthyStr(d.partialJson)
    then st1.(toolArgs := st1.toolArgs + [d.partialJson.value])
    else st1
  }

  function OnBlockStop(st: Reconstruction, parse: string -> Option<Json>): Reconstruction {
    if st.current.Some?
    then st.(blocks := st.blocks + [Close(st.current.value, st.toolArgs, parse)], current := None)
    else st
  }

  function OnMessageDelta(st: Reconstruction, e: Event): Reconstruction {
    st.(stopReason := StrOr(if e.delta.Some? then e.delta.value.stopReason else None, st.stopReason),
        outputTokens := Count(if e.usage.Some? then e.usage.value.outputTokens else None, st.outputTokens))
  }

  function OnMessageStop(st: Reconstruction, u: Usage): Reconstruction {
    st.(inputTokens := Count(u.inputTokens, st.inputTokens), outputTokens := Count(u.outputTokens, st.outputTokens))
  }

  function OnMetrics(st: Reconstruction, m: Option<Metrics>): Reconstruction {
    if m.Some?
    then st.(inputTokens := Count(m.value.inputTokenCount, st.inputTokens),
             outputTokens := Count(m.value.outputTokenCount, st.outputTokens))
    else st
  }

  /** The branch of the loop body chosen by the event's type. */
  function OnType(st: Reconstruction, e: Event, parse: string -> Option<Json>): Reconstruction {
    if e.eventType == MESSAGE_START then (if e.message.Some? then OnMessageStart(st, e.message.value) else st)
    else if e.eventType == CONTENT_BLOCK_START then (if e.contentBlock.Some? then st.(current := e.contentBlock, toolArgs := []) else st)
    else if e.eventType == CONTENT_BLOCK_DELTA then (if e.delta.Some? then OnBlockDelta(st, e.delta.value) else st)
    else if e.eventType == CONTENT_BLOCK_STOP then OnBlockStop(st, parse)
    else if e.eventType == MESSAGE_DELTA then OnMessageDelta(st, e)
    else if e.eventType == MESSAGE_STOP then (if e.usage.Some? then OnMessageStop(st, e.usage.value) else st)
    else st
  }

  /** One iteration: the branch for the event's type, then the Bedrock metrics. */
  function Step(st: Reconstruction, e: Event, parse: string -> Option<Json>): Reconstruction {
    OnMetrics(OnType(st, e, parse), e.metrics)
  }

  /** The state after the events `es`, starting from `st`. */
  function FoldFrom(st: Reconstruction, es: seq<Event>, parse: string -> Option<Json>): Reconstruction
    decreases |es|
  {
    if |es| == 0 then st else Step(FoldFrom(st, es[..|es| - 1], parse), es[|es| - 1], parse)
  }

  function Fold(es: seq<Event>, parse: string -> Option<Json>): Reconstruction {
    FoldFrom(INITIAL, es, parse)
  }

  /** The message returned by `reconstructAnthropicResponse`. */
  datatype AnthropicResponse = AnthropicResponse(
    id: string,
    responseType: string,
    role: string,
    model: string,
    content: seq<ContentBlock>,
    stopReason: string,
    inputTokens: int,
    outputTokens: int)

  function Finish(st: Reconstruction): AnthropicResponse {
    AnthropicResponse(st.id, "message", "assistant", st.model, st.blocks, st.stopReason, st.inputTokens, st.outputTokens)
  }

  /** The loop of `reconstructAnthropicResponse`, over the local variables. */
  method ReconstructAnthropicResponse(chunks: seq<Event>, parse: string -> Option<Json>) returns (r: AnthropicResponse)
    ensures r == Finish(Fold(chunks, parse))
    ensures r.responseType == "message" && r.role == "assistant"
  {
    var id, model := "", "";
    var contentBlocks: seq<ContentBlock> := [];
    var stopReason := "";
    var inputTokens, outputTokens := 0, 0;
    var currentBlock: Option<ContentBlock> := None;
    var currentToolArgs: seq<string> := [];
    for n := 0 to |chunks|
      invariant Reconstruction(id, model, contentBlocks, stopReason, inputTokens, outputTokens, currentBlock, currentToolArgs)
                == Fold(chunks[..n], parse)
    {
      ghost var before := Reconstruction(id, model, contentBlocks, stopReason, inputTokens, outputTokens, currentBlock, currentToolArgs);
      var chunk := chunks[n];
      if chunk.eventType == MESSAGE_START && chunk.message.Some? {
        var m := chunk.message.value;
        id := StrOr(m.id, id);
        model := StrOr(m.model, model);
        inputTokens := Count(if m.usage.Some? then m.usage.value.inputTokens else None, inputTokens);
        outputTokens := Count(if m.usage.Some? then m.usage.value.outputTokens else None, outputTokens);
      }
      if chunk.eventType == CONTENT_BLOCK_START && chunk.contentBlock.Some? {
        currentBlock := chunk.contentBlock;
        currentToolArgs := [];
      }
      if chunk.eventType == CONTENT_BLOCK_DELTA && chunk.delta.Some? {
        var d := chunk.delta.value;
        if d.deltaType == Some(TEXT_DELTA) && currentBlock.Some? && currentBlock.value.blockType == TEXT_BLOCK {
          currentBlock := Some(currentBlock.value.(text := Some(currentBlock.value.text.GetOr("") + d.text.GetOr(""))));
        }
        if d.deltaType == Some(INPUT_JSON_DELTA) && TruthyStr(d.partialJson) {
          currentToolArgs := currentToolArgs + [d.partialJson.value];
        }
      }
      if chunk.eventType == CONTENT_BLOCK_STOP && currentBlock.Some? {
        contentBlocks := contentBlocks + [Close(currentBlock.value, currentToolArgs, parse)];
        currentBlock := None;
      }
      if chunk.eventType == MESSAGE_DELTA {
        stopReason := StrOr(if chunk.delta.Some? then chunk.delta.value.stopReason else None, stopReason);
        outputTokens := Count(if chunk.usage.Some? then chunk.usage.value.outputTokens else None, outputTokens);
      }
      if chunk.eventType == MESSAGE_STOP && chunk.usage.Some? {
        inputTokens := Count(chunk.usage.value.inputTokens, inputTokens);
        outputTokens := Count(chunk.usage.value.outputTokens, outputTokens);
      }
      if chunk.metrics.Some? {
        inputTokens := Count(chunk.metrics.value.inputTokenCount, inputTokens);
        outputTokens := Count(chunk.metrics.value.outputTokenCount, outputTokens);
      }
      assert chunks[..n + 1][..n] == chunks[..n];
      assert Reconstruction(id, model, contentBlocks, stopReason, inputTokens, outputTokens, currentBlock, currentToolArgs)
             == Step(before, chunk, parse);
    }
    assert chunks[..|chunks|] == chunks;
    r := AnthropicResponse(id, "message", "assistant", model, contentBlocks, stopReason, inputTokens, outputTokens);
  }

  /** Folding a concatenation folds the second part from where the first ended. */
  lemma {:induction false} FoldFromAppend(st: Reconstruction, xs: seq<Event>, ys: seq<Event>, parse: string -> Option<Json>)
    ensures FoldFrom(st, xs + ys, parse) == FoldFrom(FoldFrom(st, xs, parse), ys, parse)
    decreases |ys|
  {
    if |ys| == 0 {
      assert xs + ys == xs;
    } else {
      var ys' := ys[..|ys| - 1];
      assert (xs + ys)[..|xs + ys| - 1] == xs + ys';
      FoldFromAppend(st, xs, ys', parse);
    }
  }

  /** Only `content_block_stop` with an open block adds a block, and it adds
      that block, closed, at the end. */
  lemma StepBlocks(st: Reconstruction, e: Event, parse: string -> Option<Json>)
    ensures Step(st, e, parse).blocks ==
              if e.eventType == CONTENT_BLOCK_STOP && st.current.Some?
              then st.blocks + [Close(st.current.value, st.toolArgs, parse)]
              else st.blocks
  {
  }

  /** Completed blocks are never changed or removed by later events. */
  lemma {:induction false} BlocksOnlyGrow(st: Reconstruction, es: seq<Event>, parse: string -> Option<Json>)
    ensures st.blocks <= FoldFrom(st, es, parse).blocks
    decreases |es|
  {
    if |es| > 0 {
      BlocksOnlyGrow(st, es[..|es| - 1], parse);
      StepBlocks(FoldFrom(st, es[..|es| - 1], parse), es[|es| - 1], parse);
    }
  }

  /** The text an event appends to an open text block: only a
      `content_block_delta` of type `text_delta` has one. */
  function DeltaText(e: Event): string {
    if e.eventType == CONTENT_BLOCK_DELTA && e.delta.Some? && e.delta.value.deltaType == Some(TEXT_DELTA)
    then e.delta.value.text.GetOr("")
    else ""
  }

  /** The fragment an event adds to the tool arguments: only a
      `content_block_delta` of type `input_json_delta` with a non-empty
      `partial_json` has one. */
  function DeltaFragment(e: Event): seq<string> {
    if e.eventType == CONTENT_BLOCK_DELTA && e.delta.Some? && e.delta.value.deltaType == Some(INPUT_JSON_DELTA)
       && TruthyStr(e.delta.value.partialJson)
    then [e.delta.value.partialJson.value]
    else []
  }

  /** The `text_delta` texts of `ds`, concatenated in order. */
  function Texts(ds: seq<Event>): string
    decreases |ds|
  {
    if |ds| == 0 then "" else Texts(ds[..|ds| - 1]) + DeltaText(ds[|ds| - 1])
  }

  /** The `partial_json` fragments of `ds`, in order. */
  function Fragments(ds: seq<Event>): seq<string>
    decreases |ds|
  {
    if |ds| == 0 then [] else Fragments(ds[..|ds| - 1]) + DeltaFragment(ds[|ds| - 1])
  }

  /** An event that neither opens nor closes a block: a delta, a `ping`,
      a message-level event or any other. */
  predicate InsideBlock(e: Event) {
    e.eventType != CONTENT_BLOCK_START && e.eventType != CONTENT_BLOCK_STOP
  }

  predicate AllInsideBlock(ds: seq<Event>) {
    forall i :: 0 <= i < |ds| ==> InsideBlock(ds[i])
  }

  /** `c` is the block `b` after the texts `t` arrived: a text block has
      `t` appended to its text, any other block is unchanged. */
  predicate Accumulated(c: ContentBlock, b: ContentBlock, t: string) {
    && c.(text := b.text) == b
    && (b.blockType == TEXT_BLOCK ==> c.text.GetOr("") == b.text.GetOr("") + t)
    && (b.blockType != TEXT_BLOCK ==> c == b)
  }

  /** One event while a block is open. */
  lemma StepDeltaOpen(mid: Reconstruction, b: ContentBlock, t: string, e: Event, parse: string -> Option<Json>)
    requires mid.current.Some? && Accumulated(mid.current.value, b, t)
    requires InsideBlock(e)
    ensures Step(mid, e, parse).current.Some?
    ensures Accumulated(Step(mid, e, parse).current.value, b, t + DeltaText(e))
    ensures Step(mid, e, parse).toolArgs == mid.toolArgs + DeltaFragment(e)
    ensures Step(mid, e, parse).blocks == mid.blocks
  {
    ConcatAssoc(b.text.GetOr(""), t, DeltaText(e));
  }

  /** While a block is open, the events that neither open nor close one
      add their delta texts to a text block and their fragments to the tool
      arguments, and change neither the open block otherwise nor the list
      of finished blocks. */
  lemma {:induction false} DeltasWhileOpen(st: Reconstruction, b: ContentBlock, ds: seq<Event>, parse: string -> Option<Json>)
    requires st.current == Some(b) && AllInsideBlock(ds)
    ensures FoldFrom(st, ds, parse).current.Some?
    ensures Accumulated(FoldFrom(st, ds, parse).current.value, b, Texts(ds))
    ensures FoldFrom(st, ds, parse).toolArgs == st.toolArgs + Fragments(ds)
    ensures FoldFrom(st, ds, parse).blocks == st.blocks
    decreases |ds|
  {
    if |ds| == 0 {
      assert b.(text := b.text) == b;
    } else {
      var ds' := ds[..|ds| - 1];
      var e := ds[|ds| - 1];
      assert AllInsideBlock(ds') by {
        forall i | 0 <= i < |ds'| ensures InsideBlock(ds'[i]) {
          assert ds'[i] == ds[i];
        }
      }
      DeltasWhileOpen(st, b, ds', parse);
      var mid := FoldFrom(st, ds', parse);
      StepDeltaOpen(mid, b, Texts(ds'), e, parse);
      assert mid.toolArgs + DeltaFragment(e) == st.toolArgs + Fragments(ds);
    }
  }

  /** A block's life: started, followed by deltas and any other events
      that do not open or close a block (`ping`, message-level events,
      Bedrock metrics), stopped. Exactly one block is
      pushed: the start's block, a text block with the `text_delta` texts
      appended in order, a `tool_use` block with its input parsed from the
      fragments joined in order (`{}` when that does not parse). */
  lemma BlockLifecycle(st: Reconstruction, start: Event, ds: seq<Event>, stop: Event, parse: string -> Option<Json>)
    requires start.eventType == CONTENT_BLOCK_START && start.contentBlock.Some?
    requires AllInsideBlock(ds) && stop.eventType == CONTENT_BLOCK_STOP
    ensures var b := start.contentBlock.value;
            var after := FoldFrom(st, [start] + ds + [stop], parse);
            && after.current.None?
            && |after.blocks| == |st.blocks| + 1 && after.blocks[..|st.blocks|] == st.blocks
            && Accumulated(after.blocks[|st.blocks|].(input := b.input), b, Texts(ds))
            && after.blocks[|st.blocks|].input ==
                 if b.blockType == TOOL_USE_BLOCK then Some(parse(Join(Fragments(ds), "")).GetOr(EMPTY_INPUT)) else b.input
  {
    var b := start.contentBlock.value;
    var afterStart := Step(st, start, parse);
    assert afterStart.current == Some(b) && afterStart.toolArgs == [] && afterStart.blocks == st.blocks;
    assert FoldFrom(st, [start], parse) == afterStart by {
      assert [start][..0] == [];
    }
    FoldFromAppend(st, [start], ds, parse);
    DeltasWhileOpen(afterStart, b, ds, parse);
    var before := FoldFrom(afterStart, ds, parse);
    assert before.toolArgs == Fragments(ds);
    FoldFromAppend(st, [start] + ds, [stop], parse);
    assert FoldFrom(before, [stop], parse) == Step(before, stop, parse) by {
      assert [stop][..0] == [];
    }
    StepBlocks(before, stop, parse);
    var c := Close(before.current.value, before.toolArgs, parse);
    assert c.(input := b.input) == before.current.value.(input := b.input);
  }

  /** The last value supplied in `xs`, or `dflt` when none was. */
  function Last<T>(xs: seq<Option<T>>, dflt: T): T
    decreases |xs|
  {
    if |xs| == 0 then dflt
    else if xs[|xs| - 1].Some? then xs[|xs| - 1].value
    else Last(xs[..|xs| - 1], dflt)
  }

  lemma {:induction false} LastAppend<T>(a: seq<Option<T>>, b: seq<Option<T>>, dflt: T)
    ensures Last(a + b, dflt) == Last(b, Last(a, dflt))
    decreases |b|
  {
    if |b| > 0 {
      assert (a + b)[..|a + b| - 1] == a + b[..|b| - 1];
      LastAppend(a, b[..|b| - 1], dflt);
    } else {
      assert a + b == a;
    }
  }

  /** The input counts an event supplies, in the order the loop body reads them. */
  function InputSupplied(e: Event): seq<Option<int>> {
    [ if e.eventType == MESSAGE_START && e.message.Some? && e.message.value.usage.Some?
      then e.message.value.usage.value.inputTokens else None,
      if e.eventType == MESSAGE_STOP && e.usage.Some? then e.usage.value.inputTokens else None,
      if e.metrics.Some? then e.metrics.value.inputTokenCount else None ]
  }

  /** The output counts an event supplies, in the order the loop body reads them. */
  function OutputSupplied(e: Event): seq<Option<int>> {
    [ if e.eventType == MESSAGE_START && e.message.Some? && e.message.value.usage.Some?
      then e.message.value.usage.value.outputTokens else None,
      if e.eventType == MESSAGE_DELTA && e.usage.Some? then e.usage.value.outputTokens else None,
      if e.eventType == MESSAGE_STOP && e.usage.Some? then e.usage.value.outputTokens else None,
      if e.metrics.Some? then e.metrics.value.outputTokenCount else None ]
  }

  /** The non-empty stop reason an event supplies. */
  function StopSupplied(e: Event): seq<Option<string>> {
    [ if e.eventType == MESSAGE_DELTA && e.delta.Some? && TruthyStr(e.delta.value.stopReason)
      then e.delta.value.stopReason else None ]
  }

  /** The non-empty message id an event supplies. */
  function IdSupplied(e: Event): seq<Option<string>> {
    [ if e.eventType == MESSAGE_START && e.message.Some? && TruthyStr(e.message.value.id)
      then e.message.value.id else None ]
  }

  /** The non-empty model an event supplies. */
  function ModelSupplied(e: Event): seq<Option<string>> {
    [ if e.eventType == MESSAGE_START && e.message.Some? && TruthyStr(e.message.value.model)
      then e.message.value.model else None ]
  }

  /** What the events of `es` supply, in order. */
  function Supplied<T>(es: seq<Event>, f: Event -> seq<Option<T>>): seq<Option<T>>
    decreases |es|
  {
    if |es| == 0 then [] else Supplied(es[..|es| - 1], f) + f(es[|es| - 1])
  }

  /** A single supplied value replaces the default. */
  lemma LastOne<T>(a: Option<T>, dflt: T)
    ensures Last([a], dflt) == if a.Some? then a.value else dflt
  {
    assert [a][..0] == [];
  }

  /** Three supplied values are read in order. */
  lemma LastThree<T>(a: Option<T>, b: Option<T>, c: Option<T>, dflt: T)
    ensures Last([a, b, c], dflt) == Last([c], Last([b], Last([a], dflt)))
  {
    LastAppend([a], [b], dflt);
    LastAppend([a, b], [c], dflt);
    assert [a] + [b] == [a, b] && [a, b] + [c] == [a, b, c];
  }

  /** Four supplied values are read in order. */
  lemma LastFour<T>(a: Option<T>, b: Option<T>, c: Option<T>, d: Option<T>, dflt: T)
    ensures Last([a, b, c, d], dflt) == Last([d], Last([c], Last([b], Last([a], dflt))))
  {
    LastThree(a, b, c, dflt);
    LastAppend([a, b, c], [d], dflt);
    assert [a, b, c] + [d] == [a, b, c, d];
  }

  /** One event sets the input count to the last value it supplies. */
  lemma StepInput(st: Reconstruction, e: Event, parse: string -> Option<Json>)
    ensures Step(st, e, parse).inputTokens == Last(InputSupplied(e), st.inputTokens)
  {
    var xs := InputSupplied(e);
    LastThree(xs[0], xs[1], xs[2], st.inputTokens);
    LastOne(xs[0], st.inputTokens);
    LastOne(xs[1], Last([xs[0]], st.inputTokens));
    LastOne(xs[2], Last([xs[1]], Last([xs[0]], st.inputTokens)));
  }

  /** One event sets the output count to the last value it supplies. */
  lemma StepOutput(st: Reconstruction, e: Event, parse: string -> Option<Json>)
    ensures Step(st, e, parse).outputTokens == Last(OutputSupplied(e), st.outputTokens)
  {
    var ys := OutputSupplied(e);
    LastFour(ys[0], ys[1], ys[2], ys[3], st.outputTokens);
    LastOne(ys[0], st.outputTokens);
    LastOne(ys[1], Last([ys[0]], st.outputTokens));
    LastOne(ys[2], Last([ys[1]], Last([ys[0]], st.outputTokens)));
    LastOne(ys[3], Last([ys[2]], Last([ys[1]], Last([ys[0]], st.outputTokens))));
  }

  /** One event sets the stop reason, id and model to the non-empty value it supplies. */
  lemma StepStrings(st: Reconstruction, e: Event, parse: string -> Option<Json>)
    ensures Step(st, e, parse).stopReason == Last(StopSupplied(e), st.stopReason)
    ensures Step(st, e, parse).id == Last(IdSupplied(e), st.id)
    ensures Step(st, e, parse).model == Last(ModelSupplied(e), st.model)
  {
    LastOne(StopSupplied(e)[0], st.stopReason);
    LastOne(IdSupplied(e)[0], st.id);
    LastOne(ModelSupplied(e)[0], st.model);
  }

  /** The token counts, id, model and stop reason end as the last value any
      event supplied (Bedrock metrics after the same event's usage), and as
      their initial values when none did: absent values never overwrite. */
  lemma {:induction false} ScalarsAreLastSupplied(es: seq<Event>, parse: string -> Option<Json>)
    ensures Fold(es, parse).inputTokens == Last(Supplied(es, InputSupplied), 0)
    ensures Fold(es, parse).outputTokens == Last(Supplied(es, OutputSupplied), 0)
    ensures Fold(es, parse).stopReason == Last(Supplied(es, StopSupplied), "")
    ensures Fold(es, parse).id == Last(Supplied(es, IdSupplied), "")
    ensures Fold(es, parse).model == Last(Supplied(es, ModelSupplied), "")
    decreases |es|
  {
    if |es| > 0 {
      var es' := es[..|es| - 1];
      var e := es[|es| - 1];
      ScalarsAreLastSupplied(es', parse);
      StepInput(Fold(es', parse), e, parse);
      StepOutput(Fold(es', parse), e, parse);
      StepStrings(Fold(es', parse), e, parse);
      LastAppend(Supplied(es', InputSupplied), InputSupplied(e), 0);
      LastAppend(Supplied(es', OutputSupplied), OutputSupplied(e), 0);
      LastAppend(Supplied(es', StopSupplied), StopSupplied(e), "");
      LastAppend(Supplied(es', IdSupplied), IdSupplied(e), "");
      LastAppend(Supplied(es', ModelSupplied), ModelSupplied(e), "");
    }
  }

  /** The chunk's usage, with the zero details the source adds. */
  datatype ToolChunkUsage = ToolChunkUsage(promptTokens: int, completionTokens: int, totalTokens: int,
                                           cachedTokens: int, reasoningTokens: int)

  /** The single chunk the Anthropic stream yields for a tool call. */
  datatype ToolCallStreamChunk = ToolCallStreamChunk(
    id: string,
    objectType: string,
    created: int,
    model: string,
    systemFingerprint: string,
    index: nat,
    name: Option<string>,
    arguments: Option<string>,
    finishReason: string,
    usage: ToolChunkUsage)

  /** `x || 0` on a count. */
  function OrZero(x: int): int {
    if x != 0 then x else 0
  }

  /** `anthropicToolCallToStreamChunk`. An input that is not a string is
      stringified; a missing input stringifies to `undefined`. */
  function AnthropicToolCallToStreamChunk(resp: AnthropicResponse, toolUse: ContentBlock, now: nat,
                                          stringify: Json -> string): (c: ToolCallStreamChunk)
    ensures c.id == if resp.id != "" then resp.id else "anthropic-" + NatToString(now)
    ensures c.objectType == "chat.completion.chunk" && c.created == now && c.model == resp.model
    ensures c.systemFingerprint == "default_fingerprint" && c.index == 0 && c.finishReason == "stop"
    ensures c.name == toolUse.name
    ensures (toolUse.input.Some? && toolUse.input.value.JStr?) ==> c.arguments == Some(toolUse.input.value.s)
    ensures (toolUse.input.Some? && !toolUse.input.value.JStr?) ==> c.arguments == Some(stringify(toolUse.input.value))
    ensures toolUse.input.None? ==> c.arguments.None?
    ensures c.usage.promptTokens == resp.inputTokens && c.usage.completionTokens == resp.outputTokens
    ensures c.usage.totalTokens == c.usage.promptTokens + c.usage.completionTokens
    ensures c.usage.cachedTokens == 0 && c.usage.reasoningTokens == 0
  {
    var arguments :=
      match toolUse.input
      case None => None
      case Some(JStr(s)) => Some(s)
      case Some(v) => Some(stringify(v));
    var prompt, completion := OrZero(resp.inputTokens), OrZero(resp.outputTokens);
    ToolCallStreamChunk(
      if resp.id != "" then resp.id else "anthropic-" + NatToString(now),
      "chat.completion.chunk", now, resp.model, "default_fingerprint", 0,
      toolUse.name, arguments, "stop",
      ToolChunkUsage(prompt, completion, prompt + completion, 0, 0))
  }
}
