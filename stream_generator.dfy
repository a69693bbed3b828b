/** The Anthropic and Llama branches of `streamGenerator` (src/index.ts).
    A vendor stream is a finite sequence; the yielded chunks are the
    method's result, in order. `OutputFormatAdapter.adaptResponse` is the
    parameter `adapt`, applied to the request record the source builds. */
module StreamGenerator {
  import opened Wrappers
  import opened Json
  import opened Strings
  import opened AnthropicEvents
  import opened LlamaChunks
  import opened AnthropicReconstruction

  // ---------------------------------------------------------------------
  // Anthropic: buffer everything, then one tool-call chunk or one chunk
  // per event.

  /** What the Anthropic branch yields. */
  datatype AnthropicYield<R> = ToolCall(chunk: ToolCallStreamChunk) | Adapted(response: R)

  /** A `content_block_start` whose block is `tool_use`. */
  predicate StartsToolUse(e: Event) {
    e.eventType == CONTENT_BLOCK_START && e.contentBlock.Some? && e.contentBlock.value.blockType == TOOL_USE_BLOCK
  }

  predicate HasToolUse(stream: seq<Event>) {
    exists i :: 0 <= i < |stream| && StartsToolUse(stream[i])
  }

  /** `content.find(block => block.type === "tool_use")`. */
  function FirstToolUse(blocks: seq<ContentBlock>): (r: Option<ContentBlock>)
    ensures r.Some? <==> exists i :: 0 <= i < |blocks| && blocks[i].blockType == TOOL_USE_BLOCK
    ensures r.Some? ==> exists i :: 0 <= i < |blocks| && blocks[i] == r.value
                                 && forall j :: 0 <= j < i ==> blocks[j].blockType != TOOL_USE_BLOCK
    ensures r.Some? ==> r.value.blockType == TOOL_USE_BLOCK
  {
    if |blocks| == 0 then None
    else if blocks[0].blockType == TOOL_USE_BLOCK then Some(blocks[0])
    else
      var r := FirstToolUse(blocks[1..]);
      assert forall i :: 1 <= i < |blocks| ==> blocks[i] == blocks[1..][i - 1];
      r
  }

  /** Every event passed through `adapt`, in order. */
  function AdaptEach<R>(stream: seq<Event>, adapt: Event -> R): (r: seq<AnthropicYield<R>>)
    ensures |r| == |stream|
    ensures forall i :: 0 <= i < |stream| ==> r[i] == Adapted(adapt(stream[i]))
  {
    seq(|stream|, i requires 0 <= i < |stream| => Adapted(adapt(stream[i])))
  }

  /** The chunks the Anthropic branch yields. */
  function AnthropicOutputs<R>(stream: seq<Event>, adapt: Event -> R, parse: string -> Option<Json>,
                               stringify: Json -> string, now: nat): seq<AnthropicYield<R>>
  {
    if HasToolUse(stream) then
      var resp := Finish(Fold(stream, parse));
      match FirstToolUse(resp.content)
      case Some(b) => [ToolCall(AnthropicToolCallToStreamChunk(resp, b, now, stringify))]
      case None => []
    else AdaptEach(stream, adapt)
  }

  /** The collecting loop of the Anthropic branch: every event is kept, and
      the flag records whether any of them opens a `tool_use` block. */
  method CollectEvents(stream: seq<Event>) returns (allChunks: seq<Event>, hasToolUse: bool)
    ensures allChunks == stream
    ensures hasToolUse == HasToolUse(stream)
  {
    allChunks := [];
    hasToolUse := false;
    for j := 0 to |stream|
      invariant allChunks == stream[..j]
      invariant hasToolUse <==> exists i :: 0 <= i < j && StartsToolUse(stream[i])
    {
      allChunks := allChunks + [stream[j]];
      if stream[j].eventType == CONTENT_BLOCK_START && stream[j].contentBlock.Some?
         && stream[j].contentBlock.value.blockType == TOOL_USE_BLOCK {
        hasToolUse := true;
      }
    }
    assert allChunks == stream;
  }

  /** The Anthropic branch: the buffering loop, then the yields. A stream
      in which a `tool_use` block started yields at most one chunk, for the
      first completed `tool_use` block; any other stream yields one adapted
      chunk per event, in order. */
  method AnthropicBranch<R>(stream: seq<Event>, adapt: Event -> R, parse: string -> Option<Json>,
                            stringify: Json -> string, now: nat) returns (out: seq<AnthropicYield<R>>)
    ensures out == AnthropicOutputs(stream, adapt, parse, stringify, now)
    ensures HasToolUse(stream) ==> |out| <= 1 && forall i :: 0 <= i < |out| ==> out[i].ToolCall?
    ensures !HasToolUse(stream) ==> |out| == |stream| && forall i :: 0 <= i < |stream| ==> out[i] == Adapted(adapt(stream[i]))
  {
    var allChunks, hasToolUse := CollectEvents(stream);
    out := [];
    if hasToolUse {
      var completeResponse := ReconstructAnthropicResponse(allChunks, parse);
      var toolUseBlock := FirstToolUse(completeResponse.content);
      if toolUseBlock.Some? {
        out := [ToolCall(AnthropicToolCallToStreamChunk(completeResponse, toolUseBlock.value, now, stringify))];
      }
    } else {
      for j := 0 to |allChunks|
        invariant |out| == j
        invariant forall i :: 0 <= i < j ==> out[i] == Adapted(adapt(allChunks[i]))
      {
        out := out + [Adapted(adapt(allChunks[j]))];
      }
    }
  }

  // ---------------------------------------------------------------------
  // Llama: a 3-slot window looking for `"<"`, `"function"`.

  /** The record passed to `adaptResponse`; `isFunctionCall` is `None`
      where the source leaves it out. */
  datatype LlamaAdaptRequest = LlamaAdaptRequest(response: LlamaChunk, isStream: bool, isFunctionCall: Option<bool>)

  /** The window starting at `j` is the function-call marker: the chunk
      after `j` is `"<"` and the one after that is `"function"`. */
  predicate MarkerAt(s: seq<LlamaChunk>, j: nat) {
    j + 2 < |s| && s[j + 1].generation == "<" && s[j + 2].generation == "function"
  }

  function MarkerTest(s: seq<LlamaChunk>): nat -> bool {
    (j: nat) => MarkerAt(s, j)
  }

  /** The first window that is the marker, if any. */
  function FirstMarker(s: seq<LlamaChunk>): Option<nat> {
    FirstWhere(MarkerTest(s), 0, |s|)
  }

  /** The generations of `cs`, concatenated in order. */
  function Generations(cs: seq<LlamaChunk>): string
    decreases |cs|
  {
    if |cs| == 0 then "" else Generations(cs[..|cs| - 1]) + cs[|cs| - 1].generation
  }

  /** The `reduce` over the accumulated chunks: the first one, its
      generation followed by all the others'. */
  function Merged(cs: seq<LlamaChunk>): LlamaChunk
    requires |cs| > 0
  {
    cs[0].(generation := Generations(cs))
  }

  /** Each chunk passed through `adapt` with the same flags, in order. */
  function AdaptAll<R>(cs: seq<LlamaChunk>, adapt: LlamaAdaptRequest -> R, isStream: bool, isFunctionCall: Option<bool>): seq<R>
    decreases |cs|
  {
    if |cs| == 0 then []
    else AdaptAll(cs[..|cs| - 1], adapt, isStream, isFunctionCall) + [adapt(LlamaAdaptRequest(cs[|cs| - 1], isStream, isFunctionCall))]
  }

  /** Where the window left off: the last two chunks stay in the buffer. */
  function Cut(n: nat): nat {
    if n >= 2 then n - 2 else 0
  }

  /** The chunks the Llama branch yields. */
  function LlamaOutputs<R>(s: seq<LlamaChunk>, adapt: LlamaAdaptRequest -> R): seq<R> {
    match FirstMarker(s)
    case Some(k) =>
      AdaptAll(s[..k], adapt, true, Some(false)) + [adapt(LlamaAdaptRequest(Merged(s[k..]), false, Some(true)))]
    case None =>
      AdaptAll(s[..Cut(|s|)], adapt, true, Some(false)) + AdaptAll(s[Cut(|s|)..], adapt, true, None)
  }

  /** `AdaptAll` adapts each chunk in its place. */
  lemma {:induction false} AdaptAllAt<R>(cs: seq<LlamaChunk>, adapt: LlamaAdaptRequest -> R, isStream: bool, isFunctionCall: Option<bool>)
    ensures |AdaptAll(cs, adapt, isStream, isFunctionCall)| == |cs|
    ensures forall i :: 0 <= i < |cs| ==>
              AdaptAll(cs, adapt, isStream, isFunctionCall)[i] == adapt(LlamaAdaptRequest(cs[i], isStream, isFunctionCall))
    decreases |cs|
  {
    if |cs| > 0 {
      AdaptAllAt(cs[..|cs| - 1], adapt, isStream, isFunctionCall);
    }
  }

  /** The generations of a non-empty run: the first one, then the rest. */
  lemma {:induction false} GenerationsCons(cs: seq<LlamaChunk>)
    requires |cs| > 0
    ensures Generations(cs) == cs[0].generation + Generations(cs[1..])
    decreases |cs|
  {
    if |cs| > 1 {
      var init := cs[..|cs| - 1];
      GenerationsCons(init);
      assert init[1..] == cs[1..][..|cs[1..]| - 1];
    } else {
      assert cs[1..] == [];
    }
  }

  /** The first marker is `k` when `k` is a marker and none comes before it. */
  lemma FirstMarkerIs(s: seq<LlamaChunk>, k: nat)
    requires MarkerAt(s, k) && forall i :: 0 <= i < k ==> !MarkerAt(s, i)
    ensures FirstMarker(s) == Some(k)
  {
    FirstWhereIsLeast(MarkerTest(s), 0, |s|);
    assert MarkerTest(s)(k);
  }

  /** There is no marker when no window is one. */
  lemma NoFirstMarker(s: seq<LlamaChunk>)
    requires forall i :: 0 <= i < |s| ==> !MarkerAt(s, i)
    ensures FirstMarker(s).None?
  {
  }

  /** The `reduce` that appends every accumulated generation to the first chunk's. */
  method MergeChunks(accumulatedChunks: seq<LlamaChunk>) returns (fullResponse: LlamaChunk)
    requires |accumulatedChunks| > 0
    ensures fullResponse == Merged(accumulatedChunks)
  {
    var generation := accumulatedChunks[0].generation;
    for i := 1 to |accumulatedChunks|
      invariant generation == Generations(accumulatedChunks[..i])
    {
      assert accumulatedChunks[..i + 1][..i] == accumulatedChunks[..i];
      generation := generation + accumulatedChunks[i].generation;
    }
    assert accumulatedChunks[..|accumulatedChunks|] == accumulatedChunks;
    fullResponse := accumulatedChunks[0].(generation := generation);
  }

  /** The final `while (buffer.length > 0)`: each buffered chunk shifted
      out and adapted, in order. */
  method FlushBuffer<R>(buffer: seq<LlamaChunk>, adapt: LlamaAdaptRequest -> R) returns (out: seq<R>)
    ensures out == AdaptAll(buffer, adapt, true, None)
  {
    var rest := buffer;
    out := [];
    while |rest| > 0
      invariant |rest| <= |buffer| && rest == buffer[|buffer| - |rest|..]
      invariant out == AdaptAll(buffer[..|buffer| - |rest|], adapt, true, None)
      decreases |rest|
    {
      var chunk := rest[0];
      var done := |buffer| - |rest|;
      assert buffer[..done + 1] == buffer[..done] + [chunk];
      rest := rest[1..];
      out := out + [adapt(LlamaAdaptRequest(chunk, true, None))];
    }
    assert buffer[..|buffer|] == buffer;
  }

  /** The window loop's state while no marker has been seen, after `j`
      chunks: every full window so far was checked, the last (up to) two
      chunks are buffered and every earlier one was yielded as text. */
  ghost predicate Scanning<R>(stream: seq<LlamaChunk>, adapt: LlamaAdaptRequest -> R, j: nat,
                              buffer: seq<LlamaChunk>, accumulated: seq<LlamaChunk>, out: seq<R>) {
    && j <= |stream|
    && (forall i :: 0 <= i && i + 2 < j ==> !MarkerAt(stream, i))
    && buffer == stream[Cut(j)..j] && accumulated == []
    && out == AdaptAll(stream[..Cut(j)], adapt, true, Some(false))
  }

  /** The window loop's state once the first marker, at `k`, was seen:
      everything from `k` on is accumulated. */
  ghost predicate Accumulating<R>(stream: seq<LlamaChunk>, adapt: LlamaAdaptRequest -> R, j: nat, k: nat,
                                  accumulated: seq<LlamaChunk>, out: seq<R>) {
    && MarkerAt(stream, k) && (forall i :: 0 <= i < k ==> !MarkerAt(stream, i))
    && k + 3 <= j <= |stream| && accumulated == stream[k..j]
    && out == AdaptAll(stream[..k], adapt, true, Some(false))
  }

  /** Pushing a chunk while fewer than three are buffered. */
  lemma ScanFill<R>(stream: seq<LlamaChunk>, adapt: LlamaAdaptRequest -> R, j: nat,
                    buffer: seq<LlamaChunk>, out: seq<R>)
    requires Scanning(stream, adapt, j, buffer, [], out) && j < |stream| && |buffer + [stream[j]]| < 3
    ensures Scanning(stream, adapt, j + 1, buffer + [stream[j]], [], out)
  {
  }

  /** A full window that is not the marker: its first chunk is yielded. */
  lemma ScanShift<R>(stream: seq<LlamaChunk>, adapt: LlamaAdaptRequest -> R, j: nat,
                     buffer: seq<LlamaChunk>, out: seq<R>)
    requires Scanning(stream, adapt, j, buffer, [], out) && j < |stream|
    requires var w := buffer + [stream[j]]; |w| == 3 && !(w[1].generation == "<" && w[2].generation == "function")
    ensures var w := buffer + [stream[j]];
            Scanning(stream, adapt, j + 1, w[1..], [], out + [adapt(LlamaAdaptRequest(w[0], true, Some(false)))])
  {
    var w := buffer + [stream[j]];
    assert w == stream[j - 2..j + 1];
    assert stream[..j - 1] == stream[..j - 2] + [stream[j - 2]];
    assert w[1..] == stream[j - 1..j + 1];
  }

  /** A full window that is the marker: it becomes the accumulated chunks. */
  lemma ScanMarker<R>(stream: seq<LlamaChunk>, adapt: LlamaAdaptRequest -> R, j: nat,
                      buffer: seq<LlamaChunk>, out: seq<R>)
    requires Scanning(stream, adapt, j, buffer, [], out) && j < |stream|
    requires var w := buffer + [stream[j]]; |w| == 3 && w[1].generation == "<" && w[2].generation == "function"
    ensures j >= 2 && Accumulating(stream, adapt, j + 1, j - 2, [] + (buffer + [stream[j]]), out)
  {
    var w := buffer + [stream[j]];
    assert w == stream[j - 2..j + 1];
    assert [] + w == w;
  }

  /** After the marker every chunk is accumulated. */
  lemma Accumulate<R>(stream: seq<LlamaChunk>, adapt: LlamaAdaptRequest -> R, j: nat, k: nat,
                      accumulated: seq<LlamaChunk>, out: seq<R>)
    requires Accumulating(stream, adapt, j, k, accumulated, out) && j < |stream|
    ensures Accumulating(stream, adapt, j + 1, k, accumulated + [stream[j]], out)
  {
    assert stream[k..j + 1] == stream[k..j] + [stream[j]];
  }

  /** With a marker, the yields are the text before it and one merged call chunk. */
  lemma AccumulatedOutputs<R>(stream: seq<LlamaChunk>, adapt: LlamaAdaptRequest -> R, k: nat,
                              accumulated: seq<LlamaChunk>, out: seq<R>)
    requires Accumulating(stream, adapt, |stream|, k, accumulated, out)
    ensures |accumulated| > 0
    ensures LlamaOutputs(stream, adapt) == out + [adapt(LlamaAdaptRequest(Merged(accumulated), false, Some(true)))]
  {
    FirstMarkerIs(stream, k);
    assert accumulated == stream[k..];
  }

  /** Without a marker, the yields are the text so far and the flushed buffer. */
  lemma ScannedOutputs<R>(stream: seq<LlamaChunk>, adapt: LlamaAdaptRequest -> R,
                          buffer: seq<LlamaChunk>, out: seq<R>)
    requires Scanning(stream, adapt, |stream|, buffer, [], out)
    ensures LlamaOutputs(stream, adapt) == out + AdaptAll(buffer, adapt, true, None)
  {
    NoFirstMarker(stream);
    assert buffer == stream[Cut(|stream|)..];
  }

  /** Without a marker every chunk is yielded exactly once, in order: all
      but the last two from the window, the last two from the final flush. */
  lemma LlamaWithoutMarker<R>(stream: seq<LlamaChunk>, adapt: LlamaAdaptRequest -> R)
    requires forall i :: 0 <= i < |stream| ==> !MarkerAt(stream, i)
    ensures |LlamaOutputs(stream, adapt)| == |stream|
    ensures forall i :: 0 <= i < |stream| ==>
              LlamaOutputs(stream, adapt)[i] ==
                adapt(LlamaAdaptRequest(stream[i], true, if i < Cut(|stream|) then Some(false) else None))
  {
    NoFirstMarker(stream);
    var c := Cut(|stream|);
    AdaptAllAt(stream[..c], adapt, true, Some(false));
    AdaptAllAt(stream[c..], adapt, true, None);
  }

  /** With the first marker at `k`, chunks before `k` are yielded as text
      and then exactly one function-call chunk: chunk `k` carrying the
      generations from `k` to the end. */
  lemma LlamaWithMarker<R>(stream: seq<LlamaChunk>, adapt: LlamaAdaptRequest -> R, k: nat)
    requires MarkerAt(stream, k) && forall i :: 0 <= i < k ==> !MarkerAt(stream, i)
    ensures |LlamaOutputs(stream, adapt)| == k + 1
    ensures forall i :: 0 <= i < k ==>
              LlamaOutputs(stream, adapt)[i] == adapt(LlamaAdaptRequest(stream[i], true, Some(false)))
    ensures LlamaOutputs(stream, adapt)[k] ==
              adapt(LlamaAdaptRequest(stream[k].(generation := Generations(stream[k..])), false, Some(true)))
  {
    FirstMarkerIs(stream, k);
    AdaptAllAt(stream[..k], adapt, true, Some(false));
  }

  /** The merged generation begins with chunk `k`'s own, then the marker's
      `"<"` and `"function"`, then the rest in order. */
  lemma MergedBeginsWithMarker(stream: seq<LlamaChunk>, k: nat)
    requires MarkerAt(stream, k)
    ensures Generations(stream[k..]) == stream[k].generation + "<" + "function" + Generations(stream[k + 3..])
  {
    var run := stream[k..];
    var run1, run2 := run[1..], run[2..];
    assert run1[0] == stream[k + 1] && run1[1..] == run2;
    assert run2[0] == stream[k + 2] && run2[1..] == stream[k + 3..];
    GenerationsCons(run);
    GenerationsCons(run1);
    GenerationsCons(run2);
    Regroup(stream[k].generation, "<", "function", Generations(stream[k + 3..]));
  }

  lemma Regroup(a: string, b: string, c: string, d: string)
    ensures a + (b + (c + d)) == a + b + c + d
  {
  }

  /** The body of the window loop before any marker: push the chunk and,
      with three buffered, either switch to accumulating or yield the
      first one. */
  method ScanChunk<R>(stream: seq<LlamaChunk>, adapt: LlamaAdaptRequest -> R, j: nat,
                      buffer: seq<LlamaChunk>, accumulatedChunks: seq<LlamaChunk>, out: seq<R>)
    returns (isFunctionCall: bool, buffer': seq<LlamaChunk>, accumulatedChunks': seq<LlamaChunk>, out': seq<R>, ghost k: nat)
    requires Scanning(stream, adapt, j, buffer, accumulatedChunks, out) && j < |stream|
    ensures !isFunctionCall ==> Scanning(stream, adapt, j + 1, buffer', accumulatedChunks', out')
    ensures isFunctionCall ==> Accumulating(stream, adapt, j + 1, k, accumulatedChunks', out')
  {
    isFunctionCall, accumulatedChunks', out', k := false, accumulatedChunks, out, 0;
    buffer' := buffer + [stream[j]];
    if |buffer'| == 3 {
      if buffer'[1].generation == "<" && buffer'[2].generation == "function" {
        isFunctionCall := true;
      }
      if isFunctionCall {
        ScanMarker(stream, adapt, j, buffer, out);
        k := j - 2;
        accumulatedChunks' := accumulatedChunks + buffer';
        buffer' := [];
      } else {
        ScanShift(stream, adapt, j, buffer, out);
        out' := out + [adapt(LlamaAdaptRequest(buffer'[0], true, Some(false)))];
        buffer' := buffer'[1..];
      }
    } else {
      ScanFill(stream, adapt, j, buffer, out);
    }
  }

  /** The Llama branch: the window loop, then the single function-call
      chunk or the flush of the last two buffered chunks. */
  method LlamaBranch<R>(stream: seq<LlamaChunk>, adapt: LlamaAdaptRequest -> R) returns (out: seq<R>)
    ensures out == LlamaOutputs(stream, adapt)
  {
    var buffer: seq<LlamaChunk> := [];
    var isFunctionCall := false;
    var accumulatedChunks: seq<LlamaChunk> := [];
    out := [];
    ghost var k: nat := 0;
    for j := 0 to |stream|
      invariant !isFunctionCall ==> Scanning(stream, adapt, j, buffer, accumulatedChunks, out)
      invariant isFunctionCall ==> Accumulating(stream, adapt, j, k, accumulatedChunks, out)
    {
      if !isFunctionCall {
        isFunctionCall, buffer, accumulatedChunks, out, k := ScanChunk(stream, adapt, j, buffer, accumulatedChunks, out);
      } else {
        Accumulate(stream, adapt, j, k, accumulatedChunks, out);
        accumulatedChunks := accumulatedChunks + [stream[j]];
      }
    }
    if isFunctionCall {
      out := YieldCall(stream, adapt, k, accumulatedChunks, out);
    } else {
      out := YieldRest(stream, adapt, buffer, out);
    }
  }

  /** The end of a stream that held the marker: one merged call chunk. */
  method YieldCall<R>(stream: seq<LlamaChunk>, adapt: LlamaAdaptRequest -> R, ghost k: nat,
                      accumulatedChunks: seq<LlamaChunk>, sofar: seq<R>) returns (out: seq<R>)
    requires Accumulating(stream, adapt, |stream|, k, accumulatedChunks, sofar)
    ensures out == LlamaOutputs(stream, adapt)
  {
    AccumulatedOutputs(stream, adapt, k, accumulatedChunks, sofar);
    var fullResponse := MergeChunks(accumulatedChunks);
    out := sofar + [adapt(LlamaAdaptRequest(fullResponse, false, Some(true)))];
  }

  /** The end of a stream without the marker: the window is flushed. */
  method YieldRest<R>(stream: seq<LlamaChunk>, adapt: LlamaAdaptRequest -> R,
                      buffer: seq<LlamaChunk>, sofar: seq<R>) returns (out: seq<R>)
    requires Scanning(stream, adapt, |stream|, buffer, [], sofar)
    ensures out == LlamaOutputs(stream, adapt)
  {
    ScannedOutputs(stream, adapt, buffer, sofar);
    var flushed := FlushBuffer(buffer, adapt);
    out := sofar + flushed;
  }
}
