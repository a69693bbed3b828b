/** Serialisation of canonical messages into one Llama 3 prompt string
    (src/utils/inputFormatAdapterUtils/openAIToLlamaMessage.ts). */
module LlamaPrompt {
  import opened Wrappers
  import opened Messages
  import Strings

  const BEGIN_OF_TEXT := "<|begin_of_text|>"
  const START_HEADER := "<|start_header_id|>"
  const END_HEADER := "<|end_header_id|>"
  const EOT := "<|eot_id|>"

  /** The roles the serialiser accepts; `tool` and `function` are not among them. */
  predicate ValidLlamaRole(role: string) {
    role == SYSTEM || role == USER || role == ASSISTANT
  }

  /** The template interpolation of a content: a missing content prints as `null`. */
  function ContentText(content: Option<string>): string {
    if content.Some? then content.value else "null"
  }

  /** The text one message contributes. */
  function Segment(msg: Message): string {
    START_HEADER + msg.role + END_HEADER + "\n" + ContentText(msg.content) + EOT + "\n"
  }

  /** The texts `render` gives the elements of `xs`, concatenated in order. */
  function RenderAll<T>(render: T -> string, xs: seq<T>): string
    decreases |xs|
  {
    if |xs| == 0 then "" else RenderAll(render, xs[..|xs| - 1]) + render(xs[|xs| - 1])
  }

  /** Rendering is a homomorphism from concatenation of lists to
      concatenation of strings. */
  lemma {:induction false} RenderAllAppend<T>(render: T -> string, xs: seq<T>, ys: seq<T>)
    ensures RenderAll(render, xs + ys) == RenderAll(render, xs) + RenderAll(render, ys)
    decreases |ys|
  {
    if |ys| == 0 {
      assert xs + ys == xs;
    } else {
      var ys', last := ys[..|ys| - 1], ys[|ys| - 1];
      assert (xs + ys)[..|xs + ys| - 1] == xs + ys';
      assert (xs + ys)[|xs + ys| - 1] == last;
      RenderAllAppend(render, xs, ys');
      Strings.ConcatAssoc(RenderAll(render, xs), RenderAll(render, ys'), render(last));
    }
  }

  /** The segments of a list of messages, in order. */
  function Segments(ms: seq<Message>): string {
    RenderAll(Segment, ms)
  }

  /** Serialisation is a homomorphism from concatenation of lists to
      concatenation of strings: each message is rendered on its own, in order. */
  lemma SegmentsAppend(xs: seq<Message>, ys: seq<Message>)
    ensures Segments(xs + ys) == Segments(xs) + Segments(ys)
  {
    RenderAllAppend(Segment, xs, ys);
  }

  /** Extending a prefix by one message appends that message's segment. */
  lemma SegmentsSnoc(ms: seq<Message>, k: nat)
    requires k < |ms|
    ensures Segments(ms[..k + 1]) == Segments(ms[..k]) + Segment(ms[k])
  {
    assert ms[..k + 1][..k] == ms[..k];
    assert ms[..k + 1][k] == ms[k];
  }

  /** The index of the first message with an invalid role, if any. */
  function FirstInvalidRole(ms: seq<Message>): (r: Option<nat>)
    ensures r.Some? ==> r.value < |ms| && !ValidLlamaRole(ms[r.value].role)
                        && forall j :: 0 <= j < r.value ==> ValidLlamaRole(ms[j].role)
    ensures r.None? <==> forall j :: 0 <= j < |ms| ==> ValidLlamaRole(ms[j].role)
    decreases |ms|
  {
    if |ms| == 0 then None
    else if !ValidLlamaRole(ms[0].role) then Some(0)
    else match FirstInvalidRole(ms[1..]) {
      case None => None
      case Some(k) => Some(k + 1)
    }
  }

  /** The prompt is built message by message; the first message with a role
      outside system/user/assistant aborts with that role, and otherwise the
      prompt is the begin marker followed by every message's segment. */
  method OpenAIToLlamaMessage(messages: seq<Message>) returns (r: Result<string, ProxyError>)
    ensures FirstInvalidRole(messages).Some? ==>
              r == Err(InvalidRole(messages[FirstInvalidRole(messages).value].role))
    ensures FirstInvalidRole(messages).None? ==> r == Ok(BEGIN_OF_TEXT + Segments(messages))
  {
    var llamaPrompt := BEGIN_OF_TEXT;
    for k := 0 to |messages|
      invariant forall j :: 0 <= j < k ==> ValidLlamaRole(messages[j].role)
      invariant llamaPrompt == BEGIN_OF_TEXT + Segments(messages[..k])
    {
      var msg := messages[k];
      if msg.role != SYSTEM && msg.role != USER && msg.role != ASSISTANT {
        return Err(InvalidRole(msg.role));
      }
      var segment := START_HEADER + msg.role + END_HEADER + "\n" + ContentText(msg.content) + EOT + "\n";
      SegmentsSnoc(messages, k);
      ghost var done := Segments(messages[..k]);
      Strings.ConcatAssoc(BEGIN_OF_TEXT, done, segment);
      llamaPrompt := llamaPrompt + segment;
    }
    assert messages[..|messages|] == messages;
    return Ok(llamaPrompt);
  }

  /** Every segment ends with an end-of-turn marker and a newline. */
  lemma SegmentEnds(msg: Message)
    ensures |Segment(msg)| >= |EOT| + 1 && Segment(msg)[|Segment(msg)| - |EOT| - 1..] == EOT + "\n"
  {
    var head := START_HEADER + msg.role + END_HEADER + "\n" + ContentText(msg.content);
    assert Segment(msg) == head + (EOT + "\n");
  }

  lemma SuffixOfConcat(x: string, y: string, n: nat)
    requires n <= |y|
    ensures (x + y)[|x + y| - n..] == y[|y| - n..]
  {
  }

  /** Every prompt starts with the begin marker; an empty list gives exactly
      the marker; a non-empty list ends with an end-of-turn marker and a
      newline, so no open assistant header is appended. */
  lemma {:induction false} PromptShape(messages: seq<Message>)
    ensures (BEGIN_OF_TEXT + Segments(messages))[..|BEGIN_OF_TEXT|] == BEGIN_OF_TEXT
    ensures |messages| == 0 ==> BEGIN_OF_TEXT + Segments(messages) == BEGIN_OF_TEXT
    ensures |messages| > 0 ==>
              var p := BEGIN_OF_TEXT + Segments(messages);
              |p| >= |EOT| + 1 && p[|p| - |EOT| - 1..] == EOT + "\n"
  {
    if |messages| > 0 {
      SegmentEnds(messages[|messages| - 1]);
      var s := Segment(messages[|messages| - 1]);
      var q := BEGIN_OF_TEXT + Segments(messages[..|messages| - 1]);
      assert Segments(messages) == Segments(messages[..|messages| - 1]) + s;
      Strings.ConcatAssoc(BEGIN_OF_TEXT, Segments(messages[..|messages| - 1]), s);
      SuffixOfConcat(q, s, |EOT| + 1);
    }
  }

  /** Prepending a message prepends its segment after the begin marker. */
  lemma PromptCons(m: Message, ms: seq<Message>)
    ensures BEGIN_OF_TEXT + Segments([m] + ms) == BEGIN_OF_TEXT + Segment(m) + Segments(ms)
  {
    SegmentsAppend([m], ms);
    assert [m][..0] == [];
    assert RenderAll(Segment, [m]) == RenderAll(Segment, []) + Segment(m);
    assert Segments([m]) == Segment(m);
    Strings.ConcatAssoc(BEGIN_OF_TEXT, Segment(m), Segments(ms));
  }
}
