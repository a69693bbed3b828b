/** System-prompt extraction and content-block conversion
    (src/utils/inputFormatAdapterUtils/anthropicInputFormatAdapterUtils/messageProcessor.ts). */
module MessageProcessor {
  import opened Wrappers
  import opened Messages
  import opened MessageFormatters
  import opened RoleHandler

  predicate IsStandardRole(role: string) {
    role == USER || role == ASSISTANT
  }

  /** A user or assistant message with exactly one content block. */
  predicate WellShaped(m: AnthropicMessage) {
    IsStandardRole(m.role) && |m.content| == 1
  }

  /** The adapted messages one input message contributes. */
  function Expand(msg: Message): seq<AnthropicMessage> {
    if !IsStandardRole(msg.role) then FormatNonStandardMessage(msg) else [FormatStandardMessage(msg)]
  }

  /** The list the `forEach` pushes to, before alternation. */
  function ExpandAll(ms: seq<Message>): seq<AnthropicMessage>
    decreases |ms|
  {
    if |ms| == 0 then [] else ExpandAll(ms[..|ms| - 1]) + Expand(ms[|ms| - 1])
  }

  /** The number of messages whose role is neither user nor assistant. */
  function NonStandardCount(ms: seq<Message>): nat
    decreases |ms|
  {
    if |ms| == 0 then 0
    else NonStandardCount(ms[..|ms| - 1]) + (if IsStandardRole(ms[|ms| - 1].role) then 0 else 1)
  }

  /** Expansion works message by message: the expansion of a concatenation
      is the concatenation of the expansions, so the relative order of the
      input messages is kept. */
  lemma {:induction false} ExpandAllAppend(xs: seq<Message>, ys: seq<Message>)
    ensures ExpandAll(xs + ys) == ExpandAll(xs) + ExpandAll(ys)
    decreases |ys|
  {
    if |ys| > 0 {
      var ys' := ys[..|ys| - 1];
      assert (xs + ys)[..|xs + ys| - 1] == xs + ys';
      ExpandAllAppend(xs, ys');
    } else {
      assert xs + ys == xs;
    }
  }

  /** Each user or assistant message yields one adapted message, any other two. */
  lemma {:induction false} ExpandAllLength(ms: seq<Message>)
    ensures |ExpandAll(ms)| == |ms| + NonStandardCount(ms)
    decreases |ms|
  {
    if |ms| > 0 {
      ExpandAllLength(ms[..|ms| - 1]);
    }
  }

  /** Every expanded message is a user or assistant message with exactly one text block. */
  lemma {:induction false} ExpandAllShape(ms: seq<Message>)
    ensures forall i :: 0 <= i < |ExpandAll(ms)| ==> WellShaped(ExpandAll(ms)[i])
    decreases |ms|
  {
    if |ms| > 0 {
      ExpandAllShape(ms[..|ms| - 1]);
    }
  }

  /** Alternation keeps every role in {user, assistant} and one block per message. */
  lemma AlternatedShape(ms: seq<AnthropicMessage>)
    requires forall i :: 0 <= i < |ms| ==> WellShaped(ms[i])
    ensures forall i :: 0 <= i < |Alternated(ms)| ==> WellShaped(Alternated(ms)[i])
  {
    var r, mask := Alternated(ms), InsertedMask(ms);
    AlternatedOnlyInserts(ms);
    InsertedArePlaceholders(ms);
    forall i | 0 <= i < |r| ensures WellShaped(r[i]) {
      if mask[i] {
        var role := OppositeRole(r[i - 1].role);
        assert r[i] == CreatePlaceholderMessage(role);
      } else {
        KeptMember(r, mask, i);
        assert r[i] in ms;
        var j :| 0 <= j < |ms| && ms[j] == r[i];
        assert WellShaped(ms[j]);
      }
    }
  }

  /** An unmarked element survives `Kept`. */
  lemma {:induction false} KeptMember<T>(xs: seq<T>, mask: seq<bool>, i: nat)
    requires |xs| == |mask| && i < |xs| && !mask[i]
    ensures xs[i] in Kept(xs, mask)
    decreases |xs|
  {
    if i < |xs| - 1 {
      KeptMember(xs[..|xs| - 1], mask[..|mask| - 1], i);
    }
  }

  /** The result of `processMessages`. */
  datatype Processed = Processed(systemPrompt: string, adaptedMessages: seq<AnthropicMessage>)

  /** The first message's content is lifted out as the system prompt,
      whatever its role; the remaining messages are expanded in order
      and then made to alternate. The source reads `messages[0]` without a
      check, so a caller must pass a non-empty list. */
  method ProcessMessages(messages: seq<Message>) returns (r: Processed)
    requires |messages| > 0
    ensures r.systemPrompt == messages[0].content.GetOr("")
    ensures r.adaptedMessages == Alternated(ExpandAll(messages[1..]))
  {
    var firstMessage, restMessages := messages[0], messages[1..];
    var systemPrompt := firstMessage.content.GetOr("");
    var adaptedMessages: seq<AnthropicMessage> := [];
    for k := 0 to |restMessages|
      invariant adaptedMessages == ExpandAll(restMessages[..k])
    {
      var msg := restMessages[k];
      assert restMessages[..k + 1][..k] == restMessages[..k];
      if msg.role != USER && msg.role != ASSISTANT {
        adaptedMessages := adaptedMessages + FormatNonStandardMessage(msg);
      } else {
        adaptedMessages := adaptedMessages + [FormatStandardMessage(msg)];
      }
    }
    assert restMessages[..|restMessages|] == restMessages;
    var alternating := EnsureAlternatingRoles(adaptedMessages);
    r := Processed(systemPrompt, alternating);
  }

  /** What `processMessages` promises its caller: no two neighbours share a
      role, every message is a user or assistant message with one text block,
      and the list holds the expansion of every message after the first, in
      order, with placeholders only added between equal-role neighbours. */
  lemma ProcessedProperties(messages: seq<Message>)
    requires |messages| > 0
    ensures Alternates(Alternated(ExpandAll(messages[1..])))
    ensures forall i :: 0 <= i < |Alternated(ExpandAll(messages[1..]))| ==>
              WellShaped(Alternated(ExpandAll(messages[1..]))[i])
    ensures |InsertedMask(ExpandAll(messages[1..]))| == |Alternated(ExpandAll(messages[1..]))|
    ensures Kept(Alternated(ExpandAll(messages[1..])), InsertedMask(ExpandAll(messages[1..])))
            == ExpandAll(messages[1..])
    ensures |ExpandAll(messages[1..])| == |messages| - 1 + NonStandardCount(messages[1..])
  {
    var e := ExpandAll(messages[1..]);
    AlternatedAlternates(e);
    ExpandAllShape(messages[1..]);
    AlternatedShape(e);
    AlternatedOnlyInserts(e);
    ExpandAllLength(messages[1..]);
  }
}
