/** Strict user/assistant alternation for Anthropic message lists
    (src/utils/inputFormatAdapterUtils/anthropicInputFormatAdapterUtils/roleHandler.ts). */
module RoleHandler {
  import opened Messages
  import opened MessageFormatters

  /** The role of the placeholder put after a message of role `role`. */
  function OppositeRole(role: string): (r: string)
    ensures r == USER || r == ASSISTANT
    ensures r != role
  {
    if role == USER then ASSISTANT else USER
  }

  /** No two neighbours share a role. */
  predicate Alternates(ms: seq<AnthropicMessage>) {
    forall i :: 0 <= i < |ms| - 1 ==> ms[i].role != ms[i + 1].role
  }

  /** What follows message `a` in the output when the next input message is `b`. */
  function Bridge(a: AnthropicMessage, b: AnthropicMessage): seq<AnthropicMessage> {
    if a.role == b.role then [CreatePlaceholderMessage(OppositeRole(a.role)), b] else [b]
  }

  /** The reference result: each adjacent equal-role pair gets a placeholder between them. */
  function Alternated(ms: seq<AnthropicMessage>): seq<AnthropicMessage>
    decreases |ms|
  {
    if |ms| <= 1 then ms
    else Alternated(ms[..|ms| - 1]) + Bridge(ms[|ms| - 2], ms[|ms| - 1])
  }

  /** The number of adjacent equal-role pairs. */
  function EqualPairs(ms: seq<AnthropicMessage>): nat
    decreases |ms|
  {
    if |ms| <= 1 then 0
    else EqualPairs(ms[..|ms| - 1]) + (if ms[|ms| - 2].role == ms[|ms| - 1].role then 1 else 0)
  }

  /** Where the placeholders of `Alternated(ms)` are: `true` marks an inserted message. */
  function InsertedMask(ms: seq<AnthropicMessage>): seq<bool>
    decreases |ms|
  {
    if |ms| == 0 then []
    else if |ms| == 1 then [false]
    else
      InsertedMask(ms[..|ms| - 1])
      + (if ms[|ms| - 2].role == ms[|ms| - 1].role then [true, false] else [false])
  }

  /** The elements of `xs` whose mark is `false`. */
  function Kept<T>(xs: seq<T>, mask: seq<bool>): seq<T>
    requires |xs| == |mask|
    decreases |xs|
  {
    if |xs| == 0 then []
    else Kept(xs[..|xs| - 1], mask[..|mask| - 1]) + (if mask[|mask| - 1] then [] else [xs[|xs| - 1]])
  }

  function CountTrue(mask: seq<bool>): nat
    decreases |mask|
  {
    if |mask| == 0 then 0
    else CountTrue(mask[..|mask| - 1]) + (if mask[|mask| - 1] then 1 else 0)
  }

  lemma {:induction false} KeptAppend<T>(xs: seq<T>, mask: seq<bool>, ys: seq<T>, more: seq<bool>)
    requires |xs| == |mask| && |ys| == |more|
    ensures Kept(xs + ys, mask + more) == Kept(xs, mask) + Kept(ys, more)
    ensures CountTrue(mask + more) == CountTrue(mask) + CountTrue(more)
    decreases |ys|
  {
    if |ys| == 0 {
      assert xs + ys == xs && mask + more == mask;
    } else {
      var ys', more' := ys[..|ys| - 1], more[..|more| - 1];
      KeptAppend(xs, mask, ys', more');
      assert (xs + ys)[..|xs + ys| - 1] == xs + ys';
      assert (mask + more)[..|mask + more| - 1] == mask + more';
    }
  }

  /** The output starts with the first input message and ends with the last. */
  lemma {:induction false} AlternatedEnds(ms: seq<AnthropicMessage>)
    requires |ms| > 0
    ensures |Alternated(ms)| > 0
    ensures Alternated(ms)[0] == ms[0]
    ensures Alternated(ms)[|Alternated(ms)| - 1] == ms[|ms| - 1]
    decreases |ms|
  {
    if |ms| > 1 {
      AlternatedEnds(ms[..|ms| - 1]);
    }
  }

  /** The result never has two adjacent messages with equal role. */
  lemma {:induction false} AlternatedAlternates(ms: seq<AnthropicMessage>)
    ensures Alternates(Alternated(ms))
    decreases |ms|
  {
    if |ms| > 1 {
      var p := ms[..|ms| - 1];
      AlternatedAlternates(p);
      AlternatedEnds(p);
      var a, b := ms[|ms| - 2], ms[|ms| - 1];
      var left, right := Alternated(p), Bridge(a, b);
      assert left[|left| - 1] == a;
      forall i | 0 <= i < |left + right| - 1
        ensures (left + right)[i].role != (left + right)[i + 1].role
      {
        if i < |left| - 1 {
          assert (left + right)[i] == left[i] && (left + right)[i + 1] == left[i + 1];
        }
      }
    }
  }

  /** One placeholder per adjacent equal-role pair, and nothing else is added. */
  lemma {:induction false} AlternatedLength(ms: seq<AnthropicMessage>)
    ensures |Alternated(ms)| == |ms| + EqualPairs(ms)
    decreases |ms|
  {
    if |ms| > 1 {
      AlternatedLength(ms[..|ms| - 1]);
    }
  }

  lemma {:induction false} InsertedMaskLength(ms: seq<AnthropicMessage>)
    ensures |InsertedMask(ms)| == |Alternated(ms)|
    decreases |ms|
  {
    if |ms| > 1 {
      InsertedMaskLength(ms[..|ms| - 1]);
    }
  }

  /** Appending the next input message appends its bridge to the output
      and the bridge's marks to the mask. */
  lemma AlternatedSnoc(ms: seq<AnthropicMessage>)
    requires |ms| > 1
    ensures Alternated(ms) == Alternated(ms[..|ms| - 1]) + Bridge(ms[|ms| - 2], ms[|ms| - 1])
    ensures InsertedMask(ms) == InsertedMask(ms[..|ms| - 1])
              + (if ms[|ms| - 2].role == ms[|ms| - 1].role then [true, false] else [false])
  {
  }

  /** The marks of one bridge: the placeholder (if any) is marked, the
      input message is not. */
  function BridgeMask(a: AnthropicMessage, b: AnthropicMessage): seq<bool> {
    if a.role == b.role then [true, false] else [false]
  }

  lemma BridgeKept(a: AnthropicMessage, b: AnthropicMessage)
    ensures |BridgeMask(a, b)| == |Bridge(a, b)|
    ensures Kept(Bridge(a, b), BridgeMask(a, b)) == [b]
    ensures CountTrue(BridgeMask(a, b)) == if a.role == b.role then 1 else 0
  {
    var x, m := Bridge(a, b), BridgeMask(a, b);
    if a.role == b.role {
      assert x[..1] == [x[0]] && m[..1] == [true];
      assert Kept([x[0]], [true]) == Kept([], []) + [];
      assert [true][..0] == [];
    } else {
      assert Kept([b], [false]) == Kept([], []) + [b];
      assert [false][..0] == [];
    }
  }

  lemma ComposeKept(left: seq<AnthropicMessage>, mask: seq<bool>, a: AnthropicMessage, b: AnthropicMessage)
    requires |left| == |mask|
    ensures |left + Bridge(a, b)| == |mask + BridgeMask(a, b)|
    ensures Kept(left + Bridge(a, b), mask + BridgeMask(a, b)) == Kept(left, mask) + [b]
  {
    BridgeKept(a, b);
    KeptAppend(left, mask, Bridge(a, b), BridgeMask(a, b));
  }

  /** The function only inserts: dropping the marked messages gives the
      input back, in order. */
  lemma {:induction false} AlternatedOnlyInserts(ms: seq<AnthropicMessage>)
    ensures |InsertedMask(ms)| == |Alternated(ms)|
    ensures Kept(Alternated(ms), InsertedMask(ms)) == ms
    decreases |ms|
  {
    InsertedMaskLength(ms);
    if |ms| == 1 {
      assert Kept(ms, [false]) == Kept([], []) + [ms[0]];
    } else if |ms| > 1 {
      var p := ms[..|ms| - 1];
      assert p + [ms[|ms| - 1]] == ms;
      AlternatedOnlyInserts(p);
      AlternatedSnoc(ms);
      ComposeKept(Alternated(p), InsertedMask(p), ms[|ms| - 2], ms[|ms| - 1]);
    }
  }

  /** Exactly one message is marked per adjacent equal-role pair of the input. */
  lemma {:induction false} InsertedCount(ms: seq<AnthropicMessage>)
    ensures CountTrue(InsertedMask(ms)) == EqualPairs(ms)
    decreases |ms|
  {
    InsertedMaskLength(ms);
    if |ms| == 1 {
      assert InsertedMask(ms) == [false];
      assert [false][..0] == [];
    } else if |ms| > 1 {
      var p := ms[..|ms| - 1];
      InsertedCount(p);
      InsertedMaskLength(p);
      AlternatedSnoc(ms);
      var a, b := ms[|ms| - 2], ms[|ms| - 1];
      BridgeKept(a, b);
      KeptAppend(Alternated(p), InsertedMask(p), Bridge(a, b), BridgeMask(a, b));
    }
  }

  /** Each inserted message is the `":"` placeholder whose role is the
      opposite of its predecessor's: assistant after user, user otherwise. */
  lemma {:induction false} InsertedArePlaceholders(ms: seq<AnthropicMessage>)
    ensures |InsertedMask(ms)| == |Alternated(ms)|
    ensures forall i :: 0 <= i < |Alternated(ms)| && InsertedMask(ms)[i] ==>
              0 < i && Alternated(ms)[i] == CreatePlaceholderMessage(OppositeRole(Alternated(ms)[i - 1].role))
    decreases |ms|
  {
    InsertedMaskLength(ms);
    if |ms| > 1 {
      var p := ms[..|ms| - 1];
      InsertedArePlaceholders(p);
      AlternatedSnoc(ms);
      AlternatedEnds(p);
      var a, b := ms[|ms| - 2], ms[|ms| - 1];
      var r, m, left := Alternated(ms), InsertedMask(ms), Alternated(p);
      forall i | 0 <= i < |r| && m[i]
        ensures 0 < i && r[i] == CreatePlaceholderMessage(OppositeRole(r[i - 1].role))
      {
        if i < |left| {
          assert m[i] == InsertedMask(p)[i] && r[i] == left[i] && r[i - 1] == left[i - 1];
        } else {
          assert i == |left| && a.role == b.role;
          assert r[i - 1] == left[|left| - 1] == a;
        }
      }
    }
  }

  /** Dropping the last message keeps alternation. */
  lemma AlternatesPrefix(ms: seq<AnthropicMessage>)
    requires |ms| > 0 && Alternates(ms)
    ensures Alternates(ms[..|ms| - 1])
  {
    var p := ms[..|ms| - 1];
    forall i | 0 <= i < |p| - 1 ensures p[i].role != p[i + 1].role {
      assert p[i] == ms[i] && p[i + 1] == ms[i + 1];
    }
  }

  /** An input that already alternates comes back unchanged. */
  lemma {:induction false} AlternatedKeepsAlternating(ms: seq<AnthropicMessage>)
    requires Alternates(ms)
    ensures Alternated(ms) == ms
    decreases |ms|
  {
    if |ms| > 1 {
      var p, b := ms[..|ms| - 1], ms[|ms| - 1];
      AlternatesPrefix(ms);
      AlternatedKeepsAlternating(p);
      AlternatedSnoc(ms);
      assert Bridge(ms[|ms| - 2], b) == [b];
      assert p + [b] == ms;
    }
  }

  /** Alternation is idempotent. */
  lemma AlternatedIdempotent(ms: seq<AnthropicMessage>)
    ensures Alternated(Alternated(ms)) == Alternated(ms)
  {
    AlternatedAlternates(ms);
    AlternatedKeepsAlternating(Alternated(ms));
  }

  /** One step of the loop, stated on the reference result: the output for
      `ms[..j + 2]` is the output for `ms[..j + 1]`, which ends with `ms[j]`,
      followed by the bridge from `ms[j]` to `ms[j + 1]`. */
  lemma SpliceStep(ms: seq<AnthropicMessage>, j: nat)
    requires j + 1 < |ms|
    ensures |Alternated(ms[..j + 1])| > 0
    ensures Alternated(ms[..j + 1])[|Alternated(ms[..j + 1])| - 1] == ms[j]
    ensures Alternated(ms[..j + 2]) == Alternated(ms[..j + 1]) + Bridge(ms[j], ms[j + 1])
  {
    AlternatedEnds(ms[..j + 1]);
    var next := ms[..j + 2];
    assert next[..|next| - 1] == ms[..j + 1];
    AlternatedSnoc(next);
  }

  /** A suffix is its first element followed by the next suffix. */
  lemma SuffixCons<T>(s: seq<T>, k: nat)
    requires k < |s|
    ensures s[k..] == [s[k]] + s[k + 1..]
  {
    assert s[k..][1..] == s[k + 1..];
  }

  /** Cutting `done + rest` at `|done|` gives back both parts, and putting
      `mid` at the cut is the same as extending `done` by `mid` and the first
      element of `rest`. */
  lemma SpliceAt<T>(done: seq<T>, rest: seq<T>, mid: seq<T>)
    requires |rest| > 0
    ensures (done + rest)[..|done|] == done && (done + rest)[|done|..] == rest
    ensures done + mid + rest == (done + (mid + [rest[0]])) + rest[1..]
  {
    assert rest == [rest[0]] + rest[1..];
  }

  /** The loop body keeps the loop's invariant: when the pair at `i`, `i + 1`
      shares a role, splicing the placeholder in and moving `i` past it gives
      the state for one more input message; otherwise only `i` moves. */
  lemma SpliceKeepsInvariant(ms: seq<AnthropicMessage>, j: nat, result: seq<AnthropicMessage>, i: int)
    requires j + 1 < |ms|
    requires result == Alternated(ms[..j + 1]) + ms[j + 1..]
    requires i == |Alternated(ms[..j + 1])| - 1
    ensures 0 <= i && i + 1 < |result|
    ensures result[i] == ms[j] && result[i + 1] == ms[j + 1]
    ensures result[i].role == result[i + 1].role ==>
              && result[..i + 1] + [CreatePlaceholderMessage(OppositeRole(result[i].role))] + result[i + 1..]
                 == Alternated(ms[..j + 2]) + ms[j + 2..]
              && i + 2 == |Alternated(ms[..j + 2])| - 1
    ensures result[i].role != result[i + 1].role ==>
              result == Alternated(ms[..j + 2]) + ms[j + 2..] && i + 1 == |Alternated(ms[..j + 2])| - 1
  {
    SpliceStep(ms, j);
    SuffixCons(ms, j + 1);
    var done, rest := Alternated(ms[..j + 1]), ms[j + 1..];
    if ms[j].role == ms[j + 1].role {
      var p := CreatePlaceholderMessage(OppositeRole(ms[j].role));
      SpliceAt(done, rest, [p]);
      assert [p] + [ms[j + 1]] == [p, ms[j + 1]];
    } else {
      SpliceAt(done, rest, []);
      assert done + [] == done;
    }
  }

  /** The splice loop of the source, on a copy of the caller's list (a
      `seq` is a value, so the caller's list cannot change). After a
      splice the index moves past the placeholder and the loop's own
      increment moves it to the message that followed. */
  method EnsureAlternatingRoles(messages: seq<AnthropicMessage>) returns (result: seq<AnthropicMessage>)
    ensures result == Alternated(messages)
  {
    result := messages;
    var i := 0;
    ghost var j := 0;
    while i < |result| - 1
      invariant |messages| == 0 ==> result == [] && i == 0
      invariant |messages| > 0 ==> 0 <= j < |messages|
      invariant |messages| > 0 ==> result == Alternated(messages[..j + 1]) + messages[j + 1..]
      invariant |messages| > 0 ==> i == |Alternated(messages[..j + 1])| - 1
      decreases |result| - i
    {
      SpliceKeepsInvariant(messages, j, result, i);
      if result[i].role == result[i + 1].role {
        result := result[..i + 1] + [CreatePlaceholderMessage(OppositeRole(result[i].role))] + result[i + 1..];
        i := i + 1;
      }
      i := i + 1;
      j := j + 1;
    }
    if |messages| > 0 {
      assert messages[..j + 1] == messages;
    }
  }
}
