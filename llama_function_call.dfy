/** Extraction of a `<function>` call from a Llama generation and the chunk
    built from it (src/utils/outputFormatAdapterUtils/convertLlamaToOpenAIStreamToolCall.ts).
    The regular expression is written out as a scan: every quantifier in it
    except the lazy one is followed by a character it cannot consume, so
    each has a single way to match, and the lazy `.*?` takes the shortest
    text after which the rest of the pattern matches. */
module LlamaFunctionCall {
  import opened Wrappers
  import opened Strings
  import opened LlamaChunks

  const OPEN_TAG := "<function>"
  const CLOSE_TAG := "}</function>"
  const NAME_KEY := "\"function_name\":"
  const PARAMETERS_KEY := "\"parameters\":"

  /** The two capture groups. */
  datatype FunctionCallMatch = FunctionCallMatch(name: string, arguments: string)

  /** The end of `[^"]*` from `i`: the first `"` at or after `i`, or `|s|`. */
  function QuoteFreeEnd(s: string, i: nat): (j: nat)
    requires i <= |s|
    ensures i <= j <= |s|
    ensures j < |s| ==> s[j] == '"'
    decreases |s| - i
  {
    if i == |s| || s[i] == '"' then i else QuoteFreeEnd(s, i + 1)
  }

  /** `[^"]*` consumes no `"`. */
  lemma {:induction false} QuoteFreeEndIsQuoteFree(s: string, i: nat)
    requires i <= |s|
    ensures forall k :: i <= k < QuoteFreeEnd(s, i) ==> s[k] != '"'
    decreases |s| - i
  {
    if i < |s| && s[i] != '"' {
      QuoteFreeEndIsQuoteFree(s, i + 1);
    }
  }

  /** `\s*\}<\/function>` matches from `i`. */
  predicate ClosesAt(s: string, i: nat)
    requires i <= |s|
  {
    OccursAt(s, CLOSE_TAG, SkipSpaces(s, i))
  }

  /** The `}` at `k` can end the lazy group: the rest of the pattern
      matches after it. */
  predicate EndsArgumentsAt(s: string, k: nat)
    requires k < |s|
  {
    s[k] == '}' && ClosesAt(s, k + 1)
  }

  /** The positions of `s` that can end the lazy group. */
  function ArgumentEnds(s: string): nat -> bool {
    (k: nat) => k < |s| && EndsArgumentsAt(s, k)
  }

  /** Where the lazy `(\{.*?\})` group ends: the least `q >= i` holding a `}`
      after which the rest of the pattern matches (`ArgumentsEndIsLeast`). */
  function ArgumentsEnd(s: string, i: nat): (q: Option<nat>)
    requires i <= |s|
    ensures q.Some? ==> i <= q.value < |s| && s[q.value] == '}'
  {
    FirstWhere(ArgumentEnds(s), i, |s|)
  }

  /** The lazy group ends where the rest of the pattern matches, no earlier
      position would do, and it fails only when no position does. */
  lemma ArgumentsEndIsLeast(s: string, i: nat)
    requires i <= |s|
    ensures ArgumentsEnd(s, i).Some? ==> EndsArgumentsAt(s, ArgumentsEnd(s, i).value)
    ensures ArgumentsEnd(s, i).Some? ==>
              forall k :: i <= k < ArgumentsEnd(s, i).value ==> !EndsArgumentsAt(s, k)
    ensures ArgumentsEnd(s, i).None? ==> forall k :: i <= k < |s| ==> !EndsArgumentsAt(s, k)
  {
    var P := ArgumentEnds(s);
    FirstWhereIsLeast(P, i, |s|);
    if ArgumentsEnd(s, i).Some? {
      forall k | i <= k < ArgumentsEnd(s, i).value ensures !EndsArgumentsAt(s, k) {
        assert !P(k);
      }
    } else {
      forall k | i <= k < |s| ensures !EndsArgumentsAt(s, k) {
        assert !P(k);
      }
    }
  }

  /** `<function>\s*\{\s*"function_name":\s*` matched at `p`, up to the
      opening quote of the name: the index of that quote. */
  function NameStart(s: string, p: nat): (c: Option<nat>)
    requires p <= |s|
    ensures c.Some? ==> OccursAt(s, OPEN_TAG, p) && p < c.value < |s| && s[c.value] == '"'
  {
    if !OccursAt(s, OPEN_TAG, p) then None
    else
      var a := SkipSpaces(s, p + |OPEN_TAG|);
      if a == |s| || s[a] != '{' then None
      else
        var b := SkipSpaces(s, a + 1);
        if !OccursAt(s, NAME_KEY, b) then None
        else
          var c := SkipSpaces(s, b + |NAME_KEY|);
          if c == |s| || s[c] != '"' then None else Some(c)
  }

  /** `([^"]+)",` from the opening quote at `c`: the index of the closing quote. */
  function NameEnd(s: string, c: nat): (d: Option<nat>)
    requires c < |s|
    ensures d.Some? ==> c + 1 < d.value && d.value + 1 < |s| && s[d.value] == '"' && s[d.value + 1] == ','
  {
    var d := QuoteFreeEnd(s, c + 1);
    if d == c + 1 || d + 1 >= |s| || s[d + 1] != ',' then None else Some(d)
  }

  /** `\s*"parameters":\s*\{` from `i`: the index of the `{`. */
  function ArgumentsStart(s: string, i: nat): (f: Option<nat>)
    requires i <= |s|
    ensures f.Some? ==> i <= f.value < |s| && s[f.value] == '{'
  {
    var e := SkipSpaces(s, i);
    if !OccursAt(s, PARAMETERS_KEY, e) then None
    else
      var f := SkipSpaces(s, e + |PARAMETERS_KEY|);
      if f == |s| || s[f] != '{' then None else Some(f)
  }

  /** Where the two groups of a match lie: the name in
      `[nameFrom, nameTo)`, the arguments in `[argsFrom, argsTo)`. */
  datatype Span = Span(nameFrom: nat, nameTo: nat, argsFrom: nat, argsTo: nat)

  /** The pattern matched at start position `p`, as the positions of its
      groups (`MatchName`, `MatchArguments`). */
  function SpanAt(s: string, p: nat): (r: Option<Span>)
    requires p <= |s|
    ensures r.Some? ==> r.value.nameFrom <= r.value.nameTo <= |s| && r.value.argsFrom <= r.value.argsTo <= |s|
  {
    match NameStart(s, p)
    case None => None
    case Some(c) => SpanFromName(s, c)
  }

  /** The rest of the pattern from the opening quote of the name at `c`. */
  function SpanFromName(s: string, c: nat): (r: Option<Span>)
    requires c < |s|
    ensures r.Some? ==> r.value.nameFrom <= r.value.nameTo <= |s| && r.value.argsFrom <= r.value.argsTo <= |s|
  {
    match NameEnd(s, c)
    case None => None
    case Some(d) => SpanFromParameters(s, c, d)
  }

  /** The rest of the pattern from the closing quote of the name at `d`. */
  function SpanFromParameters(s: string, c: nat, d: nat): (r: Option<Span>)
    requires c < d && d + 1 < |s|
    ensures r.Some? ==> r.value.nameFrom <= r.value.nameTo <= |s| && r.value.argsFrom <= r.value.argsTo <= |s|
  {
    match ArgumentsStart(s, d + 2)
    case None => None
    case Some(f) =>
      match ArgumentsEnd(s, f + 1)
      case None => None
      case Some(q) => Some(Span(c + 1, d, f, q + 1))
  }

  /** The pattern matched at start position `p`, as its two groups. */
  function MatchAt(s: string, p: nat): (r: Option<FunctionCallMatch>)
    requires p <= |s|
    ensures r.Some? <==> SpanAt(s, p).Some?
  {
    match SpanAt(s, p)
    case None => None
    case Some(sp) => Some(FunctionCallMatch(s[sp.nameFrom..sp.nameTo], s[sp.argsFrom..sp.argsTo]))
  }

  /** A match at `p` passes the first stage and the rest of it runs from
      the opening quote of the name. */
  lemma SpanAtName(s: string, p: nat)
    requires p <= |s| && SpanAt(s, p).Some?
    ensures NameStart(s, p).Some? && SpanFromName(s, NameStart(s, p).value) == SpanAt(s, p)
  {
  }

  /** A match from the opening quote passes the name stage and the rest of
      it runs from the closing quote. */
  lemma SpanFromNameEnd(s: string, c: nat)
    requires c < |s| && SpanFromName(s, c).Some?
    ensures NameEnd(s, c).Some? && SpanFromParameters(s, c, NameEnd(s, c).value) == SpanFromName(s, c)
  {
  }

  /** A match from the closing quote of the name passes the last two stages,
      which give the positions of the arguments. */
  lemma SpanFromParametersParts(s: string, c: nat, d: nat)
    requires c < d && d + 1 < |s| && SpanFromParameters(s, c, d).Some?
    ensures ArgumentsStart(s, d + 2).Some?
    ensures var f := ArgumentsStart(s, d + 2).value;
            && ArgumentsEnd(s, f + 1).Some?
            && SpanFromParameters(s, c, d) == Some(Span(c + 1, d, f, ArgumentsEnd(s, f + 1).value + 1))
  {
  }

  /** The positions the first two stages of a match at `p` reach: the
      opening and closing quotes of the name. */
  lemma NamePositions(s: string, p: nat, sp: Span) returns (c: nat, d: nat)
    requires p <= |s| && SpanAt(s, p) == Some(sp)
    ensures NameStart(s, p) == Some(c) && c < d && d + 1 < |s| && NameEnd(s, c) == Some(d)
    ensures SpanFromParameters(s, c, d) == Some(sp)
  {
    SpanAtName(s, p);
    c := NameStart(s, p).value;
    SpanFromNameEnd(s, c);
    d := NameEnd(s, c).value;
  }

  /** The positions the last two stages reach: the braces of the arguments. */
  lemma ArgumentPositions(s: string, c: nat, d: nat, sp: Span) returns (f: nat, q: nat)
    requires c < d && d + 1 < |s| && SpanFromParameters(s, c, d) == Some(sp)
    ensures ArgumentsStart(s, d + 2) == Some(f) && f < |s| && ArgumentsEnd(s, f + 1) == Some(q)
    ensures sp == Span(c + 1, d, f, q + 1)
  {
    SpanFromParametersParts(s, c, d);
    f := ArgumentsStart(s, d + 2).value;
    q := ArgumentsEnd(s, f + 1).value;
  }

  /** Where the groups of a match at `p` lie: after `<function>`, a
      non-empty quote-free name, and arguments from a `{` to a `}`. */
  lemma SpanFacts(s: string, p: nat, sp: Span)
    requires p <= |s| && SpanAt(s, p) == Some(sp)
    ensures OccursAt(s, OPEN_TAG, p)
    ensures sp.nameFrom < sp.nameTo <= |s| && forall k :: sp.nameFrom <= k < sp.nameTo ==> s[k] != '"'
    ensures sp.argsFrom + 2 <= sp.argsTo <= |s| && s[sp.argsFrom] == '{' && s[sp.argsTo - 1] == '}'
  {
    var c, d := NamePositions(s, p, sp);
    var f, q := ArgumentPositions(s, c, d, sp);
    NameIsQuoteFree(s, c, d);
  }

  /** The name group found by the name stage holds no `"`. */
  lemma NameIsQuoteFree(s: string, c: nat, d: nat)
    requires c < |s| && NameEnd(s, c) == Some(d)
    ensures forall k :: c + 1 <= k < d ==> s[k] != '"'
  {
    QuoteFreeEndIsQuoteFree(s, c + 1);
  }

  /** The last two stages give the positions of both groups. */
  lemma ParametersStage(s: string, c: nat, d: nat, f: nat, q: nat)
    requires c < d && d + 1 < |s|
    requires ArgumentsStart(s, d + 2) == Some(f) && ArgumentsEnd(s, f + 1) == Some(q)
    ensures SpanFromParameters(s, c, d) == Some(Span(c + 1, d, f, q + 1))
  {
  }

  /** The closing quote of the name leads on to the last two stages. */
  lemma NameStage(s: string, c: nat, d: nat, sp: Span)
    requires c < |s| && NameEnd(s, c) == Some(d) && SpanFromParameters(s, c, d) == Some(sp)
    ensures SpanFromName(s, c) == Some(sp)
  {
  }

  /** The opening quote of the name leads on to the rest of the pattern. */
  lemma StartStage(s: string, p: nat, c: nat, sp: Span)
    requires p <= |s| && NameStart(s, p) == Some(c) && SpanFromName(s, c) == Some(sp)
    ensures SpanAt(s, p) == Some(sp)
  {
  }

  /** The four stages chained give the match. */
  lemma StagesMatch(s: string, p: nat, c: nat, d: nat, f: nat, q: nat)
    requires p <= |s| && NameStart(s, p) == Some(c) && NameEnd(s, c) == Some(d)
    requires ArgumentsStart(s, d + 2) == Some(f) && ArgumentsEnd(s, f + 1) == Some(q)
    ensures SpanAt(s, p) == Some(Span(c + 1, d, f, q + 1))
  {
    ParametersStage(s, c, d, f, q);
    NameStage(s, c, d, Span(c + 1, d, f, q + 1));
    StartStage(s, p, c, Span(c + 1, d, f, q + 1));
  }

  /** What `([^"]+)` captures: a non-empty text without `"`. */
  predicate IsName(name: string) {
    |name| > 0 && Lacks(name, '"')
  }

  /** What `(\{.*?\})` captures: a text from a `{` to a `}`. */
  predicate IsBraced(arguments: string) {
    |arguments| >= 2 && arguments[0] == '{' && arguments[|arguments| - 1] == '}'
  }

  /** A slice between a `{` and a `}`. */
  lemma BracedSlice(s: string, i: nat, j: nat)
    requires i + 2 <= j <= |s| && s[i] == '{' && s[j - 1] == '}'
    ensures IsBraced(s[i..j])
  {
    var a := s[i..j];
    assert a[0] == s[i] && a[|a| - 1] == s[j - 1];
  }

  /** A non-empty slice of quote-free positions. */
  lemma QuoteFreeSlice(s: string, i: nat, j: nat)
    requires i < j <= |s| && forall k :: i <= k < j ==> s[k] != '"'
    ensures IsName(s[i..j])
  {
    var a := s[i..j];
    forall k | 0 <= k < |a| ensures a[k] != '"' {
      assert a[k] == s[i + k];
    }
  }

  /** A match starts with `<function>`, and the captured name is non-empty
      and holds no `"` (`[^"]+` cannot consume one). */
  lemma MatchName(s: string, p: nat)
    requires p <= |s| && MatchAt(s, p).Some?
    ensures OccursAt(s, OPEN_TAG, p)
    ensures IsName(MatchAt(s, p).value.name)
  {
    var sp := SpanAt(s, p).value;
    SpanFacts(s, p, sp);
    QuoteFreeSlice(s, sp.nameFrom, sp.nameTo);
    assert MatchAt(s, p).value.name == s[sp.nameFrom..sp.nameTo];
  }

  /** The captured arguments start with `{` and end with `}`. */
  lemma MatchArguments(s: string, p: nat)
    requires p <= |s| && MatchAt(s, p).Some?
    ensures IsBraced(MatchAt(s, p).value.arguments)
  {
    var sp := SpanAt(s, p).value;
    SpanFacts(s, p, sp);
    BracedSlice(s, sp.argsFrom, sp.argsTo);
    assert MatchAt(s, p).value.arguments == s[sp.argsFrom..sp.argsTo];
  }

  /** The start positions of `s` at which the pattern matches. */
  function MatchStarts(s: string): nat -> bool {
    (i: nat) => i <= |s| && SpanAt(s, i).Some?
  }

  /** A call laid out as the Llama tool prompt lays it out, with the comma
      after the name and the closing brace against `</function>`: the form
      the pattern accepts. */
  function CallText(name: string, arguments: string): string {
    OPEN_TAG + "\n{\n" + NAME_KEY + " \"" + name + "\",\n" + PARAMETERS_KEY + " " + arguments + "\n" + CLOSE_TAG
  }

  /** `generation.match(functionCallRegex)`, reduced to its two groups:
      the match at the leftmost start position that has one (`ParseIsLeftmost`). */
  function ParseFunctionCall(generation: string): Option<FunctionCallMatch> {
    match FirstWhere(MatchStarts(generation), 0, |generation| + 1)
    case None => None
    case Some(i) => MatchAt(generation, i)
  }

  /** The groups extracted are those of the match at the leftmost start
      position that has one, and nothing is extracted only when no start
      position has a match. */
  lemma ParseIsLeftmost(generation: string)
    ensures ParseFunctionCall(generation).Some? ==>
              exists i :: 0 <= i <= |generation| && MatchAt(generation, i) == ParseFunctionCall(generation)
                          && forall j :: 0 <= j < i ==> MatchAt(generation, j).None?
    ensures ParseFunctionCall(generation).None? <==>
              forall i :: 0 <= i <= |generation| ==> MatchAt(generation, i).None?
  {
    var P := MatchStarts(generation);
    FirstWhereIsLeast(P, 0, |generation| + 1);
    match FirstWhere(P, 0, |generation| + 1)
    case None =>
      forall i | 0 <= i <= |generation| ensures MatchAt(generation, i).None? {
        assert !P(i);
      }
    case Some(i) =>
      forall j | 0 <= j < i ensures MatchAt(generation, j).None? {
        assert !P(j);
      }
  }

  /** An extracted call has a non-empty, quote-free name and arguments
      from a `{` to a `}`. */
  lemma ParsedShape(generation: string)
    requires ParseFunctionCall(generation).Some?
    ensures IsName(ParseFunctionCall(generation).value.name)
    ensures IsBraced(ParseFunctionCall(generation).value.arguments)
  {
    var i := FirstWhere(MatchStarts(generation), 0, |generation| + 1).value;
    assert ParseFunctionCall(generation) == MatchAt(generation, i);
    MatchName(generation, i);
    MatchArguments(generation, i);
  }

  /** No character of `s` is `c`. */
  predicate Lacks(s: string, c: char) {
    forall i :: 0 <= i < |s| ==> s[i] != c
  }

  /** The pattern needs a comma right after the name's closing quote, so a
      generation without any comma never yields a call. */
  lemma {:induction false} NoCommaNoMatch(generation: string)
    requires Lacks(generation, ',')
    ensures ParseFunctionCall(generation).None?
  {
    forall p | 0 <= p <= |generation| ensures MatchAt(generation, p).None? {
      if NameStart(generation, p).Some? {
        assert NameEnd(generation, NameStart(generation, p).value).None?;
      }
    }
    ParseIsLeftmost(generation);
  }

  /** The pieces of a concatenation of five texts, recovered by slicing. */
  lemma Pieces(a: string, b: string, c: string, d: string, e: string)
    ensures var s := a + b + c + d + e;
            && s[..|a|] == a
            && s[|a|..|a| + |b|] == b
            && s[|a| + |b|..|a| + |b| + |c|] == c
            && s[|a| + |b| + |c|..|a| + |b| + |c| + |d|] == d
            && s[|a| + |b| + |c| + |d|..] == e
  {
  }

  /** `SkipSpaces` stops at the first character that is not white space. */
  lemma SkipOne(s: string, i: nat)
    requires i + 1 < |s| && IsSpace(s[i]) && !IsSpace(s[i + 1])
    ensures SkipSpaces(s, i) == i + 1
  {
  }

  /** The head of an accepted call, up to the opening quote of the name. */
  lemma HeadMatches(s: string)
    requires |s| > 31
    requires s[..10] == OPEN_TAG && s[10..13] == "\n{\n" && s[13..29] == NAME_KEY && s[29..31] == " \""
    ensures NameStart(s, 0) == Some(30)
  {
    assert s[10] == s[10..13][0] && s[11] == s[10..13][1] && s[12] == s[10..13][2];
    assert s[29] == s[29..31][0] && s[30] == s[29..31][1];
    assert OccursAt(s, OPEN_TAG, 0);
    SkipOne(s, 10);
    SkipOne(s, 12);
    assert OccursAt(s, NAME_KEY, 13);
    SkipOne(s, 29);
  }

  /** The name runs from just after the opening quote to the next quote. */
  lemma NameMatches(s: string, name: string)
    requires |name| > 0 && Lacks(name, '"')
    requires 33 + |name| < |s| && s[31..31 + |name|] == name
    requires s[30] == '"' && s[31 + |name|] == '"' && s[32 + |name|] == ','
    ensures NameEnd(s, 30) == Some(31 + |name|)
  {
    QuoteFreeEndIsQuoteFree(s, 31);
    forall k | 31 <= k < 31 + |name| ensures s[k] != '"' {
      assert s[k] == s[31..31 + |name|][k - 31];
    }
  }

  /** The parameters key and the opening brace of the arguments. */
  lemma ParametersMatch(s: string, i: nat)
    requires i + 17 < |s| && s[i..i + 3] == "\",\n" && s[i + 3..i + 16] == PARAMETERS_KEY && s[i + 16] == ' '
    requires s[i + 17] == '{'
    ensures ArgumentsStart(s, i + 2) == Some(i + 17)
  {
    assert s[i + 2] == s[i..i + 3][2];
    SkipOne(s, i + 2);
    assert OccursAt(s, PARAMETERS_KEY, i + 3);
    SkipOne(s, i + 16);
  }

  /** The lazy group ends at a `}` followed by a line break and the closing
      tag when no earlier position could end it. */
  lemma ArgumentsMatch(s: string, i: nat, q: nat)
    requires i <= q && q + 2 + |CLOSE_TAG| == |s|
    requires s[q] == '}' && s[q + 1] == '\n' && s[q + 2..] == CLOSE_TAG
    requires forall k :: i <= k < q ==> !EndsArgumentsAt(s, k)
    ensures ArgumentsEnd(s, i) == Some(q)
  {
    SkipOne(s, q + 1);
    assert OccursAt(s, CLOSE_TAG, q + 2);
    assert EndsArgumentsAt(s, q);
    ArgumentsEndIsLeast(s, i);
  }

  /** Where the head and the name of `CallText` sit. */
  lemma CallTextHead(name: string, arguments: string)
    ensures var s, n := CallText(name, arguments), |name|;
            && |s| == 61 + n + |arguments|
            && s[..10] == OPEN_TAG && s[10..13] == "\n{\n" && s[13..29] == NAME_KEY && s[29..31] == " \""
            && s[31..31 + n] == name && s[31 + n..34 + n] == "\",\n"
  {
    var head := OPEN_TAG + "\n{\n" + NAME_KEY + " \"";
    var mid := "\",\n" + PARAMETERS_KEY + " ";
    var tail := "\n" + CLOSE_TAG;
    var s := CallText(name, arguments);
    assert s == head + name + mid + arguments + tail;
    Pieces(head, name, mid, arguments, tail);
    Pieces(OPEN_TAG, "\n{\n", NAME_KEY, " \"", "");
    var n := |name|;
    assert s[..10] == head[..10] && s[10..13] == head[10..13] && s[13..29] == head[13..29] && s[29..31] == head[29..31];
    assert s[31 + n..48 + n] == mid;
    assert s[31 + n..34 + n] == mid[..3];
  }

  /** Where the parameters and the arguments of `CallText` sit. */
  lemma CallTextTail(name: string, arguments: string)
    ensures var s, n, m := CallText(name, arguments), |name|, |arguments|;
            && |s| == 61 + n + m
            && s[31 + n..34 + n] == "\",\n" && s[34 + n..47 + n] == PARAMETERS_KEY && s[47 + n] == ' '
            && s[48 + n..48 + n + m] == arguments
            && s[48 + n + m..] == "\n" + CLOSE_TAG
  {
    var head := OPEN_TAG + "\n{\n" + NAME_KEY + " \"";
    var mid := "\",\n" + PARAMETERS_KEY + " ";
    var tail := "\n" + CLOSE_TAG;
    var s := CallText(name, arguments);
    assert s == head + name + mid + arguments + tail;
    Pieces(head, name, mid, arguments, tail);
    Pieces("\",\n", PARAMETERS_KEY, " ", "", "");
    var n := |name|;
    assert s[31 + n..48 + n] == mid;
    assert s[31 + n..34 + n] == mid[..3] && s[34 + n..47 + n] == mid[3..16] && s[47 + n] == mid[16];
  }

  /** The head and the name of a text laid out as `CallText` lays it out. */
  lemma NamePart(s: string, name: string)
    requires |name| > 0 && Lacks(name, '"') && 34 + |name| < |s|
    requires s[..10] == OPEN_TAG && s[10..13] == "\n{\n" && s[13..29] == NAME_KEY && s[29..31] == " \""
    requires s[31..31 + |name|] == name && s[31 + |name|..34 + |name|] == "\",\n"
    ensures NameStart(s, 0) == Some(30) && NameEnd(s, 30) == Some(31 + |name|)
  {
    var i := 31 + |name|;
    HeadMatches(s);
    assert s[30] == s[29..31][1];
    assert s[i] == s[i..i + 3][0] && s[i + 1] == s[i..i + 3][1];
    NameMatches(s, name);
  }

  /** The closing tag `}</function>` does not occur in `a`. */
  predicate NoCloseTag(a: string) {
    forall i :: 0 <= i <= |a| ==> !OccursAt(a, CLOSE_TAG, i)
  }

  /** Arguments whose only `}` is the last one hold no closing tag. */
  lemma LoneBraceNoCloseTag(a: string)
    requires IsBraced(a) && Lacks(a[..|a| - 1], '}')
    ensures NoCloseTag(a)
  {
    forall i | 0 <= i <= |a| ensures !OccursAt(a, CLOSE_TAG, i) {
      if i + |CLOSE_TAG| <= |a| {
        assert a[i..i + |CLOSE_TAG|][0] == a[..|a| - 1][i];
      }
    }
  }

  /** A text without `<` holds no closing tag. */
  lemma NoAngleNoCloseTag(a: string)
    requires Lacks(a, '<')
    ensures NoCloseTag(a)
  {
    forall i | 0 <= i <= |a| ensures !OccursAt(a, CLOSE_TAG, i) {
      if i + |CLOSE_TAG| <= |a| {
        assert a[i..i + |CLOSE_TAG|][1] == a[i + 1];
      }
    }
  }

  /** White space skipped after `k` stops at or before a later `}` at `q`. */
  lemma {:induction false} SkipStopsAtBrace(s: string, k: nat, q: nat)
    requires k < q < |s| && s[q] == '}'
    ensures SkipSpaces(s, k + 1) <= q
    decreases q - k
  {
    if k + 1 < q && IsSpace(s[k + 1]) {
      SkipStopsAtBrace(s, k + 1, q);
    }
  }

  /** Inside arguments `s[f..f + m]` followed by a line break, a `}` before
      the last one ends the lazy group only if the closing tag occurs in
      the arguments themselves: a closing tag that starts inside them cannot
      reach past them, because it holds no line break. */
  lemma NoEarlierEnd(s: string, f: nat, m: nat, k: nat)
    requires m >= 2 && f + m < |s| && s[f + m - 1] == '}' && s[f + m] == '\n'
    requires NoCloseTag(s[f..f + m])
    requires f <= k < f + m - 1
    ensures !EndsArgumentsAt(s, k)
  {
    var q := f + m - 1;
    var j := SkipSpaces(s, k + 1);
    SkipStopsAtBrace(s, k, q);
    if j + |CLOSE_TAG| <= q + 1 {
      TagInsideSlice(s, f, m, j);
    } else if j + |CLOSE_TAG| <= |s| {
      BreakBlocksTag(s, j, q + 1);
    }
  }

  /** No closing tag starts at `j` when it would lie wholly inside a slice
      of `s` that holds none. */
  lemma TagInsideSlice(s: string, f: nat, m: nat, j: nat)
    requires f <= j && j + |CLOSE_TAG| <= f + m <= |s|
    requires NoCloseTag(s[f..f + m])
    ensures !OccursAt(s, CLOSE_TAG, j)
  {
    var a := s[f..f + m];
    assert !OccursAt(a, CLOSE_TAG, j - f);
    SliceOfSlice(s, f, f + m, j - f, j - f + |CLOSE_TAG|);
  }

  /** A slice of a slice is a slice of the whole. */
  lemma SliceOfSlice(s: string, f: nat, t: nat, x: nat, y: nat)
    requires f <= t <= |s| && x <= y <= t - f
    ensures s[f..t][x..y] == s[f + x..f + y]
  {
    forall i | 0 <= i < y - x ensures s[f..t][x..y][i] == s[f + x..f + y][i] {
    }
  }

  /** No closing tag starts at `j` when it would cover a line break at `p`. */
  lemma BreakBlocksTag(s: string, j: nat, p: nat)
    requires j <= p < j + |CLOSE_TAG| <= |s| && s[p] == '\n'
    ensures !OccursAt(s, CLOSE_TAG, j)
  {
    var t := s[j..j + |CLOSE_TAG|];
    assert t[p - j] == '\n';
    CloseTagLacksBreak();
  }

  /** The closing tag holds no line break. */
  lemma CloseTagLacksBreak()
    ensures Lacks(CLOSE_TAG, '\n')
  {
  }

  /** The parameters and the arguments of a text laid out as `CallText`
      lays it out, from the closing quote of the name at `i`. */
  lemma ArgumentsPart(s: string, i: nat, arguments: string)
    requires |arguments| >= 2 && arguments[0] == '{' && arguments[|arguments| - 1] == '}'
    requires NoCloseTag(arguments)
    requires i + 30 + |arguments| == |s|
    requires s[i..i + 3] == "\",\n" && s[i + 3..i + 16] == PARAMETERS_KEY && s[i + 16] == ' '
    requires s[i + 17..i + 17 + |arguments|] == arguments && s[i + 17 + |arguments|..] == "\n" + CLOSE_TAG
    ensures ArgumentsStart(s, i + 2) == Some(i + 17) && ArgumentsEnd(s, i + 17 + 1) == Some(i + 17 + |arguments| - 1)
  {
    var m := |arguments|;
    var f := i + 17;
    assert s[f] == arguments[0] by { assert s[f] == s[f..f + m][0]; }
    ParametersMatch(s, i);
    var q := f + m - 1;
    assert s[q] == '}' && s[q + 1] == '\n' && s[q + 2..] == CLOSE_TAG by {
      assert s[q] == s[f..f + m][m - 1];
      assert s[q + 1] == s[q + 1..][0];
      assert s[q + 2..] == s[q + 1..][1..];
    }
    forall k | f + 1 <= k < q ensures !EndsArgumentsAt(s, k) {
      NoEarlierEnd(s, f, m, k);
    }
    ArgumentsMatch(s, f + 1, q);
  }

  /** A match at the very start is the one extracted. */
  lemma ParsedAtStart(s: string, sp: Span, name: string, arguments: string)
    requires SpanAt(s, 0) == Some(sp)
    requires s[sp.nameFrom..sp.nameTo] == name && s[sp.argsFrom..sp.argsTo] == arguments
    ensures ParseFunctionCall(s) == Some(FunctionCallMatch(name, arguments))
  {
    var P := MatchStarts(s);
    assert P(0);
    assert FirstWhere(P, 0, |s| + 1) == Some(0);
  }

  /** A text laid out as `CallText` lays it out is parsed back into its
      name and its arguments. */
  lemma LaidOutParses(s: string, name: string, arguments: string)
    requires |name| > 0 && Lacks(name, '"')
    requires |arguments| >= 2 && arguments[0] == '{' && arguments[|arguments| - 1] == '}'
    requires NoCloseTag(arguments)
    requires var n, m := |name|, |arguments|;
             && |s| == 61 + n + m
             && s[..10] == OPEN_TAG && s[10..13] == "\n{\n" && s[13..29] == NAME_KEY && s[29..31] == " \""
             && s[31..31 + n] == name
             && s[31 + n..34 + n] == "\",\n" && s[34 + n..47 + n] == PARAMETERS_KEY && s[47 + n] == ' '
             && s[48 + n..48 + n + m] == arguments
             && s[48 + n + m..] == "\n" + CLOSE_TAG
    ensures ParseFunctionCall(s) == Some(FunctionCallMatch(name, arguments))
  {
    var n, m := |name|, |arguments|;
    var d := 31 + n;
    var f := d + 17;
    var q := f + m - 1;
    NamePart(s, name);
    ArgumentsPart(s, d, arguments);
    StagesMatch(s, 0, 30, d, f, q);
    ParsedAtStart(s, Span(31, d, f, q + 1), name, arguments);
  }

  /** A call written in the accepted form is extracted with exactly its
      name and its arguments, whenever the name is non-empty and free of
      `"` and the arguments are a `{ ... }` text that does not contain the
      closing tag `}</function>`. Nested objects are allowed: the lazy group
      still runs to the last `}`. */
  lemma CallTextParses(name: string, arguments: string)
    requires IsName(name) && IsBraced(arguments) && NoCloseTag(arguments)
    ensures ParseFunctionCall(CallText(name, arguments)) == Some(FunctionCallMatch(name, arguments))
  {
    CallTextHead(name, arguments);
    CallTextTail(name, arguments);
    LaidOutParses(CallText(name, arguments), name, arguments);
  }

  /** A call whose parameters hold a nested object is extracted whole. */
  lemma NestedCallParses()
    ensures ParseFunctionCall(CallText("f", "{\"a\":{\"b\":1}}"))
              == Some(FunctionCallMatch("f", "{\"a\":{\"b\":1}}"))
  {
    var a := "{\"a\":{\"b\":1}}";
    NoAngleNoCloseTag(a);
    CallTextParses("f", a);
  }
}
