/** The text handling of the LLM-as-judge helper (src/utils/llmAsJudge.ts):
    the trajectory rendering, the judge prompt and messages, the keyword
    verdicts and the error result. The judge call itself, the score and
    `JSON.parse` are outside the model; `parse` stands for the last. */
module LlmAsJudge {
  import opened Wrappers
  import opened Json
  import opened Strings
  import opened Messages

  /** The label a role gets in the trajectory. */
  function RoleLabel(role: string): string {
    if role == SYSTEM then "System"
    else if role == USER then "User"
    else if role == ASSISTANT then "Assistant"
    else if role == TOOL || role == FUNCTION then "Tool"
    else "Unknown"
  }

  /** Only the five known roles get a label of their own. */
  lemma RoleLabelKnown(role: string)
    ensures RoleLabel(role) == "Unknown" <==> role !in {SYSTEM, USER, ASSISTANT, TOOL, FUNCTION}
    ensures RoleLabel(role) == "Tool" <==> role == TOOL || role == FUNCTION
  {
  }

  /** A string content as it is; a missing one is `JSON.stringify(null)`. */
  function ContentText(content: Option<string>): string {
    if content.Some? then content.value else "null"
  }

  /** The line of the message at index `i`: turns are numbered from 1. */
  function Turn(i: nat, msg: Message): string {
    "Turn " + NatToString(i + 1) + " [" + RoleLabel(msg.role) + "]: " + ContentText(msg.content)
  }

  /** The turns of a conversation, in order. */
  function Turns(ms: seq<Message>): (r: seq<string>)
    ensures |r| == |ms|
    ensures forall i :: 0 <= i < |ms| ==> r[i] == Turn(i, ms[i])
  {
    seq(|ms|, i requires 0 <= i < |ms| => Turn(i, ms[i]))
  }

  const TURN_SEPARATOR := "\n\n"

  /** The trajectory text: the turns joined by blank lines. */
  function Trajectory(ms: seq<Message>): string {
    Join(Turns(ms), TURN_SEPARATOR)
  }

  /** Adding a message to the conversation adds its turn, numbered after
      the others, after a blank line. */
  lemma TrajectorySnoc(ms: seq<Message>, m: Message)
    ensures Trajectory(ms + [m]) ==
              if |ms| == 0 then Turn(0, m) else Trajectory(ms) + TURN_SEPARATOR + Turn(|ms|, m)
  {
    assert Turns(ms + [m]) == Turns(ms) + [Turn(|ms|, m)];
    JoinSnoc(Turns(ms), Turn(|ms|, m), TURN_SEPARATOR);
  }

  const LAST_PLACEHOLDER := "{{messages[-1]}}"
  const MESSAGES_PLACEHOLDER := "{{messages}}"
  const TRAJECTORY_PLACEHOLDER := "{{trajectory}}"

  /** `messages[messages.length - 1]?.content || ""`. */
  function LastContent(ms: seq<Message>): string {
    if |ms| == 0 then "" else ms[|ms| - 1].content.GetOr("")
  }

  /** The judge prompt with its three placeholders filled in, in the
      source's order. */
  function EnhancedPrompt(judgePrompt: string, ms: seq<Message>): string {
    var t := Trajectory(ms);
    ReplaceAll(ReplaceAll(ReplaceAll(judgePrompt, LAST_PLACEHOLDER, LastContent(ms)), MESSAGES_PLACEHOLDER, t),
               TRAJECTORY_PLACEHOLDER, t)
  }

  /** A text without any occurrence of `pat` comes out of the replacement as it was. */
  lemma {:induction false} ReplaceAllAbsent(s: string, pat: string, rep: string)
    requires |pat| > 0 && forall i :: !OccursAt(s, pat, i)
    ensures ReplaceAll(s, pat, rep) == s
    decreases |s|
  {
    if |s| >= |pat| {
      assert !OccursAt(s, pat, 0);
      forall i ensures !OccursAt(s[1..], pat, i) {
        if OccursAt(s[1..], pat, i) {
          assert s[1..][i..i + |pat|] == s[i + 1..i + 1 + |pat|];
          assert OccursAt(s, pat, i + 1);
        }
      }
      ReplaceAllAbsent(s[1..], pat, rep);
      assert s == [s[0]] + s[1..];
    }
  }

  /** A judge prompt without placeholders is used as it is. */
  lemma EnhancedPromptWithoutPlaceholders(judgePrompt: string, ms: seq<Message>)
    requires forall i :: !OccursAt(judgePrompt, LAST_PLACEHOLDER, i)
    requires forall i :: !OccursAt(judgePrompt, MESSAGES_PLACEHOLDER, i)
    requires forall i :: !OccursAt(judgePrompt, TRAJECTORY_PLACEHOLDER, i)
    ensures EnhancedPrompt(judgePrompt, ms) == judgePrompt
  {
    var t := Trajectory(ms);
    ReplaceAllAbsent(judgePrompt, LAST_PLACEHOLDER, LastContent(ms));
    ReplaceAllAbsent(judgePrompt, MESSAGES_PLACEHOLDER, t);
    ReplaceAllAbsent(judgePrompt, TRAJECTORY_PLACEHOLDER, t);
  }

  const EVALUATE_INTRO := "Please evaluate the following conversation trajectory:\n\n"
  const RESPOND_FORMAT := "\n\nRespond with JSON format: " + "{\"passed\": true/false, \"score\": 0.0-1.0, \"reasoning\": \"your explanation\"}"

  /** The two messages sent to the judge. */
  function JudgeMessages(judgePrompt: string, ms: seq<Message>): (r: seq<Message>)
    ensures |r| == 2
    ensures r[0] == Plain(SYSTEM, EnhancedPrompt(judgePrompt, ms))
    ensures r[1].role == USER && r[1].content.Some?
    ensures OccursAt(r[1].content.value, Trajectory(ms), |EVALUATE_INTRO|)
  {
    var t := Trajectory(ms);
    var user := EVALUATE_INTRO + t + RESPOND_FORMAT;
    assert user[|EVALUATE_INTRO|..|EVALUATE_INTRO| + |t|] == t;
    [Plain(SYSTEM, EnhancedPrompt(judgePrompt, ms)), Plain(USER, user)]
  }

  /** The first index at or after `from` holding `c`. */
  function FirstIndexOf(s: string, c: char, from: nat): (r: Option<nat>)
    requires from <= |s|
    ensures r.Some? ==> from <= r.value < |s| && s[r.value] == c
    ensures r.Some? ==> forall k :: from <= k < r.value ==> s[k] != c
    ensures r.None? ==> forall k :: from <= k < |s| ==> s[k] != c
    decreases |s| - from
  {
    if from == |s| then None else if s[from] == c then Some(from) else FirstIndexOf(s, c, from + 1)
  }

  /** The last index before `upto` holding `c`. */
  function LastIndexOf(s: string, c: char, upto: nat): (r: Option<nat>)
    requires upto <= |s|
    ensures r.Some? ==> r.value < upto && s[r.value] == c
    ensures r.Some? ==> forall k :: r.value < k < upto ==> s[k] != c
    ensures r.None? ==> forall k :: 0 <= k < upto ==> s[k] != c
  {
    if upto == 0 then None else if s[upto - 1] == c then Some(upto - 1) else LastIndexOf(s, c, upto - 1)
  }

  /** The match of `/\{[\s\S]*\}/`, as `[from, to)`: the greedy middle runs
      from the first `{` to the last `}` after it. */
  function JsonSpan(s: string): (r: Option<(nat, nat)>)
    ensures r.Some? ==> r.value.0 < r.value.1 <= |s|
  {
    match FirstIndexOf(s, '{', 0)
    case None => None
    case Some(i) =>
      match LastIndexOf(s, '}', |s|)
      case None => None
      case Some(j) => if i < j then Some((i, j + 1)) else None
  }

  /** The pattern matches exactly when some `{` comes before some `}`; the
      match starts at the first `{` and ends just after the last `}`. */
  lemma JsonSpanSpec(s: string)
    ensures JsonSpan(s).None? <==> !exists i, j :: 0 <= i < j < |s| && s[i] == '{' && s[j] == '}'
    ensures JsonSpan(s).Some? ==>
              var (from, to) := JsonSpan(s).value;
              && s[from] == '{' && s[to - 1] == '}' && from + 1 < to
              && (forall k :: 0 <= k < from ==> s[k] != '{')
              && (forall k :: to <= k < |s| ==> s[k] != '}')
  {
    if exists i, j :: 0 <= i < j < |s| && s[i] == '{' && s[j] == '}' {
      var i, j :| 0 <= i < j < |s| && s[i] == '{' && s[j] == '}';
      var f, l := FirstIndexOf(s, '{', 0), LastIndexOf(s, '}', |s|);
      assert f.Some? && f.value <= i;
      assert l.Some? && j <= l.value;
    }
  }

  /** `w` occurs in `s` for some `w` of `words`. */
  predicate MentionsAny(s: string, words: seq<string>) {
    exists k :: 0 <= k < |words| && Contains(s, words[k])
  }

  /** The keywords tried when the reply holds no `{...}`. */
  const NO_JSON_KEYWORDS := ["pass", "correct", "yes", "true", "satisfied", "successful"]
  /** The keywords tried when the `{...}` does not parse. */
  const PARSE_ERROR_KEYWORDS := ["pass", "correct", "yes", "satisfied"]

  /** The `passed` verdict drawn from the judge's reply. `parse` is
      `JSON.parse`, `None` when it throws. */
  method JudgeVerdict(judgeResponse: string, parse: string -> Option<Json>) returns (passed: bool)
    ensures JsonSpan(judgeResponse).None? ==> (passed <==> MentionsAny(ToLower(judgeResponse), NO_JSON_KEYWORDS))
    ensures JsonSpan(judgeResponse).Some? ==>
              var (from, to) := JsonSpan(judgeResponse).value;
              var parsed := parse(judgeResponse[from..to]);
              && (parsed.None? ==> (passed <==> MentionsAny(ToLower(judgeResponse), PARSE_ERROR_KEYWORDS)))
              && (parsed.Some? ==>
                    (passed <==> Member(parsed.value, "passed") in {Some(JBool(true)), Some(JStr("true"))}))
  {
    passed := false;
    var jsonMatch := JsonSpan(judgeResponse);
    if jsonMatch.Some? {
      var parsed := parse(judgeResponse[jsonMatch.value.0..jsonMatch.value.1]);
      if parsed.Some? {
        var p := Member(parsed.value, "passed");
        passed := p == Some(JBool(true)) || p == Some(JStr("true")) || p == Some(JBool(true));
      } else {
        var lowerResponse := ToLower(judgeResponse);
        passed := Contains(lowerResponse, "pass") || Contains(lowerResponse, "correct")
                  || Contains(lowerResponse, "yes") || Contains(lowerResponse, "satisfied");
        assert passed <==> MentionsAny(lowerResponse, PARSE_ERROR_KEYWORDS) by {
          if passed {
            if Contains(lowerResponse, "pass") { assert Contains(lowerResponse, PARSE_ERROR_KEYWORDS[0]); }
            else if Contains(lowerResponse, "correct") { assert Contains(lowerResponse, PARSE_ERROR_KEYWORDS[1]); }
            else if Contains(lowerResponse, "yes") { assert Contains(lowerResponse, PARSE_ERROR_KEYWORDS[2]); }
            else { assert Contains(lowerResponse, PARSE_ERROR_KEYWORDS[3]); }
          }
        }
      }
    } else {
      var lowerResponse := ToLower(judgeResponse);
      passed := Contains(lowerResponse, "pass") || Contains(lowerResponse, "correct")
                || Contains(lowerResponse, "yes") || Contains(lowerResponse, "true")
                || Contains(lowerResponse, "satisfied") || Contains(lowerResponse, "successful");
      assert passed <==> MentionsAny(lowerResponse, NO_JSON_KEYWORDS) by {
        if passed {
          if Contains(lowerResponse, "pass") { assert Contains(lowerResponse, NO_JSON_KEYWORDS[0]); }
          else if Contains(lowerResponse, "correct") { assert Contains(lowerResponse, NO_JSON_KEYWORDS[1]); }
          else if Contains(lowerResponse, "yes") { assert Contains(lowerResponse, NO_JSON_KEYWORDS[2]); }
          else if Contains(lowerResponse, "true") { assert Contains(lowerResponse, NO_JSON_KEYWORDS[3]); }
          else if Contains(lowerResponse, "satisfied") { assert Contains(lowerResponse, NO_JSON_KEYWORDS[4]); }
          else { assert Contains(lowerResponse, NO_JSON_KEYWORDS[5]); }
        }
      }
    }
  }

  /** Every keyword of the parse-error fallback is also a keyword of the
      no-JSON fallback, so a reply passing the first passes the second;
      the converse fails for a reply mentioning only `true`. */
  lemma FallbackKeywords(s: string)
    ensures MentionsAny(s, PARSE_ERROR_KEYWORDS) ==> MentionsAny(s, NO_JSON_KEYWORDS)
    ensures MentionsAny("true", NO_JSON_KEYWORDS) && !MentionsAny("true", PARSE_ERROR_KEYWORDS)
  {
    if MentionsAny(s, PARSE_ERROR_KEYWORDS) {
      var k :| 0 <= k < 4 && Contains(s, PARSE_ERROR_KEYWORDS[k]);
      var k' := if k == 3 then 4 else k;
      assert NO_JSON_KEYWORDS[k'] == PARSE_ERROR_KEYWORDS[k];
    }
    assert Contains("true", NO_JSON_KEYWORDS[3]);
    var t := "true";
    assert t[1..] == "rue" && t[..3] == "tru";
    assert !Contains("rue", "yes") by {
      var r := "rue";
      assert r[..3] == r && r[..3] != "yes";
      assert r[1..] == "ue" && !Contains("ue", "yes");
    }
    assert !Contains(t, "pass") && !Contains(t, "correct") && !Contains(t, "yes") && !Contains(t, "satisfied");
  }

  const ERROR_PREFIX := "Error in judge evaluation: "

  /** The result of an evaluation; the score is left out, so only its
      absence is recorded. */
  datatype JudgeResult = JudgeResult(passed: bool, hasScore: bool, judgeResponse: string, tokenUsage: Option<Json>)

  /** The result returned when anything in the evaluation throws. */
  function ErrorResult(message: string): (r: JudgeResult)
    ensures !r.passed && !r.hasScore && r.tokenUsage.None?
    ensures |r.judgeResponse| == |ERROR_PREFIX| + |message|
    ensures r.judgeResponse[..|ERROR_PREFIX|] == ERROR_PREFIX && r.judgeResponse[|ERROR_PREFIX|..] == message
  {
    JudgeResult(false, false, ERROR_PREFIX + message, None)
  }
}
