/** Request shaping of the Bedrock Llama 3 service
    (src/services/AwsBedrockLlama3Service.ts): the model check, the
    `max_gen_len` default and the injection of the tool prompt into the
    system block of the serialised prompt. */
module LlamaService {
  import opened Wrappers
  import opened Json
  import opened Strings
  import opened Messages
  import opened LlamaFunctionCall

  const SYSTEM_HEADER := "<|start_header_id|>system<|end_header_id|>"
  const EOT := "<|eot_id|>"

  /** The call format as the prompt describes it. */
  const FORMAT_NAME := "the name of the function" + " you want to call"
  const FORMAT_ARGUMENTS := "{\n  \"parameter_key\": " + "\"the value of the parameter\"\n  " + "}"
  const FORMAT_AS_WRITTEN :=
    OPEN_TAG + "\n{\n" + NAME_KEY + " \"" + FORMAT_NAME + "\"\n" + PARAMETERS_KEY + " " + FORMAT_ARGUMENTS + "\n}\n</function>"

  /** The few-shot example call as the prompt shows it. */
  const EXAMPLE_NAME := "get_current_weather"
  const EXAMPLE_ARGUMENTS := "{\n  \"location\": \"Miami\"\n  " + "}"
  const EXAMPLE_AS_WRITTEN :=
    OPEN_TAG + "\n{\n" + NAME_KEY + " \"" + EXAMPLE_NAME + "\"\n" + PARAMETERS_KEY + " " + EXAMPLE_ARGUMENTS + "\n}\n\n</function>"

  /** The same two calls in the form the extraction accepts. */
  const FORMAT := CallText(FORMAT_NAME, FORMAT_ARGUMENTS)
  const EXAMPLE := CallText(EXAMPLE_NAME, EXAMPLE_ARGUMENTS)

  /** The fixed lines of the tool prompt. */
  const INTRO := "You have access to the following functions:"
  const INSTRUCTION := "If you choose to call a function ONLY reply in the following format with no prefix or suffix:"
  /** The reminder lines that close the tool prompt. */
  const REMINDER_0 := "Reminder:\n"
  const REMINDER_1 := "- Function calls MUST follow the specified format, start with <function> and end with </function>\n"
  const REMINDER_2 := "- Required parameters MUST be specified\n"
  const REMINDER_3 := "- Only call one function at a time\n"
  const REMINDER_4 := "- Put the entire function call reply on one line\n"
  const REMINDER_5 := "- If there is no function call available, answer the question like normal with your current knowledge and do not tell the user about function calls\n"
  const REMINDERS := REMINDER_0 + REMINDER_1 + REMINDER_2 + REMINDER_3 + REMINDER_4 + REMINDER_5
  /** The tool prompt around a format description and an example. */
  function ToolPromptWith(toolsText: string, format: string, example: string): string {
    "\n" + INTRO + "\n\n" + toolsText + " \n\n" + INSTRUCTION + "\n\n" + format + "\n\nExample:\n" + example + "\n\n" + REMINDERS
  }

  /** The tool prompt exactly as the service writes it. */
  function ToolPromptAsWritten(toolsText: string): string {
    ToolPromptWith(toolsText, FORMAT_AS_WRITTEN, EXAMPLE_AS_WRITTEN)
  }

  /** The tool prompt with a format and an example the extraction accepts. */
  function ToolPrompt(toolsText: string): string {
    ToolPromptWith(toolsText, FORMAT, EXAMPLE)
  }

  /** `JSON.stringify(tools, null, 2)` inside a template: `undefined` prints
      as `undefined`. */
  function ToolsText(tools: Option<Json>, stringify: Json -> string): string {
    if tools.None? then "undefined" else stringify(tools.value)
  }

  /** The system header followed by the first of its newlines. */
  const HEADER_LINE := SYSTEM_HEADER + "\n"

  /** The system-block pattern can match at `h`: a system header and a
      newline there, and an end-of-turn marker somewhere after them. */
  predicate BlockAt(s: string, h: nat) {
    OccursAt(s, HEADER_LINE, h) && IndexOfFrom(s, EOT, h + |HEADER_LINE|).Some?
  }

  /** The leftmost match of the system-block pattern from start position
      `p`: a system header, one or more newlines, the shortest text, and an
      end-of-turn marker. Because a newline cannot begin the marker, the
      match ends at the first marker after the header's first newline. The
      result is the marker's index. */
  function SystemBlockEnd(s: string, p: nat): (q: Option<nat>)
    requires p <= |s|
    ensures q.Some? ==> p <= q.value && OccursAt(s, EOT, q.value)
    decreases |s| - p
  {
    if BlockAt(s, p) then IndexOfFrom(s, EOT, p + |HEADER_LINE|)
    else if p == |s| then None
    else SystemBlockEnd(s, p + 1)
  }

  /** The match is at the first header (followed by a newline) that has a
      marker after it, and ends at the first marker after that header; with
      no match, no header has a marker after it. */
  lemma {:induction false} SystemBlockEndIsLeftmost(s: string, p: nat)
    requires p <= |s|
    ensures SystemBlockEnd(s, p).Some? ==>
              exists h :: p <= h && BlockAt(s, h) && IndexOfFrom(s, EOT, h + |HEADER_LINE|) == SystemBlockEnd(s, p)
                          && forall h' :: p <= h' < h ==> !BlockAt(s, h')
    ensures SystemBlockEnd(s, p).None? ==> forall h :: p <= h ==> !BlockAt(s, h)
    decreases |s| - p
  {
    if BlockAt(s, p) {
      assert IndexOfFrom(s, EOT, p + |HEADER_LINE|) == SystemBlockEnd(s, p);
    } else if p == |s| {
      forall h | p <= h ensures !BlockAt(s, h) {
        if h > p { assert !OccursAt(s, HEADER_LINE, h); }
      }
    } else {
      SystemBlockEndIsLeftmost(s, p + 1);
      if SystemBlockEnd(s, p).Some? {
        var h :| p + 1 <= h && BlockAt(s, h) && IndexOfFrom(s, EOT, h + |HEADER_LINE|) == SystemBlockEnd(s, p + 1)
                 && forall h' :: p + 1 <= h' < h ==> !BlockAt(s, h');
        assert forall h' :: p <= h' < h ==> !BlockAt(s, h');
      } else {
        assert forall h :: p + 1 <= h ==> !BlockAt(s, h);
      }
    }
  }

  /** The marker the injection goes before is the first one after the
      header's newline: no marker starts between the two. */
  lemma MarkerIsFirstAfterHeader(s: string, h: nat)
    requires BlockAt(s, h)
    ensures forall j :: h + |HEADER_LINE| <= j < IndexOfFrom(s, EOT, h + |HEADER_LINE|).value ==> !OccursAt(s, EOT, j)
  {
  }

  /** The single (non-global) replacement: a newline and the tool prompt
      go in just before the end-of-turn marker of the first system block,
      and a prompt without one is left as it is. */
  function InjectToolPrompt(messages: string, toolPrompt: string): (r: string)
    ensures SystemBlockEnd(messages, 0).None? ==> r == messages
    ensures SystemBlockEnd(messages, 0).Some? ==>
              var q := SystemBlockEnd(messages, 0).value;
              && |r| == |messages| + 1 + |toolPrompt|
              && r[..q] == messages[..q]
              && r[q..q + 1 + |toolPrompt|] == "\n" + toolPrompt
              && r[q + 1 + |toolPrompt|..] == messages[q..]
              && OccursAt(r, EOT, q + 1 + |toolPrompt|)
  {
    match SystemBlockEnd(messages, 0)
    case None => messages
    case Some(q) =>
      var r := messages[..q] + ("\n" + toolPrompt) + messages[q..];
      assert r[q + 1 + |toolPrompt|..] == messages[q..];
      r
  }

  /** Removing the inserted text gives the prompt back: nothing outside the
      insertion changes. */
  lemma InjectionOnlyInserts(messages: string, toolPrompt: string)
    ensures SystemBlockEnd(messages, 0).Some? ==>
              var q := SystemBlockEnd(messages, 0).value;
              var r := InjectToolPrompt(messages, toolPrompt);
              r[..q] + r[q + 1 + |toolPrompt|..] == messages
    ensures |InjectToolPrompt(messages, toolPrompt)| >= |messages|
  {
    if SystemBlockEnd(messages, 0).Some? {
      var q := SystemBlockEnd(messages, 0).value;
      assert messages == messages[..q] + messages[q..];
    }
  }

  /** `max_tokens || 100`: 0 and a missing value both give 100. */
  function MaxGenLen(maxTokens: Option<int>): (n: int)
    ensures maxTokens.Some? && maxTokens.value != 0 ==> n == maxTokens.value
    ensures maxTokens.None? || maxTokens.value == 0 ==> n == 100
    ensures n != 0
  {
    if maxTokens.Some? && maxTokens.value != 0 then maxTokens.value else 100
  }

  /** The request body; temperature and `top_p` are left out. */
  datatype LlamaRequest = LlamaRequest(modelId: string, prompt: string, maxGenLen: int)

  const MODEL_REQUIRED := "Model ID is required."

  /** The non-streaming path: the prompt is sent with no tool text. */
  function BuildCompletionRequest(model: Option<string>, messages: string, maxTokens: Option<int>)
    : (r: Result<LlamaRequest, ProxyError>)
    ensures r.Err? <==> model.None? || model.value == ""
    ensures r.Err? ==> r.error == MissingModel(MODEL_REQUIRED)
    ensures r.Ok? ==> r.value == LlamaRequest(model.value, messages, MaxGenLen(maxTokens))
  {
    if model.None? || model.value == "" then Err(MissingModel(MODEL_REQUIRED))
    else Ok(LlamaRequest(model.value, messages, MaxGenLen(maxTokens)))
  }

  /** The prompt of the streaming path: the serialised messages with the
      tool prompt, exactly as the service writes it, injected into the
      system block. */
  function StreamPrompt(messages: string, tools: Option<Json>, stringify: Json -> string): string {
    InjectToolPrompt(messages, ToolPromptAsWritten(ToolsText(tools, stringify)))
  }

  /** The streaming path: the tool prompt is injected into the system block. */
  function BuildStreamRequest(model: Option<string>, messages: string, maxTokens: Option<int>,
                              tools: Option<Json>, stringify: Json -> string)
    : (r: Result<LlamaRequest, ProxyError>)
    ensures r.Err? <==> model.None? || model.value == ""
    ensures r.Err? ==> r.error == MissingModel(MODEL_REQUIRED)
    ensures r.Ok? ==> r.value.modelId == model.value && r.value.maxGenLen == MaxGenLen(maxTokens)
    ensures r.Ok? ==> r.value.prompt == StreamPrompt(messages, tools, stringify)
  {
    if model.None? || model.value == "" then Err(MissingModel(MODEL_REQUIRED))
    else Ok(LlamaRequest(model.value, StreamPrompt(messages, tools, stringify), MaxGenLen(maxTokens)))
  }
}
