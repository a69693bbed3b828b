/** Tool conversion, request defaults and the streaming usage fold of the
    direct Anthropic service (src/services/AnthropicService.ts). */
module AnthropicService {
  import opened Wrappers
  import opened Json
  import opened Messages
  import opened MessageFormatters
  import opened AnthropicEvents

  /** An object schema with no properties and no required fields. */
  const DEFAULT_INPUT_SCHEMA: Json :=
    JObj(map["type" := JStr("object"), "properties" := JObj(map[]), "required" := JArr([])])

  /** A tool already in Anthropic shape: `type` is `"custom"`, or it has a
      truthy `name` and `description` and no truthy `function`. */
  predicate IsAnthropicShape(tool: Object) {
    IsStr(tool, "type", "custom")
    || (TruthyAt(tool, "name") && TruthyAt(tool, "description") && !TruthyAt(tool, "function"))
  }

  /** A tool in OpenAI shape: `type` is `"function"` with a truthy `function`. */
  predicate IsOpenAIShape(tool: Object) {
    IsStr(tool, "type", "function") && TruthyAt(tool, "function")
  }

  /** `{k: v}` when `v` is defined, `{}` otherwise. */
  function FieldIfDefined(k: string, v: Option<Json>): (r: Object)
    ensures k in r <==> v.Some?
    ensures k in r ==> r[k] == v.value
    ensures r.Keys <= {k}
  {
    if v.Some? then map[k := v.value] else map[]
  }

  /** The schema fallback `input_schema || parameters || DEFAULT_INPUT_SCHEMA`. */
  function SchemaOf(tool: Object): (r: Json)
    ensures Truthy(r)
    ensures TruthyAt(tool, "input_schema") ==> r == tool["input_schema"]
    ensures !TruthyAt(tool, "input_schema") && TruthyAt(tool, "parameters") ==> r == tool["parameters"]
    ensures !TruthyAt(tool, "input_schema") && !TruthyAt(tool, "parameters") ==> r == DEFAULT_INPUT_SCHEMA
  {
    OrElse(Get(tool, "input_schema"), OrElse(Get(tool, "parameters"), DEFAULT_INPUT_SCHEMA))
  }

  /** One tool of the conversion. */
  function ConvertTool(tool: Object): (r: Object)
    ensures IsStr(r, "type", "custom")
    ensures "input_schema" in r && Truthy(r["input_schema"])
    ensures IsAnthropicShape(tool) ==>
              && r.Keys <= {"type", "name", "description", "input_schema"} && "description" in r
              && Get(r, "name") == Get(tool, "name")
              && r["description"] == OrElse(Get(tool, "description"), JStr(""))
              && r["input_schema"] == SchemaOf(tool)
    ensures !IsAnthropicShape(tool) && IsOpenAIShape(tool) ==>
              && r.Keys <= {"type", "name", "description", "input_schema"} && "description" in r
              && Get(r, "name") == Member(tool["function"], "name")
              && r["description"] == OrElse(Member(tool["function"], "description"), JStr(""))
              && r["input_schema"] == OrElse(Member(tool["function"], "parameters"), DEFAULT_INPUT_SCHEMA)
    ensures !IsAnthropicShape(tool) && !IsOpenAIShape(tool) ==>
              && r.Keys == tool.Keys + {"type", "input_schema"}
              && (forall k :: k in tool && k != "type" && k != "input_schema" ==> r[k] == tool[k])
              && r["input_schema"] == SchemaOf(tool)
  {
    if IsAnthropicShape(tool) then
      map["type" := JStr("custom"),
          "description" := OrElse(Get(tool, "description"), JStr("")),
          "input_schema" := SchemaOf(tool)]
      + FieldIfDefined("name", Get(tool, "name"))
    else if IsOpenAIShape(tool) then
      var f := tool["function"];
      map["type" := JStr("custom"),
          "description" := OrElse(Member(f, "description"), JStr("")),
          "input_schema" := OrElse(Member(f, "parameters"), DEFAULT_INPUT_SCHEMA)]
      + FieldIfDefined("name", Member(f, "name"))
    else
      tool["type" := JStr("custom")]["input_schema" := SchemaOf(tool)]
  }

  /** `None` is a `null`, `undefined` or non-array `tools`; such a value and
      an empty array give no tools, and an array is converted tool by tool. */
  function ConvertToolsToAnthropicFormat(tools: Option<seq<Object>>): (r: seq<Object>)
    ensures tools.None? ==> r == []
    ensures tools.Some? ==> |r| == |tools.value|
    ensures tools.Some? ==> forall i :: 0 <= i < |r| ==> r[i] == ConvertTool(tools.value[i])
  {
    if tools.None? || |tools.value| == 0 then []
    else seq(|tools.value|, i requires 0 <= i < |tools.value| => ConvertTool(tools.value[i]))
  }

  /** Converting a converted tool changes nothing more when the original was
      in Anthropic or OpenAI shape; a tool of unknown shape comes out as a
      custom tool, so a second conversion keeps only its name, description
      and schema. */
  lemma ConvertToolIdempotent(tool: Object)
    ensures IsAnthropicShape(tool) || IsOpenAIShape(tool) ==> ConvertTool(ConvertTool(tool)) == ConvertTool(tool)
    ensures IsAnthropicShape(ConvertTool(tool))
  {
    var r := ConvertTool(tool);
    assert IsAnthropicShape(r);
    if IsAnthropicShape(tool) || IsOpenAIShape(tool) {
      var rr := ConvertTool(r);
      assert SchemaOf(r) == r["input_schema"];
      assert OrElse(Get(r, "description"), JStr("")) == r["description"];
      assert rr.Keys == r.Keys;
    }
  }

  /** The request the service sends. Temperature is left out. */
  datatype AnthropicRequest = AnthropicRequest(
    model: string,
    maxTokens: int,
    system: string,
    messages: seq<AnthropicMessage>,
    tools: Option<seq<Object>>,
    stream: bool)

  /** A missing or empty model is refused before any request; `max_tokens`
      defaults to 1024 and the system prompt to `""`; tools are sent only
      when the conversion gives at least one. Both entry points build the
      same parameters and differ only in `stream`. */
  function BuildRequest(model: Option<string>, maxTokens: Option<int>, systemPrompt: Option<string>,
                        messages: seq<AnthropicMessage>, tools: Option<seq<Object>>, stream: bool)
    : (r: Result<AnthropicRequest, ProxyError>)
    ensures r.Err? <==> !TruthyStr(model)
    ensures r.Err? ==> r.error == MissingModel("Model ID is required for AnthropicService")
    ensures r.Ok? ==> && r.value.model == model.value
                      && r.value.maxTokens == maxTokens.GetOr(1024)
                      && r.value.system == systemPrompt.GetOr("")
                      && r.value.messages == messages
                      && r.value.stream == stream
                      && (r.value.tools.Some? <==> |ConvertToolsToAnthropicFormat(tools)| > 0)
                      && (r.value.tools.Some? ==> r.value.tools.value == ConvertToolsToAnthropicFormat(tools))
  {
    if !TruthyStr(model) then Err(MissingModel("Model ID is required for AnthropicService"))
    else
      var validatedTools := ConvertToolsToAnthropicFormat(tools);
      Ok(AnthropicRequest(model.value, maxTokens.GetOr(1024), systemPrompt.GetOr(""), messages,
                          if |validatedTools| > 0 then Some(validatedTools) else None, stream))
  }

  /** The index of the first `message_stop` event. */
  function FirstStop(events: seq<Event>): (r: Option<nat>)
    ensures r.Some? ==> r.value < |events| && events[r.value].eventType == MESSAGE_STOP
    ensures r.Some? ==> forall j :: 0 <= j < r.value ==> events[j].eventType != MESSAGE_STOP
    ensures r.None? ==> forall j :: 0 <= j < |events| ==> events[j].eventType != MESSAGE_STOP
    decreases |events|
  {
    if |events| == 0 then None
    else if events[0].eventType == MESSAGE_STOP then Some(0)
    else match FirstStop(events[1..]) {
      case None => None
      case Some(k) => Some(k + 1)
    }
  }

  /** The input count of the last `message_start` that carries usage, 0 when
      none does or it is missing. */
  function StartInput(events: seq<Event>): int
    decreases |events|
  {
    if |events| == 0 then 0
    else
      var e := events[|events| - 1];
      if e.eventType == MESSAGE_START && e.message.Some? && e.message.value.usage.Some?
      then e.message.value.usage.value.inputTokens.GetOr(0)
      else StartInput(events[..|events| - 1])
  }

  /** The output count of the last `message_start` or `message_delta` that
      carries usage, 0 when none does or it is missing. */
  function LatestOutput(events: seq<Event>): int
    decreases |events|
  {
    if |events| == 0 then 0
    else
      var e := events[|events| - 1];
      if e.eventType == MESSAGE_START && e.message.Some? && e.message.value.usage.Some?
      then e.message.value.usage.value.outputTokens.GetOr(0)
      else if e.eventType == MESSAGE_DELTA && e.usage.Some?
      then e.usage.value.outputTokens.GetOr(0)
      else LatestOutput(events[..|events| - 1])
  }

  /** The `message_stop` event the service yields in place of the vendor's. */
  function SynthesizedStop(inputTokens: int, outputTokens: int): Event {
    Event(MESSAGE_STOP, None, None, None, Some(Usage(Some(inputTokens), Some(outputTokens))), None)
  }

  /** Events pass through unchanged up to the first `message_stop`, which is
      replaced by one synthesized `message_stop` carrying the input count of
      the last `message_start` and the latest output count; nothing after it
      is yielded. A stream without `message_stop` passes through whole. */
  function Yielded(events: seq<Event>): seq<Event> {
    match FirstStop(events)
    case None => events
    case Some(k) => events[..k] + [SynthesizedStop(StartInput(events[..k]), LatestOutput(events[..k]))]
  }

  /** The `for await` loop of the streaming entry point, after the request. */
  method StreamEvents(events: seq<Event>) returns (out: seq<Event>)
    ensures out == Yielded(events)
  {
    var inputTokens, outputTokens := 0, 0;
    out := [];
    for i := 0 to |events|
      invariant out == events[..i]
      invariant forall j :: 0 <= j < i ==> events[j].eventType != MESSAGE_STOP
      invariant inputTokens == StartInput(events[..i]) && outputTokens == LatestOutput(events[..i])
    {
      var event := events[i];
      assert events[..i + 1][..i] == events[..i];
      if event.eventType == MESSAGE_START && event.message.Some? && event.message.value.usage.Some? {
        inputTokens := event.message.value.usage.value.inputTokens.GetOr(0);
        outputTokens := event.message.value.usage.value.outputTokens.GetOr(0);
      }
      if event.eventType == MESSAGE_DELTA && event.usage.Some? {
        outputTokens := event.usage.value.outputTokens.GetOr(0);
      }
      if event.eventType == MESSAGE_STOP {
        out := out + [SynthesizedStop(inputTokens, outputTokens)];
        return;
      }
      out := out + [event];
    }
    assert events[..|events|] == events;
  }

  /** The yielded stream is the vendor stream up to its first `message_stop`,
      unchanged; it holds at most one `message_stop`, always last, and holds
      one exactly when the vendor stream does. */
  lemma YieldedShape(events: seq<Event>)
    ensures |Yielded(events)| <= |events|
    ensures forall j :: 0 <= j < |Yielded(events)| - 1 ==> Yielded(events)[j] == events[j]
    ensures forall j :: 0 <= j < |Yielded(events)| - 1 ==> Yielded(events)[j].eventType != MESSAGE_STOP
    ensures (exists j :: 0 <= j < |Yielded(events)| && Yielded(events)[j].eventType == MESSAGE_STOP) <==>
              (exists j :: 0 <= j < |events| && events[j].eventType == MESSAGE_STOP)
  {
    var out := Yielded(events);
    if FirstStop(events).Some? {
      var k := FirstStop(events).value;
      assert out[k].eventType == MESSAGE_STOP;
      assert events[k].eventType == MESSAGE_STOP;
    }
  }
}
