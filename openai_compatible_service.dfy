/** Tool normalisation and the request rules of the OpenAI-compatible
    service (src/services/OpenAICompatibleService.ts). */
module OpenAICompatibleService {
  import opened Wrappers
  import opened Json
  import opened Messages

  const MODEL_REQUIRED := "Model ID is required for OpenAIService."

  /** A tool already in `{type: "function", function}` shape. */
  predicate IsFunctionTool(tool: Object) {
    IsStr(tool, "type", "function") && TruthyAt(tool, "function")
  }

  /** A flat `{type: "function", name, parameters}` tool. */
  predicate IsFlatTool(tool: Object) {
    IsStr(tool, "type", "function") && TruthyAt(tool, "name") && TruthyAt(tool, "parameters")
  }

  /** The `function` object of a flat tool; a missing description stays
      missing. */
  function FunctionOf(tool: Object): (f: Object)
    requires IsFlatTool(tool)
    ensures f.Keys == {"name", "parameters"} + (if "description" in tool then {"description"} else {})
    ensures f["name"] == tool["name"] && f["parameters"] == tool["parameters"]
    ensures "description" in f ==> f["description"] == tool["description"]
  {
    var f := map["name" := tool["name"], "parameters" := tool["parameters"]];
    if "description" in tool then f["description" := tool["description"]] else f
  }

  /** One tool of `normalizeTools`: kept, wrapped, or rejected. */
  function NormalizeTool(tool: Object): (r: Result<Object, ProxyError>)
    ensures IsFunctionTool(tool) ==> r == Ok(tool)
    ensures !IsFunctionTool(tool) && IsFlatTool(tool) ==>
              r.Ok? && r.value.Keys == {"type", "function"} && r.value["type"] == JStr("function")
              && r.value["function"] == JObj(FunctionOf(tool))
    ensures r.Err? <==> !IsFunctionTool(tool) && !IsFlatTool(tool)
    ensures r.Err? ==> r.error == InvalidToolDefinition(tool)
  {
    if IsFunctionTool(tool) then Ok(tool)
    else if IsFlatTool(tool) then Ok(map["type" := JStr("function"), "function" := JObj(FunctionOf(tool))])
    else Err(InvalidToolDefinition(tool))
  }

  /** Every normalised tool is in `{type: "function", function}` shape. */
  lemma NormalizedIsFunctionTool(tool: Object)
    requires NormalizeTool(tool).Ok?
    ensures IsFunctionTool(NormalizeTool(tool).value)
    ensures NormalizeTool(NormalizeTool(tool).value) == NormalizeTool(tool)
  {
  }

  /** `tools.map(...)` with a throw: the tools are normalised from the left
      and the first invalid one aborts the whole list. */
  function NormalizeAll(tools: seq<Object>): (r: Result<seq<Object>, ProxyError>)
    ensures r.Ok? ==> |r.value| == |tools|
    decreases |tools|
  {
    if |tools| == 0 then Ok([])
    else match NormalizeTool(tools[0]) {
      case Err(e) => Err(e)
      case Ok(t) =>
        match NormalizeAll(tools[1..]) {
          case Err(e) => Err(e)
          case Ok(rest) => Ok([t] + rest)
        }
    }
  }

  /** The list succeeds exactly when every tool does, and then holds each
      tool's normalisation in order; otherwise the error is that of the
      first invalid tool. */
  lemma {:induction false} NormalizeAllSpec(tools: seq<Object>)
    ensures NormalizeAll(tools).Ok? <==> forall i :: 0 <= i < |tools| ==> NormalizeTool(tools[i]).Ok?
    ensures NormalizeAll(tools).Ok? ==>
              forall i :: 0 <= i < |tools| ==> NormalizeTool(tools[i]) == Ok(NormalizeAll(tools).value[i])
    ensures NormalizeAll(tools).Err? ==>
              exists i :: 0 <= i < |tools| && NormalizeTool(tools[i]) == Err(NormalizeAll(tools).error)
                          && forall j :: 0 <= j < i ==> NormalizeTool(tools[j]).Ok?
    decreases |tools|
  {
    if |tools| > 0 {
      NormalizeAllSpec(tools[1..]);
      if NormalizeTool(tools[0]).Ok? && NormalizeAll(tools[1..]).Ok? {
        var rest := NormalizeAll(tools[1..]).value;
        forall i | 0 <= i < |tools| ensures NormalizeTool(tools[i]) == Ok(NormalizeAll(tools).value[i]) {
          if i > 0 {
            assert tools[i] == tools[1..][i - 1];
            assert NormalizeAll(tools).value[i] == rest[i - 1];
          }
        }
      } else if NormalizeTool(tools[0]).Ok? {
        var i :| 0 <= i < |tools[1..]| && NormalizeTool(tools[1..][i]) == Err(NormalizeAll(tools[1..]).error)
                 && forall j :: 0 <= j < i ==> NormalizeTool(tools[1..][j]).Ok?;
        assert NormalizeTool(tools[i + 1]) == Err(NormalizeAll(tools).error);
        assert forall j :: 0 <= j < i + 1 ==> NormalizeTool(tools[j]).Ok? by {
          forall j | 0 <= j < i + 1 ensures NormalizeTool(tools[j]).Ok? {
            if j > 0 { assert tools[j] == tools[1..][j - 1]; }
          }
        }
        assert !NormalizeTool(tools[1..][i]).Ok?;
      }
    }
  }

  /** `normalizeTools`: a value that is not an array gives `undefined`
      (`None`); an array is normalised tool by tool. */
  function NormalizeTools(tools: Option<seq<Object>>): (r: Result<Option<seq<Object>>, ProxyError>)
    ensures tools.None? ==> r == Ok(None)
    ensures tools.Some? ==> r.Ok? ==> r.value.Some? && |r.value.value| == |tools.value|
  {
    match tools
    case None => Ok(None)
    case Some(ts) =>
      match NormalizeAll(ts) {
        case Err(e) => Err(e)
        case Ok(r) => Ok(Some(r))
      }
  }

  /** Normalising normalised tools changes nothing. */
  lemma {:induction false} NormalizeAllIdempotent(tools: seq<Object>)
    requires NormalizeAll(tools).Ok?
    ensures NormalizeAll(NormalizeAll(tools).value) == NormalizeAll(tools)
    decreases |tools|
  {
    if |tools| > 0 {
      var t := NormalizeTool(tools[0]).value;
      var rest := NormalizeAll(tools[1..]).value;
      NormalizeAllIdempotent(tools[1..]);
      NormalizedIsFunctionTool(tools[0]);
      var out := NormalizeAll(tools).value;
      assert out == [t] + rest;
      assert out[0] == t && out[1..] == rest;
    }
  }

  /** The non-streaming request: the tools go out unnormalised as `functions`. */
  datatype CompletionRequest = CompletionRequest(
    model: string, messages: seq<Message>, maxTokens: Option<int>, functions: Option<seq<Object>>)

  /** The streaming request: `tools` is sent exactly when normalisation gave
      an array, even an empty one; usage is always requested. */
  datatype StreamRequest = StreamRequest(
    model: string, messages: seq<Message>, maxTokens: Option<int>, tools: Option<seq<Object>>,
    stream: bool, includeUsage: bool)

  /** `generateCompletion` up to the SDK call. */
  function BuildCompletionRequest(model: Option<string>, messages: seq<Message>, maxTokens: Option<int>,
                                  tools: Option<seq<Object>>): (r: Result<CompletionRequest, ProxyError>)
    ensures r.Err? <==> model.None? || model.value == ""
    ensures r.Err? ==> r.error == MissingModel(MODEL_REQUIRED)
    ensures r.Ok? ==> r.value == CompletionRequest(model.value, messages, maxTokens, tools)
  {
    if model.None? || model.value == "" then Err(MissingModel(MODEL_REQUIRED))
    else Ok(CompletionRequest(model.value, messages, maxTokens, tools))
  }

  /** `generateStreamCompletion` up to the SDK call: the model check comes
      first, then the normalisation, whose error aborts the request. */
  function BuildStreamRequest(model: Option<string>, messages: seq<Message>, maxTokens: Option<int>,
                              tools: Option<seq<Object>>): (r: Result<StreamRequest, ProxyError>)
    ensures model.None? || model.value == "" ==> r == Err(MissingModel(MODEL_REQUIRED))
    ensures model.Some? && model.value != "" ==>
              (r.Err? <==> NormalizeTools(tools).Err?)
              && (r.Err? ==> r.error == NormalizeTools(tools).error)
    ensures r.Ok? ==>
              && r.value.model == model.value && r.value.messages == messages && r.value.maxTokens == maxTokens
              && r.value.tools == NormalizeTools(tools).value
              && (r.value.tools.Some? <==> tools.Some?)
              && r.value.stream && r.value.includeUsage
  {
    if model.None? || model.value == "" then Err(MissingModel(MODEL_REQUIRED))
    else
      match NormalizeTools(tools) {
        case Err(e) => Err(e)
        case Ok(normalized) => Ok(StreamRequest(model.value, messages, maxTokens, normalized, true, true))
      }
  }
}
