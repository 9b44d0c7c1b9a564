/** Tool calls on the gemini content builder (newer API revision): function
    calls, and the dispatch of tool results, either to the converter of a
    standard tool or to the generic map encoding. */
module GeminiTool {
  import opened GoBase
  import opened Xai
  import opened Genai
  import GeminiMessage
  import ClaudeTool

  /** `ToolUse`: one function-call part named by the tool name, with the input
      as its arguments; the input must be a map, and the tool ID is not used. */
  method ToolUse(p: GeminiMessage.ContentBuilder, toolID: Str, name: Str, input: Value) returns (r: Outcome)
    modifies p
    ensures r.Pass? <==> input.Object?
    ensures r.Fail? ==> r.error == BadType("map[string]any") && p.content == old(p.content)
    ensures r.Pass? ==> p.content == old(p.content) + [NewPartFromFunctionCall(name, input.fields)]
  {
    if !input.Object? {
      return Fail(BadType("map[string]any"));
    }
    p.content := p.content + [NewPartFromFunctionCall(name, input.fields)];
    r := Pass;
  }

  /** The converters a standard tool's result can be dispatched to. */
  datatype StdConverter = WebSearchConverter

  /** `stdToolResultConv`: the standard tools this backend has a converter for.
      Web search is registered, and every registered name carries the reserved
      prefix, so a registered name is always routed to its converter. */
  function StdToolResultConv(): (m: map<Str, StdConverter>)
    ensures ToolWebSearch in m
    ensures forall name :: name in m ==> HasPrefix(name, StdPrefix)
  {
    StdPrefixOfWebSearch();
    map[ToolWebSearch := WebSearchConverter]
  }

  /** `webSearchResultConv` is registered but not implemented. */
  method WebSearchResultConv(toolID: Str, result: Value, isError: bool) returns (r: Result<Part>)
    ensures r == Err(Unsupported("webSearchResultConv"))
  {
    r := Err(Unsupported("webSearchResultConv"));
  }

  /** Whether a tool name is reserved for standard tools and this backend has no
      converter for it. */
  predicate UnknownStd(name: Str) {
    HasPrefix(name, StdPrefix) && name !in StdToolResultConv()
  }

  const ErrorKey: Str := Ascii("error")

  /** The response map of a non-standard tool result: a `RawText` must parse as a
      JSON object; otherwise an error report becomes {"error": message};
      otherwise the result must itself be a map. */
  function ResultMap(result: Value, isError: bool, codec: Json): (r: Result<map<Str, Value>>)
    ensures result.RawText? ==> (r.Ok? <==> codec.unmarshalObject(result.text).Returned?)
    ensures result.RawText? && r.Ok? ==> r.value == codec.unmarshalObject(result.text).value
    ensures result.RawText? && r.Err? ==>
      r.error == InvalidToolResult(Ascii("invalid tool result: ") + codec.unmarshalObject(result.text).message)
    ensures !result.RawText? && isError ==> (r.Ok? <==> result.Error?)
    ensures !result.RawText? && isError && r.Ok? ==> r.value.Keys == {ErrorKey} && r.value[ErrorKey] == String(result.message)
    ensures !result.RawText? && isError && r.Err? ==> r.error == BadType("error")
    ensures !result.RawText? && !isError ==> (r.Ok? <==> result.Object?)
    ensures !result.RawText? && !isError && r.Ok? ==> r.value == result.fields
    ensures !result.RawText? && !isError && r.Err? ==> r.error == BadType("map[string]any")
  {
    if result.RawText? then
      match codec.unmarshalObject(result.text)
      case Returned(m) => Ok(m)
      case Errored(message) => Err(InvalidToolResult(Ascii("invalid tool result: ") + message))
    else if isError then
      (if result.Error? then Ok(map[ErrorKey := String(result.message)]) else Err(BadType("error")))
    else if result.Object? then Ok(result.fields)
    else Err(BadType("map[string]any"))
  }

  /** `ToolResult`: a name with the standard prefix must have a converter (the
      one registered fails); any other name gets one function-response part
      named by the tool ID, and the error flag is not carried over. Exactly one
      part is appended on success, none on failure. */
  method ToolResult(p: GeminiMessage.ContentBuilder, toolID: Str, name: Str, result: Value, isError: bool, codec: Json)
    returns (r: Outcome)
    modifies p
    ensures r.Fail? ==> p.content == old(p.content)
    ensures UnknownStd(name) ==> r == Fail(ToolDispatch(Ascii("unsupported standard tool: ") + name))
    ensures HasPrefix(name, StdPrefix) ==> r.Fail?
    ensures name == ToolWebSearch ==> r == Fail(Unsupported("webSearchResultConv"))
    ensures !HasPrefix(name, StdPrefix) ==> (r.Pass? <==> ResultMap(result, isError, codec).Ok?)
    ensures !HasPrefix(name, StdPrefix) && r.Fail? ==> r.error == ResultMap(result, isError, codec).error
    ensures r.Pass? ==>
      p.content == old(p.content) + [NewPartFromFunctionResponse(toolID, ResultMap(result, isError, codec).value)]
  {
    var part: Part;
    if HasPrefix(name, StdPrefix) {
      var conv := StdToolResultConv();
      if name !in conv {
        return Fail(ToolDispatch(Ascii("unsupported standard tool: ") + name));
      }
      match conv[name]
      case WebSearchConverter =>
        var c := WebSearchResultConv(toolID, result, isError);
        match c
        case Err(e) => return Fail(e);
        case Ok(v) => part := v;
    } else {
      var m := ResultMap(result, isError, codec);
      if m.Err? {
        return Fail(m.error);
      }
      part := NewPartFromFunctionResponse(toolID, m.value);
    }
    p.content := p.content + [part];
    r := Pass;
  }

  /** The claude and gemini backends reserve the same standard tool names and
      reject exactly the same unregistered ones. */
  lemma SameStdRejection(name: Str)
    ensures UnknownStd(name) <==> ClaudeTool.UnknownStd(name)
  {
  }

  /** A JSON codec that reads a map back exactly as it wrote it. */
  predicate FaithfulOn(codec: Json, v: Value) {
    v.Object? ==> codec.marshal(v).Returned? && codec.unmarshalObject(codec.marshal(v).value) == Returned(v.fields)
  }

  /** Both backends carry the same result of a non-standard tool: the claude
      body, read as a JSON object, is the gemini response map whenever the
      result is raw text or a map; an error report is accepted by both or by
      neither, and its message is the claude body and the gemini "error" entry. */
  lemma SameToolResult(result: Value, isError: bool, codec: Json)
    requires FaithfulOn(codec, result)
    ensures var body, m := ClaudeTool.GenericBody(result, isError, codec), ResultMap(result, isError, codec);
      && (result.RawText? ==>
            (body.Ok? && (m.Ok? <==> codec.unmarshalObject(body.value).Returned?)
             && (m.Ok? ==> codec.unmarshalObject(body.value).value == m.value)))
      && (!result.RawText? && isError ==>
            ((body.Ok? <==> m.Ok?) && (m.Ok? ==> m.value[ErrorKey] == String(body.value))))
      && (!result.RawText? && !isError && result.Object? ==>
            (body.Ok? && m.Ok? && codec.unmarshalObject(body.value) == Returned(m.value)))
  {
  }
}
