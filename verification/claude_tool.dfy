/** Tool calls on the claude content builder (newer API revision): tool uses,
    and the dispatch of tool results, either to the converter of a standard tool
    or to the generic text encoding. The operations are module-level methods on
    the builder `p` because the older `ToolUse`/`ToolResult` of the builder
    class have other signatures. */
module ClaudeTool {
  import opened GoBase
  import opened Xai
  import opened Anthropic
  import ClaudeMessage

  /** `ToolUse`: exactly one tool-use block with the call's ID, input and name. */
  method ToolUse(p: ClaudeMessage.ContentBuilder, toolID: Str, name: Str, input: Value)
    modifies p
    ensures p.content == old(p.content) + [ToolUseBlock(toolID, input, name)]
  {
    p.content := p.content + [ToolUseBlock(toolID, input, name)];
  }

  /** The converters a standard tool's result can be dispatched to. */
  datatype StdConverter = WebSearchConverter

  /** `stdToolResultConv`: the standard tools whose results this backend
      converts. Web search is registered, and every registered name carries the
      reserved prefix, so a registered name is always routed to its converter. */
  function StdToolResultConv(): (m: map<Str, StdConverter>)
    ensures ToolWebSearch in m
    ensures forall name :: name in m ==> HasPrefix(name, StdPrefix)
  {
    StdPrefixOfWebSearch();
    map[ToolWebSearch := WebSearchConverter]
  }

  /** A web-search result item converted one-for-one into a result block: the
      underlying value is the encrypted content, title and URL are copied, and
      the page age is present exactly when it is non-empty. */
  predicate Converted(item: WebSearchResultItem, block: WebSearchResultBlockParam) {
    && item.underlying.String?
    && block.encryptedContent == item.underlying.s
    && block.title == item.title
    && block.url == item.url
    && block.pageAge == (if item.pageAge == [] then None else Some(item.pageAge))
  }

  /** The result block of one item whose underlying value is a string. */
  function ConvertItem(item: WebSearchResultItem): WebSearchResultBlockParam
    requires item.underlying.String?
  {
    WebSearchResultBlockParam(item.underlying.s, item.title, item.url,
      if item.pageAge == [] then None else Some(item.pageAge))
  }

  /** What `webSearchResultConv` returns, or the type assertion it fails. An
      error result becomes a request-error block whose code is the error's
      message. A search result becomes one result block per item, in order; an
      item whose underlying value is not a string, or a result of the wrong
      dynamic type, is a failed type assertion. */
  function WebSearchBlock(toolID: Str, result: Value, isError: bool): (r: Result<ContentBlock>)
    ensures isError ==> (r.Ok? <==> result.Error?)
    ensures isError && r.Ok? ==> r.value == WebSearchToolResultBlock(toolID, RequestError(result.message))
    ensures isError && r.Err? ==> r.error == BadType("error")
    ensures !isError && !result.WebSearch? ==> r == Err(BadType("*xai.WebSearchResult"))
    ensures !isError && result.WebSearch? ==>
      (r.Ok? <==> forall i :: 0 <= i < |result.result| ==> result.result[i].underlying.String?)
    ensures !isError && result.WebSearch? && r.Err? ==> r.error == BadType("string")
    ensures !isError && r.Ok? ==>
      && r.value.WebSearchToolResultBlock? && r.value.toolUseID == toolID
      && r.value.result.ResultBlocks?
      && |r.value.result.items| == |result.result|
      && forall i :: 0 <= i < |result.result| ==> Converted(result.result[i], r.value.result.items[i])
  {
    if isError then
      (if result.Error? then Ok(WebSearchToolResultBlock(toolID, RequestError(result.message)))
       else Err(BadType("error")))
    else if !result.WebSearch? then Err(BadType("*xai.WebSearchResult"))
    else if forall i :: 0 <= i < |result.result| ==> result.result[i].underlying.String? then
      var items := result.result;
      Ok(WebSearchToolResultBlock(toolID, ResultBlocks(
        seq(|items|, i requires 0 <= i < |items| && items[i].underlying.String? => ConvertItem(items[i])))))
    else Err(BadType("string"))
  }

  /** `webSearchResultConv`: converts the items one by one into an array. */
  method WebSearchResultConv(toolID: Str, result: Value, isError: bool) returns (r: Result<ContentBlock>)
    ensures r == WebSearchBlock(toolID, result, isError)
  {
    if isError {
      if !result.Error? {
        return Err(BadType("error"));
      }
      return Ok(WebSearchToolResultBlock(toolID, RequestError(result.message)));
    }
    if !result.WebSearch? {
      return Err(BadType("*xai.WebSearchResult"));
    }
    var items := result.result;
    var ret := new WebSearchResultBlockParam[|items|];
    var i := 0;
    while i < |items|
      invariant 0 <= i <= |items| && ret.Length == |items|
      invariant forall k :: 0 <= k < i ==> items[k].underlying.String? && ret[k] == ConvertItem(items[k])
    {
      var item := items[i];
      if !item.underlying.String? {
        return Err(BadType("string"));
      }
      ret[i] := WebSearchResultBlockParam(item.underlying.s, item.title, item.url, None);
      if item.pageAge != [] {
        ret[i] := ret[i].(pageAge := Some(item.pageAge));
      }
      i := i + 1;
    }
    assert forall k :: 0 <= k < |items| ==> items[k].underlying.String?;
    assert ret[..] == seq(|items|, k requires 0 <= k < |items| && items[k].underlying.String? => ConvertItem(items[k]));
    r := Ok(WebSearchToolResultBlock(toolID, ResultBlocks(ret[..])));
  }

  /** Whether a tool name is reserved for standard tools and this backend has no
      converter for it. */
  predicate UnknownStd(name: Str) {
    HasPrefix(name, StdPrefix) && name !in StdToolResultConv()
  }

  /** The text of a non-standard tool result: a `RawText` verbatim, even when it
      reports an error; otherwise, for an error report, the error's message;
      otherwise the JSON serialisation of the result. */
  function GenericBody(result: Value, isError: bool, codec: Json): (r: Result<Str>)
    ensures result.RawText? ==> r == Ok(result.text)
    ensures !result.RawText? && isError ==> (r.Ok? <==> result.Error?)
    ensures !result.RawText? && isError && r.Ok? ==> r.value == result.message
    ensures !result.RawText? && isError && r.Err? ==> r.error == BadType("error")
    ensures !result.RawText? && !isError ==> (r.Ok? <==> codec.marshal(result).Returned?)
    ensures !result.RawText? && !isError && r.Ok? ==> r.value == codec.marshal(result).value
    ensures !result.RawText? && !isError && r.Err? ==>
      r.error == MarshalFailed(Ascii("failed to marshal tool result: ") + codec.marshal(result).message)
  {
    if result.RawText? then Ok(result.text)
    else if isError then
      (if result.Error? then Ok(result.message) else Err(BadType("error")))
    else
      match codec.marshal(result)
      case Returned(b) => Ok(b)
      case Errored(message) => Err(MarshalFailed(Ascii("failed to marshal tool result: ") + message))
  }

  /** `ToolResult`: a name with the standard prefix must have a converter, and
      never falls back to the generic encoding; any other name gets a generic
      tool-result block with the call's ID and error flag. Exactly one block is
      appended on success, none on failure. */
  method ToolResult(p: ClaudeMessage.ContentBuilder, toolID: Str, name: Str, result: Value, isError: bool, codec: Json)
    returns (r: Outcome)
    modifies p
    ensures r.Fail? ==> p.content == old(p.content)
    ensures r.Pass? ==> |p.content| == |old(p.content)| + 1 && p.content[..|old(p.content)|] == old(p.content)
    ensures UnknownStd(name) ==> r == Fail(ToolDispatch(Ascii("unsupported standard tool: ") + name))
    ensures HasPrefix(name, StdPrefix) && r.Pass? ==>
      p.content[|old(p.content)|].WebSearchToolResultBlock? && p.content[|old(p.content)|].toolUseID == toolID
    ensures name == ToolWebSearch ==> (r.Pass? <==> WebSearchBlock(toolID, result, isError).Ok?)
    ensures name == ToolWebSearch && r.Fail? ==> r.error == WebSearchBlock(toolID, result, isError).error
    ensures name == ToolWebSearch && r.Pass? ==>
      p.content[|old(p.content)|] == WebSearchBlock(toolID, result, isError).value
    ensures !HasPrefix(name, StdPrefix) ==> (r.Pass? <==> GenericBody(result, isError, codec).Ok?)
    ensures !HasPrefix(name, StdPrefix) && r.Fail? ==> r.error == GenericBody(result, isError, codec).error
    ensures !HasPrefix(name, StdPrefix) && r.Pass? ==>
      p.content[|old(p.content)|] == ToolResultBlock(toolID, GenericBody(result, isError, codec).value, isError)
  {
    var block: ContentBlock;
    if HasPrefix(name, StdPrefix) {
      var conv := StdToolResultConv();
      if name !in conv {
        return Fail(ToolDispatch(Ascii("unsupported standard tool: ") + name));
      }
      match conv[name]
      case WebSearchConverter =>
        var c := WebSearchResultConv(toolID, result, isError);
        if c.Err? {
          return Fail(c.error);
        }
        block := c.value;
    } else {
      var body := GenericBody(result, isError, codec);
      if body.Err? {
        return Fail(body.error);
      }
      block := ToolResultBlock(toolID, body.value, isError);
    }
    p.content := p.content + [block];
    r := Pass;
  }
}
