/** Tool calls on the openai content builder (the older tool signatures, built
    on the content builder of the newer message revision). */
module OpenAITool {
  import opened GoBase
  import opened Xai
  import opened Responses
  import OpenAIMessage

  /** `SearchResult` is not implemented for this backend. */
  method SearchResult(p: OpenAIMessage.ContentBuilder, content: OpenAIMessage.TextBuilder, source: Str, title: Str)
    returns (r: Outcome)
    ensures r == Fail(Unsupported("SearchResult"))
  {
    r := Fail(Unsupported("SearchResult"));
  }

  /** `ToolUse`: the input must hold a Go string. The call is appended as one
      custom-tool-call item through `addNonMsg`, so it closes any open message
      and the next part starts a new message item. */
  method ToolUse(p: OpenAIMessage.ContentBuilder, id: Str, input: Value, name: Str) returns (r: Outcome)
    requires p.Valid()
    modifies p
    ensures p.Valid()
    ensures r.Pass? <==> input.String?
    ensures r.Fail? ==> r.error == BadType("string") && p.content == old(p.content) && p.open == old(p.open)
    ensures r.Pass? ==> p.content == old(p.content) + [CustomToolCall(id, input.s, name)] && !p.open
  {
    if !input.String? {
      return Fail(BadType("string"));
    }
    p.AddNonMsg(CustomToolCall(id, input.s, name));
    r := Pass;
  }

  /** `ToolResult` is not implemented for this backend. */
  method ToolResult(p: OpenAIMessage.ContentBuilder, toolUseID: Str, content: Value, isError: bool) returns (r: Outcome)
    ensures r == Fail(Unsupported("ToolResult"))
  {
    r := Fail(Unsupported("ToolResult"));
  }

  /** `ServerToolUse` is not implemented for this backend. */
  method ServerToolUse(p: OpenAIMessage.ContentBuilder, id: Str, input: Value, name: Str) returns (r: Outcome)
    ensures r == Fail(Unsupported("ServerToolUse"))
  {
    r := Fail(Unsupported("ServerToolUse"));
  }
}
