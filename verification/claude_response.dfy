/** The claude response adapter: a response message turned back into a content
    builder, so that it can be replayed as an assistant turn. */
module ClaudeResponse {
  import opened GoBase
  import opened Anthropic
  import ClaudeMessage

  /** A response message, holding the SDK's response blocks of type `R`. */
  datatype Message<R> = Message(content: seq<R>)

  /** `message.AsContent`: a fresh builder holding one block per response block,
      block i being `toParam` of response block i. `toParam` is the SDK's
      conversion of a response block into a request block. */
  method AsContent<R>(m: Message<R>, toParam: R -> ContentBlock) returns (cb: ClaudeMessage.ContentBuilder)
    ensures fresh(cb)
    ensures |cb.content| == |m.content|
    ensures forall i :: 0 <= i < |m.content| ==> cb.content[i] == toParam(m.content[i])
  {
    var content := new ContentBlock[|m.content|];
    var i := 0;
    while i < |m.content|
      invariant 0 <= i <= |m.content| == content.Length
      invariant forall k :: 0 <= k < i ==> content[k] == toParam(m.content[k])
    {
      content[i] := toParam(m.content[i]);
      i := i + 1;
    }
    cb := new ClaudeMessage.ContentBuilder.Of(content[..]);
  }

  /** `buildMsgIter`, the adapter of a response stream, is not implemented. */
  method BuildMsgIter() returns (r: Outcome)
    ensures r == Fail(Unsupported("buildMsgIter"))
  {
    r := Fail(Unsupported("buildMsgIter"));
  }
}
