/** The gemini response adapter: the candidates of a response, and a candidate
    turned back into a content builder. */
module GeminiResponse {
  import opened GoBase
  import opened Genai
  import GeminiMessage

  /** `response.Len`: the number of candidates. */
  function Len(resp: GenerateContentResponse): (n: nat)
    ensures n == |resp.candidates|
  {
    |resp.candidates|
  }

  /** `response.At`: the i-th candidate; Go's slice indexing demands i < Len. */
  function At(resp: GenerateContentResponse, i: int): (c: Candidate)
    requires 0 <= i < Len(resp)
    ensures c == resp.candidates[i]
  {
    resp.candidates[i]
  }

  /** The parts a candidate carries: none when its content is nil. */
  function Parts(c: Candidate): (parts: seq<Part>)
    ensures c.content.None? ==> parts == []
    ensures c.content.Some? ==> parts == c.content.value.parts
  {
    if c.content.Some? then c.content.value.parts else []
  }

  /** `candidate.AsContent`: a fresh builder over the candidate's parts, in order. */
  method AsContent(c: Candidate) returns (cb: GeminiMessage.ContentBuilder)
    ensures fresh(cb) && cb.content == Parts(c)
  {
    cb := new GeminiMessage.ContentBuilder.Of(Parts(c));
  }

  /** Replaying a candidate as an assistant turn gives back its parts under the
      "model" role. */
  method Replay(c: Candidate) returns (msg: Content)
    ensures c.content.Some? ==> msg == c.content.value.(role := RoleModel)
    ensures c.content.None? ==> msg == Content([], RoleModel)
  {
    var cb := AsContent(c);
    var mb := new GeminiMessage.MsgBuilder();
    mb.Assistant(cb);
    msg := mb.msgs[0];
  }
}
