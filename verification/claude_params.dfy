/** The claude parameter builder: each setter writes one field of the request
    parameters, so the last write wins, and `buildParams` hands them over as
    they are, without validation. */
module ClaudeParams {
  import opened GoBase
  import opened Anthropic
  import ClaudeMessage

  class Params {
    var params: MessageNewParams

    /** `Provider.Params`: every field unset. */
    constructor ()
      ensures params == NoParams
    {
      params := NoParams;
    }

    /** `System`: the text builder's blocks, in order. */
    method System(v: ClaudeMessage.TextBuilder)
      modifies this
      ensures params == old(params).(system := v.content)
    {
      params := params.(system := v.content);
    }

    /** `Messages`: the message builder's messages, in order. */
    method Messages(v: ClaudeMessage.MsgBuilder)
      modifies this
      ensures params == old(params).(messages := v.msgs)
    {
      params := params.(messages := v.msgs);
    }

    method MaxTokens(v: Int64)
      modifies this
      ensures params == old(params).(maxTokens := v)
    {
      params := params.(maxTokens := v);
    }

    method Model(model: Str)
      modifies this
      ensures params == old(params).(model := model)
    {
      params := params.(model := model);
    }

    method Container(v: Str)
      modifies this
      ensures params == old(params).(container := Some(v))
    {
      params := params.(container := Some(v));
    }

    method InferenceGeo(v: Str)
      modifies this
      ensures params == old(params).(inferenceGeo := Some(v))
    {
      params := params.(inferenceGeo := Some(v));
    }

    method Temperature(v: Float64)
      modifies this
      ensures params == old(params).(temperature := Some(v))
    {
      params := params.(temperature := Some(v));
    }

    method TopK(v: Int64)
      modifies this
      ensures params == old(params).(topK := Some(v))
    {
      params := params.(topK := Some(v));
    }

    method TopP(v: Float64)
      modifies this
      ensures params == old(params).(topP := Some(v))
    {
      params := params.(topP := Some(v));
    }

    /** `buildParams`: the accumulated parameters, unchanged. */
    method BuildParams() returns (r: MessageNewParams)
      ensures r == params
    {
      r := params;
    }
  }

  /** Setting a field twice keeps the second value, and fields that were never
      set stay unset. */
  method LastWriteWins(first: Int64, second: Int64, model: Str) returns (r: MessageNewParams)
    ensures r.maxTokens == second && r.model == model
    ensures r.system == [] && r.messages == []
    ensures r.container == None && r.inferenceGeo == None
    ensures r.temperature == None && r.topK == None && r.topP == None
  {
    var p := new Params();
    p.MaxTokens(first);
    p.Model(model);
    p.MaxTokens(second);
    r := p.BuildParams();
  }
}
