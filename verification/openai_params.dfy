/** The openai parameter builder. The system prompt and the message builder are
    only recorded by their setters; `buildParams` merges them into the input
    list, using the message builder's reserved slot for the system message. */
module OpenAIParams {
  import opened GoBase
  import opened Responses
  import OpenAIMessage

  /** The system message `buildParams` makes of the stored system texts: none
      (the zero item) when there are none, otherwise one system-role message
      holding them in order. */
  function SystemItem(sys: seq<InputContent>): (r: InputItem)
    ensures r.Message? <==> |sys| > 0
    ensures r.Message? ==> r.role == RoleSystem && r.content == sys
  {
    if |sys| > 0 then Message(sys, RoleSystem) else NoItem
  }

  class Params {
    var params: ResponseNewParams
    var sys: seq<InputContent>
    var msgs: OpenAIMessage.MsgBuilder?

    /** `Provider.Params`: every field unset. */
    constructor ()
      ensures params == NoParams && sys == [] && msgs == null
    {
      params, sys, msgs := NoParams, [], null;
    }

    /** `System`: stores the text builder's entries. */
    method System(v: OpenAIMessage.TextBuilder)
      modifies this
      ensures sys == v.content && params == old(params) && msgs == old(msgs)
    {
      sys := v.content;
    }

    /** `Messages`: records the builder; nothing is translated until `buildParams`. */
    method Messages(v: OpenAIMessage.MsgBuilder)
      modifies this
      ensures msgs == v && params == old(params) && sys == old(sys)
    {
      msgs := v;
    }

    method MaxTokens(v: Int64)
      modifies this
      ensures params == old(params).(maxOutputTokens := Some(v))
      ensures sys == old(sys) && msgs == old(msgs)
    {
      params := params.(maxOutputTokens := Some(v));
    }

    method Model(model: Str)
      modifies this
      ensures params == old(params).(model := model)
      ensures sys == old(sys) && msgs == old(msgs)
    {
      params := params.(model := model);
    }

    /** `Container` is accepted and ignored. */
    method Container(v: Str)
      ensures unchanged(this)
    {
    }

    /** `InferenceGeo` is accepted and ignored. */
    method InferenceGeo(v: Str)
      ensures unchanged(this)
    {
    }

    method Temperature(v: Float64)
      modifies this
      ensures params == old(params).(temperature := Some(v))
      ensures sys == old(sys) && msgs == old(msgs)
    {
      params := params.(temperature := Some(v));
    }

    /** `TopK` is accepted and ignored: the backend has no top-k parameter. */
    method TopK(v: Int64)
      ensures unchanged(this)
    {
    }

    method TopP(v: Float64)
      modifies this
      ensures params == old(params).(topP := Some(v))
      ensures sys == old(sys) && msgs == old(msgs)
    {
      params := params.(topP := Some(v));
    }

    /** `buildParams`: the input list is the recorded message builder's items,
        preceded by a system message exactly when system texts were stored.
        The system message is written into the builder's reserved slot, which
        stays reserved, so the builder can take more turns and be built again.
        Without a recorded message builder the type assertion fails. */
    method BuildParams() returns (r: Result<ResponseNewParams>)
      requires msgs != null ==> msgs.Valid()
      modifies this, msgs
      ensures msgs == old(msgs) && sys == old(sys)
      ensures old(msgs) == null <==> r.Err?
      ensures r.Err? ==> r.error == BadType("*msgBuilder") && params == old(params)
      ensures r.Ok? ==> r.value == params && params == old(params).(input := params.input)
      ensures r.Ok? && |sys| == 0 ==> params.input == old(msgs.msgs)[1..]
      ensures r.Ok? && |sys| > 0 ==>
        params.input == [Message(sys, RoleSystem)] + old(msgs.msgs)[1..]
      ensures msgs != null ==> msgs.Valid()
      ensures msgs != null ==>
        msgs.msgs == (if |sys| > 0 then old(msgs.msgs)[0 := SystemItem(sys)] else old(msgs.msgs))
    {
      if msgs == null {
        return Err(BadType("*msgBuilder"));
      }
      var input := msgs.BuildMessages(SystemItem(sys));
      params := params.(input := input);
      r := Ok(params);
    }
  }
}
