/** The gemini parameter builder: model, contents and generation config, each
    written by its setters (the last write wins) and handed over unchanged. */
module GeminiParams {
  import opened GoBase
  import opened Genai
  import GeminiMessage

  class Params {
    var model: Str
    var contents: seq<Content>
    var config: GenerateContentConfig

    /** `Provider.Params`: every field unset. */
    constructor ()
      ensures model == [] && contents == [] && config == NoConfig
    {
      model, contents, config := [], [], NoConfig;
    }

    /** `System`: the text builder's parts as the system instruction, with no role. */
    method System(v: GeminiMessage.TextBuilder)
      modifies this
      ensures config == old(config).(systemInstruction := Some(v.BuildTexts()))
      ensures model == old(model) && contents == old(contents)
    {
      config := config.(systemInstruction := Some(v.BuildTexts()));
    }

    /** `Messages`: the message builder's contents, in order. */
    method Messages(v: GeminiMessage.MsgBuilder)
      modifies this
      ensures contents == v.msgs && model == old(model) && config == old(config)
    {
      contents := v.msgs;
    }

    /** `MaxTokens`: narrowed by Go's `int32(v)`, so a value that does not fit
        keeps only its low 32 bits. */
    method MaxTokens(v: Int64)
      modifies this
      ensures config == old(config).(maxOutputTokens := ToInt32(v))
      ensures -0x8000_0000 <= v < 0x8000_0000 ==> config.maxOutputTokens == v
      ensures (v - config.maxOutputTokens) % 0x1_0000_0000 == 0
      ensures model == old(model) && contents == old(contents)
    {
      config := config.(maxOutputTokens := ToInt32(v));
    }

    method Model(model: Str)
      modifies this
      ensures this.model == model && contents == old(contents) && config == old(config)
    {
      this.model := model;
    }

    /** `Container` is accepted and ignored. */
    method Container(v: Str)
      ensures unchanged(this)
    {
    }

    /** `InferenceGeo` is accepted and ignored. */
    method InferenceGeo(v: Str)
      ensures unchanged(this)
    {
    }

    method Temperature(v: Float64)
      modifies this
      ensures config == old(config).(temperature := Some(Float32Of(v)))
      ensures model == old(model) && contents == old(contents)
    {
      config := config.(temperature := Some(Float32Of(v)));
    }

    /** `TopK`: stored as a `float32`. */
    method TopK(v: Int64)
      modifies this
      ensures config == old(config).(topK := Some(Float32OfInt(v)))
      ensures model == old(model) && contents == old(contents)
    {
      config := config.(topK := Some(Float32OfInt(v)));
    }

    method TopP(v: Float64)
      modifies this
      ensures config == old(config).(topP := Some(Float32Of(v)))
      ensures model == old(model) && contents == old(contents)
    {
      config := config.(topP := Some(Float32Of(v)));
    }

    /** `buildParams`: model, contents and config as accumulated. */
    method BuildParams() returns (m: Str, c: seq<Content>, cfg: GenerateContentConfig)
      ensures m == model && c == contents && cfg == config
    {
      m, c, cfg := model, contents, config;
    }
  }

  /** Setting the token limit twice keeps the second value, narrowed; the other
      fields stay unset. A limit of 2^31 wraps to -2^31. */
  method LastWriteWins(first: Int64, second: Int64) returns (cfg: GenerateContentConfig)
    ensures cfg == NoConfig.(maxOutputTokens := ToInt32(second))
    ensures second == 0x8000_0000 ==> cfg.maxOutputTokens == -0x8000_0000
  {
    var p := new Params();
    p.MaxTokens(first);
    p.MaxTokens(second);
    var m, c;
    m, c, cfg := p.BuildParams();
  }
}
