/** The native request shapes of the gemini backend (the genai SDK), as plain
    values. The SDK's `NewPartFrom*` helpers are the functions below. */
module Genai {
  import opened GoBase
  import opened Xai

  datatype Blob = Blob(data: Bytes, displayName: Str, mimeType: Str)

  datatype FileData = FileData(fileURI: Str, mimeType: Str)

  datatype FunctionCall = FunctionCall(name: Str, args: map<Str, Value>)

  datatype FunctionResponse = FunctionResponse(name: Str, response: map<Str, Value>)

  /** `genai.Part`: a struct whose unset fields are empty. */
  datatype Part = Part(
    text: Str,
    thought: bool,
    thoughtSignature: Bytes,
    inlineData: Option<Blob>,
    fileData: Option<FileData>,
    functionCall: Option<FunctionCall>,
    functionResponse: Option<FunctionResponse>)

  const EmptyPart := Part([], false, [], None, None, None, None)

  function NewPartFromText(text: Str): Part {
    EmptyPart.(text := text)
  }

  function NewPartFromURI(uri: Str, mime: Str): Part {
    EmptyPart.(fileData := Some(FileData(uri, mime)))
  }

  function NewPartFromBytes(data: Bytes, mime: Str): Part {
    EmptyPart.(inlineData := Some(Blob(data, [], mime)))
  }

  function NewPartFromFunctionCall(name: Str, args: map<Str, Value>): Part {
    EmptyPart.(functionCall := Some(FunctionCall(name, args)))
  }

  function NewPartFromFunctionResponse(name: Str, response: map<Str, Value>): Part {
    EmptyPart.(functionResponse := Some(FunctionResponse(name, response)))
  }

  const RoleUser: Str := Ascii("user")
  const RoleModel: Str := Ascii("model")

  /** `genai.Content`; a role of "" is unset. */
  datatype Content = Content(parts: seq<Part>, role: Str)

  /** A `float32` made by Go's conversion from a `float64` or an `int64`; the
      rounding is not modelled, so the conversion is kept as a constructor. */
  datatype Float32 = Float32Of(x: Float64) | Float32OfInt(n: Int64)

  datatype GenerateContentConfig = GenerateContentConfig(
    systemInstruction: Option<Content>,
    maxOutputTokens: Int32,
    temperature: Option<Float32>,
    topK: Option<Float32>,
    topP: Option<Float32>)

  const NoConfig := GenerateContentConfig(None, 0, None, None, None)

  /** A response candidate; a nil `Content` is `None`. */
  datatype Candidate = Candidate(content: Option<Content>)

  datatype GenerateContentResponse = GenerateContentResponse(candidates: seq<Candidate>)
}
