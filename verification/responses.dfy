/** The native request shapes of the openai backend (the Responses API of the
    OpenAI SDK), as plain values. */
module Responses {
  import opened GoBase

  /** `ResponseInputContentUnionParam`: a part of an input message. */
  datatype InputContent =
    | InputText(text: Str)
    | InputImage(imageURL: Option<Str>, fileID: Option<Str>)
    | InputFile(fileURL: Option<Str>, fileID: Option<Str>, fileData: Option<Str>)

  datatype Role = RoleUser | RoleAssistant | RoleSystem

  datatype ReasoningContent = ReasoningText(text: Str)

  /** `ResponseInputItemUnionParam`. `NoItem` is its zero value, in which every
      variant pointer is nil. */
  datatype InputItem =
    | NoItem
    | Message(content: seq<InputContent>, role: Role)
    | Reasoning(id: Str, reasoning: seq<ReasoningContent>)
    | CustomToolCall(callID: Str, input: Str, name: Str)

  /** `ResponseNewParams`, with `Input` as its list of input items. */
  datatype ResponseNewParams = ResponseNewParams(
    input: seq<InputItem>,
    maxOutputTokens: Option<Int64>,
    model: Str,
    temperature: Option<Float64>,
    topP: Option<Float64>)

  const NoParams := ResponseNewParams([], None, [], None, None)
}
