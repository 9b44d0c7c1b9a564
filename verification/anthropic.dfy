/** The native request shapes of the claude backend (the Anthropic SDK's beta
    message parameters), as plain values. Constructors of the SDK such as
    `NewBetaTextBlock` are the datatype constructors here. */
module Anthropic {
  import opened GoBase
  import opened Xai

  datatype TextBlockParam = TextBlockParam(text: Str)

  datatype ImageSource =
    | Base64ImageSource(data: Str, mediaType: Str)
    | URLImageSource(url: Str)
    | FileImageSource(fileID: Str)

  /** An item of a multipart document; only the string form is ever built. */
  datatype SourcePart = StringPart(text: Str)

  datatype DocumentSource =
    | Base64PDFSource(data: Str)
    | PlainTextSource(data: Str)
    | URLPDFSource(url: Str)
    | FileDocumentSource(fileID: Str)
    | ContentBlockSource(parts: seq<SourcePart>)

  datatype WebSearchResultBlockParam =
    WebSearchResultBlockParam(encryptedContent: Str, title: Str, url: Str, pageAge: Option<Str>)

  datatype WebSearchToolResultContent =
    | RequestError(errorCode: Str)
    | ResultBlocks(items: seq<WebSearchResultBlockParam>)

  /** `BetaContentBlockParamUnion`. */
  datatype ContentBlock =
    | TextBlock(text: Str)
    | ImageBlock(image: ImageSource)
    | DocumentBlock(document: DocumentSource)
    | SearchResultBlock(texts: seq<TextBlockParam>, source: Str, title: Str)
    | ThinkingBlock(signature: Str, thinking: Str)
    | RedactedThinkingBlock(data: Str)
    | ToolUseBlock(id: Str, input: Value, name: Str)
    | ToolResultBlock(toolUseID: Str, content: Str, isError: bool)
    | ServerToolUseBlock(id: Str, input: Value, name: Str)
    | WebSearchToolResultBlock(toolUseID: Str, result: WebSearchToolResultContent)

  datatype Role = User | Assistant

  datatype MessageParam = MessageParam(role: Role, content: seq<ContentBlock>)

  /** `MessageNewParams`; an optional field that was never set is `None`. */
  datatype MessageNewParams = MessageNewParams(
    system: seq<TextBlockParam>,
    messages: seq<MessageParam>,
    maxTokens: Int64,
    model: Str,
    container: Option<Str>,
    inferenceGeo: Option<Str>,
    temperature: Option<Float64>,
    topK: Option<Int64>,
    topP: Option<Float64>)

  /** The zero value of `MessageNewParams`. */
  const NoParams := MessageNewParams([], [], 0, [], None, None, None, None, None)
}
