# xai backend translation layer, modelled in Dafny

`xai` gives one builder API for generating content with three model providers
(claude, openai, gemini). A caller describes a request by calls on builders:
content builders collect the parts of a turn, message builders collect turns,
text builders collect system texts, and parameter builders collect the model
settings. Each backend turns those calls into its own SDK's request values.
This project models that translation layer for the three backends:

- the content, message, text and multipart builders of each backend;
- the tool-use and tool-result calls, including the dispatch of standard
  (`std/`-prefixed) tool results to a per-backend converter table;
- the image and document constructors, with standard base64 (section 4 of
  RFC 4648) and openai's `data:` URLs (section 3 of RFC 2397);
- the parameter builders, including gemini's `int32` narrowing of the token limit;
- the response adapters that turn a response back into a content builder.

The shown sources mix two API revisions of the same package types. Each revision
is a separate module. The older one is `ClaudeContent`, `GeminiContent` and
`OpenAIContent`. The newer one is `*Message`, `*Tool`, `*Data`, `*Params` and
`*Response`. openai's tool calls use the older signatures on the newer content
builder, so `OpenAITool` works on `OpenAIMessage.ContentBuilder`.

Modelling conventions:

- Go `string` and `[]byte` are both `seq<byte>` (`GoBase.Str`, `GoBase.Bytes`),
  so the `unsafe` reinterpretations between them are the identity.
- Every `panic` is a failure outcome (`Outcome.Fail` or `Result.Err`), never a
  silent success. A `panic("todo")` becomes `Unsupported`. A failed type
  assertion becomes `BadType`. A missing standard converter becomes
  `ToolDispatch`, a JSON failure `MarshalFailed` or `InvalidToolResult`.
  A failed call leaves its builder unchanged.
- A Go value of type `any` is `Xai.Value`, by the dynamic type it holds.
- `encoding/json` is a parameter (`Xai.Json`): marshalling and unmarshalling are
  functions that return a value or an error, and they are not interpreted.
- A read from an `io.Reader` is a parameter `Call<Bytes>`: the bytes read, or
  the read error.
- SDK constructors (`NewBeta*Block`, `genai.NewPartFrom*`,
  `responses.*ParamOf*`) are datatype constructors, or the small functions in `Genai`.
- Builders whose Go methods update fields in place are classes. Each method
  states its whole new state with `old(...)`. Pure constructors are functions.
- Go methods defined in a tool file on the content builder are module-level
  methods taking the builder `p`. Dafny cannot split a class across modules, and
  the two revisions' `ToolUse`/`ToolResult` differ.
- Each openai content builder keeps a ghost record `calls` of every part and item
  accepted, in call order. Its invariant `Valid()` says that flattening the
  items (message parts, then stand-alone items) gives back exactly `calls`. The
  Go `msg` pointer is the flag `open`: the last item is a message that still
  takes parts.

## Model

| member | source | states |
|---|---|---|
| GoBase.ToInt32 | gemini/params.go:42-45 | `int32(v)` equals `v` when `v` fits in 32 bits, and always differs from `v` by a multiple of 2^32 |
| GoBase.ToInt32IsLowBits | gemini/params.go:43 | any `int32` congruent to `v` modulo 2^32 is `int32(v)`, so the stored limit is exactly the low 32 bits in two's complement |
| Base64.Encode | claude/data.go:58 | the standard encoding has 4 characters per started group of 3 bytes, each in the alphabet or the padding character |
| Base64.DecodeSextet | gemini/data.go:65 | an alphabet character decodes to the unique 6-bit value that encodes to it |
| Base64.StripNewlines | gemini/data.go:65 | the decoder's input with CR and LF skipped contains neither and is no longer |
| Base64.Decode | gemini/data.go:65 | a decoded string, with newlines skipped, is whole 4-character groups; it yields at most 3 bytes per 4 input characters; newline-free input that decodes has a length divisible by 4 |
| Base64.DecodeQuantaLength | gemini/data.go:65 | padded decoding accepts only whole groups and yields at most 3 bytes per group |
| Base64.DecodeEncode | gemini/data.go:64-74 | decoding the standard encoding of any bytes gives those bytes back |
| Base64.DecodeQuantaEncode | gemini/data.go:65 | every group of the encoding, including a padded last group, decodes to the bytes it came from |
| Base64.QuantumRoundTrip | claude/data.go:58 | a full 3-byte group encodes to 4 alphabet characters that decode to the same 3 bytes |
| Xai.StdPrefixOfWebSearch | tool.go:21-25 | the web-search tool name carries the reserved `std/` prefix, which both backends' converter tables rely on |
| OpenAIData.PayloadOfDataURL | openai/data.go:41-46 | the payload of a `data:<mime>;base64,<payload>` URL is recovered exactly, whatever the MIME type |
| OpenAIData.MakeInputData | openai/data.go:40-65 | fails exactly on a read error, which it returns; otherwise FileData is `data:` + mime + `;base64,` + payload; a base64 string is the payload verbatim, and bytes or read data give exactly their standard encoding, which decodes back to them |
| OpenAIData.ImageType | openai/data.go:67-69 | the image type is the MIME type the data was made for |
| OpenAIData.DocumentType | openai/data.go:71-73 | the document type is likewise the MIME type the data was made for |
| OpenAIData.ImageFrom | openai/data.go:80-82 | the read error, or an image of the given type whose FileData is the data URL of the standard encoding of the bytes read, which decodes back to them |
| OpenAIData.ImageFromBytes | openai/data.go:93-96 | never fails; the image has the given type and its FileData is the data URL of the standard encoding of the bytes, which decodes back to them |
| OpenAIData.ImageFromBase64 | openai/data.go:98-100 | never fails; the string is the payload verbatim, under the given type |
| OpenAIData.DocFrom | openai/data.go:111-113 | the read error, or a document of the given type whose FileData is the data URL of the standard encoding of the bytes read, which decodes back to them |
| OpenAIData.DocFromBase64 | openai/data.go:124-126 | never fails; the string is the payload verbatim |
| OpenAIData.DocFromBytes | openai/data.go:128-131 | never fails; the document has the given type and its FileData is the data URL of the standard encoding of the bytes, which decodes back to them |
| OpenAIData.PlainText | openai/data.go:133-137 | a `text/plain` document whose FileData is the data URL of the standard encoding of the text's bytes, which decodes back to them |
| OpenAIMessage.FlattenSnoc | openai/message.go:84 | appending one item adds exactly that item's calls at the end of the flattened sequence |
| OpenAIMessage.FlattenIgnoresRoles | openai/message.go:36-45 | switching message items to the assistant role leaves the flattened calls unchanged: no part is lost, added or reordered |
| OpenAIMessage.ContentBuilder.constructor | openai/message.go:148-150 | a fresh content builder has no items, no open message and no calls |
| OpenAIMessage.WithPartAddsOneCall | openai/message.go:72-81 | adding a part, whether appended to the open message or as a new user message, adds exactly that one call to the flattened calls and changes none before it |
| OpenAIMessage.ContentBuilder.AddMsg | openai/message.go:72-81 | with no open message, appends a new user message holding exactly the part; with one open, appends the part to the end of that last message and leaves every other item as it was (`WithPart`); the part is the last call and the message stays open |
| OpenAIMessage.ContentBuilder.AddNonMsg | openai/message.go:83-87 | appends exactly one item, records it as the last call and closes the open message |
| OpenAIMessage.ContentBuilder.Text | openai/message.go:89-91 | an input-text part; the new items are exactly `WithPart` of the old ones: appended to the open message, or a new user message holding only this part |
| OpenAIMessage.ContentBuilder.Image | openai/message.go:93-95 | unsupported |
| OpenAIMessage.ContentBuilder.ImageURL | openai/message.go:97-103 | an input-image part with the URL only (the MIME type is dropped); the new items are exactly `WithPart` of the old ones: appended to the open message, or a new user message holding only this part |
| OpenAIMessage.ContentBuilder.ImageFile | openai/message.go:105-111 | an input-image part with the file ID only; the new items are exactly `WithPart` of the old ones: appended to the open message, or a new user message holding only this part |
| OpenAIMessage.ContentBuilder.Doc | openai/message.go:113-115 | unsupported |
| OpenAIMessage.ContentBuilder.DocURL | openai/message.go:117-123 | an input-file part with the URL only; the new items are exactly `WithPart` of the old ones: appended to the open message, or a new user message holding only this part |
| OpenAIMessage.ContentBuilder.DocFile | openai/message.go:125-131 | an input-file part with the file ID only; the new items are exactly `WithPart` of the old ones: appended to the open message, or a new user message holding only this part |
| OpenAIMessage.ContentBuilder.Thinking | openai/message.go:133-142 | one reasoning item with ID = signature and a single content entry whose text is the thinking; closes the open message |
| OpenAIMessage.ContentBuilder.RedactedThinking | openai/message.go:144-146 | unsupported |
| OpenAIMessage.MsgBuilder.constructor | openai/message.go:47-51 | a fresh message builder holds one reserved, empty slot |
| OpenAIMessage.MsgBuilder.User | openai/message.go:31-34 | appends the content builder's items unchanged and in order |
| OpenAIMessage.MsgBuilder.Assistant | openai/message.go:36-45 | appends the content builder's items in order, message items with the assistant role and other items untouched |
| OpenAIMessage.MsgBuilder.BuildMessages | openai/message.go:53-63 | a system message is written into slot 0 of the builder's own list, which is returned; otherwise the result is exactly the appended items |
| OpenAIMessage.TextBuilder.constructor | openai/message.go:167-169 | a fresh text builder is empty |
| OpenAIMessage.TextBuilder.Text | openai/message.go:162-165 | appends one input-text entry per call, in order |
| OpenAIMessage.Tools | openai/message.go:177-179 | unsupported |
| OpenAITool.SearchResult | openai/tool.go:26-28 | unsupported |
| OpenAITool.ToolUse | openai/tool.go:30-32 | succeeds exactly for a string input; then appends one custom-tool-call item with id, input and name and closes the open message; otherwise a type failure with nothing changed |
| OpenAITool.ToolResult | openai/tool.go:34-37 | unsupported |
| OpenAITool.ServerToolUse | openai/tool.go:39-41 | unsupported |
| OpenAIParams.SystemItem | openai/params.go:87-90 | a message is made exactly when there are system texts, with the system role and those texts |
| OpenAIParams.Params.constructor | openai/params.go:79-81 | fresh parameters are unset, with no system texts and no message builder |
| OpenAIParams.Params.System | openai/params.go:34-37 | stores the text builder's entries and nothing else |
| OpenAIParams.Params.Messages | openai/params.go:39-44 | only records the message builder |
| OpenAIParams.Params.MaxTokens | openai/params.go:46-49 | sets only the output-token limit, to the given value |
| OpenAIParams.Params.Model | openai/params.go:51-54 | sets only the model |
| OpenAIParams.Params.Container | openai/params.go:56-58 | changes nothing |
| OpenAIParams.Params.InferenceGeo | openai/params.go:60-62 | changes nothing |
| OpenAIParams.Params.Temperature | openai/params.go:64-67 | sets only the temperature |
| OpenAIParams.Params.TopK | openai/params.go:69-72 | changes nothing |
| OpenAIParams.Params.TopP | openai/params.go:74-77 | sets only top-p |
| OpenAIParams.Params.BuildParams | openai/params.go:83-93 | fails exactly when no message builder was recorded; otherwise only the input changes: the appended items with the slot dropped when there are no system texts, else the system message followed by the appended items; the system message is written into the builder's reserved slot (openai/message.go:53-63), which stays valid, so the builder can take more turns and be built again |
| OpenAIContent.MsgBuilder.constructor | openai/content.go:38-42 | a fresh message builder holds one reserved slot |
| OpenAIContent.MsgBuilder.User | openai/content.go:30-32 | takes a content argument and ignores it; changes nothing in this revision |
| OpenAIContent.MsgBuilder.Assistant | openai/content.go:34-36 | takes a content argument and ignores it; changes nothing in this revision |
| OpenAIContent.MsgBuilder.BuildMessages | openai/content.go:44-54 | a system message goes into slot 0; otherwise the slot is dropped |
| OpenAIContent.BuildFresh | openai/content.go:30-54 | whatever user and assistant turns were added, a message builder of this revision yields just the system message, or an empty list |
| OpenAIContent.Contents | openai/content.go:58-60 | unsupported |
| OpenAIContent.Parts | openai/content.go:64-66 | unsupported |
| OpenAIContent.TextBuilder.constructor | openai/content.go:79-81 | a fresh text builder is empty |
| OpenAIContent.TextBuilder.Text | openai/content.go:74-77 | appends one input-text entry per call, in order |
| OpenAIContent.Tools | openai/content.go:89-91 | unsupported |
| ClaudeData.ImageFromBytes | claude/data.go:56-61 | the image type is the given MIME type and the data decodes back to the bytes |
| ClaudeData.ImageType | claude/data.go:33-35 | the image type is the media type of the base64 source |
| ClaudeData.ImageFromBase64 | claude/data.go:63-68 | never fails; the string is stored verbatim under the given type |
| ClaudeData.ImageFrom | claude/data.go:40-46 | fails exactly on a read error; otherwise an image of the given type whose data decodes to the bytes read |
| ClaudeData.FromText | claude/data.go:137-144 | a plain-text document block holding the text, typed `text/plain`; `docBuilder.PlainText` (claude/data.go:112-114) is this function |
| ClaudeData.FromBase64 | claude/data.go:123-135 | succeeds exactly for `application/pdf`, with a base64 PDF block holding the string verbatim; any other type is unsupported |
| ClaudeData.FromBytes | claude/data.go:116-121 | succeeds exactly for plain text (the bytes as the text) and PDF (a base64 PDF block holding exactly the standard encoding of the bytes), typed as requested; any other type is unsupported |
| ClaudeData.DocumentType | claude/data.go:81-83 | the document type is the MIME type recorded beside the block |
| ClaudeData.FromBytesKeepsContent | claude/data.go:116-121 | a document from bytes exists exactly for plain text and PDF, has the requested type, and carries exactly those bytes |
| ClaudeData.DocFrom | claude/data.go:88-94 | the read error, or a document of the given type carrying the bytes read when that type is supported |
| ClaudeMessage.TextBuilder.constructor | claude/message.go:159-161 | a fresh text builder is empty |
| ClaudeMessage.TextBuilder.Text | claude/message.go:154-157 | appends one text block per call, in order |
| ClaudeMessage.ContentBuilder.constructor | claude/message.go:140-142 | a fresh content builder is empty |
| ClaudeMessage.ContentBuilder.Of | claude/response.go:38 | a builder over exactly the given blocks |
| ClaudeMessage.ContentBuilder.Text | claude/message.go:57-60 | appends one text block |
| ClaudeMessage.ContentBuilder.Image | claude/message.go:62-67 | appends one image block with the image data's payload and media type unchanged |
| ClaudeMessage.ContentBuilder.ImageURL | claude/message.go:69-76 | appends one URL image block; the MIME type is dropped |
| ClaudeMessage.ContentBuilder.ImageFile | claude/message.go:78-85 | appends one file image block; the MIME type is dropped |
| ClaudeMessage.ContentBuilder.Doc | claude/message.go:87-90 | appends the document data's prebuilt block |
| ClaudeMessage.ContentBuilder.DocURL | claude/message.go:92-100 | succeeds exactly for `application/pdf`, appending one URL PDF block; otherwise unsupported and nothing appended |
| ClaudeMessage.ContentBuilder.DocFile | claude/message.go:102-107 | appends one file document block |
| ClaudeMessage.ContentBuilder.SearchResult | claude/message.go:109-112 | appends one search-result block with the text builder's blocks in order, the source and the title |
| ClaudeMessage.ContentBuilder.Thinking | claude/message.go:114-117 | appends one thinking block |
| ClaudeMessage.ContentBuilder.RedactedThinking | claude/message.go:119-122 | appends one redacted-thinking block |
| ClaudeMessage.ContentBuilder.ToolUse | claude/message.go:124-127 | appends one tool-use block with id, input and name |
| ClaudeMessage.ContentBuilder.ToolResult | claude/message.go:129-133 | succeeds exactly for string content, appending one tool-result block; otherwise a type failure with nothing appended |
| ClaudeMessage.ContentBuilder.ServerToolUse | claude/message.go:135-138 | appends one server-tool-use block |
| ClaudeMessage.MsgBuilder.constructor | claude/message.go:43-45 | a fresh message builder is empty |
| ClaudeMessage.MsgBuilder.User | claude/message.go:30-33 | appends one user message carrying the builder's blocks in order |
| ClaudeMessage.MsgBuilder.Assistant | claude/message.go:35-41 | appends one assistant message carrying the builder's blocks in order |
| ClaudeMessage.Tools | claude/message.go:169-171 | unsupported |
| ClaudeTool.ToolUse | claude/tool.go:31-34 | appends exactly one tool-use block with (toolID, input, name) |
| ClaudeTool.StdToolResultConv | claude/tool.go:45-47 | web search is registered, and every registered name carries the `std/` prefix, so it is dispatched to its converter |
| ClaudeTool.WebSearchBlock | claude/tool.go:49-69 | an error report becomes a request-error block whose code is the message (anything else fails the `error` assertion); a search result becomes one block per item in order, copying content, title and URL, with the page age present exactly when non-empty; it succeeds exactly when every underlying value is a string; a wrong dynamic type fails |
| ClaudeTool.WebSearchResultConv | claude/tool.go:49-69 | the array loop returns exactly `WebSearchBlock` of its inputs |
| ClaudeTool.GenericBody | claude/tool.go:89-100 | the body of a non-standard result: raw text verbatim even for errors, else an error report's message, else the JSON text, with a marshal error as failure |
| ClaudeTool.ToolResult | claude/tool.go:78-105 | an unregistered `std/` name fails with "unsupported standard tool: <name>" and is never encoded generically; `std/web_search` passes exactly when `WebSearchBlock` succeeds, appending its block or failing with its error; other names get one tool-result block with the generic body, the tool ID and the error flag; exactly one block on success, none on failure |
| ClaudeParams.Params.constructor | claude/params.go:76-78 | fresh parameters have every field unset |
| ClaudeParams.Params.System | claude/params.go:31-34 | writes only the system blocks |
| ClaudeParams.Params.Messages | claude/params.go:36-39 | writes only the message list |
| ClaudeParams.Params.MaxTokens | claude/params.go:41-44 | writes only the token limit, as given |
| ClaudeParams.Params.Model | claude/params.go:46-49 | writes only the model |
| ClaudeParams.Params.Container | claude/params.go:51-54 | writes only the container, as a present value |
| ClaudeParams.Params.InferenceGeo | claude/params.go:56-59 | writes only the inference geography, as a present value |
| ClaudeParams.Params.Temperature | claude/params.go:61-64 | writes only the temperature, as a present value |
| ClaudeParams.Params.TopK | claude/params.go:66-69 | writes only top-k, as a present value |
| ClaudeParams.Params.TopP | claude/params.go:71-74 | writes only top-p, as a present value |
| ClaudeParams.Params.BuildParams | claude/params.go:80-84 | the accumulated parameters, unchanged and unchecked |
| ClaudeParams.LastWriteWins | claude/params.go:41-84 | setting a field twice keeps the second value and leaves every other field unset |
| ClaudeResponse.AsContent | claude/response.go:33-39 | a fresh builder with exactly one block per response block, block i converted from response block i |
| ClaudeResponse.BuildMsgIter | claude/response.go:43-45 | unsupported |
| ClaudeContent.TextBuilder.constructor | claude/content.go:233-235 | a fresh text builder is empty |
| ClaudeContent.TextBuilder.Text | claude/content.go:228-231 | appends one text block per call |
| ClaudeContent.MultipartBuilder.constructor | claude/content.go:214-216 | a fresh multipart builder is empty |
| ClaudeContent.MultipartBuilder.Text | claude/content.go:178-183 | appends one string item |
| ClaudeContent.MultipartBuilder.ImageURL | claude/content.go:185-197 | unsupported |
| ClaudeContent.MultipartBuilder.ImageBase64 | claude/content.go:199-212 | unsupported |
| ClaudeContent.ContentBuilder.constructor | claude/content.go:164-166 | a fresh content builder is empty |
| ClaudeContent.ContentBuilder.Text | claude/content.go:60-63 | appends one text block |
| ClaudeContent.ContentBuilder.Image | claude/content.go:65-73 | appends exactly one image block holding the standard encoding of the bytes under the given type; that data decodes back to the bytes |
| ClaudeContent.ContentBuilder.ImageBase64 | claude/content.go:75-83 | appends one base64 image block holding the string verbatim |
| ClaudeContent.ContentBuilder.ImageURL | claude/content.go:85-92 | appends one URL image block; the MIME type is dropped |
| ClaudeContent.ContentBuilder.ImageFile | claude/content.go:94-101 | appends one file image block; the MIME type is dropped |
| ClaudeContent.ContentBuilder.DocText | claude/content.go:103-108 | appends one plain-text document block |
| ClaudeContent.ContentBuilder.DocPDFURL | claude/content.go:110-115 | appends one URL PDF document block |
| ClaudeContent.ContentBuilder.DocPDFBase64 | claude/content.go:117-122 | appends one base64 PDF document block |
| ClaudeContent.ContentBuilder.DocMultipart | claude/content.go:124-131 | appends one document whose source is the multipart items in order |
| ClaudeContent.ContentBuilder.SearchResult | claude/content.go:133-136 | appends one search-result block |
| ClaudeContent.ContentBuilder.Thinking | claude/content.go:138-141 | appends one thinking block |
| ClaudeContent.ContentBuilder.RedactedThinking | claude/content.go:143-146 | appends one redacted-thinking block |
| ClaudeContent.ContentBuilder.ToolUse | claude/content.go:148-151 | appends one tool-use block |
| ClaudeContent.ContentBuilder.ToolResult | claude/content.go:153-157 | succeeds exactly for string content; otherwise a type failure with nothing appended |
| ClaudeContent.ContentBuilder.ServerToolUse | claude/content.go:159-162 | appends one server-tool-use block |
| ClaudeContent.MsgBuilder.constructor | claude/content.go:46-48 | a fresh message builder is empty |
| ClaudeContent.MsgBuilder.User | claude/content.go:33-36 | appends one user message with the builder's blocks |
| ClaudeContent.MsgBuilder.Assistant | claude/content.go:38-44 | appends one assistant message with the builder's blocks |
| ClaudeContent.Tools | claude/content.go:243-245 | unsupported |
| GeminiData.ImageFromBytes | gemini/data.go:56-62 | bytes, display name and MIME type stored unchanged |
| GeminiData.ImageType | gemini/data.go:33-35 | the image type is the blob's MIME type |
| GeminiData.ImageFromBase64 | gemini/data.go:64-74 | succeeds exactly on valid standard base64, with the decoded bytes; otherwise the decoder's error |
| GeminiData.ImageFrom | gemini/data.go:40-46 | fails exactly on a read error; otherwise an image of the bytes read |
| GeminiData.ImageFromBase64OfEncode | gemini/data.go:56-74 | decoding the encoding of some bytes gives the same image as the bytes |
| GeminiData.DocFromBytes | gemini/data.go:118-126 | a part holding only an inline blob; its document type is the given MIME type |
| GeminiData.DocumentType | gemini/data.go:84-89 | the MIME type of the inline blob, and `text/plain` for a part without one |
| GeminiData.DocFromBase64 | gemini/data.go:110-116 | succeeds exactly on valid base64, giving the part `FromBytes` gives for the decoded bytes |
| GeminiData.DocFrom | gemini/data.go:94-100 | fails exactly on a read error; otherwise an inline blob of the bytes read |
| GeminiData.PlainText | gemini/data.go:128-130 | a text part whose document type is `text/plain` |
| GeminiData.DocFromBase64OfEncode | gemini/data.go:110-126 | decoding the encoding of some bytes gives the same document as the bytes |
| GeminiMessage.ContentBuilder.constructor | gemini/message.go:124-126 | a fresh content builder is empty |
| GeminiMessage.ContentBuilder.Of | gemini/response.go:49 | a builder over exactly the given parts |
| GeminiMessage.ContentBuilder.Text | gemini/message.go:65-68 | appends one text part |
| GeminiMessage.ContentBuilder.Image | gemini/message.go:70-75 | appends one part whose inline data is the image blob unchanged |
| GeminiMessage.ContentBuilder.ImageURL | gemini/message.go:77-82 | appends one URI part (url, mime) |
| GeminiMessage.ContentBuilder.ImageFile | gemini/message.go:84-89 | appends one URI part with the file ID as the URI |
| GeminiMessage.ContentBuilder.Doc | gemini/message.go:91-94 | appends the document's part |
| GeminiMessage.ContentBuilder.DocURL | gemini/message.go:96-101 | appends one URI part (url, mime) |
| GeminiMessage.ContentBuilder.DocFile | gemini/message.go:103-108 | appends one URI part with the file ID as the URI |
| GeminiMessage.ContentBuilder.Thinking | gemini/message.go:110-117 | appends one part with text = thinking, thought signature = the signature's bytes and thought = true, and nothing else set |
| GeminiMessage.ContentBuilder.RedactedThinking | gemini/message.go:119-122 | changes nothing |
| GeminiMessage.MsgBuilder.constructor | gemini/message.go:50-52 | a fresh message builder is empty |
| GeminiMessage.MsgBuilder.User | gemini/message.go:32-39 | appends one content with role "user" holding the parts in order |
| GeminiMessage.MsgBuilder.Assistant | gemini/message.go:41-48 | appends one content with role "model" holding the parts in order |
| GeminiMessage.TextBuilder.constructor | gemini/message.go:144-146 | a fresh text builder is empty |
| GeminiMessage.TextBuilder.Text | gemini/message.go:139-142 | appends one text part per call |
| GeminiMessage.TextBuilder.BuildTexts | gemini/message.go:148-153 | the text parts in order, with no role set |
| GeminiMessage.Tools | gemini/message.go:157-159 | unsupported |
| GeminiTool.ToolUse | gemini/tool.go:30-34 | succeeds exactly for a map input, appending one function-call part named by the tool name; the tool ID is not used |
| GeminiTool.StdToolResultConv | gemini/tool.go:38-40 | web search is registered, and every registered name carries the `std/` prefix |
| GeminiTool.WebSearchResultConv | gemini/tool.go:42-45 | unsupported |
| GeminiTool.ResultMap | gemini/tool.go:58-68 | raw text must parse as a JSON object ("invalid tool result: ..." otherwise); else an error report becomes exactly {"error": message}; else the result must be a map and is used as is |
| GeminiTool.ToolResult | gemini/tool.go:47-73 | an unregistered `std/` name fails with "unsupported standard tool: <name>", `std/web_search` fails with its converter's Unsupported error, and every `std/` name fails; other names append exactly one function-response part named by the tool ID, without the error flag |
| GeminiTool.SameStdRejection | gemini/tool.go:38-40 | gemini and claude reject exactly the same unregistered standard tool names |
| GeminiTool.SameToolResult | gemini/tool.go:58-69 | for a codec that reads maps back as written, the claude body read as JSON is the gemini map for raw text and map results; an error report is accepted by both or neither, with the same message |
| GeminiParams.Params.constructor | gemini/params.go:77-79 | fresh parameters are empty |
| GeminiParams.Params.System | gemini/params.go:32-35 | sets only the system instruction, to the text parts with no role |
| GeminiParams.Params.Messages | gemini/params.go:37-40 | sets only the contents |
| GeminiParams.Params.MaxTokens | gemini/params.go:42-45 | sets only the token limit, to `int32(v)`: `v` when it fits, else congruent modulo 2^32 |
| GeminiParams.Params.Model | gemini/params.go:47-50 | sets only the model |
| GeminiParams.Params.Container | gemini/params.go:52-55 | changes nothing |
| GeminiParams.Params.InferenceGeo | gemini/params.go:57-60 | changes nothing |
| GeminiParams.Params.Temperature | gemini/params.go:62-65 | sets only the temperature, to a present `float32` |
| GeminiParams.Params.TopK | gemini/params.go:67-70 | sets only top-k, to a present `float32` |
| GeminiParams.Params.TopP | gemini/params.go:72-75 | sets only top-p, to a present `float32` |
| GeminiParams.Params.BuildParams | gemini/params.go:81-84 | model, contents and config as accumulated |
| GeminiParams.LastWriteWins | gemini/params.go:42-45 | the second token limit wins, narrowed; 2^31 wraps to -2^31 |
| GeminiResponse.Len | gemini/response.go:30-32 | the number of candidates |
| GeminiResponse.At | gemini/response.go:34-36 | the i-th candidate, defined only for 0 <= i < Len |
| GeminiResponse.Parts | gemini/response.go:45-48 | no parts for a nil content, otherwise the content's parts |
| GeminiResponse.AsContent | gemini/response.go:44-50 | a fresh builder over the candidate's parts, in order |
| GeminiResponse.Replay | gemini/response.go:44-50 | replaying a candidate as an assistant turn gives its parts back under role "model" |
| GeminiContent.ContentBuilder.constructor | gemini/content.go:150-152 | a fresh content builder is empty with no recorded error |
| GeminiContent.ContentBuilder.Text | gemini/content.go:63-66 | appends one text part |
| GeminiContent.ContentBuilder.Image | gemini/content.go:68-73 | appends one inline-bytes part |
| GeminiContent.ContentBuilder.ImageBase64 | gemini/content.go:75-85 | valid input appends one part with the decoded bytes and keeps the recorded error; invalid input records the error and appends nothing |
| GeminiContent.ContentBuilder.ImageURL | gemini/content.go:87-92 | appends one URI part |
| GeminiContent.ContentBuilder.DocText | gemini/content.go:94-97 | appends the same part `Text` appends |
| GeminiContent.ContentBuilder.DocPDFURL | gemini/content.go:99-104 | appends one URI part typed `application/pdf` |
| GeminiContent.ContentBuilder.DocPDFBase64 | gemini/content.go:106-116 | as `ImageBase64`, typed `application/pdf` |
| GeminiContent.ContentBuilder.DocMultipart | gemini/content.go:118-120 | unsupported |
| GeminiContent.ContentBuilder.SearchResult | gemini/content.go:122-124 | unsupported |
| GeminiContent.ContentBuilder.Thinking | gemini/content.go:126-128 | unsupported |
| GeminiContent.ContentBuilder.RedactedThinking | gemini/content.go:130-132 | unsupported |
| GeminiContent.ContentBuilder.ToolUse | gemini/content.go:134-138 | succeeds exactly for map input, naming the call by the tool name; the ID is not used |
| GeminiContent.ContentBuilder.ToolResult | gemini/content.go:140-144 | succeeds exactly for map content, naming the response by the tool-use ID |
| GeminiContent.ContentBuilder.ServerToolUse | gemini/content.go:146-148 | unsupported |
| GeminiContent.StickyError | gemini/content.go:75-85 | a recorded decoding error survives a later successful call, which still appends its part |
| GeminiContent.MsgBuilder.constructor | gemini/content.go:48-50 | a fresh message builder is empty |
| GeminiContent.MsgBuilder.User | gemini/content.go:32-38 | appends one content with role "user" |
| GeminiContent.MsgBuilder.Assistant | gemini/content.go:40-46 | appends one content with role "model" |
| GeminiContent.TextBuilder.constructor | gemini/content.go:175-177 | a fresh text builder is empty |
| GeminiContent.TextBuilder.Text | gemini/content.go:170-173 | appends one text part per call |
| GeminiContent.TextBuilder.BuildTexts | gemini/content.go:179-184 | the text parts in order, with no role set |
| GeminiContent.Parts | gemini/content.go:160-162 | unsupported |
| GeminiContent.Tools | gemini/content.go:188-190 | unsupported |

## Left out

- Provider entry points (`Gen`, `GenStream`, `Create`, `init` in claude/claude.go, openai/openai.go and gemini/gemini.go) are not part of this model. They are network clients, SDK client set-up, query-string parsing and process-wide registration.
- `FromLocal` of every image and document builder is left out: it opens or reads a named file. `From` is modelled with the read as a parameter (`Call<Bytes>`: the bytes or the read error). openai streams a reader through the encoder; the model reads it whole, and the outcome is the same.
- `buildOptions` is not part of this model.
- JSON encoding and decoding are uninterpreted: `Xai.Json` supplies them, each returning a value or an error. No property of `encoding/json` itself is assumed, except in `GeminiTool.SameToolResult`, which states its codec assumption as a precondition.
- The claude response blocks' `ToParam` is an uninterpreted function parameter of `ClaudeResponse.AsContent`.
- Floating point: temperatures and top-p are stored exactly (`real`), never computed with. Go's `float32(v)` conversions in gemini/params.go are kept as the constructors `Float32Of` and `Float32OfInt`, without rounding.
- Base64.Decode: returns no value on corrupt input; the byte offset carried by Go's `CorruptInputError` is not modelled.
- The texts of Go's runtime panics are not modelled. A failed type assertion is `BadType(<asserted type>)`, and `panic("todo")` is `Unsupported(<operation>)`.
- OpenAIMessage.MsgBuilder.Assistant: does not model pointer aliasing. In Go a message item holds a pointer to its message, and that pointer is shared by the content builder, by every message list the items were appended to, and by the open-message pointer. So Go's role change also shows in the content builder and in earlier copies of the same items, and a part added later to the still-open message also shows in a list it was already appended to. The model copies items by value. The new list is as stated, but those shared updates are not captured.
- Type assertions that pick a builder out of an interface (`in.(*contentBuilder)`, `image.(*imageData)`, `doc.(*docData)`) are settled by typing. A builder from another backend cannot be passed. The one reachable case, `buildParams` in openai with no message builder recorded, is modelled as `BadType`.
- Streaming responses (`buildMsgIter`) are unsupported in the source and modelled as such. SSE streams are not part of this model.
- The root declaration files (xai.go, message.go, content.go, tool.go) contribute only constants and interfaces. The MIME types (message.go:23-37) and the standard tool names (tool.go:24-32) are `Xai` constants.
