/** The claude message, content and text builders (newer API revision). Every
    content call appends exactly one block and leaves earlier blocks alone. */
module ClaudeMessage {
  import opened GoBase
  import opened Xai
  import opened Anthropic
  import ClaudeData

  class TextBuilder {
    var content: seq<TextBlockParam>

    /** `Provider.Texts`. */
    constructor ()
      ensures content == []
    {
      content := [];
    }

    /** `Text`: one text block per call, in call order. */
    method Text(text: Str)
      modifies this
      ensures content == old(content) + [TextBlockParam(text)]
    {
      content := content + [TextBlockParam(text)];
    }
  }

  class ContentBuilder {
    var content: seq<ContentBlock>

    /** `Provider.Contents`. */
    constructor ()
      ensures content == []
    {
      content := [];
    }

    /** A builder over given blocks, as the response adapter makes one. */
    constructor Of(blocks: seq<ContentBlock>)
      ensures content == blocks
    {
      content := blocks;
    }

    method Text(text: Str)
      modifies this
      ensures content == old(content) + [TextBlock(text)]
    {
      content := content + [TextBlock(text)];
    }

    /** `Image`: the image data's base64 payload and media type, unchanged. */
    method Image(image: ClaudeData.ImageData)
      modifies this
      ensures content == old(content) + [ImageBlock(Base64ImageSource(image.data, image.mediaType))]
    {
      content := content + [ImageBlock(Base64ImageSource(image.data, image.mediaType))];
    }

    /** `ImageURL`: the MIME type is not passed on. */
    method ImageURL(mime: Str, url: Str)
      modifies this
      ensures content == old(content) + [ImageBlock(URLImageSource(url))]
    {
      content := content + [ImageBlock(URLImageSource(url))];
    }

    /** `ImageFile`: the MIME type is not passed on. */
    method ImageFile(mime: Str, fileID: Str)
      modifies this
      ensures content == old(content) + [ImageBlock(FileImageSource(fileID))]
    {
      content := content + [ImageBlock(FileImageSource(fileID))];
    }

    /** `Doc`: the document block prebuilt in the document data. */
    method Doc(doc: ClaudeData.DocData)
      modifies this
      ensures content == old(content) + [doc.data]
    {
      content := content + [doc.data];
    }

    /** `DocURL`: only PDF documents can be given by URL. */
    method DocURL(mime: Str, url: Str) returns (r: Outcome)
      modifies this
      ensures r.Pass? <==> mime == DocPDF
      ensures r.Fail? ==> r.error == Unsupported("DocURL") && content == old(content)
      ensures r.Pass? ==> content == old(content) + [DocumentBlock(URLPDFSource(url))]
    {
      if mime != DocPDF {
        return Fail(Unsupported("DocURL"));
      }
      content := content + [DocumentBlock(URLPDFSource(url))];
      r := Pass;
    }

    method DocFile(mime: Str, fileID: Str)
      modifies this
      ensures content == old(content) + [DocumentBlock(FileDocumentSource(fileID))]
    {
      content := content + [DocumentBlock(FileDocumentSource(fileID))];
    }

    /** `SearchResult`: the text builder's blocks, in order, with source and title. */
    method SearchResult(texts: TextBuilder, source: Str, title: Str)
      modifies this
      ensures content == old(content) + [SearchResultBlock(texts.content, source, title)]
    {
      content := content + [SearchResultBlock(texts.content, source, title)];
    }

    method Thinking(signature: Str, thinking: Str)
      modifies this
      ensures content == old(content) + [ThinkingBlock(signature, thinking)]
    {
      content := content + [ThinkingBlock(signature, thinking)];
    }

    method RedactedThinking(data: Str)
      modifies this
      ensures content == old(content) + [RedactedThinkingBlock(data)]
    {
      content := content + [RedactedThinkingBlock(data)];
    }

    /** `ToolUse` of this revision: (id, input, name). */
    method ToolUse(id: Str, input: Value, name: Str)
      modifies this
      ensures content == old(content) + [ToolUseBlock(id, input, name)]
    {
      content := content + [ToolUseBlock(id, input, name)];
    }

    /** `ToolResult` of this revision: the content must hold a Go string. */
    method ToolResult(toolUseID: Str, result: Value, isError: bool) returns (r: Outcome)
      modifies this
      ensures r.Pass? <==> result.String?
      ensures r.Fail? ==> r.error == BadType("string") && content == old(content)
      ensures r.Pass? ==> content == old(content) + [ToolResultBlock(toolUseID, result.s, isError)]
    {
      if !result.String? {
        return Fail(BadType("string"));
      }
      content := content + [ToolResultBlock(toolUseID, result.s, isError)];
      r := Pass;
    }

    method ServerToolUse(id: Str, input: Value, name: Str)
      modifies this
      ensures content == old(content) + [ServerToolUseBlock(id, input, name)]
    {
      content := content + [ServerToolUseBlock(id, input, name)];
    }
  }

  class MsgBuilder {
    var msgs: seq<MessageParam>

    /** `Provider.Messages`. */
    constructor ()
      ensures msgs == []
    {
      msgs := [];
    }

    /** `User`: one user message carrying the builder's blocks in order. */
    method User(content: ContentBuilder)
      modifies this
      ensures msgs == old(msgs) + [MessageParam(Role.User, content.content)]
    {
      msgs := msgs + [MessageParam(Role.User, content.content)];
    }

    /** `Assistant`: one assistant message carrying the builder's blocks in order. */
    method Assistant(content: ContentBuilder)
      modifies this
      ensures msgs == old(msgs) + [MessageParam(Role.Assistant, content.content)]
    {
      msgs := msgs + [MessageParam(Role.Assistant, content.content)];
    }
  }

  /** `Provider.Tools` is not implemented. */
  method Tools() returns (r: Outcome)
    ensures r == Fail(Unsupported("Tools"))
  {
    r := Fail(Unsupported("Tools"));
  }
}
