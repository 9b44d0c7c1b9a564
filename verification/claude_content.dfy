/** The claude builders of the older API revision. Images are given as bytes or
    base64 here, documents by dedicated calls, and multipart documents are built
    with a multipart builder. Every content call appends exactly one block. */
module ClaudeContent {
  import opened GoBase
  import opened Xai
  import opened Anthropic
  import Base64

  class TextBuilder {
    var content: seq<TextBlockParam>

    /** `Provider.Texts`. */
    constructor ()
      ensures content == []
    {
      content := [];
    }

    method Text(text: Str)
      modifies this
      ensures content == old(content) + [TextBlockParam(text)]
    {
      content := content + [TextBlockParam(text)];
    }
  }

  class MultipartBuilder {
    var content: seq<SourcePart>

    /** `Provider.Parts`. */
    constructor ()
      ensures content == []
    {
      content := [];
    }

    /** `Text`: one string item per call. */
    method Text(text: Str)
      modifies this
      ensures content == old(content) + [StringPart(text)]
    {
      content := content + [StringPart(text)];
    }

    /** `ImageURL` is not implemented. */
    method ImageURL(url: Str) returns (r: Outcome)
      ensures r == Fail(Unsupported("ImageURL"))
    {
      r := Fail(Unsupported("ImageURL"));
    }

    /** `ImageBase64` is not implemented. */
    method ImageBase64(mime: Str, encoded: Str) returns (r: Outcome)
      ensures r == Fail(Unsupported("ImageBase64"))
    {
      r := Fail(Unsupported("ImageBase64"));
    }
  }

  class ContentBuilder {
    var content: seq<ContentBlock>

    /** `Provider.Contents`. */
    constructor ()
      ensures content == []
    {
      content := [];
    }

    method Text(text: Str)
      modifies this
      ensures content == old(content) + [TextBlock(text)]
    {
      content := content + [TextBlock(text)];
    }

    /** `Image`: the standard base64 of the bytes as an image source under the
        given MIME type; the payload decodes back to the bytes. */
    method Image(mime: Str, data: Bytes)
      modifies this
      ensures content == old(content) + [ImageBlock(Base64ImageSource(Base64.Encode(data), mime))]
      ensures Base64.Decode(content[|old(content)|].image.data) == Some(data)
    {
      Base64.DecodeEncode(data);
      content := content + [ImageBlock(Base64ImageSource(Base64.Encode(data), mime))];
    }

    /** `ImageBase64`: the string stored verbatim, unchecked. */
    method ImageBase64(mime: Str, encoded: Str)
      modifies this
      ensures content == old(content) + [ImageBlock(Base64ImageSource(encoded, mime))]
    {
      content := content + [ImageBlock(Base64ImageSource(encoded, mime))];
    }

    /** `ImageURL`: the MIME type is not passed on. */
    method ImageURL(mime: Str, url: Str)
      modifies this
      ensures content == old(content) + [ImageBlock(URLImageSource(url))]
    {
      content := content + [ImageBlock(URLImageSource(url))];
    }

    /** `ImageFile`: the MIME type is not passed on. */
    method ImageFile(mime: Str, fileID: Str)
      modifies this
      ensures content == old(content) + [ImageBlock(FileImageSource(fileID))]
    {
      content := content + [ImageBlock(FileImageSource(fileID))];
    }

    method DocText(text: Str)
      modifies this
      ensures content == old(content) + [DocumentBlock(PlainTextSource(text))]
    {
      content := content + [DocumentBlock(PlainTextSource(text))];
    }

    method DocPDFURL(url: Str)
      modifies this
      ensures content == old(content) + [DocumentBlock(URLPDFSource(url))]
    {
      content := content + [DocumentBlock(URLPDFSource(url))];
    }

    method DocPDFBase64(encoded: Str)
      modifies this
      ensures content == old(content) + [DocumentBlock(Base64PDFSource(encoded))]
    {
      content := content + [DocumentBlock(Base64PDFSource(encoded))];
    }

    /** `DocMultipart`: one document whose source is the multipart builder's
        items, in order. */
    method DocMultipart(multi: MultipartBuilder)
      modifies this
      ensures content == old(content) + [DocumentBlock(ContentBlockSource(multi.content))]
    {
      content := content + [DocumentBlock(ContentBlockSource(multi.content))];
    }

    method SearchResult(texts: TextBuilder, source: Str, title: Str)
      modifies this
      ensures content == old(content) + [SearchResultBlock(texts.content, source, title)]
    {
      content := content + [SearchResultBlock(texts.content, source, title)];
    }

    method Thinking(signature: Str, thinking: Str)
      modifies this
      ensures content == old(content) + [ThinkingBlock(signature, thinking)]
    {
      content := content + [ThinkingBlock(signature, thinking)];
    }

    method RedactedThinking(data: Str)
      modifies this
      ensures content == old(content) + [RedactedThinkingBlock(data)]
    {
      content := content + [RedactedThinkingBlock(data)];
    }

    method ToolUse(id: Str, input: Value, name: Str)
      modifies this
      ensures content == old(content) + [ToolUseBlock(id, input, name)]
    {
      content := content + [ToolUseBlock(id, input, name)];
    }

    /** `ToolResult`: the content must hold a Go string. */
    method ToolResult(toolUseID: Str, result: Value, isError: bool) returns (r: Outcome)
      modifies this
      ensures r.Pass? <==> result.String?
      ensures r.Fail? ==> r.error == BadType("string") && content == old(content)
      ensures r.Pass? ==> content == old(content) + [ToolResultBlock(toolUseID, result.s, isError)]
    {
      if !result.String? {
        return Fail(BadType("string"));
      }
      content := content + [ToolResultBlock(toolUseID, result.s, isError)];
      r := Pass;
    }

    method ServerToolUse(id: Str, input: Value, name: Str)
      modifies this
      ensures content == old(content) + [ServerToolUseBlock(id, input, name)]
    {
      content := content + [ServerToolUseBlock(id, input, name)];
    }
  }

  class MsgBuilder {
    var msgs: seq<MessageParam>

    /** `Provider.Messages`. */
    constructor ()
      ensures msgs == []
    {
      msgs := [];
    }

    method User(content: ContentBuilder)
      modifies this
      ensures msgs == old(msgs) + [MessageParam(Role.User, content.content)]
    {
      msgs := msgs + [MessageParam(Role.User, content.content)];
    }

    method Assistant(content: ContentBuilder)
      modifies this
      ensures msgs == old(msgs) + [MessageParam(Role.Assistant, content.content)]
    {
      msgs := msgs + [MessageParam(Role.Assistant, content.content)];
    }
  }

  /** `Provider.Tools` is not implemented. */
  method Tools() returns (r: Outcome)
    ensures r == Fail(Unsupported("Tools"))
  {
    r := Fail(Unsupported("Tools"));
  }
}
