/** The gemini builders of the older API revision. Base64 images and PDFs are
    decoded as they are added; a decoding error is not returned but recorded in
    the builder, appends nothing, and stays recorded: no later call clears it. */
module GeminiContent {
  import opened GoBase
  import opened Xai
  import opened Genai
  import Base64


  class ContentBuilder {
    var content: seq<Part>
    /** `lastErr`: the most recent decoding error, if any. */
    var lastErr: Option<Failure>

    /** `Provider.Contents`. */
    constructor ()
      ensures content == [] && lastErr == None
    {
      content, lastErr := [], None;
    }

    method Text(text: Str)
      modifies this
      ensures content == old(content) + [NewPartFromText(text)] && lastErr == old(lastErr)
    {
      content := content + [NewPartFromText(text)];
    }

    method Image(mime: Str, data: Bytes)
      modifies this
      ensures content == old(content) + [NewPartFromBytes(data, mime)] && lastErr == old(lastErr)
    {
      content := content + [NewPartFromBytes(data, mime)];
    }

    /** `ImageBase64`: valid input appends one part holding the decoded bytes;
        invalid input records the error and appends nothing. */
    method ImageBase64(mime: Str, encoded: Str)
      modifies this
      ensures Base64.Decode(encoded).None? ==> content == old(content) && lastErr == Some(CorruptBase64)
      ensures Base64.Decode(encoded).Some? ==>
        content == old(content) + [NewPartFromBytes(Base64.Decode(encoded).value, mime)] && lastErr == old(lastErr)
    {
      var b := Base64.Decode(encoded);
      if b.None? {
        lastErr := Some(CorruptBase64);
      } else {
        content := content + [NewPartFromBytes(b.value, mime)];
      }
    }

    method ImageURL(mime: Str, url: Str)
      modifies this
      ensures content == old(content) + [NewPartFromURI(url, mime)] && lastErr == old(lastErr)
    {
      content := content + [NewPartFromURI(url, mime)];
    }

    /** `DocText` adds the same part as `Text`. */
    method DocText(text: Str)
      modifies this
      ensures content == old(content) + [NewPartFromText(text)] && lastErr == old(lastErr)
    {
      content := content + [NewPartFromText(text)];
    }

    method DocPDFURL(url: Str)
      modifies this
      ensures content == old(content) + [NewPartFromURI(url, DocPDF)] && lastErr == old(lastErr)
    {
      content := content + [NewPartFromURI(url, DocPDF)];
    }

    /** `DocPDFBase64`: as `ImageBase64`, with the PDF MIME type. */
    method DocPDFBase64(encoded: Str)
      modifies this
      ensures Base64.Decode(encoded).None? ==> content == old(content) && lastErr == Some(CorruptBase64)
      ensures Base64.Decode(encoded).Some? ==>
        content == old(content) + [NewPartFromBytes(Base64.Decode(encoded).value, DocPDF)] && lastErr == old(lastErr)
    {
      var b := Base64.Decode(encoded);
      if b.None? {
        lastErr := Some(CorruptBase64);
      } else {
        content := content + [NewPartFromBytes(b.value, DocPDF)];
      }
    }

    /** `DocMultipart` is not implemented. */
    method DocMultipart() returns (r: Outcome)
      ensures r == Fail(Unsupported("DocMultipart"))
    {
      r := Fail(Unsupported("DocMultipart"));
    }

    /** `SearchResult` is not implemented. */
    method SearchResult(texts: TextBuilder, source: Str, title: Str) returns (r: Outcome)
      ensures r == Fail(Unsupported("SearchResult"))
    {
      r := Fail(Unsupported("SearchResult"));
    }

    /** `Thinking` is not implemented. */
    method Thinking(signature: Str, thinking: Str) returns (r: Outcome)
      ensures r == Fail(Unsupported("Thinking"))
    {
      r := Fail(Unsupported("Thinking"));
    }

    /** `RedactedThinking` is not implemented. */
    method RedactedThinking(data: Str) returns (r: Outcome)
      ensures r == Fail(Unsupported("RedactedThinking"))
    {
      r := Fail(Unsupported("RedactedThinking"));
    }

    /** `ToolUse`: the input must be a map; the ID is not used. */
    method ToolUse(id: Str, input: Value, name: Str) returns (r: Outcome)
      modifies this
      ensures r.Pass? <==> input.Object?
      ensures r.Fail? ==> r.error == BadType("map[string]any") && content == old(content)
      ensures r.Pass? ==> content == old(content) + [NewPartFromFunctionCall(name, input.fields)]
      ensures lastErr == old(lastErr)
    {
      if !input.Object? {
        return Fail(BadType("map[string]any"));
      }
      content := content + [NewPartFromFunctionCall(name, input.fields)];
      r := Pass;
    }

    /** `ToolResult`: the content must be a map; the response is named by the
        tool-use ID and the error flag is not carried over. */
    method ToolResult(toolUseID: Str, result: Value, isError: bool) returns (r: Outcome)
      modifies this
      ensures r.Pass? <==> result.Object?
      ensures r.Fail? ==> r.error == BadType("map[string]any") && content == old(content)
      ensures r.Pass? ==> content == old(content) + [NewPartFromFunctionResponse(toolUseID, result.fields)]
      ensures lastErr == old(lastErr)
    {
      if !result.Object? {
        return Fail(BadType("map[string]any"));
      }
      content := content + [NewPartFromFunctionResponse(toolUseID, result.fields)];
      r := Pass;
    }

    /** `ServerToolUse` is not implemented. */
    method ServerToolUse(id: Str, input: Value, name: Str) returns (r: Outcome)
      ensures r == Fail(Unsupported("ServerToolUse"))
    {
      r := Fail(Unsupported("ServerToolUse"));
    }
  }

  /** Once a decoding error is recorded it stays: two base64 images, the first
      invalid and the second valid, leave the error in place and only the second
      image in the builder. */
  method StickyError(bad: Str, good: Bytes, mime: Str) returns (cb: ContentBuilder)
    requires Base64.Decode(bad).None?
    ensures fresh(cb)
    ensures cb.lastErr == Some(CorruptBase64)
    ensures cb.content == [NewPartFromBytes(good, mime)]
  {
    cb := new ContentBuilder();
    cb.ImageBase64(mime, bad);
    Base64.DecodeEncode(good);
    cb.ImageBase64(mime, Base64.Encode(good));
  }

  class MsgBuilder {
    var msgs: seq<Content>

    /** `Provider.Messages`. */
    constructor ()
      ensures msgs == []
    {
      msgs := [];
    }

    method User(content: ContentBuilder)
      modifies this
      ensures msgs == old(msgs) + [Content(content.content, RoleUser)]
    {
      msgs := msgs + [Content(content.content, RoleUser)];
    }

    method Assistant(content: ContentBuilder)
      modifies this
      ensures msgs == old(msgs) + [Content(content.content, RoleModel)]
    {
      msgs := msgs + [Content(content.content, RoleModel)];
    }
  }

  class TextBuilder {
    var parts: seq<Part>

    /** `Provider.Texts`. */
    constructor ()
      ensures parts == []
    {
      parts := [];
    }

    method Text(text: Str)
      modifies this
      ensures parts == old(parts) + [NewPartFromText(text)]
    {
      parts := parts + [NewPartFromText(text)];
    }

    /** `buildTexts`: the text parts in order, with no role set. */
    function BuildTexts(): (c: Content)
      reads this
      ensures c.parts == parts && c.role == []
    {
      Content(parts, [])
    }
  }

  /** `Provider.Parts` is not implemented in this revision. */
  method Parts() returns (r: Outcome)
    ensures r == Fail(Unsupported("Parts"))
  {
    r := Fail(Unsupported("Parts"));
  }

  /** `Provider.Tools` is not implemented in this revision. */
  method Tools() returns (r: Outcome)
    ensures r == Fail(Unsupported("Tools"))
  {
    r := Fail(Unsupported("Tools"));
  }
}
