/** The gemini message, content and text builders (newer API revision). Each
    content call appends exactly one part, except `RedactedThinking`, which
    appends none. */
module GeminiMessage {
  import opened GoBase
  import opened Xai
  import opened Genai

  class ContentBuilder {
    var content: seq<Part>

    /** `Provider.Contents`. */
    constructor ()
      ensures content == []
    {
      content := [];
    }

    /** A builder over given parts, as the response adapter makes one. */
    constructor Of(parts: seq<Part>)
      ensures content == parts
    {
      content := parts;
    }

    method Text(text: Str)
      modifies this
      ensures content == old(content) + [NewPartFromText(text)]
    {
      content := content + [NewPartFromText(text)];
    }

    /** `Image`: the image data's blob as inline data, unchanged. */
    method Image(image: Blob)
      modifies this
      ensures content == old(content) + [EmptyPart.(inlineData := Some(image))]
    {
      content := content + [EmptyPart.(inlineData := Some(image))];
    }

    method ImageURL(mime: Str, url: Str)
      modifies this
      ensures content == old(content) + [NewPartFromURI(url, mime)]
    {
      content := content + [NewPartFromURI(url, mime)];
    }

    /** `ImageFile`: the file ID is used as the URI. */
    method ImageFile(mime: Str, fileID: Str)
      modifies this
      ensures content == old(content) + [NewPartFromURI(fileID, mime)]
    {
      content := content + [NewPartFromURI(fileID, mime)];
    }

    /** `Doc`: the document's part itself. */
    method Doc(doc: Part)
      modifies this
      ensures content == old(content) + [doc]
    {
      content := content + [doc];
    }

    method DocURL(mime: Str, url: Str)
      modifies this
      ensures content == old(content) + [NewPartFromURI(url, mime)]
    {
      content := content + [NewPartFromURI(url, mime)];
    }

    /** `DocFile`: the file ID is used as the URI. */
    method DocFile(mime: Str, fileID: Str)
      modifies this
      ensures content == old(content) + [NewPartFromURI(fileID, mime)]
    {
      content := content + [NewPartFromURI(fileID, mime)];
    }

    /** `Thinking`: a thought part whose text is the thinking and whose thought
        signature is the bytes of the signature. */
    method Thinking(signature: Str, thinking: Str)
      modifies this
      ensures |content| == |old(content)| + 1 && content[..|old(content)|] == old(content)
      ensures var t := content[|old(content)|];
        t.text == thinking && t.thoughtSignature == signature && t.thought
        && t.inlineData.None? && t.fileData.None? && t.functionCall.None? && t.functionResponse.None?
    {
      content := content + [EmptyPart.(text := thinking, thoughtSignature := signature, thought := true)];
    }

    /** `RedactedThinking` is accepted and dropped. */
    method RedactedThinking(data: Str)
      ensures unchanged(this)
    {
    }
  }

  class MsgBuilder {
    var msgs: seq<Content>

    /** `Provider.Messages`. */
    constructor ()
      ensures msgs == []
    {
      msgs := [];
    }

    /** `User`: one content with role "user" holding the builder's parts in order. */
    method User(content: ContentBuilder)
      modifies this
      ensures msgs == old(msgs) + [Content(content.content, RoleUser)]
    {
      msgs := msgs + [Content(content.content, RoleUser)];
    }

    /** `Assistant`: one content with role "model" holding the builder's parts in order. */
    method Assistant(content: ContentBuilder)
      modifies this
      ensures msgs == old(msgs) + [Content(content.content, RoleModel)]
    {
      msgs := msgs + [Content(content.content, RoleModel)];
    }
  }

  class TextBuilder {
    var parts: seq<Part>

    /** `Provider.Texts`. */
    constructor ()
      ensures parts == []
    {
      parts := [];
    }

    method Text(text: Str)
      modifies this
      ensures parts == old(parts) + [NewPartFromText(text)]
    {
      parts := parts + [NewPartFromText(text)];
    }

    /** `buildTexts`: the text parts in order, with no role set (the backend
        treats a system instruction as a system turn by itself). */
    function BuildTexts(): (c: Content)
      reads this
      ensures c.parts == parts && c.role == []
    {
      Content(parts, [])
    }
  }

  /** `Provider.Tools` is not implemented. */
  method Tools() returns (r: Outcome)
    ensures r == Fail(Unsupported("Tools"))
  {
    r := Fail(Unsupported("Tools"));
  }
}
