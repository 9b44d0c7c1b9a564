/** Images and documents for the claude backend. Images are base64 image
    sources; documents are prebuilt document blocks together with their MIME
    type. Every constructor returns a fresh value and changes nothing. */
module ClaudeData {
  import opened GoBase
  import opened Xai
  import opened Anthropic
  import Base64

  /** `imageData`: a base64 image source. */
  datatype ImageData = ImageData(data: Str, mediaType: Str)

  /** `imageData.ImageType`: the media type of the base64 source. */
  function ImageType(d: ImageData): (t: Str)
    ensures t == d.mediaType
  {
    d.mediaType
  }

  /** `imageBuilder.FromBytes`: the standard base64 of the bytes, which decodes
      back to them, under the given MIME type. */
  function ImageFromBytes(mime: Str, displayName: Str, data: Bytes): (r: ImageData)
    ensures ImageType(r) == mime
    ensures Base64.Decode(r.data) == Some(data)
  {
    Base64.DecodeEncode(data);
    ImageData(Base64.Encode(data), mime)
  }

  /** `imageBuilder.FromBase64`: the string is stored verbatim, unchecked, and the
      call never fails. */
  function ImageFromBase64(mime: Str, displayName: Str, encoded: Str): (r: Result<ImageData>)
    ensures r.Ok? && r.value.data == encoded && ImageType(r.value) == mime
  {
    Ok(ImageData(encoded, mime))
  }

  /** `imageBuilder.From`: the read error, or the bytes read, as `FromBytes` takes them. */
  function ImageFrom(mime: Str, displayName: Str, read: Call<Bytes>): (r: Result<ImageData>)
    ensures read.Errored? <==> r.Err?
    ensures r.Err? ==> r.error == ReadFailed(read.message)
    ensures r.Ok? ==> ImageType(r.value) == mime && Base64.Decode(r.value.data) == Some(read.value)
  {
    match read
    case Errored(message) => Err(ReadFailed(message))
    case Returned(data) => Ok(ImageFromBytes(mime, displayName, data))
  }

  /** `docData`: a document block and its MIME type. */
  datatype DocData = DocData(data: ContentBlock, mime: Str)

  /** `docData.DocumentType`: the MIME type recorded beside the block. */
  function DocumentType(d: DocData): (t: Str)
    ensures t == d.mime
  {
    d.mime
  }

  /** The bytes a document block carries: the text of a plain-text source, the
      decoded payload of a base64 PDF source. */
  function Content(d: DocData): Option<Bytes> {
    if d.data.DocumentBlock? && d.data.document.PlainTextSource? then Some(d.data.document.data)
    else if d.data.DocumentBlock? && d.data.document.Base64PDFSource? then Base64.Decode(d.data.document.data)
    else None
  }

  /** `fromText` (and `docBuilder.PlainText`): a plain-text document holding the text. */
  function FromText(text: Str): (r: DocData)
    ensures DocumentType(r) == DocPlainText
    ensures r.data == DocumentBlock(PlainTextSource(text))
    ensures Content(r) == Some(text)
  {
    DocData(DocumentBlock(PlainTextSource(text)), DocPlainText)
  }

  /** `fromBase64` (and `docBuilder.FromBase64`): only PDF is supported, as a
      base64 PDF source holding the string verbatim. */
  function FromBase64(mime: Str, encoded: Str): (r: Result<DocData>)
    ensures r.Ok? <==> mime == DocPDF
    ensures r.Ok? ==> r.value.data == DocumentBlock(Base64PDFSource(encoded)) && DocumentType(r.value) == DocPDF
    ensures r.Err? ==> r.error == Unsupported("fromBase64")
  {
    if mime == DocPDF then Ok(DocData(DocumentBlock(Base64PDFSource(encoded)), DocPDF))
    else Err(Unsupported("fromBase64"))
  }

  /** `fromBytes` (and `docBuilder.FromBytes`): plain text keeps the bytes as the
      text; any other type is base64-encoded and handed to `fromBase64`. */
  function FromBytes(mime: Str, data: Bytes): (r: Result<DocData>)
    ensures r.Ok? <==> mime == DocPlainText || mime == DocPDF
    ensures r.Err? ==> r.error == Unsupported("fromBase64")
    ensures r.Ok? ==> DocumentType(r.value) == mime
    ensures mime == DocPlainText ==> r.value.data == DocumentBlock(PlainTextSource(data))
    ensures mime == DocPDF ==> r.value.data == DocumentBlock(Base64PDFSource(Base64.Encode(data)))
  {
    PlainTextIsNotPDF();
    if mime == DocPlainText then Ok(FromText(data))
    else FromBase64(mime, Base64.Encode(data))
  }

  /** `docBuilder.From`: the read error, or the bytes read, as `fromBytes` takes them. */
  function DocFrom(mime: Str, displayName: Str, read: Call<Bytes>): (r: Result<DocData>)
    ensures read.Errored? ==> r == Err(ReadFailed(read.message))
    ensures read.Returned? ==> (r.Ok? <==> mime == DocPlainText || mime == DocPDF)
    ensures r.Ok? ==> DocumentType(r.value) == mime && Content(r.value) == Some(read.value)
  {
    match read
    case Errored(message) => Err(ReadFailed(message))
    case Returned(data) => FromBytesKeepsContent(mime, data); FromBytes(mime, data)
  }

  lemma PlainTextIsNotPDF()
    ensures DocPlainText != DocPDF
  {
    assert |DocPlainText| == 10 && |DocPDF| == 15;
  }

  /** A document made from bytes exists exactly for plain text and PDF; it has the
      requested type and carries exactly the bytes it was made from. */
  lemma FromBytesKeepsContent(mime: Str, data: Bytes)
    ensures FromBytes(mime, data).Ok? <==> mime == DocPlainText || mime == DocPDF
    ensures FromBytes(mime, data).Ok? ==>
      DocumentType(FromBytes(mime, data).value) == mime && Content(FromBytes(mime, data).value) == Some(data)
  {
    PlainTextIsNotPDF();
    if mime == DocPDF {
      Base64.DecodeEncode(data);
    }
  }
}
