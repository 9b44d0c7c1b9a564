/** Images and documents for the gemini backend: raw bytes travel as inline
    blobs, so base64 input is decoded here and can be rejected. Every
    constructor returns a fresh value and changes nothing. */
module GeminiData {
  import opened GoBase
  import opened Xai
  import opened Genai
  import Base64

  /** `imageData` is a `genai.Blob`. */
  function ImageType(d: Blob): (t: Str)
    ensures t == d.mimeType
  {
    d.mimeType
  }

  /** `imageBuilder.FromBytes`: bytes, display name and MIME type, unchanged. */
  function ImageFromBytes(mime: Str, displayName: Str, data: Bytes): (r: Blob)
    ensures r.data == data && r.displayName == displayName && ImageType(r) == mime
  {
    Blob(data, displayName, mime)
  }

  /** `imageBuilder.FromBase64`: the decoded bytes, or the decoder's error for
      input that is not standard base64. */
  function ImageFromBase64(mime: Str, displayName: Str, encoded: Str): (r: Result<Blob>)
    ensures r.Ok? <==> Base64.Decode(encoded).Some?
    ensures r.Err? ==> r.error == CorruptBase64
    ensures r.Ok? ==>
      (r.value.data == Base64.Decode(encoded).value && r.value.displayName == displayName && ImageType(r.value) == mime)
  {
    match Base64.Decode(encoded)
    case None => Err(CorruptBase64)
    case Some(b) => Ok(Blob(b, displayName, mime))
  }

  /** `imageBuilder.From`: the read error, or the bytes read, as `FromBytes` takes them. */
  function ImageFrom(mime: Str, displayName: Str, read: Call<Bytes>): (r: Result<Blob>)
    ensures read.Errored? <==> r.Err?
    ensures r.Err? ==> r.error == ReadFailed(read.message)
    ensures r.Ok? ==> r.value.data == read.value && ImageType(r.value) == mime
  {
    match read
    case Errored(message) => Err(ReadFailed(message))
    case Returned(data) => Ok(ImageFromBytes(mime, displayName, data))
  }

  /** Decoding the standard encoding of some bytes gives the same image as the
      bytes themselves. */
  lemma ImageFromBase64OfEncode(mime: Str, displayName: Str, data: Bytes)
    ensures ImageFromBase64(mime, displayName, Base64.Encode(data)) == Ok(ImageFromBytes(mime, displayName, data))
  {
    Base64.DecodeEncode(data);
  }

  /** `docData.DocumentType` (a `docData` is a `genai.Part`): the MIME type of its
      inline blob, and plain text for a part without one. */
  function DocumentType(d: Part): (t: Str)
    ensures d.inlineData.Some? ==> t == d.inlineData.value.mimeType
    ensures d.inlineData.None? ==> t == DocPlainText
  {
    if d.inlineData.Some? then d.inlineData.value.mimeType else DocPlainText
  }

  /** `docBuilder.FromBytes`: a part holding one inline blob. */
  function DocFromBytes(mime: Str, displayName: Str, data: Bytes): (r: Part)
    ensures DocumentType(r) == mime
    ensures r.inlineData == Some(Blob(data, displayName, mime))
    ensures r.text == [] && r.fileData.None? && r.functionCall.None? && r.functionResponse.None?
  {
    EmptyPart.(inlineData := Some(Blob(data, displayName, mime)))
  }

  /** `docBuilder.FromBase64`: decodes, then builds as `FromBytes` does. */
  function DocFromBase64(mime: Str, displayName: Str, encoded: Str): (r: Result<Part>)
    ensures r.Ok? <==> Base64.Decode(encoded).Some?
    ensures r.Err? ==> r.error == CorruptBase64
    ensures r.Ok? ==>
      (DocumentType(r.value) == mime && r.value.inlineData == Some(Blob(Base64.Decode(encoded).value, displayName, mime)))
  {
    match Base64.Decode(encoded)
    case None => Err(CorruptBase64)
    case Some(b) => Ok(DocFromBytes(mime, displayName, b))
  }

  /** `docBuilder.From`. */
  function DocFrom(mime: Str, displayName: Str, read: Call<Bytes>): (r: Result<Part>)
    ensures read.Errored? <==> r.Err?
    ensures r.Err? ==> r.error == ReadFailed(read.message)
    ensures r.Ok? ==> DocumentType(r.value) == mime && r.value.inlineData == Some(Blob(read.value, displayName, mime))
  {
    match read
    case Errored(message) => Err(ReadFailed(message))
    case Returned(data) => Ok(DocFromBytes(mime, displayName, data))
  }

  /** `docBuilder.PlainText`: a text part, which reads as plain text. */
  function PlainText(text: Str): (r: Part)
    ensures DocumentType(r) == DocPlainText && r.text == text
  {
    NewPartFromText(text)
  }

  lemma DocFromBase64OfEncode(mime: Str, displayName: Str, data: Bytes)
    ensures DocFromBase64(mime, displayName, Base64.Encode(data)) == Ok(DocFromBytes(mime, displayName, data))
  {
    Base64.DecodeEncode(data);
  }
}
