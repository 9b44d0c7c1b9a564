/** Images and documents for the openai backend: each is carried as an input
    file whose `FileData` is a base64 `data:` URL (section 3 of RFC 2397). */
module OpenAIData {
  import opened GoBase
  import opened Xai
  import Base64

  /** What `makeInputData` reads from: an already-encoded `base64Data` string, a
      `[]byte`, or an `io.Reader`, given here as the outcome of reading it. */
  datatype Source = Base64Data(encoded: Str) | ByteSlice(data: Bytes) | Reader(read: Call<Bytes>)

  /** `inputData`: an input-file parameter with only `FileData` set, and its MIME type. */
  datatype InputData = InputData(fileData: Str, mime: Str)

  const DataScheme: Str := Ascii("data:")
  const Base64Marker: Str := Ascii(";base64,")

  /** The `data:` URL of a MIME type and a base64 payload. */
  function DataURL(mime: Str, payload: Str): Str {
    DataScheme + mime + Base64Marker + payload
  }

  /** The payload of a data URL built for `mime`: what follows ";base64,". */
  function Payload(url: Str, mime: Str): Str {
    if 13 + |mime| <= |url| then url[13 + |mime|..] else []
  }

  /** The payload of a data URL is recovered exactly, whatever the MIME type holds. */
  lemma PayloadOfDataURL(mime: Str, payload: Str)
    ensures Payload(DataURL(mime, payload), mime) == payload
  {
    var url := DataURL(mime, payload);
    assert |DataScheme| == 5 && |Base64Marker| == 8;
    assert url[13 + |mime|..] == payload;
  }

  /** `makeInputData`: writes "data:", the MIME type and ";base64," into a
      string builder, then the payload. A `base64Data` source is copied without
      validation; bytes, and whatever a reader yields, go through the standard
      base64 encoder. A read error abandons the builder and is returned. */
  method MakeInputData(mime: Str, src: Source) returns (r: Result<InputData>)
    ensures src.Reader? && src.read.Errored? <==> r.Err?
    ensures r.Err? ==> r.error == ReadFailed(src.read.message)
    ensures r.Ok? ==> r.value.mime == mime && r.value.fileData == DataURL(mime, Payload(r.value.fileData, mime))
    ensures r.Ok? && src.Base64Data? ==> Payload(r.value.fileData, mime) == src.encoded
    ensures r.Ok? && src.ByteSlice? ==> Payload(r.value.fileData, mime) == Base64.Encode(src.data)
    ensures r.Ok? && src.Reader? ==> Payload(r.value.fileData, mime) == Base64.Encode(src.read.value)
    ensures r.Ok? && src.ByteSlice? ==> Base64.Decode(Payload(r.value.fileData, mime)) == Some(src.data)
    ensures r.Ok? && src.Reader? ==> Base64.Decode(Payload(r.value.fileData, mime)) == Some(src.read.value)
  {
    var b := DataScheme;
    b := b + mime;
    b := b + Base64Marker;
    var payload: Str;
    match src {
      case Base64Data(encoded) =>
        payload := encoded;
      case ByteSlice(data) =>
        payload := Base64.Encode(data);
        Base64.DecodeEncode(data);
      case Reader(read) =>
        if read.Errored? {
          return Err(ReadFailed(read.message));
        }
        payload := Base64.Encode(read.value);
        Base64.DecodeEncode(read.value);
    }
    b := b + payload;
    assert b == DataURL(mime, payload);
    PayloadOfDataURL(mime, payload);
    r := Ok(InputData(b, mime));
  }

  /** `ImageType` of an `inputData`: the MIME type it was made for. */
  function ImageType(d: InputData): (t: Str)
    ensures t == d.mime
  {
    d.mime
  }

  /** `DocumentType` of an `inputData`: likewise the MIME type it was made for. */
  function DocumentType(d: InputData): (t: Str)
    ensures t == d.mime
  {
    d.mime
  }

  /** `imageBuilder.From`: the reader's content, encoded, or the read error. */
  method ImageFrom(mime: Str, displayName: Str, read: Call<Bytes>) returns (r: Result<InputData>)
    ensures read.Errored? ==> r == Err(ReadFailed(read.message))
    ensures read.Returned? ==>
      (r.Ok? && ImageType(r.value) == mime && r.value.fileData == DataURL(mime, Base64.Encode(read.value)))
    ensures read.Returned? ==> Base64.Decode(Payload(r.value.fileData, mime)) == Some(read.value)
  {
    r := MakeInputData(mime, Reader(read));
  }

  /** `imageBuilder.FromBytes`: never fails; the payload decodes to the bytes. */
  method ImageFromBytes(mime: Str, displayName: Str, data: Bytes) returns (d: InputData)
    ensures ImageType(d) == mime
    ensures d.fileData == DataURL(mime, Base64.Encode(data))
    ensures Base64.Decode(Payload(d.fileData, mime)) == Some(data)
  {
    var r := MakeInputData(mime, ByteSlice(data));
    d := r.value;
  }

  /** `imageBuilder.FromBase64`: the string becomes the payload verbatim, unchecked. */
  method ImageFromBase64(mime: Str, displayName: Str, data: Str) returns (r: Result<InputData>)
    ensures r.Ok? && ImageType(r.value) == mime
    ensures r.Ok? ==> r.value.fileData == DataURL(mime, data)
  {
    r := MakeInputData(mime, Base64Data(data));
  }

  /** `docBuilder.From`. */
  method DocFrom(mime: Str, displayName: Str, read: Call<Bytes>) returns (r: Result<InputData>)
    ensures read.Errored? ==> r == Err(ReadFailed(read.message))
    ensures read.Returned? ==>
      (r.Ok? && DocumentType(r.value) == mime && r.value.fileData == DataURL(mime, Base64.Encode(read.value)))
    ensures read.Returned? ==> Base64.Decode(Payload(r.value.fileData, mime)) == Some(read.value)
  {
    r := MakeInputData(mime, Reader(read));
  }

  /** `docBuilder.FromBase64`. */
  method DocFromBase64(mime: Str, displayName: Str, data: Str) returns (r: Result<InputData>)
    ensures r.Ok? && DocumentType(r.value) == mime
    ensures r.Ok? ==> r.value.fileData == DataURL(mime, data)
  {
    r := MakeInputData(mime, Base64Data(data));
  }

  /** `docBuilder.FromBytes`: never fails. */
  method DocFromBytes(mime: Str, displayName: Str, data: Bytes) returns (d: InputData)
    ensures DocumentType(d) == mime
    ensures d.fileData == DataURL(mime, Base64.Encode(data))
    ensures Base64.Decode(Payload(d.fileData, mime)) == Some(data)
  {
    var r := MakeInputData(mime, ByteSlice(data));
    d := r.value;
  }

  /** `docBuilder.PlainText`: the text's own bytes, base64-encoded, as "text/plain". */
  method PlainText(text: Str) returns (d: InputData)
    ensures DocumentType(d) == DocPlainText
    ensures d.fileData == DataURL(DocPlainText, Base64.Encode(text))
    ensures Base64.Decode(Payload(d.fileData, DocPlainText)) == Some(text)
  {
    var r := MakeInputData(DocPlainText, ByteSlice(text));
    d := r.value;
  }
}
