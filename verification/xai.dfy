/** The backend-independent vocabulary: MIME constants, the reserved names of the
    standard tools, and the dynamically typed values (`any`) that tool inputs and
    results carry. */
module Xai {
  import opened GoBase

  // MIME types of images and documents.
  const ImageJPEG: Str := Ascii("image/jpeg")
  const ImagePNG: Str := Ascii("image/png")
  const ImageGIF: Str := Ascii("image/gif")
  const ImageWebP: Str := Ascii("image/webp")
  const DocPlainText: Str := Ascii("text/plain")
  const DocPDF: Str := Ascii("application/pdf")

  /** Every standard tool name starts with this prefix. */
  const StdPrefix: Str := Ascii("std/")
  const ToolWebSearch: Str := Ascii("std/web_search")
  const ToolWebFetch: Str := Ascii("std/web_fetch")
  const ToolCodeExecution: Str := Ascii("std/code_execution")
  const ToolBashCodeExecution: Str := Ascii("std/bash_code_execution")
  const ToolTextEditorCodeExecution: Str := Ascii("std/text_editor_code_execution")
  const ToolSearchToolRegex: Str := Ascii("std/tool_search_tool_regex")
  const ToolSearchToolBm25: Str := Ascii("std/tool_search_tool_bm25")

  /** A Go value of static type `any`, by the dynamic type it holds. */
  datatype Value =
    | RawText(text: Str)                        // xai.RawText: already-serialised text
    | Error(message: Str)                       // an `error`; `message` is its Error()
    | String(s: Str)                            // a Go `string`
    | Number(x: real)
    | Bool(b: bool)
    | Null
    | Object(fields: map<Str, Value>)           // map[string]any
    | List(items: seq<Value>)                   // []any
    | WebSearch(result: seq<WebSearchResultItem>) // *xai.WebSearchResult

  /** One item of a web-search result; `underlying` is backend-specific content. */
  datatype WebSearchResultItem = WebSearchResultItem(title: Str, url: Str, pageAge: Str, underlying: Value)

  /** `encoding/json`, which the model does not interpret: `marshal` is
      `json.Marshal` and `unmarshalObject` is `json.Unmarshal` into a
      `map[string]any`, each returning its value or its error. */
  datatype Json = Json(marshal: Value -> Call<Str>, unmarshalObject: Str -> Call<map<Str, Value>>)

  lemma StdPrefixOfWebSearch()
    ensures HasPrefix(ToolWebSearch, StdPrefix)
  {
    assert ToolWebSearch[..4] == StdPrefix;
  }
}
