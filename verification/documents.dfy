/** LangChain `Document` records and Chroma metadata values. */
module Documents {
  import opened Text

  /** A metadata value. Chroma also accepts floats and booleans; this core only
      ever stores strings (`source`, `file_type`) and integers (`chunk_index`). */
  datatype Value = Str(s: string) | Int(i: int)

  /** A metadata dictionary. */
  type Metadata = map<string, Value>

  /** A chunk of text with its metadata (`Document(page_content, metadata)`). */
  datatype Document = Document(pageContent: string, metadata: Metadata)

  const SourceKey := "source"
  const UnknownSource := "Unknown"

  /** `str(v)`, as an f-string renders a metadata value. */
  function Render(v: Value): string {
    match v
    case Str(s) => s
    case Int(i) => IntToString(i)
  }

  /** `doc.metadata.get("source", "Unknown")`. */
  function SourceName(d: Document): Value {
    if SourceKey in d.metadata then d.metadata[SourceKey] else Str(UnknownSource)
  }
}
