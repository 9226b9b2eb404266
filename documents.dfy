/** The document shape exchanged with both vector stores (langchaingo's `schema.Document`):
    page content plus loosely typed metadata. */
module Documents {

  /** A metadata value as it comes back from a backend: Go's `interface{}` narrowed to the three
      cases retrieval distinguishes. A float keeps its real value; `Other` records the dynamic
      type's name. */
  datatype MetaValue = IntV(i: int) | FloatV(f: real) | Other(typeName: string)

  datatype Document = Document(content: string, metadata: map<string, MetaValue>)

  /** The metadata key that links a vector document to its relational row. */
  const QaIdKey: string := "qa_id"
}
