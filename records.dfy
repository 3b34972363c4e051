/** The record shapes the pipeline passes around. */
module Records {
  import opened Wrappers

  /** The `metadata` value of a raw search record: a JSON object whose
      `source` and `category` keys may be missing, or any other JSON value. */
  datatype Metadata = Dict(source: Option<string>, category: Option<string>) | NotADict

  /** One untrusted record from the vector service; every key may be missing. */
  datatype RawResult = RawResult(
    text: Option<string>,
    content: Option<string>,
    documentId: Option<string>,
    metadata: Option<Metadata>,
    score: Option<real>)

  /** A record after normalisation: all four keys are always present. */
  datatype Normalized = Normalized(text: string, source: string, title: string, score: real)

  /** A source shown to the caller (`SourceDocument`). */
  datatype SourceDocument = SourceDocument(text: string, url: string, title: string, score: Option<real>)

  /** The answer returned to the caller (`AnswerResponse`). */
  datatype AnswerResponse = AnswerResponse(code: string, answer: string, sources: seq<SourceDocument>)

  /** The `code` an `AnswerResponse` gets when none is given. */
  const DefaultCode: string := "200"
}
