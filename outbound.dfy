/** The two network collaborators, seen only through their outcomes, and
    the record of the calls the pipeline makes to them. */
module Outbound {
  import opened Wrappers
  import opened Records

  /** The JSON body `{query, top_k}` posted to the vector service. */
  datatype SearchRequest = SearchRequest(query: string, topK: int)

  /** A response body: a decoded JSON object whose `results` key may be
      missing, or a body that is not a JSON object (it does not decode, or it
      decodes to a list, `null` or a scalar, so `.get` raises). */
  datatype Body = Json(results: Option<seq<RawResult>>) | NotJson

  /** What the HTTP POST to the vector service comes to: a response with a
      status code, or a transport failure (`RequestException`, timeout). */
  datatype HttpOutcome = Responded(status: int, body: Body) | RequestFailed

  /** The generation backends `call_llm` can dispatch to. */
  datatype Backend = Ollama | OpenAI

  /** What a backend call comes to: the (already trimmed) generated text, or
      a raised error with its message. */
  datatype LlmReply = Generated(text: string) | BackendFailed(detail: string)

  /** One outbound call, in the order the pipeline makes them. */
  datatype Call = VectorSearch(request: SearchRequest) | Generate(backend: Backend, prompt: string)
}
