/** Dispatch of a prompt to the configured generation backend
    (service.py:109-120). */
module LlmGateway {
  import opened Wrappers
  import opened Outbound
  import opened Config

  /** Why a request fails once retrieval has succeeded. */
  datatype ServiceError = UnsupportedProvider(provider: string) | BackendError(detail: string)

  /** The provider switch: two names select a backend, any other is an error. */
  function SelectBackend(provider: string): (r: Result<Backend, ServiceError>)
    ensures r == Success(Ollama) <==> provider == "ollama"
    ensures r == Success(OpenAI) <==> provider == "openai"
    ensures r.Failure? <==> provider != "ollama" && provider != "openai"
    ensures r.Failure? ==> r.error == UnsupportedProvider(provider)
  {
    if provider == "ollama" then Success(Ollama)
    else if provider == "openai" then Success(OpenAI)
    else Failure(UnsupportedProvider(provider))
  }

  /** The default provider selects the local backend. */
  lemma DefaultProviderIsOllama()
    ensures SelectBackend(DefaultProvider) == Success(Ollama)
  {
  }

  /** A backend failure is re-raised unchanged. */
  function ReplyResult(reply: LlmReply): Result<string, ServiceError> {
    match reply
    case Generated(text) => Success(text)
    case BackendFailed(detail) => Failure(BackendError(detail))
  }

  /** `call_llm`: an unknown provider fails before any backend is called;
      otherwise exactly one backend call is made and its outcome returned. */
  method CallLlm(provider: string, prompt: string, llm: (Backend, string) -> LlmReply)
    returns (answer: Result<string, ServiceError>, calls: seq<Call>)
    ensures SelectBackend(provider).Failure? ==>
      answer == Failure(UnsupportedProvider(provider)) && calls == []
    ensures SelectBackend(provider).Success? ==>
      var backend := SelectBackend(provider).value;
      && calls == [Generate(backend, prompt)]
      && answer == ReplyResult(llm(backend, prompt))
  {
    var backend: Backend;
    if provider == "ollama" {
      backend := Ollama;
    } else if provider == "openai" {
      backend := OpenAI;
    } else {
      return Failure(UnsupportedProvider(provider)), [];
    }
    calls := [Generate(backend, prompt)];
    answer := ReplyResult(llm(backend, prompt));
  }
}
