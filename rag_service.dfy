/** The answer pipeline `generate_answer` (service.py:201-231): search,
    stop early when nothing is found, otherwise build the prompt over all
    results, generate, and show only the results that pass the threshold. */
module RagService {
  import opened Wrappers
  import opened Records
  import opened Config
  import opened Strings
  import opened Outbound
  import opened Normalization
  import opened PromptBuilder
  import opened SourceFilter
  import opened VectorSearch
  import opened LlmGateway

  const NotFoundCode: string := "404"
  const NotFoundMessage: string := "抱歉，没有找到相关的信息来回答这个问题。"

  /** The request the pipeline always sends first. */
  function DefaultRequest(question: string): SearchRequest {
    SearchRequest(question, TopK)
  }

  /** The normalised results the pipeline works on. */
  function Retrieved(question: string, search: SearchRequest -> HttpOutcome): seq<Normalized> {
    SearchResults(search(DefaultRequest(question)))
  }

  method GenerateAnswer(provider: string, question: string,
                        search: SearchRequest -> HttpOutcome, llm: (Backend, string) -> LlmReply)
    returns (response: Result<AnswerResponse, ServiceError>, calls: seq<Call>)
    // the search is always made, first, with the default top_k
    ensures 1 <= |calls| <= 2 && calls[0] == VectorSearch(DefaultRequest(question))
    // nothing found: a 404-coded answer and the model is never called
    ensures Retrieved(question, search) == [] ==>
      response == Success(AnswerResponse(NotFoundCode, NotFoundMessage, [])) && |calls| == 1
    // an unknown provider fails before any generation call
    ensures Retrieved(question, search) != [] && SelectBackend(provider).Failure? ==>
      response == Failure(UnsupportedProvider(provider)) && |calls| == 1
    // otherwise exactly one generation call, over the prompt of ALL results
    ensures Retrieved(question, search) != [] && SelectBackend(provider).Success? ==>
      var backend := SelectBackend(provider).value;
      var prompt := Prompt(question, Retrieved(question, search));
      && calls == [calls[0], Generate(backend, prompt)]
      && (forall i :: 0 <= i < |Retrieved(question, search)| ==>
            IsSubstring(Retrieved(question, search)[i].text, calls[1].prompt))
      && (llm(backend, prompt).Generated? ==>
            response == Success(AnswerResponse(DefaultCode, llm(backend, prompt).text,
                                               FilteredSources(Retrieved(question, search)))))
      && (llm(backend, prompt).BackendFailed? ==>
            response == Failure(BackendError(llm(backend, prompt).detail)))
  {
    var vectorResults, searchCalls := SearchVectorDb(question, None, search);
    calls := searchCalls;
    if vectorResults == [] {
      response := Success(AnswerResponse(NotFoundCode, NotFoundMessage, []));
      return;
    }
    var prompt := BuildPrompt(question, vectorResults);
    forall i | 0 <= i < |vectorResults|
      ensures IsSubstring(vectorResults[i].text, prompt)
    {
      PromptContainsText(question, vectorResults, i);
    }
    var answer, llmCalls := CallLlm(provider, prompt, llm);
    calls := calls + llmCalls;
    if answer.Failure? {
      response := Failure(answer.error);
      return;
    }
    var sources := FormatSources(vectorResults);
    response := Success(AnswerResponse(DefaultCode, answer.value, sources));
  }

  /** The asymmetry between prompt and sources: a result below the
      threshold is missing from the sources although its text is in the
      prompt. */
  lemma LowScoreInPromptNotInSources(question: string, results: seq<Normalized>, i: int)
    requires 0 <= i < |results| && results[i].score < SimilarityThreshold
    ensures IsSubstring(results[i].text, Prompt(question, results))
    ensures ToSource(results[i]) !in FilteredSources(results)
  {
    PromptContainsText(question, results, i);
    LowScoreExcluded(results);
  }

  /** A raw record without a score is scored 0 and is never shown as a source. */
  lemma MissingScoreNeverShown(raw: RawResult, results: seq<Normalized>)
    requires raw.score.None? && Normalize(raw) in results
    ensures ToSource(Normalize(raw)) !in FilteredSources(results)
  {
    LowScoreExcluded(results);
  }

  /** Scenario: one result `{text: "33个院系", score: 0.9, document_id: "d1"}`
      gives the prompt line `[1] 33个院系` and one source scored 0.9. */
  lemma ScenarioOneHighScoringResult(question: string)
    ensures
      var raw := RawResult(Some("33个院系"), None, Some("d1"), None, Some(0.9));
      var results := SearchResults(Responded(200, Json(Some([raw]))));
      && results == [Normalized("33个院系", "d1", "d1", 0.9)]
      && IsSubstring("[1] 33个院系", Prompt(question, results))
      && FilteredSources(results) == [SourceDocument("33个院系", "d1", "d1", Some(0.9))]
  {
    var results := [Normalized("33个院系", "d1", "d1", 0.9)];
    assert ContextLine(1, results[0]) == "[1] 33个院系";
    assert ContextLines(results) == ["[1] 33个院系"];
    OccursInMiddle(PromptPrefix + question + PromptMiddle, "[1] 33个院系", PromptSuffix);
    assert FilteredSources(results) == FilteredSources([]) + [ToSource(results[0])];
  }

  /** Scenario: the same result scored 0.5 is not shown, yet its text is in
      the prompt. */
  lemma ScenarioOneLowScoringResult(question: string)
    ensures
      var raw := RawResult(Some("33个院系"), None, Some("d1"), None, Some(0.5));
      var results := SearchResults(Responded(200, Json(Some([raw]))));
      && |results| == 1
      && IsSubstring("33个院系", Prompt(question, results))
      && FilteredSources(results) == []
  {
    var results := [Normalized("33个院系", "d1", "d1", 0.5)];
    PromptContainsText(question, results, 0);
    assert FilteredSources(results) == FilteredSources([]);
  }
}
