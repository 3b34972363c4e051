# RAG answer pipeline, modelled in Dafny

This project models the answer pipeline of a retrieval-augmented question
answering service (`RAGService` in `service.py`). A question is sent to a vector
search service. Each untrusted search record is normalised into
`{text, source, title, score}` through ordered fallback chains. If nothing was
retrieved, the answer is a fixed 404-coded message. Otherwise every retrieved
passage is numbered into a prompt, the prompt goes to the configured language
model backend (`ollama` or `openai`), and only passages scoring at least the
similarity threshold (0.7) are returned as sources.

The two network collaborators are parameters: the vector service is a total
function from the search request to an HTTP outcome, and the model is a total
function from a backend and a prompt to a reply. Every method that talks to them
also returns the list of outbound calls it made, so "the model is never called"
and "the model is called exactly once, with this prompt" are statements about a
real result.

Modules, one per component of the pipeline:

- `Wrappers`: `Option` (a key that may be missing) and `Result` (an operation that may raise).
- `Config`: `TOP_K = 3`, `SIMILARITY_THRESHOLD = 0.7`, the default provider and the prompt template, split around its two slots.
- `Records`: the raw search record, the normalised record, `SourceDocument` and `AnswerResponse`.
- `Strings`: `sep.join(parts)`, decimal rendering of an index, substring containment.
- `Normalization`: `_extract_text_content`, `_extract_source_info`, `_format_vector_results`.
- `PromptBuilder`: `build_prompt` and the template substitution.
- `SourceFilter`: `format_sources`.
- `Outbound`: search requests, HTTP outcomes, backends, model replies, the call record.
- `VectorSearch`: the response handling of `search_vector_db`.
- `LlmGateway`: the provider switch of `call_llm`.
- `RagService`: `generate_answer`.

The list builders (`_format_vector_results`, `build_prompt`, `format_sources`)
are methods with loops. Each is proved equal to a specification function, and
the properties are lemmas about that function. The fallback chains are
functions.

Two quirks of the code are kept. `text` and `content` are chosen by key presence,
so an empty `text` still wins. `source` and `category` are chosen by truthiness,
so an empty string counts as absent. With both present the label is
`category - source`, category first, as the code writes it.

## Model

| member | source | states |
|---|---|---|
| `Normalization.ExtractText` | service.py:81-92 | The text is `text` if that key is present, else `content`, else `"文档: " + document_id`, else `"暂无具体内容"`. Presence decides, not emptiness. |
| `Normalization.ExtractSource` | service.py:94-107 | With non-empty source and category the label is `category - source`. With only one non-empty, it is that one. Otherwise, including non-dict metadata, it is `document_id`, else `"未知来源"`. |
| `Normalization.FormatVectorResults` | service.py:61-79 | Exactly one normalised record per raw record, in the same order. Text and source follow the two chains. Title is `document_id` or `"未知文档"`. Score is the raw score or 0.0. |
| `Normalization.TextEmptyIff` | service.py:81-92 | The text is empty if and only if the chosen key holds an empty string. The placeholder and the `document_id` label are never empty. |
| `Normalization.SourceEmptyIff` | service.py:94-107 | The source label is empty if and only if no metadata field is non-empty and `document_id` is present but empty. |
| `Normalization.SourceLabelOrder` | service.py:100-105 | A non-empty category is a prefix of the label, and a non-empty source is a suffix of it. |
| `Normalization.NonDictMetadataFallsBack` | service.py:96-107 | Missing metadata and metadata that is not a dict both give `document_id`, or else `"未知来源"`. |
| `Normalization.ExtractFieldsIndependent` | service.py:81-107 | The text depends only on `text`, `content` and `document_id`. The source depends only on `metadata` and `document_id`. |
| `Normalization.NormalizeImage` | service.py:70-75 | A normalised record can be produced if and only if an empty source comes with an empty title. |
| `Normalization.EmbedRoundTrip` | service.py:70-75 | Every such record normalises back from a raw record built from its own fields. |
| `Strings.NatToDecimal` | service.py:170 | The rendered index is non-empty, all decimal digits, with no leading zero. |
| `Strings.DecimalRoundTrip` | service.py:170 | Parsing the rendered index gives the index back. |
| `Strings.DecimalInjective` | service.py:170 | Different indices render differently. |
| `Strings.JoinSnoc` | service.py:172 | Joining one more part appends the separator and that part. |
| `Strings.JoinContains` | service.py:172 | Every part occurs as a substring of the joined string. |
| `Strings.JoinLength` | service.py:172 | The joined length is the parts' total length plus one separator between each pair of neighbours. |
| `PromptBuilder.BuildPrompt` | service.py:166-180 | The loop-built prompt equals the template filled with the question and the context block. With no passages the block is `"暂无相关上下文信息"`. |
| `PromptBuilder.ContextBlockSnoc` | service.py:168-172 | One more passage turns the placeholder into `[1] text`, or else appends a blank line and `[n+1] text`. So the block is the numbered lines in input order. |
| `PromptBuilder.ContextBlockContainsLine` | service.py:168-172 | The text `[i+1] text` for the i-th passage occurs in the block. |
| `PromptBuilder.ContextBlockLength` | service.py:168-172 | The block's length is its lines' total length plus one `"\n\n"` between each pair of neighbours. |
| `PromptBuilder.PromptContainsText` | service.py:166-180 | Every passage's text occurs in the prompt, whatever its score. |
| `PromptBuilder.PromptContainsQuestion` | config.py:21-28 | The question occurs verbatim right after the fixed prefix. |
| `PromptBuilder.TemplateInjective` | config.py:21-28 | With the block fixed, or the question's length known, the prompt determines both slots. |
| `PromptBuilder.TemplateAmbiguous` | config.py:21-28 | Without that condition the slots are ambiguous. A question containing the text between the two slots gives the same prompt as a shorter question with that tail moved into the context. |
| `SourceFilter.KeptIndices` | service.py:185-188 | The positions kept are strictly increasing and are exactly the passages whose score is not below the threshold. |
| `SourceFilter.FormatSources` | service.py:182-199 | The loop with `continue` returns the filtered sources and is never longer than its input. |
| `SourceFilter.SourcesAreKeptSubsequence` | service.py:184-196 | The sources are the kept passages in their original order, each mapped to `text = text`, `url = source`, `title = title`, `score = score`. |
| `SourceFilter.LowScoreExcluded` | service.py:187-188 | Every source scores at least the threshold, and no passage below it has a source. |
| `SourceFilter.PassingIncluded` | service.py:190-196 | Every passage at or above the threshold has its source among the sources. |
| `VectorSearch.SearchVectorDb` | service.py:19-59 | One request is made, with `TOP_K` when no `top_k` is given. A transport failure, a non-200 status, a body that is not a JSON object or a missing `results` key gives `[]`. A 200 response gives the normalisation of its `results`. |
| `LlmGateway.SelectBackend` | service.py:112-117 | `"ollama"` and `"openai"` select their backends, and every other name is an unsupported-provider error. |
| `LlmGateway.DefaultProviderIsOllama` | config.py:10 | The default provider `"ollama"` selects the Ollama backend. |
| `LlmGateway.CallLlm` | service.py:109-120 | An unknown provider fails before any backend call. Otherwise exactly one backend call is made, and a failure is re-raised unchanged. |
| `RagService.GenerateAnswer` | service.py:201-231 | Search comes first, with the default `top_k`. With no results the answer is code `"404"`, the fixed message and no sources, and the model is never called. Otherwise the pipeline makes one model call with the prompt over all results, so every result's text is in it. It then answers code `"200"`, the model's text and the filtered sources, or propagates the model's failure. |
| `RagService.LowScoreInPromptNotInSources` | service.py:217-226 | A result below the threshold is in the prompt but not among the sources. |
| `RagService.MissingScoreNeverShown` | service.py:74 | A raw record without a score gets score 0 and is never shown as a source. |
| `RagService.ScenarioOneHighScoringResult` | service.py:166-199 | One result `{text: "33个院系", score: 0.9, document_id: "d1"}` yields the prompt line `[1] 33个院系` and exactly one source, with score 0.9. |
| `RagService.ScenarioOneLowScoringResult` | service.py:182-199 | The same result with score 0.5 yields no sources, but its text is in the prompt. |

## Left out

- Network I/O: the `requests` and `openai` SDK calls, timeouts and JSON decoding. Both collaborators are abstract total functions, so a repeated call with the same input gets the same outcome.
- `_call_ollama` and `_call_openai`: they build backend-specific requests and trim the reply with `.strip()`. The model's reply is taken as already trimmed. A backend's non-200 status and its exceptions are one `BackendFailed` outcome.
- Logging, `async`/`await`, and the unused `json`, `numpy`, `os`, `sys` imports: none of them change a result.
- The search URL is hard-coded at service.py:17 and ignores the `VECTOR_SERVICE_URL` setting of config.py:6-7. It is configuration, not logic, so the model has no URL.
- Raw field values are assumed to have their JSON types: strings for `text`, `content`, `document_id`, `source` and `category`, and a number for `score`. The Python code would, for example, format a non-string truthy `source` or raise on a `null` score in `format_sources`. A `results` value that is not a list of objects is also not modelled.
- SourceFilter.FormatSources: it is modelled on normalised records only, its one caller. Its key defaults (`url` `""`, `title` `"未知标题"`, `score` 0) cannot fire there, because normalisation always fills all four keys.
- Scores and the threshold are exact reals. An IEEE float score that compares differently from its real value is not modelled.
- The HTTP boundary (router.py, main.py): validation, the 400 for an empty or whitespace-only question, the 500 mapping of propagated errors, CORS and the health endpoint. `generate_answer` itself does not check the question, so the model adds no precondition for it.
- Environment parsing in config.py: the default values are taken as constants. The provider name is a parameter of `GenerateAnswer`.
- simple-rag.py: a stand-alone LangChain script made entirely of library calls and console I/O.
- pydantic validation in model.py: only the record shapes and the `code = "200"` default are used.
