/** The fixed configuration values the answer pipeline reads: the defaults of
    config.py, taken as given (environment parsing is not modelled). */
module Config {

  /** Number of passages requested from the vector service (`TOP_K`). */
  const TopK: int := 3

  /** Minimum score for a passage to be shown as a source (`SIMILARITY_THRESHOLD`). */
  const SimilarityThreshold: real := 0.7

  /** Default generation backend (`LLM_PROVIDER`). */
  const DefaultProvider: string := "ollama"

  /** The prompt template has two slots, `{question}` and `{context}`; these
      are the three fixed pieces around them. */
  const PromptPrefix: string :=
    "请根据以下上下文信息回答问题。如果上下文中有相关信息，请基于这些信息回答；如果没有足够信息，请说明信息不足。\n\n问题："
  const PromptMiddle: string := "\n\n相关上下文：\n"
  const PromptSuffix: string := "\n\n请基于以上上下文提供准确、有用的回答："
}
