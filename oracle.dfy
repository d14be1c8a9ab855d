/**
 * The language-model and embedding collaborator (the LLM service interface),
 * seen only through what it returns. Each member stands for one call.
 */
module Oracles {
  /** `generate_related_concepts` default k. */
  const RELATED_CONCEPTS_K: nat := 5
  /** `generate_advanced_questions` default n. */
  const ADVANCED_QUESTIONS_N: nat := 3

  datatype Oracle = Oracle(
    /** `_calculate_similarity(text1, text2)`: the embedding similarity score. */
    similarity: (string, string) -> real,
    /** `is_equivalent(correct_answer, user_answer)`: the YES/NO equivalence verdict. */
    isEquivalent: (string, string) -> bool,
    /** `generate_feedback({concept, answer}, user_answer, is_correct)`. */
    generateFeedback: (string, string, string, bool) -> string,
    /** `generate_related_concepts(concept, k)`. */
    generateRelatedConcepts: (string, nat) -> seq<string>,
    /** `generate_advanced_questions(concept, n)`. */
    generateAdvancedQuestions: (string, nat) -> seq<string>,
    /** `generate_concept_definition(concept)`. */
    generateConceptDefinition: string -> string)

  /** The kind of one call made to the oracle, for traces of calls. */
  datatype OracleCall =
    | SimilarityCall
    | EquivalenceCall
    | FeedbackCall
    | RelatedConceptsCall
    | AdvancedQuestionsCall
    | DefinitionCall
}
