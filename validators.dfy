/** Input checks on card text and type (backend/utils/validators.py). */
module Validators {
  const MAX_CONCEPT_LENGTH: nat := 100
  const MAX_ANSWER_LENGTH: nat := 200

  /** The `ValueError`s the validator raises, one per message. */
  datatype ValidationError = EmptyConcept | ConceptTooLong | EmptyAnswer | AnswerTooLong | InvalidCardType

  /** A check either passes or raises one error. */
  datatype Check = Pass | Fail(error: ValidationError)

  /** `validate_concept`: non-empty and at most 100 characters. */
  function ValidateConcept(concept: string): (c: Check)
    ensures c.Pass? <==> 1 <= |concept| <= MAX_CONCEPT_LENGTH
    ensures |concept| == 0 ==> c == Fail(EmptyConcept)
    ensures |concept| > MAX_CONCEPT_LENGTH ==> c == Fail(ConceptTooLong)
  {
    if |concept| < 1 then Fail(EmptyConcept)
    else if |concept| > MAX_CONCEPT_LENGTH then Fail(ConceptTooLong)
    else Pass
  }

  /** `validate_answer`: non-empty and at most 200 characters. */
  function ValidateAnswer(answer: string): (c: Check)
    ensures c.Pass? <==> 1 <= |answer| <= MAX_ANSWER_LENGTH
    ensures |answer| == 0 ==> c == Fail(EmptyAnswer)
    ensures |answer| > MAX_ANSWER_LENGTH ==> c == Fail(AnswerTooLong)
  {
    if |answer| < 1 then Fail(EmptyAnswer)
    else if |answer| > MAX_ANSWER_LENGTH then Fail(AnswerTooLong)
    else Pass
  }

  /** `validate_card_type`: exactly "word" or "concept". */
  function ValidateCardType(cardType: string): (c: Check)
    ensures c.Pass? <==> cardType == "word" || cardType == "concept"
    ensures c.Fail? ==> c.error == InvalidCardType
  {
    if cardType in ["word", "concept"] then Pass else Fail(InvalidCardType)
  }

  /** Boundary cases: 100 and 200 characters pass, 101 and 201 do not. */
  lemma {:induction false} LengthBoundaries(s: string)
    ensures |s| == 100 ==> ValidateConcept(s) == Pass
    ensures |s| == 101 ==> ValidateConcept(s) == Fail(ConceptTooLong)
    ensures |s| == 200 ==> ValidateAnswer(s) == Pass
    ensures |s| == 201 ==> ValidateAnswer(s) == Fail(AnswerTooLong)
  {
  }
}
