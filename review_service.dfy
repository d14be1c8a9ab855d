/**
 * The review evaluator (backend/services/review_service.py): judge an answer,
 * append one history record, move the card through its stages, store it.
 */
module ReviewServices {
  import opened Wrappers
  import opened Settings
  import opened Schedules
  import opened Validators
  import opened ReviewModels
  import opened Oracles
  import opened Cards
  import opened Storage
  import opened CardServices

  /** A word answer at least this similar is correct. */
  const WORD_SIM_CORRECT: real := 0.95
  /** A word answer at least this similar, but not correct, earns the typo hint. */
  const WORD_SIM_NEAR: real := 0.72
  /** A concept answer below this similarity fails without asking for equivalence. */
  const CONCEPT_SIM_PASS: real := 0.75
  /** A failed retry puts the card back this far ahead, independently of the stage-1 interval. */
  const RETRY_RESET_DELAY: int := 10 * MINUTE

  /** The verdict on one answer, with the oracle calls made to reach it, in order. */
  datatype Judgement = Judgement(isCorrect: bool, feedback: Feedback, calls: seq<OracleCall>)

  /**
   * The correctness policy: concept cards pass a similarity cut and then the
   * equivalence verdict; other cards are judged on similarity alone.
   */
  function Judge(o: Oracle, cardType: string, concept: string, answer: string, userAnswer: string): (j: Judgement)
    ensures j.isCorrect ==> j.feedback == NoFeedback
    ensures |j.calls| >= 1 && j.calls[0] == SimilarityCall
    ensures cardType == "concept" ==>
      (j.isCorrect <==> o.similarity(answer, userAnswer) >= CONCEPT_SIM_PASS && o.isEquivalent(answer, userAnswer))
    ensures EquivalenceCall in j.calls <==> cardType == "concept" && o.similarity(answer, userAnswer) >= CONCEPT_SIM_PASS
    ensures FeedbackCall in j.calls <==>
      cardType == "concept" && o.similarity(answer, userAnswer) >= CONCEPT_SIM_PASS && !o.isEquivalent(answer, userAnswer)
    ensures cardType == "concept" && o.similarity(answer, userAnswer) < CONCEPT_SIM_PASS ==>
      j.calls == [SimilarityCall] && j.feedback == LowConceptSimilarity(o.similarity(answer, userAnswer))
    ensures cardType == "concept" && o.similarity(answer, userAnswer) >= CONCEPT_SIM_PASS && !o.isEquivalent(answer, userAnswer) ==>
      j.feedback == Coaching(o.generateFeedback(concept, answer, userAnswer, false))
    ensures cardType != "concept" ==> j.calls == [SimilarityCall]
    ensures cardType != "concept" ==> (j.isCorrect <==> o.similarity(answer, userAnswer) >= WORD_SIM_CORRECT)
    ensures cardType != "concept" && WORD_SIM_NEAR <= o.similarity(answer, userAnswer) < WORD_SIM_CORRECT ==>
      j.feedback == TypoCheck
    ensures cardType != "concept" && o.similarity(answer, userAnswer) < WORD_SIM_NEAR ==>
      j.feedback == LowWordSimilarity(o.similarity(answer, userAnswer))
  {
    var sim := o.similarity(answer, userAnswer);
    if cardType == "concept" then
      if sim < CONCEPT_SIM_PASS then
        Judgement(false, LowConceptSimilarity(sim), [SimilarityCall])
      else if o.isEquivalent(answer, userAnswer) then
        Judgement(true, NoFeedback, [SimilarityCall, EquivalenceCall])
      else
        Judgement(false, Coaching(o.generateFeedback(concept, answer, userAnswer, false)),
                  [SimilarityCall, EquivalenceCall, FeedbackCall])
    else if sim >= WORD_SIM_CORRECT then
      Judgement(true, NoFeedback, [SimilarityCall])
    else if sim >= WORD_SIM_NEAR then
      Judgement(false, TypoCheck, [SimilarityCall])
    else
      Judgement(false, LowWordSimilarity(sim), [SimilarityCall])
  }

  /** Word cards: 0.95 is correct, 0.80 earns the typo hint, 0.50 reports its score. */
  lemma {:induction false} WordThresholdExamples(o: Oracle, concept: string, answer: string, userAnswer: string)
    ensures o.similarity(answer, userAnswer) == 0.95 ==>
      Judge(o, "word", concept, answer, userAnswer) == Judgement(true, NoFeedback, [SimilarityCall])
    ensures o.similarity(answer, userAnswer) == 0.80 ==>
      Judge(o, "word", concept, answer, userAnswer) == Judgement(false, TypoCheck, [SimilarityCall])
    ensures o.similarity(answer, userAnswer) == 0.50 ==>
      Judge(o, "word", concept, answer, userAnswer) == Judgement(false, LowWordSimilarity(0.50), [SimilarityCall])
  {
  }

  /** Concept cards: at 0.60 the answer is wrong and the equivalence oracle is never asked. */
  lemma {:induction false} ConceptCutExample(o: Oracle, concept: string, answer: string, userAnswer: string)
    requires o.similarity(answer, userAnswer) == 0.60
    ensures Judge(o, "concept", concept, answer, userAnswer) == Judgement(false, LowConceptSimilarity(0.60), [SimilarityCall])
  {
  }

  /** The result dictionary of `process_review` for a card that exists. */
  datatype ReviewOutcome = ReviewOutcome(
    isCorrect: bool,
    feedback: Feedback,
    nextReview: Option<int>,
    advanced: bool,
    stage: int,
    retryAllowed: bool,
    completed: bool,
    relatedConcepts: Option<seq<string>>,
    advancedQuestions: Option<seq<string>>)

  /** The reviewed card, the outcome returned, and the oracle calls made, in order. */
  datatype ReviewStep = ReviewStep(card: CardData, outcome: ReviewOutcome, calls: seq<OracleCall>)

  /** What `process_review` does to a card that exists, as a function of the card before. */
  function Review(o: Oracle, sched: ScheduleService, c: CardData, userAnswer: string, retry: bool, now: int): (r: ReviewStep)
    // identity and text never change
    ensures r.card.cardId == c.cardId && r.card.concept == c.concept
    ensures r.card.answer == c.answer && r.card.cardType == c.cardType
    // exactly one record, carrying the stage before the transition
    ensures r.card.history == c.history + [ReviewRecord(c.stage, userAnswer, r.outcome.isCorrect, r.outcome.feedback, now)]
    ensures r.outcome.isCorrect == Judge(o, c.cardType, c.concept, c.answer, userAnswer).isCorrect
    ensures r.outcome.feedback == Judge(o, c.cardType, c.concept, c.answer, userAnswer).feedback
    // the stage reported is the card's new stage, and it stays in 1..4
    ensures r.outcome.stage == r.card.stage
    ensures MIN_STAGE <= c.stage <= MAX_STAGE ==> MIN_STAGE <= r.card.stage <= MAX_STAGE
    // which of the four transitions applies
    ensures r.outcome.completed <==> r.outcome.isCorrect && c.stage == MAX_STAGE
    ensures r.outcome.retryAllowed <==> !r.outcome.isCorrect && !retry
    ensures r.outcome.relatedConcepts.Some? <==> r.outcome.completed
    ensures r.outcome.advancedQuestions.Some? <==> r.outcome.completed && c.cardType == "concept"
    // correct at stage 4: completed, not advanced, rescheduled at stage 4
    ensures r.outcome.completed ==>
      && r.card.stage == MAX_STAGE && !r.outcome.advanced
      && r.card.nextReview == NextReviewTime(sched, MAX_STAGE, c.cardType, now)
      && r.outcome.nextReview == Some(r.card.nextReview)
      && r.outcome.relatedConcepts == Some(o.generateRelatedConcepts(c.concept, RELATED_CONCEPTS_K))
      && r.outcome.advancedQuestions
         == (if c.cardType == "concept" then Some(o.generateAdvancedQuestions(c.concept, ADVANCED_QUESTIONS_N)) else None)
    // correct below stage 4: promoted by one and rescheduled at the new stage
    ensures r.outcome.isCorrect && c.stage < MAX_STAGE ==>
      && r.card.stage == c.stage + 1 && r.outcome.advanced
      && r.card.nextReview == NextReviewTime(sched, c.stage + 1, c.cardType, now)
      && r.outcome.nextReview == Some(r.card.nextReview)
    // correct above stage 4 (never reached from a valid card): stage kept, rescheduled
    ensures r.outcome.isCorrect && c.stage > MAX_STAGE ==>
      && r.card.stage == c.stage && !r.outcome.advanced
      && r.card.nextReview == NextReviewTime(sched, c.stage, c.cardType, now)
    // wrong, first try: nothing moves, a retry is offered
    ensures !r.outcome.isCorrect && !retry ==>
      && r.card.stage == c.stage && r.card.nextReview == c.nextReview
      && r.outcome.nextReview == None && !r.outcome.advanced
    // wrong on the retry: back to stage 1, due again in ten minutes
    ensures !r.outcome.isCorrect && retry ==>
      && r.card.stage == MIN_STAGE && r.card.nextReview == now + RETRY_RESET_DELAY
      && r.outcome.nextReview == Some(now + RETRY_RESET_DELAY) && !r.outcome.advanced
    // the oracle calls: the judging ones, then the generators of a completed review
    ensures |r.calls| >= 1 && r.calls[0] == SimilarityCall
    ensures EquivalenceCall in r.calls <==>
      c.cardType == "concept" && o.similarity(c.answer, userAnswer) >= CONCEPT_SIM_PASS
    ensures RelatedConceptsCall in r.calls <==> r.outcome.completed
    ensures AdvancedQuestionsCall in r.calls <==> r.outcome.completed && c.cardType == "concept"
  {
    var j := Judge(o, c.cardType, c.concept, c.answer, userAnswer);
    var history := c.history + [ReviewRecord(c.stage, userAnswer, j.isCorrect, j.feedback, now)];
    var initial := ReviewOutcome(j.isCorrect, j.feedback, None, false, c.stage, false, false, None, None);
    if j.isCorrect && c.stage == MAX_STAGE then
      var questions :=
        if c.cardType == "concept" then Some(o.generateAdvancedQuestions(c.concept, ADVANCED_QUESTIONS_N)) else None;
      var related := o.generateRelatedConcepts(c.concept, RELATED_CONCEPTS_K);
      var stage := PromotedStage(c.stage);
      var next := NextReviewTime(sched, stage, c.cardType, now);
      ReviewStep(
        c.(stage := stage, nextReview := next, history := history),
        initial.(completed := true, advancedQuestions := questions, relatedConcepts := Some(related),
                 nextReview := Some(next), advanced := c.stage < MAX_STAGE, stage := stage),
        j.calls + (if c.cardType == "concept" then [AdvancedQuestionsCall] else []) + [RelatedConceptsCall])
    else if j.isCorrect then
      var stage := PromotedStage(c.stage);
      var next := NextReviewTime(sched, stage, c.cardType, now);
      ReviewStep(
        c.(stage := stage, nextReview := next, history := history),
        initial.(nextReview := Some(next), advanced := c.stage < MAX_STAGE, stage := stage),
        j.calls)
    else if !retry then
      ReviewStep(c.(history := history), initial.(retryAllowed := true, stage := c.stage), j.calls)
    else
      var next := now + RETRY_RESET_DELAY;
      ReviewStep(
        c.(stage := MIN_STAGE, nextReview := next, history := history),
        initial.(nextReview := Some(next), advanced := false, stage := MIN_STAGE),
        j.calls)
  }

  /** One submitted answer: the text, the retry flag and the instant. */
  datatype Attempt = Attempt(userAnswer: string, retry: bool, now: int)

  /** The card after a sequence of reviews, applied in order. */
  function ReviewAll(o: Oracle, sched: ScheduleService, c: CardData, attempts: seq<Attempt>): (d: CardData)
    decreases |attempts|
  {
    if attempts == [] then c
    else
      var a := attempts[0];
      ReviewAll(o, sched, Review(o, sched, c, a.userAnswer, a.retry, a.now).card, attempts[1..])
  }

  /**
   * Over any sequence of reviews the stage stays in 1..4, the history grows
   * by one record per review, and earlier records are never changed.
   */
  lemma {:induction false} ReviewsKeepInvariants(o: Oracle, sched: ScheduleService, c: CardData, attempts: seq<Attempt>)
    requires MIN_STAGE <= c.stage <= MAX_STAGE
    ensures MIN_STAGE <= ReviewAll(o, sched, c, attempts).stage <= MAX_STAGE
    ensures |ReviewAll(o, sched, c, attempts).history| == |c.history| + |attempts|
    ensures ReviewAll(o, sched, c, attempts).history[..|c.history|] == c.history
    ensures ReviewAll(o, sched, c, attempts).cardId == c.cardId
    decreases |attempts|
  {
    if attempts != [] {
      var a := attempts[0];
      var next := Review(o, sched, c, a.userAnswer, a.retry, a.now).card;
      ReviewsKeepInvariants(o, sched, next, attempts[1..]);
      assert next.history[..|c.history|] == c.history;
    }
  }

  /** A run of answers that are all judged correct climbs one stage per review up to stage 4 and stays there. */
  lemma {:induction false} CorrectStreak(o: Oracle, sched: ScheduleService, c: CardData, attempts: seq<Attempt>)
    requires MIN_STAGE <= c.stage <= MAX_STAGE
    requires forall i :: 0 <= i < |attempts| ==> Judge(o, c.cardType, c.concept, c.answer, attempts[i].userAnswer).isCorrect
    ensures ReviewAll(o, sched, c, attempts).stage
            == if c.stage + |attempts| <= MAX_STAGE then c.stage + |attempts| else MAX_STAGE
    decreases |attempts|
  {
    if attempts != [] {
      var a := attempts[0];
      var next := Review(o, sched, c, a.userAnswer, a.retry, a.now).card;
      assert forall i :: 0 <= i < |attempts[1..]| ==> attempts[1..][i] == attempts[i + 1];
      CorrectStreak(o, sched, next, attempts[1..]);
    }
  }

  /**
   * The part of `process_review` that changes the card: judge the answer,
   * append the record, then promote, keep, or reset and reschedule.
   */
  method ApplyReview(llm: Oracle, schedule: ScheduleService, card: MemorizationCard, userAnswer: string, retry: bool, now: int)
    returns (result: ReviewOutcome, ghost calls: seq<OracleCall>)
    modifies card
    ensures var step := Review(llm, schedule, old(card.Data()), userAnswer, retry, now);
      card.Data() == step.card && result == step.outcome && calls == step.calls
  {
    var judgement := Judge(llm, card.cardType, card.concept, card.answer, userAnswer);
    calls := judgement.calls;
    var isCorrect, feedback := judgement.isCorrect, judgement.feedback;

    var record := ReviewRecord(card.stage, userAnswer, isCorrect, feedback, now);
    card.reviewHistory := card.reviewHistory + [record];

    result := ReviewOutcome(isCorrect, feedback, None, false, card.stage, false, false, None, None);
    if isCorrect && card.stage == MAX_STAGE {
      result := result.(completed := true);
      if card.cardType == "concept" {
        var questions := llm.generateAdvancedQuestions(card.concept, ADVANCED_QUESTIONS_N);
        calls := calls + [AdvancedQuestionsCall];
        result := result.(advancedQuestions := Some(questions));
      }
      var related := llm.generateRelatedConcepts(card.concept, RELATED_CONCEPTS_K);
      calls := calls + [RelatedConceptsCall];
      result := result.(relatedConcepts := Some(related));
      var advanced := card.PromoteStage();
      var nextTime := NextReviewTime(schedule, card.stage, card.cardType, now);
      card.UpdateNextReview(nextTime);
      result := result.(nextReview := Some(nextTime), advanced := advanced, stage := card.stage);
    } else if isCorrect {
      var advanced := card.PromoteStage();
      var nextTime := NextReviewTime(schedule, card.stage, card.cardType, now);
      card.UpdateNextReview(nextTime);
      result := result.(nextReview := Some(nextTime), advanced := advanced, stage := card.stage);
    } else if !retry {
      result := result.(retryAllowed := true, stage := card.stage);
    } else {
      card.ResetStage();
      var tenMinLater := now + RETRY_RESET_DELAY;
      card.UpdateNextReview(tenMinLater);
      result := result.(nextReview := Some(tenMinLater), advanced := false, stage := card.stage);
    }
  }

  /** The result of `process_review`. */
  datatype ReviewResult =
    | CardNotFound                      // {"error": "Card not found"}
    | Rejected(error: ValidationError)  // `update_card` raised after the card was changed
    | Reviewed(outcome: ReviewOutcome)

  class ReviewService {
    const llm: Oracle
    const cardService: CardService
    const schedule: ScheduleService
    const reviewConfig: ReviewConfig

    /** A missing review configuration means the default one. */
    constructor (llm: Oracle, cardService: CardService, schedule: ScheduleService, reviewConfig: Option<ReviewConfig>)
      ensures this.llm == llm && this.cardService == cardService && this.schedule == schedule
      ensures this.reviewConfig == if reviewConfig.Some? then reviewConfig.value else DefaultReviewConfig()
    {
      this.llm := llm;
      this.cardService := cardService;
      this.schedule := schedule;
      this.reviewConfig := if reviewConfig.Some? then reviewConfig.value else DefaultReviewConfig();
    }

    /**
     * `process_review`: for a stored card, change it as `Review` says and hand
     * it back to the card service. The store keeps the same card object, so
     * the change stays even when the card service's checks reject the card.
     */
    method ProcessReview(cardId: string, userAnswer: string, retry: bool, now: int)
      returns (r: ReviewResult, ghost calls: seq<OracleCall>)
      requires cardService.storage.Valid()
      modifies cardService.storage, cardService.storage.cards.Values
      ensures cardService.storage.Valid()
      ensures cardService.storage.cards == old(cardService.storage.cards)
      ensures cardService.storage.order == old(cardService.storage.order)
      ensures forall id :: id in cardService.storage.cards && id != cardId ==> unchanged(cardService.storage.cards[id])
      ensures cardId !in cardService.storage.cards ==> r == CardNotFound && calls == []
      ensures cardId in cardService.storage.cards ==>
        var card := cardService.storage.cards[cardId];
        var step := Review(llm, schedule, old(card.Data()), userAnswer, retry, now);
        && card.Data() == step.card
        && calls == step.calls
        && r == if UpdateCheck(card.concept, card.answer).Pass? then Reviewed(step.outcome)
                else Rejected(UpdateCheck(card.concept, card.answer).error)
      ensures old(cardService.storage.StagesInRange()) ==> cardService.storage.StagesInRange()
    {
      var found := cardService.GetCard(cardId);
      if found.None? {
        return CardNotFound, [];
      }
      var card := found.value;
      var result;
      result, calls := ApplyReview(llm, schedule, card, userAnswer, retry, now);
      var check := cardService.UpdateCard(card);
      r := if check.Pass? then Reviewed(result) else Rejected(check.error);
    }
  }
}
