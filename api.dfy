/**
 * The scheduling side of the HTTP handlers and the stage-2 word hint of the
 * due-card listing (backend/api.py).
 */
module Api {
  import opened Wrappers
  import opened Schedules
  import opened Settings
  import opened Validators
  import opened Oracles
  import opened Cards
  import opened Storage
  import opened CardServices
  import opened ReviewServices

  /** The request body of card creation and update; the type defaults to "word" on the wire. */
  datatype CardIn = CardIn(concept: string, answer: string, cardType: string)

  /** A 404 raised by the handler, or an exception that reaches the framework (a 500). */
  datatype ApiError = NotFound | ServerError(error: ValidationError)

  datatype CardOut = CardOut(
    cardId: string, concept: string, answer: string, cardType: string,
    stage: int, nextReview: int, successRate: real)

  datatype DueCardOut = DueCardOut(
    cardId: string, concept: string, cardType: string,
    stage: int, nextReview: int, hint: string)

  /** Every character is an asterisk. */
  predicate AllStars(s: string)
  {
    forall i :: 0 <= i < |s| ==> s[i] == '*'
  }

  /** `"*" * n`. */
  function Stars(n: nat): (s: string)
    ensures |s| == n && AllStars(s)
  {
    if n == 0 then "" else Stars(n - 1) + "*"
  }

  /** The masked answer: its first character, then one '*' per remaining character. */
  function HintMask(answer: string): (h: string)
    ensures |h| == |answer|
    ensures answer != "" ==> h[0] == answer[0]
    ensures answer != "" ==> AllStars(h[1..])
  {
    if answer != "" then [answer[0]] + Stars(|answer| - 1) else ""
  }

  /** The hint of a due card: the masked answer for a word card at stage 2, else empty. */
  function DueHint(cardType: string, stage: int, answer: string): (h: string)
    ensures cardType == "word" && stage == 2 ==> h == HintMask(answer)
    ensures !(cardType == "word" && stage == 2) ==> h == ""
  {
    if cardType == "word" && stage == 2 then HintMask(answer) else ""
  }

  /** One entry of the due-card listing. */
  function DueCardView(c: MemorizationCard): (d: DueCardOut)
    reads c
    ensures d.cardId == c.cardId && d.stage == c.stage && d.nextReview == c.nextReview
    ensures d.concept == c.concept && d.cardType == c.cardType
    ensures d.hint == DueHint(c.cardType, c.stage, c.answer)
  {
    DueCardOut(c.cardId, c.concept, c.cardType, c.stage, c.nextReview, DueHint(c.cardType, c.stage, c.answer))
  }

  /** The card as the handlers return it. */
  function CardView(c: MemorizationCard): (d: CardOut)
    reads c
    ensures d.cardId == c.cardId && d.stage == c.stage && d.nextReview == c.nextReview
    ensures d.concept == c.concept && d.answer == c.answer && d.cardType == c.cardType
    ensures d.successRate == SuccessRate(c.reviewHistory) && 0.0 <= d.successRate <= 100.0
  {
    CardOut(c.cardId, c.concept, c.answer, c.cardType, c.stage, c.nextReview, c.GetSuccessRate())
  }

  /** The answer a new card is created with: an empty concept-card answer is replaced by a generated definition. */
  function CreatedAnswer(llm: Oracle, input: CardIn): (a: string)
    ensures input.answer != "" || input.cardType != "concept" ==> a == input.answer
    ensures input.answer == "" && input.cardType == "concept" ==> a == llm.generateConceptDefinition(input.concept)
  {
    if input.answer == "" && input.cardType == "concept" then llm.generateConceptDefinition(input.concept) else input.answer
  }

  /** The loop of GET /cards/due: one entry per card, with the hint of a stage-2 word card. */
  method DueListing(cards: seq<MemorizationCard>) returns (out: seq<DueCardOut>)
    ensures |out| == |cards|
    ensures forall i :: 0 <= i < |cards| ==> out[i] == DueCardView(cards[i])
  {
    out := [];
    for i := 0 to |cards|
      invariant |out| == i
      invariant forall k :: 0 <= k < i ==> out[k] == DueCardView(cards[k])
    {
      var c := cards[i];
      var hint := "";
      if c.cardType == "word" && c.stage == 2 {
        hint := HintMask(c.answer);
      }
      out := out + [DueCardOut(c.cardId, c.concept, c.cardType, c.stage, c.nextReview, hint)];
    }
  }

  /** The services the handlers share. */
  class Api {
    const storage: MemoryCardStorage
    const cardService: CardService
    const schedule: ScheduleService
    const llm: Oracle
    const reviewService: ReviewService

    ghost predicate Valid()
      reads storage
    {
      && cardService.storage == storage
      && reviewService.cardService == cardService
      && reviewService.schedule == schedule
      && reviewService.llm == llm
      && schedule == NewScheduleService()
      && storage.Valid()
    }

    /** The wiring at start-up, with an empty in-memory store. */
    constructor (llm: Oracle)
      ensures Valid() && fresh(storage) && storage.cards == map[]
      ensures reviewService.reviewConfig == DefaultSystemConfig().review
    {
      var store := new MemoryCardStorage();
      var cards := new CardService(store);
      var sched := NewScheduleService();
      this.storage := store;
      this.cardService := cards;
      this.schedule := sched;
      this.llm := llm;
      this.reviewService := new ReviewService(llm, cards, sched, Some(DefaultSystemConfig().review));
    }

    /**
     * POST /cards: create through the card service, then reschedule the new
     * card at its stage (stage 1, so ten minutes from now) and store it again.
     */
    method CreateCard(input: CardIn, newId: string, now: int) returns (r: Result<CardOut, ApiError>, ghost calls: seq<OracleCall>)
      requires Valid()
      modifies storage
      ensures Valid()
      ensures calls == if input.answer == "" && input.cardType == "concept" then [DefinitionCall] else []
      ensures CreateCheck(input.concept, CreatedAnswer(llm, input), input.cardType).Fail? ==>
        && r == Err(ServerError(CreateCheck(input.concept, CreatedAnswer(llm, input), input.cardType).error))
        && storage.cards == old(storage.cards) && storage.order == old(storage.order)
      ensures CreateCheck(input.concept, CreatedAnswer(llm, input), input.cardType).Pass? ==>
        && newId in storage.cards
        && storage.cards == old(storage.cards)[newId := storage.cards[newId]]
        && storage.order == (if newId in old(storage.cards) then old(storage.order) else old(storage.order) + [newId])
        && fresh(storage.cards[newId])
        && storage.cards[newId].Data()
           == CardData(newId, input.concept, CreatedAnswer(llm, input), input.cardType, 1, now + 10 * MINUTE, [])
        && r == Ok(CardView(storage.cards[newId]))
    {
      var answer := input.answer;
      calls := [];
      if input.answer == "" && input.cardType == "concept" {
        answer := llm.generateConceptDefinition(input.concept);
        calls := [DefinitionCall];
      }
      var created := cardService.CreateCard(input.concept, answer, input.cardType, newId, now);
      if created.Err? {
        return Err(ServerError(created.error)), calls;
      }
      var card := created.value;
      var nextTime := NextReviewTime(schedule, card.stage, card.cardType, now);
      card.UpdateNextReview(nextTime);
      storage.UpdateCard(card);
      r := Ok(CardView(card));
    }

    /** GET /cards/due: the due cards (every card in test mode), each with its hint. */
    method GetDueCards(test: bool, now: int) returns (out: seq<DueCardOut>)
      requires Valid()
      ensures var cs := if test then cardService.GetAllCards() else cardService.GetDueCards(now);
        |out| == |cs| && forall i :: 0 <= i < |cs| ==> out[i] == DueCardView(cs[i])
    {
      var cards := if test then cardService.GetAllCards() else cardService.GetDueCards(now);
      out := DueListing(cards);
    }

    /**
     * PUT /cards/{id}: overwrite concept, answer and type without validation,
     * keep stage and history, reschedule at the current stage, store.
     */
    method UpdateCard(cardId: string, input: CardIn, now: int) returns (r: Result<CardOut, ApiError>)
      requires Valid()
      modifies storage, storage.cards.Values
      ensures Valid()
      ensures storage.cards == old(storage.cards) && storage.order == old(storage.order)
      ensures forall id :: id in storage.cards && id != cardId ==> unchanged(storage.cards[id])
      ensures cardId !in storage.cards ==> r == Err(NotFound)
      ensures cardId in storage.cards ==>
        var card := storage.cards[cardId];
        && card.concept == input.concept && card.answer == input.answer && card.cardType == input.cardType
        && card.stage == old(card.stage) && card.reviewHistory == old(card.reviewHistory)
        && card.nextReview == NextReviewTime(schedule, card.stage, input.cardType, now)
        && r == Ok(CardView(card))
      ensures old(storage.StagesInRange()) ==> storage.StagesInRange()
    {
      var found := cardService.GetCard(cardId);
      if found.None? {
        return Err(NotFound);
      }
      var existing := found.value;
      existing.concept := input.concept;
      existing.answer := input.answer;
      existing.cardType := input.cardType;
      var nextTime := NextReviewTime(schedule, existing.stage, existing.cardType, now);
      existing.UpdateNextReview(nextTime);
      storage.UpdateCard(existing);
      r := Ok(CardView(existing));
    }

    /** DELETE /cards/{id}: 404 exactly when the store had nothing to delete. */
    method DeleteCard(cardId: string) returns (r: Result<(), ApiError>)
      requires Valid()
      modifies storage
      ensures Valid()
      ensures r.Err? <==> cardId !in old(storage.cards)
      ensures r.Err? ==> r.error == NotFound
      ensures storage.cards == old(storage.cards) - {cardId}
      ensures storage.order == Without(old(storage.order), cardId)
    {
      var success := storage.DeleteCard(cardId);
      if !success {
        return Err(NotFound);
      }
      return Ok(());
    }

    /**
     * POST /cards/{id}/review: 404 before any evaluation when the card is
     * missing; otherwise the evaluator's outcome, or a server error when the
     * card service rejects the reviewed card.
     */
    method ReviewCard(cardId: string, userAnswer: string, retry: bool, now: int)
      returns (r: Result<ReviewOutcome, ApiError>, ghost calls: seq<OracleCall>)
      requires Valid()
      modifies storage, storage.cards.Values
      ensures Valid()
      ensures storage.cards == old(storage.cards) && storage.order == old(storage.order)
      ensures forall id :: id in storage.cards && id != cardId ==> unchanged(storage.cards[id])
      ensures cardId !in storage.cards ==> r == Err(NotFound) && calls == []
      ensures cardId in storage.cards ==>
        var card := storage.cards[cardId];
        var step := Review(llm, schedule, old(card.Data()), userAnswer, retry, now);
        && card.Data() == step.card
        && calls == step.calls
        && r == if UpdateCheck(card.concept, card.answer).Pass? then Ok(step.outcome)
                else Err(ServerError(UpdateCheck(card.concept, card.answer).error))
      ensures old(storage.StagesInRange()) ==> storage.StagesInRange()
    {
      var card := cardService.GetCard(cardId);
      if card.None? {
        return Err(NotFound), [];
      }
      var result;
      result, calls := reviewService.ProcessReview(cardId, userAnswer, retry, now);
      match result
      case Reviewed(outcome) => r := Ok(outcome);
      case Rejected(error) => r := Err(ServerError(error));
      case CardNotFound => r := Err(NotFound);
    }
  }
}
