# Spaced-repetition review state machine, in Dafny

This project models the core of a memorization trainer. Users create word or
concept cards. The trainer schedules reviews, judges free-text answers with an
embedding similarity score and a language-model equivalence verdict, and moves
each card through four mastery stages with growing review intervals.

What is modelled, one module per source file:

- `Settings` (`settings.dfy`): the stage-interval table (10 minutes, 24 hours,
  7 days, 30 days) and the `ReviewConfig` defaults. Time is whole seconds.
- `Schedules` (`schedule.dfy`): the schedule calculator, `now` plus the
  interval of the stage, with one day for a stage the table does not list.
  The service only reads its table, so it is a value.
- `Validators` (`validators.dfy`): the concept, answer and card-type checks.
  A raised `ValueError` is a `Fail(error)` value.
- `ReviewModels` (`review_model.dfy`): the review record, its verdict label,
  and `ReviewQuestion.has_hint` with Python's `str.strip` whitespace set
  written out.
- `Cards` (`card.dfy`): `MemorizationCard` as a class. `promote_stage`,
  `reset_stage` and `update_next_review` update its fields in place. The
  success rate is a function of the history.
- `Storage` (`memory_storage.dfy`): `MemoryCardStorage`, a class whose
  dictionary is a `map` from id to card object. A `seq` of keys keeps the
  dictionary's insertion order. The store holds the card objects themselves,
  so a change to a fetched card is a change to the stored card.
- `CardServices` (`card_service.dfy`): creation and update with their
  checks, the delegating queries, and the `get_stats` loop.
- `Oracles` (`oracle.dfy`): the language-model and embedding service, seen
  only through its results. Each call is a function value: similarity is a
  `real`, equivalence a `bool`, and the generators return strings or
  sequences of strings. The pure specification records the calls made as a
  trace, so it can state which calls happen on which path.
- `ReviewServices` (`review_service.dfy`): `process_review`. Two pieces
  model it. `Judge` is the correctness policy. `Review` is the whole step as
  a function of the card before. `ApplyReview` makes that change in place on
  the card object, and is proved to do exactly what `Review` says.
  `ReviewService.ProcessReview` looks the card up, applies the review and
  hands the card back to the card service.
- `Api` (`api.dfy`): the masked stage-2 word hint of the due-card listing,
  and the scheduling side of the create, update, delete and review handlers.

Three behaviours of the code that the model keeps:

- A card built by the card service is due at once. The create handler then
  reschedules it at stage 1, ten minutes ahead. Both steps are modelled.
- `process_review` ends by calling the card service's `update_card`, which
  checks concept and answer again and can raise. By then the card object
  has already changed. With the in-memory store the change stays, and the
  call reports `Rejected(error)`. This can happen: the update handler writes
  concept, answer and type without any check.
- The similarity oracle is not required to stay in [0,1] (a cosine score can
  be negative). The policy does not depend on the range.

## Model

| member | source | states |
|---|---|---|
| `Settings.DefaultScheduleConfig` | backend/config/settings.py:10-17 | the table is defined exactly for stages 1, 2, 3, 4, and every interval is positive |
| `Settings.DefaultIntervals` | backend/config/settings.py:13-16 | stage 1 waits 600 s (10 min), stage 2 86400 s (24 h), stage 3 604800 s (7 days), stage 4 2592000 s (30 days) |
| `Settings.DefaultIntervalsIncrease` | backend/config/settings.py:12-17 | intervals strictly increase from stage 1 to stage 4 |
| `Settings.DefaultReviewConfig` | backend/config/settings.py:19-23 | `retry_count_immediate` is 1 and `retry_delay_sec` is 30 |
| `Settings.DefaultSystemConfig` | backend/config/settings.py:40-46 | the system default is built from the schedule default and the review default |
| `Schedules.NewScheduleService` | backend/services/schedule_service.py:8-10 | the service reads its table from the default system configuration |
| `Schedules.NextReviewTime` | backend/services/schedule_service.py:12-15 | result minus now is the stage's interval, or one day for an unlisted stage |
| `Schedules.LaterWhenPositive` | backend/services/schedule_service.py:12-15 | when every interval of the table is positive, the result is strictly later than now |
| `Schedules.CardTypeIrrelevant` | backend/services/schedule_service.py:12-15 | the card type never changes the result |
| `Schedules.DefaultScheduleIsLater` | backend/services/schedule_service.py:14-15 | with the default table every stage, listed or not, is scheduled strictly after now |
| `Schedules.DefaultScheduleValues` | backend/services/schedule_service.py:14-15 | with the default table stage 1 is now + 10 min, stage 4 is now + 30 days, and any stage outside 1..4 is now + 1 day |
| `Validators.ValidateConcept` | backend/utils/validators.py:7-11 | passes iff the length is 1..100; the empty concept and a concept over 100 characters fail with their own errors |
| `Validators.ValidateAnswer` | backend/utils/validators.py:13-17 | passes iff the length is 1..200; the empty answer and an answer over 200 characters fail with their own errors |
| `Validators.ValidateCardType` | backend/utils/validators.py:19-21 | passes iff the type is "word" or "concept" |
| `Validators.LengthBoundaries` | backend/utils/validators.py:10-17 | a 100-character concept and a 200-character answer pass; 101 and 201 fail |
| `ReviewModels.NewReviewRecord` | backend/models/review.py:6-12 | a record built without feedback has empty feedback and keeps the given stage, answer, verdict and timestamp |
| `ReviewModels.ResultLabel` | backend/models/review.py:14-16 | the label is "정답" iff the review was correct and "오답" iff it was not |
| `ReviewModels.HasHint` | backend/models/review.py:25-26 | `has_hint` holds iff the hint contains a character that is not whitespace |
| `ReviewModels.StripKeepsVisible` | backend/models/review.py:26 | `strip` leaves a non-empty string iff the string contains a character that is not whitespace |
| `Cards.CorrectCount` | backend/models/card.py:43 | the count of correct reviews is at most the history length |
| `Cards.CorrectCountExtremes` | backend/models/card.py:43 | the count equals the history length iff every review was correct, and is 0 iff none was |
| `Cards.Percentage` | backend/models/card.py:44 | within [0,100]; 0 for a whole of 0; exactly 100 iff the part is the whole |
| `Cards.PercentageScales` | backend/models/card.py:44 | percentage × whole = part × 100 |
| `Cards.SuccessRate` | backend/models/card.py:39-44 | within [0,100]; 0 for an empty history |
| `Cards.RateExtremes` | backend/models/card.py:39-44 | the rate is 100 iff the history is non-empty and every review was correct, and 0 iff no review was correct |
| `Cards.SuccessRateShare` | backend/models/card.py:39-44 | for a non-empty history, rate × length = correct count × 100 |
| `Cards.CorrectCountAppend` | backend/models/card.py:43 | appending a record raises the count by one if the record is correct, and leaves it unchanged otherwise |
| `Cards.PromotedStage` | backend/models/card.py:20-25 | below 4 the stage rises by one; at 4 or above it is unchanged; a stage in 1..4 stays in 1..4 |
| `Cards.MemorizationCard.constructor` | backend/models/card.py:9-18 | a new card has the given id and text, stage 1, an empty history and is due at its creation instant |
| `Cards.MemorizationCard.PromoteStage` | backend/models/card.py:20-25 | returns true iff the stage was below 4; the new stage is the promoted stage; only the stage changes; a stage in 1..4 stays in 1..4 |
| `Cards.MemorizationCard.ResetStage` | backend/models/card.py:27-29 | the stage becomes 1 and nothing else changes |
| `Cards.MemorizationCard.UpdateNextReview` | backend/models/card.py:31-33 | only the next-review instant changes, to the given instant |
| `Cards.MemorizationCard.GetSuccessRate` | backend/models/card.py:39-44 | the card's success rate is within [0,100] and is 0 with no history |
| `Cards.MemorizationCard.IsDueForReview` | backend/models/card.py:35-37 | a card is due exactly when `now` has reached its next-review instant |
| `Cards.DueStaysDue` | backend/models/card.py:35-37 | a card that is due stays due at every later instant |
| `Cards.DueAmong` | backend/storage/memory_storage.py:36-38 | lists exactly the given cards with now ≥ next review (`is_due_for_review`, card.py:35-37) |
| `Cards.DueAmongIdsApart` | backend/storage/memory_storage.py:36-38 | when no id occurs twice among the given cards, no id occurs twice among the due cards picked out of them |
| `Storage.MemoryCardStorage.constructor` | backend/storage/memory_storage.py:9-10 | a new store is empty |
| `Storage.MemoryCardStorage.SaveCard` | backend/storage/memory_storage.py:12-14 | the entry under the card's id is inserted or overwritten; all other entries are unchanged; a new key goes last in iteration order |
| `Storage.MemoryCardStorage.GetCard` | backend/storage/memory_storage.py:16-18 | returns the stored card iff the id is present, otherwise None |
| `Storage.MemoryCardStorage.GetAllCards` | backend/storage/memory_storage.py:20-22 | every stored card exactly once, in key insertion order, as many as there are keys |
| `Storage.MemoryCardStorage.UpdateCard` | backend/storage/memory_storage.py:24-27 | replaces the entry only if the id is present; an unknown id leaves the store unchanged |
| `Storage.MemoryCardStorage.DeleteCard` | backend/storage/memory_storage.py:29-34 | returns true iff the id was present; the key is removed from the map and from the iteration order; otherwise nothing changes |
| `Storage.DueAmongStore` | backend/storage/memory_storage.py:36-38 | picking the due cards out of a listing that holds each stored card once gives exactly the store's due cards, no id twice, one entry per due id |
| `Storage.DueListingCount` | backend/storage/memory_storage.py:36-38 | a listing of exactly the due cards with no id twice is as long as the set of due ids |
| `Storage.MemoryCardStorage.GetDueCards` | backend/storage/memory_storage.py:36-38 | lists only stored cards that are due and every stored card that is due, each once: its length is the number of due ids |
| `Storage.MemoryCardStorage.GetCardsCount` | backend/storage/memory_storage.py:40-42 | equals the number of keys and the length of `get_all_cards` |
| `CardServices.CreateCheck` | backend/services/card_service.py:16-18 | passes iff concept, answer and type are all valid; the first failing check, in that order, is the one raised: the concept's error, else the answer's, else the card type's |
| `CardServices.UpdateCheck` | backend/services/card_service.py:34-35 | passes iff concept and answer are valid; the concept's error if it fails, else exactly the answer check's result; the card type is not checked |
| `CardServices.CardService.constructor` | backend/services/card_service.py:10-12 | the service works on the store it is given; the validator holds no state, so the checks are module functions |
| `CardServices.CardService.CreateCard` | backend/services/card_service.py:14-22 | on a failed check the error is returned and nothing is saved; otherwise a fresh stage-1 card due at now is stored under its id |
| `CardServices.CardService.GetCard` | backend/services/card_service.py:24-26 | the stored card, or None for an unknown id |
| `CardServices.CardService.GetAllCards` | backend/services/card_service.py:28-30 | every stored card is listed, as many as the store holds |
| `CardServices.CardService.UpdateCard` | backend/services/card_service.py:32-36 | the result is the concept/answer check; on failure the store is untouched; on success the store replaces a known card |
| `CardServices.CardService.DeleteCard` | backend/services/card_service.py:38-40 | returns true iff the id was stored; the key is gone from the map and from the key order, whose other keys keep their order |
| `CardServices.CardService.GetDueCards` | backend/services/card_service.py:42-44 | lists only due stored cards and every due stored card, each once: its length is the number of due ids |
| `CardServices.StageHistogram` | backend/services/card_service.py:49-53 | a key for each stage present, valued by how many cards have that stage |
| `CardServices.HistogramTotal` | backend/services/card_service.py:48-58 | the `by_stage` counts sum to the number of cards |
| `CardServices.SumInRange` | backend/services/card_service.py:50-54 | a total of rates in [0,100] lies in [0, 100 × count] |
| `CardServices.Mean` | backend/services/card_service.py:59 | 0 over no cards; a total within [0, 100 × count] gives a mean within [0,100] |
| `CardServices.MeanScales` | backend/services/card_service.py:59 | over at least one card, mean × count = total |
| `CardServices.AverageRate` | backend/services/card_service.py:59 | the average of no rates is 0 |
| `CardServices.AverageTimesCount` | backend/services/card_service.py:59 | the average of a non-empty list of rates, times their number, is their total |
| `CardServices.AverageInRange` | backend/services/card_service.py:59 | the average of rates in [0,100] is in [0,100] |
| `CardServices.TallyCards` | backend/services/card_service.py:52-54 | the loop's stage counts are the stage histogram and its total is the sum of per-card rates |
| `CardServices.CardService.GetStats` | backend/services/card_service.py:46-61 | total is the card count; `by_stage` is the histogram and sums to total; the average is the mean of per-card rates, within [0,100]; `due_count` is the size of the due listing, which is the number of due cards; with no cards all are zero |
| `ReviewServices.Judge` | backend/services/review_service.py:43-76 | concept: below 0.75 wrong with the score message and the similarity call only; at or above 0.75 correct iff equivalent, else wrong with generated feedback. Word: correct iff similarity ≥ 0.95; typo message on [0.72, 0.95); score message below 0.72. Correct always means empty feedback |
| `ReviewServices.WordThresholdExamples` | backend/services/review_service.py:66-76 | word similarity 0.95 is correct, 0.80 gets the typo message, 0.50 gets the score message |
| `ReviewServices.ConceptCutExample` | backend/services/review_service.py:43-49 | concept similarity 0.60 is wrong and only the similarity oracle is called |
| `ReviewServices.Review` | backend/services/review_service.py:78-139 | one record with the pre-transition stage is appended. Correct at 4: completed, not advanced, stays 4, related concepts and, for a concept card, advanced questions are the oracle's (3 questions asked for), rescheduled at 4. Correct below 4: stage + 1, advanced, rescheduled at the new stage. Wrong without retry: stage and schedule kept, retry offered, no next review. Wrong on retry: stage 1, due now + 10 min. The stage stays in 1..4 |
| `ReviewServices.ReviewsKeepInvariants` | backend/services/review_service.py:78-139 | over any sequence of reviews the stage stays in 1..4, the history grows by one per review, and earlier records are kept |
| `ReviewServices.CorrectStreak` | backend/services/review_service.py:122-128 | k answers judged correct move a card from stage s to min(4, s + k) |
| `ReviewServices.ApplyReview` | backend/services/review_service.py:43-139 | the card's new fields, the returned outcome and the oracle calls made are exactly those of `Review` applied to the card before the call |
| `ReviewServices.ReviewService.constructor` | backend/services/review_service.py:19-29 | a missing review configuration means the default one |
| `ReviewServices.ReviewService.ProcessReview` | backend/services/review_service.py:31-142 | an unknown id gives the not-found result with no oracle call and no change; otherwise the stored card becomes `Review` of it, the oracle calls are `Review`'s, the result is the outcome unless the card service's check rejects the card, and no other card changes |
| `Api.Stars` | backend/api.py:137 | a string of n characters, every one an asterisk |
| `Api.HintMask` | backend/api.py:136-137 | same length as the answer, first character kept, every later character '*'; "" for an empty answer |
| `Api.DueHint` | backend/api.py:133-137 | the mask of the answer for a word card at stage 2, "" for every other card |
| `Api.DueCardView` | backend/api.py:138-146 | a due-card entry carries the card's id, concept, card type, stage, next review and its due hint |
| `Api.CardView` | backend/api.py:100-108 | a card entry carries the card's id, concept, answer, type, stage and next review, and its success rate, within [0,100] |
| `Api.CreatedAnswer` | backend/api.py:93-95 | an empty answer on a concept card is replaced by the generated definition; otherwise the answer is kept |
| `Api.DueListing` | backend/api.py:132-148 | one entry per listed card, in order, each with its due hint |
| `Api.Api.constructor` | backend/api.py:27-37 | the services share one empty store and the default schedule, and the review service has the default review configuration |
| `Api.Api.CreateCard` | backend/api.py:91-108 | on a failed check a server error and no change; otherwise a fresh card under the new id with stage 1, empty history and next review now + 10 min, its id appended to the key order if it is new |
| `Api.Api.GetDueCards` | backend/api.py:126-148 | one entry, in order, for each card the card service lists (its due cards, or every card in test mode), each with its due hint |
| `Api.Api.UpdateCard` | backend/api.py:173-192 | 404 for an unknown id; otherwise concept, answer and type are overwritten unchecked, stage and history are kept, and the next review is the schedule of the current stage |
| `Api.Api.DeleteCard` | backend/api.py:194-199 | 404 iff the store had nothing to delete under the id; the key is gone from the map and from the key order |
| `Api.Api.ReviewCard` | backend/api.py:201-222 | 404 with no oracle call and no change when the card is missing; otherwise the evaluator's outcome, or a server error when the card service rejects the card |

## Left out

- The language-model and embedding service itself (prompts, the embedding model, cosine similarity, rounding to four decimals) is out of scope. Each call is an uninterpreted function value in `Oracles.Oracle`.
- The oracle never fails in the model. A failing call would be an exception that propagates unchanged, and no verdict is made up.
- Feedback is a tagged value, not a formatted string. The score messages carry the score instead of printing it with two decimals, and the Korean message texts are not reproduced.
- Floating point: success rates and their mean are exact reals, with no rounding.
- The clock: each call takes one instant `now` in seconds. The source reads the clock separately for the record timestamp, the schedule and the ten-minute reset.
- `ReviewRecord`'s timestamp default is fixed once, when the module is imported. Every caller in the core passes a timestamp, so `NewReviewRecord` takes one as a parameter.
- The timestamp formatting of `ReviewRecord.__str__` is left out; only its verdict label is modelled.
- Card ids come from `uuid4`. Here they are a parameter, and uniqueness is not assumed (a clash overwrites, as `save_card` does).
- The HTTP layer really uses the SQLite store. It is not part of this model; the in-memory store stands for storage. With SQLite, a card rejected after review would not keep its changes.
- Not modelled: the other handlers (list, get, hint, webhook settings), FastAPI routing and response shaping, `LLMConfig`, `generate_hint`, `generate_question` and `evaluate_answer`.
- Also not modelled: the notification scheduler, the console UI, `main.py`, the abstract interfaces and the front end.
- The review handler's `test` query flag is never used by the source and is not modelled.
- Concurrency: reviews of one card are assumed to run one at a time.
- String lengths count Unicode scalar values, which match Python's code points for well-formed text.
- `Storage.MemoryCardStorage.GetDueCards`: its contract says which cards are listed, not that they keep insertion order (the definition does keep it, through `Cards.DueAmong`).
- `Cards.DueAmong`: its contract says which cards are listed, not their order.
- `CardServices.CardService.GetDueCards`: its contract says which cards are listed and that each is listed once, not their order.
- `CardServices.CardService.GetAllCards`: its contract omits the insertion order, which `Storage.MemoryCardStorage.GetAllCards` states.
