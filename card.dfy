/** The memorization card (backend/models/card.py). */
module Cards {
  import opened ReviewModels

  const MIN_STAGE: int := 1
  const MAX_STAGE: int := 4

  /** The value of every field of a card at one moment. */
  datatype CardData = CardData(
    cardId: string,
    concept: string,
    answer: string,
    cardType: string,
    stage: int,
    nextReview: int,
    history: seq<ReviewRecord>)

  /** The number of correct reviews in a history. */
  function CorrectCount(h: seq<ReviewRecord>): (n: nat)
    ensures n <= |h|
  {
    if h == [] then 0
    else CorrectCount(h[..|h| - 1]) + (if h[|h| - 1].isCorrect then 1 else 0)
  }

  /** Every review is counted exactly when every review was correct; none is when none was. */
  lemma {:induction false} CorrectCountExtremes(h: seq<ReviewRecord>)
    ensures CorrectCount(h) == |h| <==> forall i :: 0 <= i < |h| ==> h[i].isCorrect
    ensures CorrectCount(h) == 0 <==> forall i :: 0 <= i < |h| ==> !h[i].isCorrect
  {
    if h != [] {
      var prefix := h[..|h| - 1];
      CorrectCountExtremes(prefix);
      assert forall i :: 0 <= i < |prefix| ==> prefix[i] == h[i];
    }
  }

  /** `part / whole * 100`, or 0 when `whole` is 0. */
  function Percentage(part: nat, whole: nat): (r: real)
    requires part <= whole
    ensures 0.0 <= r <= 100.0
    ensures whole == 0 ==> r == 0.0
    ensures r == 100.0 <==> part == whole && whole > 0
  {
    if whole == 0 then 0.0 else (part as real) / (whole as real) * 100.0
  }

  /** A percentage scaled back by the whole gives the part, times 100. */
  lemma {:induction false} PercentageScales(part: nat, whole: nat)
    requires part <= whole && whole > 0
    ensures Percentage(part, whole) * (whole as real) == (part as real) * 100.0
  {
    ScaleBack(part as real, whole as real);
  }

  /** Dividing by a positive number and multiplying back cancel out, around a factor of 100. */
  lemma {:induction false} ScaleBack(p: real, w: real)
    requires w > 0.0
    ensures (p / w * 100.0) * w == p * 100.0
  {
  }

  /** `get_success_rate`: percentage of correct reviews, 0 for an empty history. */
  function SuccessRate(h: seq<ReviewRecord>): (r: real)
    ensures 0.0 <= r <= 100.0
    ensures h == [] ==> r == 0.0
  {
    Percentage(CorrectCount(h), |h|)
  }

  /** The rate is 100 exactly for a non-empty history of correct reviews, and 0 exactly when none was correct. */
  lemma {:induction false} RateExtremes(h: seq<ReviewRecord>)
    ensures SuccessRate(h) == 100.0 <==> h != [] && forall i :: 0 <= i < |h| ==> h[i].isCorrect
    ensures SuccessRate(h) == 0.0 <==> forall i :: 0 <= i < |h| ==> !h[i].isCorrect
  {
    CorrectCountExtremes(h);
  }

  /** A non-empty history's rate is the share of correct reviews: rate × length = correct × 100. */
  lemma {:induction false} SuccessRateShare(h: seq<ReviewRecord>)
    requires h != []
    ensures SuccessRate(h) * (|h| as real) == (CorrectCount(h) as real) * 100.0
  {
    var n, w := CorrectCount(h) as real, |h| as real;
    assert SuccessRate(h) == n / w * 100.0;
    ScaleBack(n, w);
  }

  /** The stage after `promote_stage`: one higher below the ceiling, else unchanged. */
  function PromotedStage(stage: int): (s: int)
    ensures stage < MAX_STAGE ==> s == stage + 1
    ensures stage >= MAX_STAGE ==> s == stage
    ensures MIN_STAGE <= stage <= MAX_STAGE ==> MIN_STAGE <= s <= MAX_STAGE
  {
    if stage < MAX_STAGE then stage + 1 else stage
  }

  class MemorizationCard {
    const cardId: string
    var concept: string
    var answer: string
    var cardType: string
    var stage: int
    var nextReview: int
    var reviewHistory: seq<ReviewRecord>

    /** The stage lies in 1..4. */
    ghost predicate Valid()
      reads this
    {
      MIN_STAGE <= stage <= MAX_STAGE
    }

    /** A snapshot of the card's fields. */
    function Data(): (d: CardData)
      reads this
      ensures d.cardId == cardId && d.stage == stage && d.nextReview == nextReview
    {
      CardData(cardId, concept, answer, cardType, stage, nextReview, reviewHistory)
    }

    /** A new card: stage 1, empty history, due at its creation instant. */
    constructor (concept: string, answer: string, cardType: string, cardId: string, now: int)
      ensures Data() == CardData(cardId, concept, answer, cardType, 1, now, [])
      ensures Valid()
    {
      this.cardId := cardId;
      this.concept := concept;
      this.answer := answer;
      this.cardType := cardType;
      this.stage := 1;
      this.nextReview := now;
      this.reviewHistory := [];
    }

    /** `promote_stage`: raise the stage by one unless it is already 4; report whether it rose. */
    method PromoteStage() returns (promoted: bool)
      modifies this`stage
      ensures promoted <==> old(stage) < MAX_STAGE
      ensures stage == PromotedStage(old(stage))
      ensures old(Valid()) ==> Valid()
    {
      if stage < MAX_STAGE {
        stage := stage + 1;
        return true;
      }
      return false;
    }

    /** `reset_stage`: back to stage 1; nothing else changes. */
    method ResetStage()
      modifies this`stage
      ensures stage == MIN_STAGE && Valid()
    {
      stage := MIN_STAGE;
    }

    /** `update_next_review`: set the next-review instant; nothing else changes. */
    method UpdateNextReview(nextTime: int)
      modifies this`nextReview
      ensures nextReview == nextTime
    {
      nextReview := nextTime;
    }

    /** `is_due_for_review`: due once `now` has reached the next-review instant. */
    predicate IsDueForReview(now: int)
      reads this
    {
      now >= nextReview
    }

    /** `get_success_rate` of this card's history. */
    function GetSuccessRate(): (r: real)
      reads this
      ensures 0.0 <= r <= 100.0
      ensures reviewHistory == [] ==> r == 0.0
    {
      SuccessRate(reviewHistory)
    }
  }

  /** The cards among `cs` that are due at `now`, in their order. */
  function DueAmong(cs: seq<MemorizationCard>, now: int): (r: seq<MemorizationCard>)
    reads cs
    ensures |r| <= |cs|
    ensures forall i :: 0 <= i < |r| ==> r[i] in cs && r[i].IsDueForReview(now)
    ensures forall i :: 0 <= i < |cs| && cs[i].IsDueForReview(now) ==> cs[i] in r
  {
    if cs == [] then []
    else DueAmong(cs[..|cs| - 1], now) + (if cs[|cs| - 1].IsDueForReview(now) then [cs[|cs| - 1]] else [])
  }

  /** No two of the cards carry the same id. */
  predicate IdsApart(cs: seq<MemorizationCard>)
    reads cs
  {
    forall i, j :: 0 <= i < j < |cs| ==> cs[i].cardId != cs[j].cardId
  }

  /** Picking the due cards out of a listing whose ids are apart lists no id twice. */
  lemma {:induction false} DueAmongIdsApart(cs: seq<MemorizationCard>, now: int)
    requires IdsApart(cs)
    ensures IdsApart(DueAmong(cs, now))
  {
    if cs != [] {
      var rest, last := cs[..|cs| - 1], cs[|cs| - 1];
      assert IdsApart(rest);
      DueAmongIdsApart(rest, now);
      var r := DueAmong(rest, now);
      forall i | 0 <= i < |r|
        ensures r[i].cardId != last.cardId
      {
        var k :| 0 <= k < |rest| && rest[k] == r[i];
        assert cs[k] == r[i];
      }
    }
  }

  /** A card that is due stays due as time goes on. */
  lemma {:induction false} DueStaysDue(c: MemorizationCard, now: int, later: int)
    requires c.IsDueForReview(now) && now <= later
    ensures c.IsDueForReview(later)
  {
  }

  /** A history that has only grown keeps its earlier correct reviews counted. */
  lemma {:induction false} CorrectCountAppend(h: seq<ReviewRecord>, r: ReviewRecord)
    ensures CorrectCount(h + [r]) == CorrectCount(h) + (if r.isCorrect then 1 else 0)
  {
    assert (h + [r])[..|h + [r]| - 1] == h;
  }
}
