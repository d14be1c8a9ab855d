/** Card management and statistics (backend/services/card_service.py). */
module CardServices {
  import opened Wrappers
  import opened Validators
  import opened Cards
  import opened Storage

  /** The checks `create_card` runs, in order: the first failure is the one raised. */
  function CreateCheck(concept: string, answer: string, cardType: string): (c: Check)
    ensures c.Pass? <==> 1 <= |concept| <= MAX_CONCEPT_LENGTH && 1 <= |answer| <= MAX_ANSWER_LENGTH
                         && (cardType == "word" || cardType == "concept")
    ensures ValidateConcept(concept).Fail? ==> c == ValidateConcept(concept)
    ensures ValidateConcept(concept).Pass? && ValidateAnswer(answer).Fail? ==> c == ValidateAnswer(answer)
    ensures ValidateConcept(concept).Pass? && ValidateAnswer(answer).Pass? ==> c == ValidateCardType(cardType)
  {
    if ValidateConcept(concept).Fail? then ValidateConcept(concept)
    else if ValidateAnswer(answer).Fail? then ValidateAnswer(answer)
    else ValidateCardType(cardType)
  }

  /** The checks `update_card` runs: concept, then answer; the card type is not checked. */
  function UpdateCheck(concept: string, answer: string): (c: Check)
    ensures c.Pass? <==> 1 <= |concept| <= MAX_CONCEPT_LENGTH && 1 <= |answer| <= MAX_ANSWER_LENGTH
    ensures ValidateConcept(concept).Fail? ==> c == ValidateConcept(concept)
    ensures ValidateConcept(concept).Pass? ==> c == ValidateAnswer(answer)
    ensures c.Fail? ==> c.error in {EmptyConcept, ConceptTooLong, EmptyAnswer, AnswerTooLong}
  {
    if ValidateConcept(concept).Fail? then ValidateConcept(concept) else ValidateAnswer(answer)
  }

  /** The result of `get_stats`. */
  datatype Stats = Stats(total: nat, byStage: map<int, nat>, averageSuccessRate: real, dueCount: nat)

  /** The stage of each card, in order. */
  function StagesOf(cs: seq<MemorizationCard>): (r: seq<int>)
    reads cs
    ensures |r| == |cs| && forall i :: 0 <= i < |cs| ==> r[i] == cs[i].stage
  {
    if cs == [] then [] else StagesOf(cs[..|cs| - 1]) + [cs[|cs| - 1].stage]
  }

  /** The success rate of each card, in order. */
  function RatesOf(cs: seq<MemorizationCard>): (r: seq<real>)
    reads cs
    ensures |r| == |cs| && forall i :: 0 <= i < |cs| ==> r[i] == cs[i].GetSuccessRate()
  {
    if cs == [] then [] else RatesOf(cs[..|cs| - 1]) + [cs[|cs| - 1].GetSuccessRate()]
  }

  /** How many times each stage occurs: a key per stage present, valued by its multiplicity. */
  function StageHistogram(stages: seq<int>): (h: map<int, nat>)
    ensures forall k :: k in h <==> k in stages
    ensures forall k :: k in h ==> h[k] == multiset(stages)[k]
  {
    if stages == [] then map[]
    else
      var prefix, s := stages[..|stages| - 1], stages[|stages| - 1];
      assert stages == prefix + [s];
      Counted(StageHistogram(prefix), s)
  }

  /** One more occurrence of stage `s`: its count rises by one, or it enters with count one. */
  function Counted(h: map<int, nat>, s: int): map<int, nat>
  {
    h[s := (if s in h then h[s] else 0) + 1]
  }

  /** The sum of a sequence of rates. */
  function Sum(xs: seq<real>): real
  {
    if xs == [] then 0.0 else Sum(xs[..|xs| - 1]) + xs[|xs| - 1]
  }

  /** A total of percentages lies between 0 and 100 per element. */
  lemma {:induction false} SumInRange(xs: seq<real>)
    requires forall i :: 0 <= i < |xs| ==> 0.0 <= xs[i] <= 100.0
    ensures 0.0 <= Sum(xs) <= 100.0 * (|xs| as real)
  {
    if xs != [] {
      var prefix := xs[..|xs| - 1];
      assert forall i :: 0 <= i < |prefix| ==> prefix[i] == xs[i];
      SumInRange(prefix);
    }
  }

  /** `total / n`, or 0 when there is nothing to average over. */
  function Mean(total: real, n: nat): (a: real)
    ensures n == 0 ==> a == 0.0
    ensures 0.0 <= total <= 100.0 * (n as real) ==> 0.0 <= a <= 100.0
  {
    if n > 0 then total / (n as real) else 0.0
  }

  /** A mean scaled back by the count gives the total. */
  lemma {:induction false} MeanScales(total: real, n: nat)
    requires n > 0
    ensures Mean(total, n) * (n as real) == total
  {
  }

  /** The unweighted mean of per-card rates; 0 when there are no cards. */
  function AverageRate(rates: seq<real>): (a: real)
    ensures rates == [] ==> a == 0.0
  {
    Mean(Sum(rates), |rates|)
  }

  /** The mean of percentages is a percentage. */
  lemma {:induction false} AverageInRange(rates: seq<real>)
    requires forall i :: 0 <= i < |rates| ==> 0.0 <= rates[i] <= 100.0
    ensures 0.0 <= AverageRate(rates) <= 100.0
  {
    SumInRange(rates);
  }

  /** The average times the number of cards is the total of their rates. */
  lemma {:induction false} AverageTimesCount(rates: seq<real>)
    requires rates != []
    ensures AverageRate(rates) * (|rates| as real) == Sum(rates)
  {
    assert AverageRate(rates) == Mean(Sum(rates), |rates|);
    MeanScales(Sum(rates), |rates|);
  }

  /** Some element of a non-empty set, always the same one. */
  ghost function Pick(keys: set<int>): (k: int)
    requires keys != {}
    ensures k in keys
  {
    NonEmptyHasMember(keys);
    var k :| k in keys; k
  }

  /** A non-empty set has a member to pick. */
  lemma {:induction false} NonEmptyHasMember(keys: set<int>)
    requires keys != {}
    ensures exists k :: k in keys
  {
    if forall k :: k !in keys {
      assert false;
    }
  }

  /** The sum of `m`'s values over `keys`. */
  ghost function SumOver(m: map<int, nat>, keys: set<int>): nat
    requires keys <= m.Keys
    decreases keys
  {
    if keys == {} then 0 else m[Pick(keys)] + SumOver(m, keys - {Pick(keys)})
  }

  /** The sum of all the values of a map. */
  ghost function MapSum(m: map<int, nat>): nat
  {
    SumOver(m, m.Keys)
  }

  /** Any key may be taken out first. */
  lemma {:induction false} SumOverTake(m: map<int, nat>, keys: set<int>, k: int)
    requires keys <= m.Keys && k in keys
    ensures SumOver(m, keys) == m[k] + SumOver(m, keys - {k})
    decreases keys
  {
    var j := Pick(keys);
    if j != k {
      SumOverTake(m, keys - {j}, k);
      SumOverTake(m, keys - {k}, j);
      assert keys - {j} - {k} == keys - {k} - {j};
    }
  }

  /** Maps that agree on `keys` have the same sum over them. */
  lemma {:induction false} SumOverAgree(m1: map<int, nat>, m2: map<int, nat>, keys: set<int>)
    requires keys <= m1.Keys && keys <= m2.Keys
    requires forall k :: k in keys ==> m1[k] == m2[k]
    ensures SumOver(m1, keys) == SumOver(m2, keys)
    decreases keys
  {
    if keys != {} {
      SumOverAgree(m1, m2, keys - {Pick(keys)});
    }
  }

  /** Adding one to a stage's count, or adding a new stage with count one, raises the sum by one. */
  lemma {:induction false} Bump(h: map<int, nat>, s: int)
    ensures MapSum(Counted(h, s)) == MapSum(h) + 1
  {
    var h' := Counted(h, s);
    SumOverTake(h', h'.Keys, s);
    if s in h {
      assert h'.Keys == h.Keys;
      SumOverTake(h, h.Keys, s);
      SumOverAgree(h', h, h.Keys - {s});
    } else {
      assert h'.Keys - {s} == h.Keys;
      SumOverAgree(h', h, h.Keys);
    }
  }

  /** The stage counts add up to the number of cards. */
  lemma {:induction false} HistogramTotal(stages: seq<int>)
    ensures MapSum(StageHistogram(stages)) == |stages|
  {
    if stages == [] {
      assert StageHistogram(stages) == map[];
    } else {
      HistogramTotal(stages[..|stages| - 1]);
      Bump(StageHistogram(stages[..|stages| - 1]), stages[|stages| - 1]);
    }
  }

  /** Tallying one more card counts its stage once more and adds its rate to the total. */
  lemma {:induction false} TallyStep(cs: seq<MemorizationCard>, i: nat)
    requires i < |cs|
    ensures StageHistogram(StagesOf(cs[..i + 1])) == Counted(StageHistogram(StagesOf(cs[..i])), cs[i].stage)
    ensures Sum(RatesOf(cs[..i + 1])) == Sum(RatesOf(cs[..i])) + cs[i].GetSuccessRate()
  {
    assert cs[..i + 1][..i] == cs[..i];
    var stages := StagesOf(cs[..i + 1]);
    assert stages[..i] == StagesOf(cs[..i]);
    var rates := RatesOf(cs[..i + 1]);
    assert rates[..i] == RatesOf(cs[..i]);
  }

  /** Every per-card rate is a percentage. */
  lemma {:induction false} RatesInRange(cs: seq<MemorizationCard>)
    ensures forall i :: 0 <= i < |RatesOf(cs)| ==> 0.0 <= RatesOf(cs)[i] <= 100.0
  {
  }

  /** The loop of `get_stats`: count each card's stage and add up the success rates. */
  method TallyCards(cards: seq<MemorizationCard>) returns (stageCounts: map<int, nat>, totalSuccessRate: real)
    ensures stageCounts == StageHistogram(StagesOf(cards))
    ensures totalSuccessRate == Sum(RatesOf(cards))
  {
    stageCounts := map[];
    totalSuccessRate := 0.0;
    for i := 0 to |cards|
      invariant stageCounts == StageHistogram(StagesOf(cards[..i]))
      invariant totalSuccessRate == Sum(RatesOf(cards[..i]))
    {
      var card := cards[i];
      TallyStep(cards, i);
      stageCounts := Counted(stageCounts, card.stage);
      totalSuccessRate := totalSuccessRate + card.GetSuccessRate();
    }
    assert cards[..|cards|] == cards;
  }

  class CardService {
    const storage: MemoryCardStorage

    constructor (storage: MemoryCardStorage)
      ensures this.storage == storage
    {
      this.storage := storage;
    }

    /**
     * `create_card`: validate concept, answer and type; on success build a
     * stage-1 card due at `now` and save it under `cardId`. On a failed
     * check nothing is saved.
     */
    method CreateCard(concept: string, answer: string, cardType: string, cardId: string, now: int)
      returns (r: Result<MemorizationCard, ValidationError>)
      requires storage.Valid()
      modifies storage
      ensures storage.Valid()
      ensures CreateCheck(concept, answer, cardType).Fail? ==>
        && r == Err(CreateCheck(concept, answer, cardType).error)
        && storage.cards == old(storage.cards) && storage.order == old(storage.order)
      ensures CreateCheck(concept, answer, cardType).Pass? ==>
        && r.Ok? && fresh(r.value)
        && r.value.Data() == CardData(cardId, concept, answer, cardType, 1, now, [])
        && storage.cards == old(storage.cards)[cardId := r.value]
        && storage.order == if cardId in old(storage.cards) then old(storage.order) else old(storage.order) + [cardId]
    {
      var c := ValidateConcept(concept);
      if c.Fail? {
        return Err(c.error);
      }
      c := ValidateAnswer(answer);
      if c.Fail? {
        return Err(c.error);
      }
      c := ValidateCardType(cardType);
      if c.Fail? {
        return Err(c.error);
      }
      var card := new MemorizationCard(concept, answer, cardType, cardId, now);
      storage.SaveCard(card);
      return Ok(card);
    }

    /** `get_card`. */
    function GetCard(cardId: string): (r: Option<MemorizationCard>)
      reads storage
      requires storage.Valid()
      ensures r.Some? <==> cardId in storage.cards
      ensures r.Some? ==> r.value == storage.cards[cardId]
    {
      storage.GetCard(cardId)
    }

    /** `get_all_cards`. */
    function GetAllCards(): (r: seq<MemorizationCard>)
      reads storage
      requires storage.Valid()
      ensures |r| == |storage.cards|
      ensures forall id :: id in storage.cards ==> storage.cards[id] in r
    {
      storage.GetAllCards()
    }

    /** `update_card`: re-check concept and answer, then let the store replace a known card. */
    method UpdateCard(card: MemorizationCard) returns (c: Check)
      requires storage.Valid()
      modifies storage
      ensures storage.Valid() && storage.order == old(storage.order)
      ensures c == UpdateCheck(card.concept, card.answer)
      ensures c.Fail? ==> storage.cards == old(storage.cards)
      ensures c.Pass? ==>
        storage.cards == if card.cardId in old(storage.cards) then old(storage.cards)[card.cardId := card] else old(storage.cards)
    {
      c := ValidateConcept(card.concept);
      if c.Fail? {
        return;
      }
      c := ValidateAnswer(card.answer);
      if c.Fail? {
        return;
      }
      storage.UpdateCard(card);
    }

    /** `delete_card`. */
    method DeleteCard(cardId: string) returns (deleted: bool)
      requires storage.Valid()
      modifies storage
      ensures storage.Valid()
      ensures deleted <==> cardId in old(storage.cards)
      ensures storage.cards == old(storage.cards) - {cardId}
      ensures storage.order == Without(old(storage.order), cardId)
    {
      deleted := storage.DeleteCard(cardId);
    }

    /** `get_due_cards`. */
    function GetDueCards(now: int): (r: seq<MemorizationCard>)
      reads storage, storage.cards.Values
      requires storage.Valid()
      ensures forall i :: 0 <= i < |r| ==> r[i] in storage.cards.Values && r[i].IsDueForReview(now)
      ensures forall id :: id in storage.cards && storage.cards[id].IsDueForReview(now) ==> storage.cards[id] in r
      ensures IdsApart(r)
      ensures |r| == |set id | id in storage.cards && storage.cards[id].IsDueForReview(now)|
    {
      storage.GetDueCards(now)
    }

    /**
     * `get_stats`: one pass over the cards counting stages and adding up
     * success rates; the average is the unweighted mean of per-card rates.
     */
    method GetStats(now: int) returns (s: Stats)
      requires storage.Valid()
      ensures s.total == |storage.cards|
      ensures s.byStage == StageHistogram(StagesOf(storage.GetAllCards()))
      ensures MapSum(s.byStage) == s.total
      ensures s.averageSuccessRate == AverageRate(RatesOf(storage.GetAllCards()))
      ensures 0.0 <= s.averageSuccessRate <= 100.0
      ensures s.dueCount == |storage.GetDueCards(now)|
      ensures s.dueCount == |set id | id in storage.cards && storage.cards[id].IsDueForReview(now)|
      ensures storage.cards == map[] ==> s == Stats(0, map[], 0.0, 0)
    {
      var cards := storage.GetAllCards();
      var stageCounts, totalSuccessRate := TallyCards(cards);
      HistogramTotal(StagesOf(cards));
      RatesInRange(cards);
      AverageInRange(RatesOf(cards));
      var average := Mean(totalSuccessRate, |cards|);
      var due := GetDueCards(now);
      s := Stats(|cards|, stageCounts, average, |due|);
    }
  }
}
