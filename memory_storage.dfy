/**
 * The dictionary-backed card store (backend/storage/memory_storage.py).
 * The store holds the card objects themselves, so a caller that changes a
 * card it fetched changes the stored card too.
 */
module Storage {
  import opened Wrappers
  import opened Cards

  /** `s` with every occurrence of `x` removed. */
  function Without(s: seq<string>, x: string): (r: seq<string>)
    ensures forall y :: y in r <==> y in s && y != x
    ensures |r| <= |s|
  {
    if s == [] then []
    else Without(s[..|s| - 1], x) + (if s[|s| - 1] == x then [] else [s[|s| - 1]])
  }

  /** No key occurs twice. */
  predicate Distinct(s: seq<string>)
  {
    forall i, j :: 0 <= i < j < |s| ==> s[i] != s[j]
  }

  lemma {:induction false} WithoutDistinct(s: seq<string>, x: string)
    requires Distinct(s)
    ensures Distinct(Without(s, x))
  {
    if s != [] {
      var rest, last := s[..|s| - 1], s[|s| - 1];
      WithoutDistinct(rest, x);
      var w := Without(rest, x);
      assert last !in rest;
      assert forall i :: 0 <= i < |w| ==> w[i] in w && w[i] != last;
    }
  }

  /** The values of `m` at the keys `ids`, in that order. */
  function ValuesAt(m: map<string, MemorizationCard>, ids: seq<string>): (r: seq<MemorizationCard>)
    requires forall id :: id in ids ==> id in m
    ensures |r| == |ids|
    ensures forall i :: 0 <= i < |ids| ==> r[i] == m[ids[i]]
  {
    if ids == [] then [] else ValuesAt(m, ids[..|ids| - 1]) + [m[ids[|ids| - 1]]]
  }

  /** The ids of the cards, in order. */
  function CardIds(cs: seq<MemorizationCard>): (ids: seq<string>)
    reads cs
    ensures |ids| == |cs| && forall i :: 0 <= i < |cs| ==> ids[i] == cs[i].cardId
  {
    if cs == [] then [] else CardIds(cs[..|cs| - 1]) + [cs[|cs| - 1].cardId]
  }

  /** A list with no repeats is as long as the set of its elements is large. */
  lemma {:induction false} DistinctCount(s: seq<string>)
    requires Distinct(s)
    ensures |set x | x in s| == |s|
  {
    if s != [] {
      var rest, last := s[..|s| - 1], s[|s| - 1];
      assert Distinct(rest);
      DistinctCount(rest);
      assert (set x | x in s) == (set x | x in rest) + {last};
      assert last !in rest;
    }
  }

  /**
   * A listing with no id twice that holds exactly the due cards of a store
   * whose cards sit under their own ids has one entry per due id.
   */
  lemma {:induction false} DueListingCount(cards: map<string, MemorizationCard>, r: seq<MemorizationCard>, now: int)
    requires forall id :: id in cards ==> cards[id].cardId == id
    requires IdsApart(r)
    requires forall i :: 0 <= i < |r| ==> r[i] in cards.Values && r[i].IsDueForReview(now)
    requires forall id :: id in cards && cards[id].IsDueForReview(now) ==> cards[id] in r
    ensures |r| == |set id | id in cards && cards[id].IsDueForReview(now)|
  {
    var ids := CardIds(r);
    var due := set id | id in cards && cards[id].IsDueForReview(now);
    forall x | x in ids
      ensures x in due
    {
      var i :| 0 <= i < |ids| && ids[i] == x;
      var id :| id in cards && cards[id] == r[i];
    }
    forall id | id in due
      ensures id in ids
    {
      var i :| 0 <= i < |r| && r[i] == cards[id];
      assert ids[i] == id;
    }
    assert (set x | x in ids) == due;
    DistinctCount(ids);
  }

  /**
   * The due cards picked out of a listing that holds each stored card once
   * are exactly the store's due cards, one entry per due id.
   */
  lemma {:induction false} DueAmongStore(cards: map<string, MemorizationCard>, all: seq<MemorizationCard>, now: int)
    requires forall id :: id in cards ==> cards[id].cardId == id
    requires forall i :: 0 <= i < |all| ==> all[i] in cards.Values
    requires forall id :: id in cards ==> cards[id] in all
    requires IdsApart(all)
    ensures var r := DueAmong(all, now);
      && (forall i :: 0 <= i < |r| ==> r[i] in cards.Values && r[i].IsDueForReview(now))
      && (forall id :: id in cards && cards[id].IsDueForReview(now) ==> cards[id] in r)
      && IdsApart(r)
      && |r| == |set id | id in cards && cards[id].IsDueForReview(now)|
  {
    var r := DueAmong(all, now);
    forall id | id in cards && cards[id].IsDueForReview(now)
      ensures cards[id] in r
    {
      var i :| 0 <= i < |all| && all[i] == cards[id];
    }
    DueAmongIdsApart(all, now);
    DueListingCount(cards, r, now);
  }

  class MemoryCardStorage {
    /** `_cards`, the dictionary from card id to card. */
    var cards: map<string, MemorizationCard>
    /** The dictionary's keys in insertion order, which its iteration follows. */
    var order: seq<string>

    /** Each card sits under its own id, and `order` lists each key exactly once. */
    ghost predicate Valid()
      reads this
    {
      && (forall id :: id in cards <==> id in order)
      && Distinct(order)
      && (forall id :: id in cards ==> cards[id].cardId == id)
    }

    /** Every stored card has its stage in 1..4. */
    ghost predicate StagesInRange()
      reads this, cards.Values
    {
      forall id :: id in cards ==> cards[id].Valid()
    }

    constructor ()
      ensures Valid() && cards == map[] && order == []
    {
      cards := map[];
      order := [];
    }

    /** `save_card`: insert or overwrite the entry under the card's id; other entries stay. */
    method SaveCard(card: MemorizationCard)
      requires Valid()
      modifies this
      ensures Valid()
      ensures cards == old(cards)[card.cardId := card]
      ensures order == if card.cardId in old(cards) then old(order) else old(order) + [card.cardId]
    {
      if card.cardId !in cards {
        order := order + [card.cardId];
      }
      cards := cards[card.cardId := card];
    }

    /** `get_card`: the stored card, or None for an unknown id. */
    function GetCard(cardId: string): (r: Option<MemorizationCard>)
      reads this
      requires Valid()
      ensures r.Some? <==> cardId in cards
      ensures r.Some? ==> r.value == cards[cardId] && r.value.cardId == cardId
    {
      if cardId in cards then Some(cards[cardId]) else None
    }

    /** `get_all_cards`: every stored card once, in insertion order. */
    function GetAllCards(): (r: seq<MemorizationCard>)
      reads this
      requires Valid()
      ensures |r| == |cards| == |order|
      ensures forall i :: 0 <= i < |r| ==> r[i] == cards[order[i]] && r[i].cardId == order[i]
      ensures forall id :: id in cards ==> cards[id] in r
      ensures IdsApart(r)
    {
      KeysCount(cards, order);
      var r := ValuesAt(cards, order);
      assert forall id :: id in cards ==> cards[id] in r by {
        forall id | id in cards
          ensures cards[id] in r
        {
          var i :| 0 <= i < |order| && order[i] == id;
          assert r[i] == cards[id];
        }
      }
      r
    }

    /** `update_card`: replace the entry only when the card's id is already stored. */
    method UpdateCard(card: MemorizationCard)
      requires Valid()
      modifies this
      ensures Valid() && order == old(order)
      ensures cards == if card.cardId in old(cards) then old(cards)[card.cardId := card] else old(cards)
    {
      if card.cardId in cards {
        cards := cards[card.cardId := card];
      }
    }

    /** `delete_card`: remove the entry and report true exactly when the id was stored. */
    method DeleteCard(cardId: string) returns (deleted: bool)
      requires Valid()
      modifies this
      ensures Valid()
      ensures deleted <==> cardId in old(cards)
      ensures cards == old(cards) - {cardId}
      ensures order == Without(old(order), cardId)
    {
      if cardId in cards {
        WithoutDistinct(order, cardId);
        cards := cards - {cardId};
        order := Without(order, cardId);
        return true;
      }
      WithoutDistinct(order, cardId);
      assert forall y :: y in order <==> y in Without(order, cardId);
      WithoutAbsent(order, cardId);
      return false;
    }

    /** `get_due_cards`: exactly the stored cards due at `now`, in insertion order. */
    function GetDueCards(now: int): (r: seq<MemorizationCard>)
      reads this, cards.Values
      requires Valid()
      ensures forall i :: 0 <= i < |r| ==> r[i] in cards.Values && r[i].IsDueForReview(now)
      ensures forall id :: id in cards && cards[id].IsDueForReview(now) ==> cards[id] in r
      ensures IdsApart(r)
      ensures |r| == |set id | id in cards && cards[id].IsDueForReview(now)|
    {
      var all := GetAllCards();
      assert forall i :: 0 <= i < |all| ==> all[i] in cards.Values by {
        forall i | 0 <= i < |all|
          ensures all[i] in cards.Values
        {
          assert order[i] in order;
        }
      }
      DueAmongStore(cards, all, now);
      DueAmong(all, now)
    }

    /** `get_cards_count`: the number of stored cards, which `get_all_cards` also lists. */
    function GetCardsCount(): (n: nat)
      reads this
      requires Valid()
      ensures n == |cards.Keys| && n == |GetAllCards()|
    {
      |cards|
    }
  }

  /** A distinct key list covering a map's keys is as long as the map. */
  lemma {:induction false} KeysCount(m: map<string, MemorizationCard>, ids: seq<string>)
    requires Distinct(ids)
    requires forall id :: id in m <==> id in ids
    ensures |m| == |ids|
  {
    if ids == [] {
      assert m.Keys == {};
    } else {
      var last := ids[|ids| - 1];
      var rest := ids[..|ids| - 1];
      assert forall id :: id in m - {last} <==> id in rest by {
        forall id
          ensures id in m - {last} <==> id in rest
        {
          if id in rest {
            var k :| 0 <= k < |rest| && rest[k] == id;
            assert ids[k] == id && k < |ids| - 1;
          }
          if id in ids && id != last {
            var k :| 0 <= k < |ids| && ids[k] == id;
            assert k != |ids| - 1;
            assert rest[k] == id;
          }
        }
      }
      KeysCount(m - {last}, rest);
    }
  }

  /** Removing a key that is absent leaves the list as it was. */
  lemma {:induction false} WithoutAbsent(s: seq<string>, x: string)
    requires x !in s
    ensures Without(s, x) == s
  {
    if s != [] {
      WithoutAbsent(s[..|s| - 1], x);
      assert s[..|s| - 1] + [s[|s| - 1]] == s;
    }
  }
}
