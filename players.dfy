/** A player: a hand and a score zone, both ordered lists of cards. */
module Players {
  import opened Wrappers
  import opened Cards

  /** The cards of one kind, in the order they have in `cards`. */
  function OfType(cards: seq<Card>, t: CardType): seq<Card>
    decreases |cards|
  {
    if cards == [] then []
    else (if cards[0].cardType == t then [cards[0]] else []) + OfType(cards[1..], t)
  }

  /** Whether some card of the list is of kind `t`. */
  predicate AnyOfType(cards: seq<Card>, t: CardType)
  {
    exists i :: 0 <= i < |cards| && cards[i].cardType == t
  }

  /** A card is in a view exactly when it is in the list and of that kind. */
  lemma {:induction false} OfTypeMembers(cards: seq<Card>, t: CardType, x: Card)
    ensures x in OfType(cards, t) <==> x in cards && x.cardType == t
    decreases |cards|
  {
    if cards != [] {
      OfTypeMembers(cards[1..], t, x);
      assert cards == [cards[0]] + cards[1..];
    }
  }

  /** A view of a concatenation is the concatenation of the views: the view
      keeps the relative order of the hand. */
  lemma {:induction false} OfTypeAppend(a: seq<Card>, b: seq<Card>, t: CardType)
    ensures OfType(a + b, t) == OfType(a, t) + OfType(b, t)
    decreases |a|
  {
    if a != [] {
      var head := if a[0].cardType == t then [a[0]] else [];
      assert a + b != [] && (a + b)[0] == a[0] && (a + b)[1..] == a[1..] + b;
      calc {
        OfType(a + b, t);
        head + OfType(a[1..] + b, t);
        { OfTypeAppend(a[1..], b, t); }
        head + (OfType(a[1..], t) + OfType(b, t));
        (head + OfType(a[1..], t)) + OfType(b, t);
        OfType(a, t) + OfType(b, t);
      }
    } else {
      assert a + b == b;
    }
  }

  /** The test for a kind holds exactly when the view of that kind is non-empty. */
  lemma AnyIffViewNonEmpty(cards: seq<Card>, t: CardType)
    ensures AnyOfType(cards, t) <==> OfType(cards, t) != []
  {
    if AnyOfType(cards, t) {
      var i :| 0 <= i < |cards| && cards[i].cardType == t;
      OfTypeMembers(cards, t, cards[i]);
    }
    if OfType(cards, t) != [] {
      var x := OfType(cards, t)[0];
      OfTypeMembers(cards, t, x);
      var i :| 0 <= i < |cards| && cards[i] == x;
    }
  }

  /** The counter, combo and normal views split the list: together they hold
      every card of it exactly as often as it does. */
  lemma {:induction false} ViewsPartition(cards: seq<Card>)
    ensures multiset(OfType(cards, Counter)) + multiset(OfType(cards, Combo))
            + multiset(OfType(cards, Normal)) == multiset(cards)
    ensures |OfType(cards, Counter)| + |OfType(cards, Combo)| + |OfType(cards, Normal)| == |cards|
    decreases |cards|
  {
    if cards != [] {
      ViewsPartition(cards[1..]);
      assert cards == [cards[0]] + cards[1..];
    }
  }

  /** The ids of a list of cards, in list order. */
  function Ids(cards: seq<Card>): (r: seq<int>)
    ensures |r| == |cards|
    ensures forall i :: 0 <= i < |cards| ==> r[i] == cards[i].id
    decreases |cards|
  {
    if cards == [] then [] else [cards[0].id] + Ids(cards[1..])
  }

  /** The position of the first card with the given id, if any. */
  function FirstIndex(cards: seq<Card>, id: int): (r: Option<nat>)
    ensures r.None? <==> forall i :: 0 <= i < |cards| ==> cards[i].id != id
    ensures r.Some? ==> r.value < |cards| && cards[r.value].id == id
    ensures r.Some? ==> forall j :: 0 <= j < r.value ==> cards[j].id != id
    decreases |cards|
  {
    if cards == [] then None
    else if cards[0].id == id then Some(0)
    else match FirstIndex(cards[1..], id)
      case None => None
      case Some(k) => Some(k + 1)
  }

  /** The list without its entry at position `k`; the others keep their order. */
  function RemoveAt(cards: seq<Card>, k: nat): (r: seq<Card>)
    requires k < |cards|
    ensures |r| == |cards| - 1
    ensures multiset(r) + multiset{cards[k]} == multiset(cards)
  {
    assert cards == cards[..k] + [cards[k]] + cards[k + 1..];
    cards[..k] + cards[k + 1..]
  }

  class Player {
    const playerId: string
    var hand: seq<Card>
    var scoreZone: seq<Card>

    constructor (playerId: string)
      ensures this.playerId == playerId && hand == [] && scoreZone == []
    {
      this.playerId := playerId;
      hand := [];
      scoreZone := [];
    }

    /** A drawn card goes to the end of the hand. */
    method DrawCard(card: Card)
      modifies this
      ensures hand == old(hand) + [card]
      ensures scoreZone == old(scoreZone)
    {
      hand := hand + [card];
    }

    /** Removes and returns the first hand card with the given id; None, and
        no change, when there is none. */
    method PlayCard(cardId: int) returns (r: Option<Card>)
      modifies this
      ensures scoreZone == old(scoreZone)
      ensures FirstIndex(old(hand), cardId).None? ==> r.None? && hand == old(hand)
      ensures FirstIndex(old(hand), cardId).Some? ==>
                var k := FirstIndex(old(hand), cardId).value;
                r == Some(old(hand)[k]) && hand == RemoveAt(old(hand), k)
    {
      var i := 0;
      while i < |hand|
        invariant 0 <= i <= |hand|
        invariant hand == old(hand) && scoreZone == old(scoreZone)
        invariant forall j :: 0 <= j < i ==> hand[j].id != cardId
      {
        if hand[i].id == cardId {
          r := Some(hand[i]);
          hand := hand[..i] + hand[i + 1..];
          return;
        }
        i := i + 1;
      }
      r := None;
    }

    /** A card won goes to the end of the score zone. */
    method AddToScoreZone(card: Card)
      modifies this
      ensures scoreZone == old(scoreZone) + [card]
      ensures hand == old(hand)
    {
      scoreZone := scoreZone + [card];
    }

    /** Discarding by id has exactly the effect and the result of playing it. */
    method DiscardCard(cardId: int) returns (r: Option<Card>)
      modifies this
      ensures scoreZone == old(scoreZone)
      ensures FirstIndex(old(hand), cardId).None? ==> r.None? && hand == old(hand)
      ensures FirstIndex(old(hand), cardId).Some? ==>
                var k := FirstIndex(old(hand), cardId).value;
                r == Some(old(hand)[k]) && hand == RemoveAt(old(hand), k)
    {
      r := PlayCard(cardId);
    }

    predicate HasCounterCard() reads this { AnyOfType(hand, Counter) }
    predicate HasComboCard() reads this { AnyOfType(hand, Combo) }

    function GetCounterCards(): seq<Card> reads this { OfType(hand, Counter) }
    function GetComboCards(): seq<Card> reads this { OfType(hand, Combo) }
    function GetNormalCards(): seq<Card> reads this { OfType(hand, Normal) }

    function GetHandCardIds(): seq<int> reads this { Ids(hand) }
    function ScoreCount(): nat reads this { |scoreZone| }
    function HandCount(): nat reads this { |hand| }
  }

  /** A player's filtered views agree with its tests and split its hand. */
  lemma PlayerViews(p: Player)
    ensures p.HasCounterCard() <==> p.GetCounterCards() != []
    ensures p.HasComboCard() <==> p.GetComboCards() != []
    ensures |p.GetCounterCards()| + |p.GetComboCards()| + |p.GetNormalCards()| == p.HandCount()
    ensures |p.GetHandCardIds()| == p.HandCount()
  {
    AnyIffViewNonEmpty(p.hand, Counter);
    AnyIffViewNonEmpty(p.hand, Combo);
    ViewsPartition(p.hand);
  }
}
