/** The whole game state: deck (top at index 0), discard pile, two players,
    whose turn it is and the round counter. */
module GameStates {
  import opened Wrappers
  import opened Cards
  import opened Players

  const Player1Id: string := "player1"
  const Player2Id: string := "player2"

  /** The player id a turn switch moves to. */
  function OtherId(id: string): string
  {
    if id == Player1Id then Player2Id else Player1Id
  }

  /** The cards of six zones taken together. */
  ghost function Total(deck: seq<Card>, discard: seq<Card>, hand1: seq<Card>, hand2: seq<Card>,
                       score1: seq<Card>, score2: seq<Card>): multiset<Card>
  {
    multiset(deck) + multiset(discard) + multiset(hand1) + multiset(hand2)
    + multiset(score1) + multiset(score2)
  }

  /** Cards appended to the discard pile and the score zones add exactly
      themselves to the total. */
  lemma TotalAfterAppends(deck: seq<Card>, discard: seq<Card>, hand1: seq<Card>, hand2: seq<Card>,
                          score1: seq<Card>, score2: seq<Card>,
                          toDiscard: seq<Card>, toScore1: seq<Card>, toScore2: seq<Card>)
    ensures Total(deck, discard + toDiscard, hand1, hand2, score1 + toScore1, score2 + toScore2)
            == Total(deck, discard, hand1, hand2, score1, score2)
               + multiset(toDiscard) + multiset(toScore1) + multiset(toScore2)
  {
  }

  /** The total does not depend on which player is counted first. */
  lemma TotalSwap(deck: seq<Card>, discard: seq<Card>, hand1: seq<Card>, hand2: seq<Card>,
                  score1: seq<Card>, score2: seq<Card>)
    ensures Total(deck, discard, hand1, hand2, score1, score2) == Total(deck, discard, hand2, hand1, score2, score1)
  {
  }

  /** Moving the front `d` cards of the deck into the hands, split as
      `toHand1` and `toHand2`, keeps the total. */
  lemma TotalAfterDeal(deck: seq<Card>, discard: seq<Card>, hand1: seq<Card>, hand2: seq<Card>,
                       score1: seq<Card>, score2: seq<Card>,
                       d: nat, toHand1: seq<Card>, toHand2: seq<Card>)
    requires d <= |deck|
    requires multiset(toHand1) + multiset(toHand2) == multiset(deck[..d])
    ensures Total(deck[d..], discard, hand1 + toHand1, hand2 + toHand2, score1, score2)
            == Total(deck, discard, hand1, hand2, score1, score2)
  {
    assert deck == deck[..d] + deck[d..];
  }

  /** The deck's top card as a list: empty when the deck is. */
  function Top(deck: seq<Card>): seq<Card>
  {
    if deck == [] then [] else [deck[0]]
  }

  /** The deck after its top card, if any, is drawn. */
  function AfterDraw(deck: seq<Card>): seq<Card>
  {
    if deck == [] then [] else deck[1..]
  }

  /** A draw only moves the deck's top card, if any, to the drawing hand. */
  lemma DrawKeepsCards(deck: seq<Card>, discard: seq<Card>, hand1: seq<Card>, hand2: seq<Card>,
                       score1: seq<Card>, score2: seq<Card>)
    ensures |AfterDraw(deck)| + |Top(deck)| == |deck|
    ensures Total(AfterDraw(deck), discard, hand1 + Top(deck), hand2, score1, score2)
            == Total(deck, discard, hand1, hand2, score1, score2)
  {
    var top := Top(deck);
    assert deck[..|top|] == top && deck[|top|..] == AfterDraw(deck);
    assert hand2 + [] == hand2;
    TotalAfterDeal(deck, discard, hand1, hand2, score1, score2, |top|, top, []);
  }

  class GameState {
    var deck: seq<Card>
    var discardPile: seq<Card>
    var player1: Player
    var player2: Player
    var currentPlayerId: string
    var roundCount: int

    /** Two distinct players carrying their ids, and a turn owner that is one of them. */
    ghost predicate Valid()
      reads this
    {
      && player1 != player2
      && player1.playerId == Player1Id
      && player2.playerId == Player2Id
      && (currentPlayerId == Player1Id || currentPlayerId == Player2Id)
    }

    constructor (deck: seq<Card>)
      ensures Valid() && fresh(player1) && fresh(player2)
      ensures this.deck == deck && discardPile == []
      ensures player1.hand == [] && player1.scoreZone == []
      ensures player2.hand == [] && player2.scoreZone == []
      ensures currentPlayerId == Player1Id && roundCount == 1
    {
      this.deck := deck;
      discardPile := [];
      player1 := new Player(Player1Id);
      player2 := new Player(Player2Id);
      currentPlayerId := Player1Id;
      roundCount := 1;
    }

    /** The list behind each zone. */
    function ZoneCards(z: GameZone): seq<Card>
      reads this, player1, player2
    {
      match z
      case H => deck
      case P1 => player1.hand
      case P2 => player2.hand
      case S1 => player1.scoreZone
      case S2 => player2.scoreZone
      case A => discardPile
    }

    /** Every card in play, wherever it lies. */
    ghost function AllCards(): multiset<Card>
      reads this, player1, player2
    {
      Total(deck, discardPile, player1.hand, player2.hand, player1.scoreZone, player2.scoreZone)
    }

    function GetCurrentPlayer(): Player
      reads this
    {
      if currentPlayerId == Player1Id then player1 else player2
    }

    function GetOpponentPlayer(): Player
      reads this
    {
      if currentPlayerId == Player1Id then player2 else player1
    }

    /** Hands the turn to the other player and counts one more round. */
    method SwitchTurn()
      requires Valid()
      modifies this
      ensures Valid()
      ensures currentPlayerId == OtherId(old(currentPlayerId))
      ensures roundCount == old(roundCount) + 1
      ensures GetCurrentPlayer() == old(GetOpponentPlayer())
      ensures GetOpponentPlayer() == old(GetCurrentPlayer())
      ensures deck == old(deck) && discardPile == old(discardPile)
      ensures player1 == old(player1) && player2 == old(player2)
    {
      currentPlayerId := if currentPlayerId == Player1Id then Player2Id else Player1Id;
      roundCount := roundCount + 1;
    }

    /** Moves the top of the deck to the end of `player`'s hand; None, and no
        change, when the deck is empty. */
    method DrawCard(player: Player) returns (c: Option<Card>)
      requires Valid()
      modifies this, player
      ensures Valid()
      ensures old(deck) == [] ==> c.None? && deck == [] && player.hand == old(player.hand)
      ensures old(deck) != [] ==>
                && c == Some(old(deck)[0])
                && deck == old(deck)[1..]
                && player.hand == old(player.hand) + [old(deck)[0]]
      ensures player.scoreZone == old(player.scoreZone)
      ensures discardPile == old(discardPile)
      ensures player1 == old(player1) && player2 == old(player2)
      ensures currentPlayerId == old(currentPlayerId) && roundCount == old(roundCount)
      ensures player != player1 ==> player1.hand == old(player1.hand) && player1.scoreZone == old(player1.scoreZone)
      ensures player != player2 ==> player2.hand == old(player2.hand) && player2.scoreZone == old(player2.scoreZone)
    {
      if deck == [] {
        return None;
      }
      var card := deck[0];
      assert deck == [card] + deck[1..];
      deck := deck[1..];
      player.DrawCard(card);
      c := Some(card);
    }

    /** Appends a card to the discard pile; nothing else changes. */
    method MoveToDiscard(card: Card)
      modifies this
      ensures discardPile == old(discardPile) + [card]
      ensures deck == old(deck)
      ensures player1 == old(player1) && player2 == old(player2)
      ensures currentPlayerId == old(currentPlayerId) && roundCount == old(roundCount)
      ensures AllCards() == old(AllCards()) + multiset{card}
      ensures old(Valid()) ==> Valid()
    {
      discardPile := discardPile + [card];
    }

    /** The end test: a score zone reached `maxScore`, or the deck ran out. */
    predicate IsGameOver(maxScore: int := 10)
      reads this, player1, player2
    {
      || player1.ScoreCount() >= maxScore
      || player2.ScoreCount() >= maxScore
      || |deck| == 0
    }

    /** A fresh snapshot of the six zone sizes, keyed as conditions look them up. */
    function GetZoneCounts(): ZoneCounts
      reads this, player1, player2
    {
      map[
        Key(H) := |deck|,
        Key(A) := |discardPile|,
        Key(P1) := player1.HandCount(),
        Key(P2) := player2.HandCount(),
        Key(S1) := player1.ScoreCount(),
        Key(S2) := player2.ScoreCount()
      ]
    }

    /** Puts the deck into the order the random shuffle chose. */
    method ShuffleDeck(shuffled: seq<Card>)
      requires multiset(shuffled) == multiset(deck)
      modifies this
      ensures deck == shuffled
      ensures multiset(deck) == old(multiset(deck))
      ensures old(Valid()) ==> Valid()
      ensures discardPile == old(discardPile)
      ensures player1 == old(player1) && player2 == old(player2)
      ensures currentPlayerId == old(currentPlayerId) && roundCount == old(roundCount)
    {
      deck := shuffled;
    }

    /** Starts a new match on the given deck, or on the kept one, shuffled. */
    method Reset(newDeck: Option<seq<Card>>, shuffled: seq<Card>)
      requires multiset(shuffled) == multiset(if newDeck.Some? then newDeck.value else deck)
      modifies this
      ensures Valid() && fresh(player1) && fresh(player2)
      ensures deck == shuffled
      ensures multiset(deck) == multiset(if newDeck.Some? then newDeck.value else old(deck))
      ensures discardPile == []
      ensures player1.hand == [] && player1.scoreZone == []
      ensures player2.hand == [] && player2.scoreZone == []
      ensures currentPlayerId == Player1Id && roundCount == 1
    {
      if newDeck.Some? {
        deck := newDeck.value;
      }
      discardPile := [];
      player1 := new Player(Player1Id);
      player2 := new Player(Player2Id);
      currentPlayerId := Player1Id;
      roundCount := 1;
      ShuffleDeck(shuffled);
    }
  }

  /** The current and the opposing player are the two players, one each. */
  lemma CurrentAndOpponent(g: GameState)
    requires g.Valid()
    ensures g.GetCurrentPlayer() != g.GetOpponentPlayer()
    ensures {g.GetCurrentPlayer(), g.GetOpponentPlayer()} == {g.player1, g.player2}
    ensures g.GetCurrentPlayer().playerId == g.currentPlayerId
  {
  }

  /** The snapshot has exactly the six zone keys, and a condition operand
      naming a zone resolves to that zone's current size. */
  lemma ZoneCountsResolve(g: GameState, z: GameZone)
    ensures g.GetZoneCounts().Keys == {"deck", "discard", "player1", "player2", "score1", "score2"}
    ensures GetValue(ZoneRef(z), g.GetZoneCounts()) == |g.ZoneCards(z)|
  {
  }

  /** What an operand stands for in the live game: a literal is itself, a zone
      is the number of cards it currently holds. */
  function LiveValue(g: GameState, operand: Operand): int
    reads g, g.player1, g.player2
  {
    match operand
    case Lit(n) => n
    case ZoneRef(z) => |g.ZoneCards(z)|
  }

  /** A condition evaluated on the zone-count snapshot is its operator's
      comparison of the live values of its two operands. */
  lemma ConditionOnSnapshot(g: GameState, c: IfCondition)
    ensures var counts, a, b := g.GetZoneCounts(), LiveValue(g, c.operandA), LiveValue(g, c.operandB);
            && (c.operator == GT ==> (Evaluate(c, counts) <==> a > b))
            && (c.operator == GTE ==> (Evaluate(c, counts) <==> a >= b))
            && (c.operator == LT ==> (Evaluate(c, counts) <==> a < b))
            && (c.operator == LTE ==> (Evaluate(c, counts) <==> a <= b))
            && (c.operator == EQ ==> (Evaluate(c, counts) <==> a == b))
            && (c.operator == NEQ ==> (Evaluate(c, counts) <==> a != b))
  {
    if c.operandA.ZoneRef? {
      ZoneCountsResolve(g, c.operandA.zone);
    }
    if c.operandB.ZoneRef? {
      ZoneCountsResolve(g, c.operandB.zone);
    }
  }

  /** All cards are the six zones' cards together. */
  lemma AllCardsAreTheZones(g: GameState)
    ensures g.AllCards() == multiset(g.ZoneCards(H)) + multiset(g.ZoneCards(A))
                            + multiset(g.ZoneCards(P1)) + multiset(g.ZoneCards(P2))
                            + multiset(g.ZoneCards(S1)) + multiset(g.ZoneCards(S2))
  {
  }

  /** All cards, counted from the side of the player whose turn it is. */
  lemma AllCardsByTurn(g: GameState)
    requires g.Valid()
    ensures g.AllCards() == Total(g.deck, g.discardPile,
                                  g.GetCurrentPlayer().hand, g.GetOpponentPlayer().hand,
                                  g.GetCurrentPlayer().scoreZone, g.GetOpponentPlayer().scoreZone)
  {
    if g.currentPlayerId != Player1Id {
      TotalSwap(g.deck, g.discardPile, g.player1.hand, g.player2.hand, g.player1.scoreZone, g.player2.scoreZone);
    }
  }

  /** The game is over exactly when a score zone reached the limit or the deck is empty. */
  lemma GameOverCases(g: GameState, maxScore: int)
    ensures g.IsGameOver(maxScore) <==>
              GetValue(ZoneRef(S1), g.GetZoneCounts()) >= maxScore
              || GetValue(ZoneRef(S2), g.GetZoneCounts()) >= maxScore
              || GetValue(ZoneRef(H), g.GetZoneCounts()) == 0
    ensures |g.deck| == 0 ==> g.IsGameOver(maxScore)
  {
    ZoneCountsResolve(g, S1);
    ZoneCountsResolve(g, S2);
    ZoneCountsResolve(g, H);
  }
}
