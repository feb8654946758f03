/** The turn engine: prepare (draw), attack, optional counter or combo, the
    resolution of each played card by the judge's verdicts, the end check
    with its winner rule, and the unconditional turn switch. */
module Rules {
  import opened Wrappers
  import opened Cards
  import opened Players
  import opened GameStates

  /** The judge, as the two verdicts it gives on a card explained by the
      judged player (named by id): is the meaning right, is the story right. */
  datatype Judge = Judge(judgeMeaning: (Card, string) -> bool, judgeStory: (Card, string) -> bool)

  /** The automatic judge accepts every explanation. */
  const AutoJudge: Judge := Judge((c: Card, id: string) => true, (c: Card, id: string) => true)

  /** The three ways a played card can be settled. */
  datatype Resolution = Discarded | ScoredOnly | ScoredWithEffects

  /** The story is asked about only once the meaning has been accepted. */
  function Resolve(meaningOk: bool, storyOk: bool): (r: Resolution)
  {
    if !meaningOk then Discarded
    else if !storyOk then ScoredOnly
    else ScoredWithEffects
  }

  /** A wrong meaning discards the card whatever the story; a right one scores
      it; effects run only when both are right. */
  lemma ResolveOutcomes(meaningOk: bool, storyOk: bool)
    ensures Resolve(meaningOk, storyOk) == Discarded <==> !meaningOk
    ensures Resolve(meaningOk, storyOk) == ScoredWithEffects <==> meaningOk && storyOk
    ensures Resolve(meaningOk, storyOk) == ScoredOnly <==> meaningOk && !storyOk
  {
  }

  /** What settling `card` adds to the discard pile. */
  function DiscardedPart(card: Card, meaningOk: bool): seq<Card>
  {
    if meaningOk then [] else [card]
  }

  /** What settling `card` adds to the scoring player's score zone. */
  function ScoredPart(card: Card, meaningOk: bool): seq<Card>
  {
    if meaningOk then [card] else []
  }

  /** A settled card lands in exactly one of the two zones. */
  lemma LandsInOneZone(card: Card, meaningOk: bool)
    ensures multiset(DiscardedPart(card, meaningOk)) + multiset(ScoredPart(card, meaningOk)) == multiset{card}
    ensures |DiscardedPart(card, meaningOk)| + |ScoredPart(card, meaningOk)| == 1
  {
  }

  /** The cards a turn settles, in order: the main card, then the response
      card when one is given, otherwise the combo card when one is given. */
  function ResolvedCards(mainCard: Card, responseCard: Option<Card>, comboCard: Option<Card>): seq<Card>
  {
    [mainCard] + match responseCard
      case Some(r) => [r]
      case None => match comboCard
        case Some(c) => [c]
        case None => []
  }

  /** A response card shuts the combo out of the turn. */
  lemma CounterSuppressesCombo(mainCard: Card, responseCard: Option<Card>, comboCard: Option<Card>)
    ensures responseCard.Some? ==> ResolvedCards(mainCard, responseCard, comboCard) == [mainCard, responseCard.value]
    ensures responseCard.None? && comboCard.Some? ==> ResolvedCards(mainCard, responseCard, comboCard) == [mainCard, comboCard.value]
    ensures |ResolvedCards(mainCard, responseCard, comboCard)| <= 2
  {
  }

  /** The winner at the end of the game: more score cards wins, then more
      hand cards, then the player whose turn it is not. */
  function Winner(p1Score: int, p2Score: int, p1Hand: int, p2Hand: int, currentPlayerId: string): string
  {
    if p1Score > p2Score then Player1Id
    else if p2Score > p1Score then Player2Id
    else if p1Hand > p2Hand then Player1Id
    else if p2Hand > p1Hand then Player2Id
    else if currentPlayerId == Player1Id then Player2Id
    else Player1Id
  }

  /** Player 1 wins exactly when it leads in (score, hand size, not being
      the turn owner), compared in that order. */
  lemma WinnerOrder(p1Score: int, p2Score: int, p1Hand: int, p2Hand: int, currentPlayerId: string)
    ensures Winner(p1Score, p2Score, p1Hand, p2Hand, currentPlayerId) == Player1Id || Winner(p1Score, p2Score, p1Hand, p2Hand, currentPlayerId) == Player2Id
    ensures Winner(p1Score, p2Score, p1Hand, p2Hand, currentPlayerId) == Player1Id <==>
              || p1Score > p2Score
              || (p1Score == p2Score && p1Hand > p2Hand)
              || (p1Score == p2Score && p1Hand == p2Hand && currentPlayerId != Player1Id)
  {
  }

  /** The rule does not favour a seat: exchanging the players' numbers and
      handing the turn over exchanges the winner. */
  lemma WinnerSymmetric(p1Score: int, p2Score: int, p1Hand: int, p2Hand: int, currentPlayerId: string)
    requires currentPlayerId == Player1Id || currentPlayerId == Player2Id
    ensures Winner(p2Score, p1Score, p2Hand, p1Hand, OtherId(currentPlayerId))
            == OtherId(Winner(p1Score, p2Score, p1Hand, p2Hand, currentPlayerId))
  {
  }

  /** Alternate positions of a list, starting with the first (`Evens`) or the second (`Odds`). */
  function Evens(s: seq<Card>): seq<Card>
    decreases |s|
  {
    if s == [] then [] else [s[0]] + Odds(s[1..])
  }

  function Odds(s: seq<Card>): seq<Card>
    decreases |s|
  {
    if s == [] then [] else Evens(s[1..])
  }

  /** A card added at the end goes to `Evens` at an even position and to `Odds` at an odd one. */
  lemma {:induction false} EvensOddsSnoc(s: seq<Card>, x: Card)
    ensures Evens(s + [x]) == if |s| % 2 == 0 then Evens(s) + [x] else Evens(s)
    ensures Odds(s + [x]) == if |s| % 2 == 1 then Odds(s) + [x] else Odds(s)
    decreases |s|
  {
    if s == [] {
      assert s + [x] == [x];
      assert [x][1..] == [];
    } else {
      assert (s + [x])[0] == s[0];
      assert (s + [x])[1..] == s[1..] + [x];
      EvensOddsSnoc(s[1..], x);
      if |s| % 2 == 0 {
        assert [s[0]] + (Odds(s[1..]) + [x]) == ([s[0]] + Odds(s[1..])) + [x];
      }
    }
  }

  /** Dealing alternately splits the dealt cards between the players, the
      first player getting the extra card of an odd count. */
  lemma {:induction false} EvensOddsSplit(s: seq<Card>)
    ensures multiset(Evens(s)) + multiset(Odds(s)) == multiset(s)
    ensures |Evens(s)| == (|s| + 1) / 2 && |Odds(s)| == |s| / 2
    decreases |s|
  {
    if s != [] {
      EvensOddsSplit(s[1..]);
      assert s == [s[0]] + s[1..];
    }
  }

  /** One round of dealing, on values: when the deck and the hands reflect
      `i` rounds, drawing the next card for each hand in turn gives the
      deck and the hands of `i + 1` rounds. */
  lemma DealRound(deck0: seq<Card>, i: nat, hand1: seq<Card>, hand2: seq<Card>)
    ensures var d, e := DealtCount(|deck0|, i), DealtCount(|deck0|, i + 1);
            && d <= e <= |deck0|
            && AfterDraw(AfterDraw(deck0[d..])) == deck0[e..]
            && hand1 + Evens(deck0[..d]) + Top(deck0[d..]) == hand1 + Evens(deck0[..e])
            && hand2 + Odds(deck0[..d]) + Top(AfterDraw(deck0[d..])) == hand2 + Odds(deck0[..e])
  {
    var k, d := |deck0|, DealtCount(|deck0|, i);
    if d < k {
      assert d == 2 * i;
      DealFirst(deck0, d);
      if d + 1 < k {
        DealSecond(deck0, d + 1);
      }
    }
  }

  /** Dealing the card at an even position extends `Evens`. */
  lemma DealFirst(deck: seq<Card>, d: nat)
    requires d < |deck| && d % 2 == 0
    ensures Evens(deck[..d + 1]) == Evens(deck[..d]) + [deck[d]]
    ensures Odds(deck[..d + 1]) == Odds(deck[..d])
  {
    assert deck[..d] + [deck[d]] == deck[..d + 1];
    EvensOddsSnoc(deck[..d], deck[d]);
  }

  /** Dealing the card at an odd position extends `Odds`. */
  lemma DealSecond(deck: seq<Card>, d: nat)
    requires d < |deck| && d % 2 == 1
    ensures Evens(deck[..d + 1]) == Evens(deck[..d])
    ensures Odds(deck[..d + 1]) == Odds(deck[..d]) + [deck[d]]
  {
    assert deck[..d] + [deck[d]] == deck[..d + 1];
    EvensOddsSnoc(deck[..d], deck[d]);
  }

  /** Dealing only moves cards from the deck into the two hands. */
  lemma DealKeepsCards(deck: seq<Card>, n: int, discard: seq<Card>, hand1: seq<Card>, hand2: seq<Card>,
                       score1: seq<Card>, score2: seq<Card>)
    ensures var d := DealtCount(|deck|, n);
            Total(deck[d..], discard, hand1 + Evens(deck[..d]), hand2 + Odds(deck[..d]), score1, score2)
            == Total(deck, discard, hand1, hand2, score1, score2)
  {
    var d := DealtCount(|deck|, n);
    EvensOddsSplit(deck[..d]);
    TotalAfterDeal(deck, discard, hand1, hand2, score1, score2, d, Evens(deck[..d]), Odds(deck[..d]));
  }

  /** How many cards dealing `n` rounds takes from a deck of `k`. */
  function DealtCount(k: nat, n: int): (d: nat)
  {
    if n <= 0 then 0 else if 2 * n <= k then 2 * n else k
  }

  /** The meaning verdict on the card settled after the main one: a response
      card is judged on the attacker, a combo card on the defender; true when
      there is no second card. */
  function SecondOk(judge: Judge, responseCard: Option<Card>, comboCard: Option<Card>,
                    attackerId: string, defenderId: string): bool
  {
    match responseCard
    case Some(r) => judge.judgeMeaning(r, attackerId)
    case None => match comboCard
      case Some(c) => judge.judgeMeaning(c, defenderId)
      case None => true
  }

  /** What an action phase adds to the discard pile: each settled card whose
      meaning was judged wrong. */
  function TurnDiscards(mainCard: Card, mainOk: bool, responseCard: Option<Card>, comboCard: Option<Card>,
                        secondOk: bool): seq<Card>
  {
    DiscardedPart(mainCard, mainOk)
    + match responseCard
      case Some(r) => DiscardedPart(r, secondOk)
      case None => match comboCard
        case Some(c) => DiscardedPart(c, secondOk)
        case None => []
  }

  /** What an action phase adds to the attacker's score zone: the main card,
      and the combo card when no response was given, when judged right. */
  function AttackerScores(mainCard: Card, mainOk: bool, responseCard: Option<Card>, comboCard: Option<Card>,
                          secondOk: bool): seq<Card>
  {
    ScoredPart(mainCard, mainOk)
    + match responseCard
      case Some(r) => []
      case None => match comboCard
        case Some(c) => ScoredPart(c, secondOk)
        case None => []
  }

  /** What an action phase adds to the defender's score zone: the response
      card, when judged right. */
  function DefenderScores(responseCard: Option<Card>, secondOk: bool): seq<Card>
  {
    match responseCard
    case Some(r) => ScoredPart(r, secondOk)
    case None => []
  }

  /** Every settled card of a turn lands in the discard pile or in one score
      zone, exactly once, whatever the verdicts. */
  lemma TurnConservation(mainCard: Card, mainOk: bool, responseCard: Option<Card>, comboCard: Option<Card>,
                         secondOk: bool)
    ensures multiset(TurnDiscards(mainCard, mainOk, responseCard, comboCard, secondOk))
            + multiset(AttackerScores(mainCard, mainOk, responseCard, comboCard, secondOk))
            + multiset(DefenderScores(responseCard, secondOk))
            == multiset(ResolvedCards(mainCard, responseCard, comboCard))
  {
  }

  /** An action phase adds exactly the settled cards to the game, whichever
      zones they land in (zones given from the attacker's side). */
  lemma ActionKeepsCards(mainCard: Card, mainOk: bool, responseCard: Option<Card>, comboCard: Option<Card>,
                         secondOk: bool,
                         deck: seq<Card>, discard: seq<Card>, handA: seq<Card>, handD: seq<Card>,
                         scoreA: seq<Card>, scoreD: seq<Card>)
    ensures Total(deck, discard + TurnDiscards(mainCard, mainOk, responseCard, comboCard, secondOk),
                  handA, handD,
                  scoreA + AttackerScores(mainCard, mainOk, responseCard, comboCard, secondOk),
                  scoreD + DefenderScores(responseCard, secondOk))
            == Total(deck, discard, handA, handD, scoreA, scoreD) + multiset(ResolvedCards(mainCard, responseCard, comboCard))
  {
    TurnConservation(mainCard, mainOk, responseCard, comboCard, secondOk);
    TotalAfterAppends(deck, discard, handA, handD, scoreA, scoreD,
                      TurnDiscards(mainCard, mainOk, responseCard, comboCard, secondOk),
                      AttackerScores(mainCard, mainOk, responseCard, comboCard, secondOk),
                      DefenderScores(responseCard, secondOk));
  }

  /** A whole turn adds exactly the settled cards to the game: the drawn card
      only moves from the deck to the attacker's hand, and each settled card
      lands in one zone (zones given from the attacker's side). */
  lemma TurnKeepsCards(mainCard: Card, mainOk: bool, responseCard: Option<Card>, comboCard: Option<Card>,
                       secondOk: bool,
                       deck: seq<Card>, discard: seq<Card>, handA: seq<Card>, handD: seq<Card>,
                       scoreA: seq<Card>, scoreD: seq<Card>)
    ensures Total(AfterDraw(deck), discard + TurnDiscards(mainCard, mainOk, responseCard, comboCard, secondOk),
                  handA + Top(deck), handD,
                  scoreA + AttackerScores(mainCard, mainOk, responseCard, comboCard, secondOk),
                  scoreD + DefenderScores(responseCard, secondOk))
            == Total(deck, discard, handA, handD, scoreA, scoreD) + multiset(ResolvedCards(mainCard, responseCard, comboCard))
  {
    DrawKeepsCards(deck, discard, handA, handD, scoreA, scoreD);
    ActionKeepsCards(mainCard, mainOk, responseCard, comboCard, secondOk,
                     AfterDraw(deck), discard, handA + Top(deck), handD, scoreA, scoreD);
  }

  class GameRoundManager {
    const state: GameState
    const judge: Judge

    /** A fresh game on the given cards; the judge is supplied by the caller. */
    constructor (cards: seq<Card>, judge: Judge)
      ensures fresh(state) && fresh(state.player1) && fresh(state.player2)
      ensures state.Valid() && state.deck == cards && state.discardPile == []
      ensures state.player1.hand == [] && state.player1.scoreZone == []
      ensures state.player2.hand == [] && state.player2.scoreZone == []
      ensures state.currentPlayerId == Player1Id && state.roundCount == 1
      ensures this.judge == judge
    {
      state := new GameState(cards);
      this.judge := judge;
    }

    /** Shuffles the deck into the order the random shuffle chose. */
    method InitializeGameState(shuffled: seq<Card>)
      requires multiset(shuffled) == multiset(state.deck)
      modifies state
      ensures state.deck == shuffled && multiset(state.deck) == old(multiset(state.deck))
      ensures state.discardPile == old(state.discardPile)
      ensures state.player1 == old(state.player1) && state.player2 == old(state.player2)
      ensures state.currentPlayerId == old(state.currentPlayerId) && state.roundCount == old(state.roundCount)
      ensures old(state.Valid()) ==> state.Valid()
    {
      state.ShuffleDeck(shuffled);
    }

    /** The current player draws one card, if the deck has one. */
    method PreparePhase()
      requires state.Valid()
      modifies state, state.player1, state.player2
      ensures state.Valid()
      ensures state.player1 == old(state.player1) && state.player2 == old(state.player2)
      ensures state.currentPlayerId == old(state.currentPlayerId) && state.roundCount == old(state.roundCount)
      ensures state.discardPile == old(state.discardPile)
      ensures state.player1.scoreZone == old(state.player1.scoreZone)
      ensures state.player2.scoreZone == old(state.player2.scoreZone)
      ensures state.deck == AfterDraw(old(state.deck))
      ensures var p, q := old(state.GetCurrentPlayer()), old(state.GetOpponentPlayer());
              p.hand == old(p.hand) + Top(old(state.deck)) && q.hand == old(q.hand)
    {
      var player := state.GetCurrentPlayer();
      var card := state.DrawCard(player);
    }

    /** Deals `initialCards` rounds, one card to player 1 then one to player 2
        each round, while the deck lasts. */
    method DealPhase(initialCards: int := 5)
      requires state.Valid()
      modifies state, state.player1, state.player2
      ensures state.Valid()
      ensures state.player1 == old(state.player1) && state.player2 == old(state.player2)
      ensures state.currentPlayerId == old(state.currentPlayerId) && state.roundCount == old(state.roundCount)
      ensures state.discardPile == old(state.discardPile)
      ensures state.player1.scoreZone == old(state.player1.scoreZone)
      ensures state.player2.scoreZone == old(state.player2.scoreZone)
      ensures var d := DealtCount(|old(state.deck)|, initialCards);
              && state.deck == old(state.deck)[d..]
              && state.player1.hand == old(state.player1.hand) + Evens(old(state.deck)[..d])
              && state.player2.hand == old(state.player2.hand) + Odds(old(state.deck)[..d])
      ensures state.AllCards() == old(state.AllCards())
    {
      ghost var deck0 := state.deck;
      ghost var k := |deck0|;
      var i := 0;
      while i < initialCards
        invariant 0 <= i && (i <= initialCards || i == 0)
        invariant state.Valid()
        invariant state.player1 == old(state.player1) && state.player2 == old(state.player2)
        invariant state.currentPlayerId == old(state.currentPlayerId) && state.roundCount == old(state.roundCount)
        invariant state.discardPile == old(state.discardPile)
        invariant state.player1.scoreZone == old(state.player1.scoreZone)
        invariant state.player2.scoreZone == old(state.player2.scoreZone)
        invariant state.deck == deck0[DealtCount(k, i)..]
        invariant state.player1.hand == old(state.player1.hand) + Evens(deck0[..DealtCount(k, i)])
        invariant state.player2.hand == old(state.player2.hand) + Odds(deck0[..DealtCount(k, i)])
      {
        ghost var rest, hand1, hand2 := state.deck, state.player1.hand, state.player2.hand;
        var c1 := state.DrawCard(state.player1);
        assert state.deck == AfterDraw(rest) && state.player1.hand == hand1 + Top(rest);
        var c2 := state.DrawCard(state.player2);
        assert state.deck == AfterDraw(AfterDraw(rest)) && state.player2.hand == hand2 + Top(AfterDraw(rest));
        DealRound(deck0, i, old(state.player1.hand), old(state.player2.hand));
        i := i + 1;
      }
      assert DealtCount(k, i) == DealtCount(k, initialCards);
      DealKeepsCards(deck0, i, state.discardPile, old(state.player1.hand), old(state.player2.hand),
                     state.player1.scoreZone, state.player2.scoreZone);
    }

    /** Settles one card. The verdicts are the judge's on `defender`'s
        explanation; `attacker` is the player who scores it. A wrong meaning
        discards the card; a right meaning scores it; when the story is right
        too the card's effects run on a fresh count snapshot, whose result
        (`effectResult`) is not used. */
    method HandleResolution(attacker: Player, defender: Player, card: Card)
      returns (ghost effectResult: Option<ZoneCounts>)
      requires state.Valid()
      modifies state, attacker
      ensures state.Valid()
      ensures state.player1 == old(state.player1) && state.player2 == old(state.player2)
      ensures state.currentPlayerId == old(state.currentPlayerId) && state.roundCount == old(state.roundCount)
      ensures state.deck == old(state.deck)
      ensures state.player1.hand == old(state.player1.hand) && state.player2.hand == old(state.player2.hand)
      ensures var meaningOk := judge.judgeMeaning(card, defender.playerId);
              var storyOk := judge.judgeStory(card, defender.playerId);
              && state.discardPile == old(state.discardPile) + DiscardedPart(card, meaningOk)
              && attacker.scoreZone == old(attacker.scoreZone) + ScoredPart(card, meaningOk)
              && (effectResult.Some? <==> Resolve(meaningOk, storyOk) == ScoredWithEffects)
              && (effectResult.Some? ==> effectResult.value == state.GetZoneCounts())
      ensures attacker != state.player1 ==> state.player1.scoreZone == old(state.player1.scoreZone)
      ensures attacker != state.player2 ==> state.player2.scoreZone == old(state.player2.scoreZone)
    {
      if !judge.judgeMeaning(card, defender.playerId) {
        state.MoveToDiscard(card);
        effectResult := None;
        return;
      }
      if !judge.judgeStory(card, defender.playerId) {
        attacker.AddToScoreZone(card);
        effectResult := None;
        return;
      }
      attacker.AddToScoreZone(card);
      var counts := state.GetZoneCounts();
      var updatedState := ExecuteEffects(card, counts);
      effectResult := Some(updatedState);
    }

    /** The current player attacks with `mainCard`, judged on the opponent.
        A response card is then settled for the opponent, judged on the
        current player, and ends the phase; otherwise a combo card is settled
        like the main card. */
    method ActionPhase(mainCard: Card, responseCard: Option<Card>, comboCard: Option<Card>)
      requires state.Valid()
      modifies state, state.player1, state.player2
      ensures state.Valid()
      ensures state.player1 == old(state.player1) && state.player2 == old(state.player2)
      ensures state.currentPlayerId == old(state.currentPlayerId) && state.roundCount == old(state.roundCount)
      ensures state.deck == old(state.deck)
      ensures state.player1.hand == old(state.player1.hand) && state.player2.hand == old(state.player2.hand)
      ensures var a, d := old(state.GetCurrentPlayer()), old(state.GetOpponentPlayer());
              var mainOk := judge.judgeMeaning(mainCard, d.playerId);
              var secondOk := SecondOk(judge, responseCard, comboCard, a.playerId, d.playerId);
              && state.discardPile == old(state.discardPile)
                   + TurnDiscards(mainCard, mainOk, responseCard, comboCard, secondOk)
              && a.scoreZone == old(a.scoreZone) + AttackerScores(mainCard, mainOk, responseCard, comboCard, secondOk)
              && d.scoreZone == old(d.scoreZone) + DefenderScores(responseCard, secondOk)
    {
      var attacker := state.GetCurrentPlayer();
      var defender := state.GetOpponentPlayer();
      ghost var a, d := attacker.playerId, defender.playerId;
      ghost var discard0, attackerScore0, defenderScore0 := state.discardPile, attacker.scoreZone, defender.scoreZone;
      ghost var effects := HandleResolution(attacker, defender, mainCard);
      ghost var mainOk := judge.judgeMeaning(mainCard, d);
      assert state.discardPile == discard0 + DiscardedPart(mainCard, mainOk);
      assert attacker.scoreZone == attackerScore0 + ScoredPart(mainCard, mainOk);
      assert defender.scoreZone == defenderScore0;
      if responseCard.Some? {
        // a counter attempt ends the phase, whatever its verdict
        var r := responseCard.value;
        ghost var discard1, attackerScore1 := state.discardPile, attacker.scoreZone;
        effects := HandleResolution(defender, attacker, r);
        assert state.discardPile == discard1 + DiscardedPart(r, judge.judgeMeaning(r, a));
        assert attacker.scoreZone == attackerScore1;
      } else if comboCard.Some? {
        var c := comboCard.value;
        ghost var discard1, attackerScore1 := state.discardPile, attacker.scoreZone;
        effects := HandleResolution(attacker, defender, c);
        assert state.discardPile == discard1 + DiscardedPart(c, judge.judgeMeaning(c, d));
        assert attacker.scoreZone == attackerScore1 + ScoredPart(c, judge.judgeMeaning(c, d));
        assert defender.scoreZone == defenderScore0;
      }
    }

    /** When the game is over, names the winner; otherwise None. */
    method CheckEndConditions() returns (winner: Option<string>)
      ensures winner.Some? <==> state.IsGameOver()
      ensures winner.Some? ==>
                winner.value == Winner(state.player1.ScoreCount(), state.player2.ScoreCount(),
                                       state.player1.HandCount(), state.player2.HandCount(),
                                       state.currentPlayerId)
    {
      if !state.IsGameOver() {
        return None;
      }
      var p1Score := state.player1.ScoreCount();
      var p2Score := state.player2.ScoreCount();
      var w: string;
      if p1Score > p2Score {
        w := Player1Id;
      } else if p2Score > p1Score {
        w := Player2Id;
      } else {
        var p1Hand := state.player1.HandCount();
        var p2Hand := state.player2.HandCount();
        if p1Hand > p2Hand {
          w := Player1Id;
        } else if p2Hand > p1Hand {
          w := Player2Id;
        } else {
          w := if state.currentPlayerId == Player1Id then Player2Id else Player1Id;
        }
      }
      winner := Some(w);
    }

    /** One whole turn: prepare, act, check for the end (the winner, if any,
        is decided while the turn owner is still the one who played), then
        always switch the turn. */
    method RunOneTurn(mainCard: Card, responseCard: Option<Card>, comboCard: Option<Card>)
      returns (winner: Option<string>)
      requires state.Valid()
      modifies state, state.player1, state.player2
      ensures state.Valid()
      ensures state.player1 == old(state.player1) && state.player2 == old(state.player2)
      ensures state.currentPlayerId == OtherId(old(state.currentPlayerId))
      ensures state.roundCount == old(state.roundCount) + 1
      ensures state.deck == AfterDraw(old(state.deck))
      ensures var p, q := old(state.GetCurrentPlayer()), old(state.GetOpponentPlayer());
              var mainOk := judge.judgeMeaning(mainCard, q.playerId);
              var secondOk := SecondOk(judge, responseCard, comboCard, p.playerId, q.playerId);
              && p.hand == old(p.hand) + Top(old(state.deck)) && q.hand == old(q.hand)
              && state.discardPile == old(state.discardPile)
                   + TurnDiscards(mainCard, mainOk, responseCard, comboCard, secondOk)
              && p.scoreZone == old(p.scoreZone) + AttackerScores(mainCard, mainOk, responseCard, comboCard, secondOk)
              && q.scoreZone == old(q.scoreZone) + DefenderScores(responseCard, secondOk)
      ensures winner.Some? <==> state.IsGameOver()
      ensures winner.Some? ==>
                winner.value == Winner(state.player1.ScoreCount(), state.player2.ScoreCount(),
                                       state.player1.HandCount(), state.player2.HandCount(),
                                       old(state.currentPlayerId))
    {
      PreparePhase();
      ActionPhase(mainCard, responseCard, comboCard);
      winner := CheckEndConditions();
      state.SwitchTurn();
    }
  }
}
