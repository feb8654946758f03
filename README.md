# Idiom card game engine: a verified model

This project models the game engine of a two-player, turn-based idiom card
game. Each card carries an idiom: its meaning, its story, a kind (normal,
counter, combo) and a list of effect chains. A played card is settled by a
judge's two verdicts on the judged player's explanation:

- a wrong meaning sends the card to the discard pile;
- a right meaning scores it;
- a right story as well also runs its effects.

The model covers four parts of the engine:

- **Effect interpreter** (`cards.dfy`, module `Cards`).
  - Conditions compare two operands: integer literals, or zone counts looked up in a count map (a missing key reads as 0).
  - Actions are the interface stub of the source: they return the map unchanged.
  - An effect chain runs on a copy of the map and stops at the first false condition.
  - A card runs all its chains in order.
  - `ExecuteChain` and `ExecuteEffects` are the loops of the source. They are proved against the recursive specifications `RunChain` and `RunEffects`.
- **Player** (`players.dfy`, module `Players`). A class with a hand and a score zone, both `seq<Card>` fields updated in place:
  - append to either;
  - remove the first hand card with a given id (a search loop);
  - filtered views by kind, the id list and the counts.
- **Game state** (`game_states.dfy`, module `GameStates`). A class with the deck (top at index 0), the discard pile, the two players, the id of the player to move and the round counter. Its operations:
  - draw, discard, turn switch, reset and shuffle;
  - the game-over test;
  - the six-key zone-count snapshot.
- **Turn engine** (`rules.dfy`, module `Rules`). The `GameRoundManager` class:
  - the prepare phase: the current player draws;
  - the deal phase: alternate draws, player 1 first;
  - the settling of one card;
  - the action phase: the main card, then a response card, or else a combo card;
  - the end check with its winner rule;
  - a whole turn, which always ends by handing the turn over.

Card conservation is proved about all six zones together, as a multiset:

- A settled card lands in exactly one zone (`LandsInOneZone`).
- A turn's discards and score-zone additions are exactly the settled cards (`TurnConservation`).
- A whole turn's zones hold the old cards plus the settled ones (`TurnKeepsCards`). This applies to the per-zone contents that `RunOneTurn` guarantees.
- Dealing keeps the total (`DealPhase`, `DealKeepsCards`).

The judge is modelled as the datatype `Judge`, a pair of functions. Each takes a card and the judged player's id and returns a verdict. `AutoJudge` is the automatic mode, which accepts everything.

Roles follow the code:

- The main and combo cards are judged on the opponent, and the current player scores them.
- A response card is judged on the current player, and the opponent scores it.
- A response card ends the action phase whatever its verdict, so a combo card is then never settled.

Behaviour of the code worth noting, which the model reproduces:

- Actions are a stub (game/card.py:77-80) and move no cards. A chain or a card returns a map equal to its input (`RunChainIdentity`, `RunEffectsIdentity`).
- On a response card the code judges the *current* player. `handle_resolution` is called with the two players swapped (game/rules.py:56), and the verdict is asked about its `defender` parameter (game/rules.py:86).
- The comment at game/rules.py:59 says a combo needs a successful main card. The code settles the combo whenever no response card was given, whatever the main card's verdict.

## Model

| member | source | states |
|---|---|---|
| Cards.KeyInjective | game/card.py:16-22 | the six zones have six distinct count-map keys ("deck", "player1", "player2", "score1", "score2", "discard") |
| Cards.NewCard | game/card.py:111-115 | an absent effect list becomes the empty list; a given one is kept |
| Cards.ExactlyOneKind | game/card.py:117-124 | every card satisfies exactly one of the normal, counter and combo tests |
| Cards.Card.IsNormalCard | game/card.py:117-118 | definition; `ExactlyOneKind` proves the three kind tests partition the cards |
| Cards.Card.HasCounterEffect | game/card.py:120-121 | definition; see `ExactlyOneKind` |
| Cards.Card.HasComboEffect | game/card.py:123-124 | definition; see `ExactlyOneKind` |
| Cards.Evaluate | game/card.py:50-62 | definition; `GameStates.ConditionOnSnapshot` proves that on a zone-count snapshot it compares the live zone sizes and literals, and `OperatorDualities` relates the operators |
| Cards.OperatorDualities | game/card.py:55-61 | != is the negation of =, >= of <, <= of >; > and >= are the converses of < and <= |
| Cards.GetValue | game/card.py:64-67 | definition; `GameStates.ZoneCountsResolve` proves that on a snapshot a zone operand reads that zone's current size |
| Cards.ExecuteAction | game/card.py:77-80 | definition (the identity stub); `RunChainIdentity` and `RunEffectsIdentity` state what follows from it |
| Cards.ShortCircuit | game/card.py:90-93 | when step i of a chain is a false condition, at most i + 1 steps are processed: nothing after it runs |
| Cards.StopsOnlyAtFalse | game/card.py:87-96 | a chain is processed to its end, or up to and including a false condition |
| Cards.RunChainIdentity | game/card.py:77-96 | since every action returns its input, a chain returns a map equal to its input whatever its conditions evaluate to |
| Cards.ExecuteChain | game/card.py:87-96 | the loop with its break computes the chain's specified result and processes exactly the specified number of steps; the result equals the input map |
| Cards.RunEffectsIdentity | game/card.py:126-130 | running all of a card's chains returns a map equal to the input |
| Cards.NoEffectsKeepState | game/card.py:111-130 | a card built without effects returns its input map |
| Cards.ExecuteEffects | game/card.py:126-130 | the loop over the chains computes the specified result, each chain on the previous one's output, and returns a map equal to its input |
| Players.OfTypeMembers | game/player.py:47-57 | a card is in a kind's view iff it is in the hand and of that kind |
| Players.OfTypeAppend | game/player.py:47-57 | the view of a concatenation is the concatenation of the views, so views keep hand order |
| Players.AnyIffViewNonEmpty | game/player.py:39-53 | the "has a card of kind t" test holds iff the view of kind t is non-empty |
| Players.ViewsPartition | game/player.py:47-57 | the counter, combo and normal views together hold every hand card exactly as often as the hand does, and their lengths sum to the hand's |
| Players.Player.HasCounterCard | game/player.py:39-41 | definition; `PlayerViews` proves it holds iff the counter view is non-empty |
| Players.Player.HasComboCard | game/player.py:43-45 | definition; `PlayerViews` proves it holds iff the combo view is non-empty |
| Players.Player.GetCounterCards | game/player.py:47-49 | definition; `OfTypeMembers`, `OfTypeAppend` and `ViewsPartition` state its contents and order |
| Players.Player.GetComboCards | game/player.py:51-53 | definition; see `GetCounterCards` |
| Players.Player.GetNormalCards | game/player.py:55-57 | definition; see `GetCounterCards` |
| Players.Player.GetHandCardIds | game/player.py:59-61 | definition through `Ids`, whose contract states one id per hand card in order |
| Players.Player.ScoreCount | game/player.py:63-65 | definition: the score zone's length |
| Players.Player.HandCount | game/player.py:67-69 | definition: the hand's length; `PlayerViews` proves the view lengths sum to it |
| Players.Ids | game/player.py:59-61 | the id list has the hand's length and lists the ids in hand order |
| Players.FirstIndex | game/player.py:18-26 | None iff no card has the id; otherwise the index of a card with that id before which none has it |
| Players.RemoveAt | game/player.py:23-25 | removing one entry shortens the list by one and removes exactly that card from its multiset |
| Players.Player.constructor | game/player.py:7-12 | a new player has its id and an empty hand and score zone |
| Players.Player.DrawCard | game/player.py:14-16 | the card is appended to the hand; the score zone is unchanged |
| Players.Player.PlayCard | game/player.py:18-26 | the first hand card with the id is removed and returned, and the others keep their order; with no such card, None and no change; the score zone is unchanged |
| Players.Player.AddToScoreZone | game/player.py:28-30 | the card is appended to the score zone; the hand is unchanged |
| Players.Player.DiscardCard | game/player.py:32-37 | exactly the effect and result of playing the card |
| Players.PlayerViews | game/player.py:39-69 | the tests agree with the views, the three views' lengths sum to the hand count, and the id list has one id per hand card |
| GameStates.DrawKeepsCards | game/game_state.py:45-51 | a draw removes at most the top card from the deck and adds exactly it to the hand, so the six zones keep the same cards |
| GameStates.GameState.constructor | game/game_state.py:9-17 | a new state has the given deck, an empty discard pile, two fresh empty players, player 1 to move and round 1 |
| GameStates.GameState.SwitchTurn | game/game_state.py:40-43 | the player to move becomes the other one and the round counter rises by exactly 1; current and opponent swap; the zones are untouched |
| GameStates.GameState.DrawCard | game/game_state.py:45-51 | on an empty deck, None and no change; otherwise the top card leaves the deck, is appended to that player's hand and is returned; no other zone changes |
| GameStates.GameState.MoveToDiscard | game/game_state.py:53-55 | the card is appended to the discard pile and nothing else changes; all cards gain exactly that card |
| GameStates.GameState.ShuffleDeck | game/game_state.py:76-78 | the deck becomes the chosen permutation of itself; nothing else changes |
| GameStates.GameState.Reset | game/game_state.py:19-32 | empty discard pile, two fresh empty players, player 1 to move, round 1, and a deck that is a permutation of the supplied deck, or of the kept one |
| GameStates.GameState.GetCurrentPlayer | game/game_state.py:34-35 | definition; see `CurrentAndOpponent` |
| GameStates.GameState.GetOpponentPlayer | game/game_state.py:37-38 | definition; see `CurrentAndOpponent` |
| GameStates.GameState.IsGameOver | game/game_state.py:57-63 | definition; `GameOverCases` reads it through the snapshot |
| GameStates.GameState.GetZoneCounts | game/game_state.py:65-74 | definition; `ZoneCountsResolve` and `ConditionOnSnapshot` state what conditions read from it |
| GameStates.ConditionOnSnapshot | game/card.py:50-67 | a condition evaluated on the zone-count snapshot holds iff its operator's comparison holds of the live values of its operands: a literal, or the current size of the named zone |
| GameStates.CurrentAndOpponent | game/game_state.py:34-38 | the current and opposing players differ, are the two players together, and the current one carries the id of the player to move |
| GameStates.ZoneCountsResolve | game/game_state.py:65-74 | the snapshot has exactly the six zone keys, and a condition naming a zone reads that zone's current size |
| GameStates.AllCardsAreTheZones | game/game_state.py:12-17 | all cards in play are the six zones' cards taken together |
| GameStates.AllCardsByTurn | game/game_state.py:34-38 | all cards can be counted from the side of the player to move, whichever player that is |
| GameStates.GameOverCases | game/game_state.py:57-63 | the game is over iff a score zone reached the limit or the deck is empty, read through the count snapshot; an empty deck always ends it |
| Rules.ResolveOutcomes | game/rules.py:86-99 | discard iff the meaning is wrong; score with effects iff both verdicts are right; score only iff the meaning is right and the story wrong |
| Rules.LandsInOneZone | game/rules.py:86-97 | a settled card lands in exactly one of the discard pile and the scoring player's score zone |
| Rules.CounterSuppressesCombo | game/rules.py:54-62 | with a response card, the settled cards are the main and the response card only; the combo card is settled only without a response card; at most two cards per turn |
| Rules.Winner | game/rules.py:122-138 | definition; `WinnerOrder` and `WinnerSymmetric` state its order and symmetry |
| Rules.WinnerOrder | game/rules.py:122-138 | the winner is one of the two players, and player 1 wins iff it leads in (score, hand size, not being the player to move), compared in that order |
| Rules.WinnerSymmetric | game/rules.py:122-138 | exchanging the two players' numbers and the player to move exchanges the winner |
| Rules.EvensOddsSnoc | game/rules.py:68-70 | a card dealt at an even position goes to player 1's share, one at an odd position to player 2's |
| Rules.EvensOddsSplit | game/rules.py:68-70 | the two shares together are the dealt cards, player 1 getting the extra card of an odd count |
| Rules.DealRound | game/rules.py:68-70 | one deal round takes the deck's next one or two cards, one to each hand in turn, continuing the alternating split |
| Rules.DealKeepsCards | game/rules.py:64-70 | dealing only moves cards from the deck into the two hands |
| Rules.TurnConservation | game/rules.py:47-62 | the cards a turn adds to the discard pile and the two score zones are exactly the settled cards |
| Rules.ActionKeepsCards | game/rules.py:40-62 | after an action phase the zones hold the old cards plus exactly the settled cards |
| Rules.TurnKeepsCards | game/rules.py:19-32 | after a whole turn (draw, then settling) the zones hold the old cards plus exactly the settled cards |
| Rules.GameRoundManager.constructor | game/rules.py:11-14 | a new game on the given cards with the given judge, in the initial state |
| Rules.GameRoundManager.InitializeGameState | game/rules.py:16-17 | the deck becomes the chosen permutation of itself |
| Rules.GameRoundManager.PreparePhase | game/rules.py:34-37 | the player to move draws the deck's top card, if any; the opponent's hand and every score zone and the discard pile are unchanged |
| Rules.GameRoundManager.DealPhase | game/rules.py:64-70 | n rounds, while cards last, deal the deck's front cards alternately to player 1 and player 2; all cards are kept |
| Rules.GameRoundManager.HandleResolution | game/rules.py:75-101 | verdicts are asked about the judged player; a wrong meaning discards the card; a right one scores it for the scoring player; effects run on a fresh snapshot iff both verdicts are right; no hand or deck changes |
| Rules.GameRoundManager.ActionPhase | game/rules.py:40-62 | the discard pile and both score zones change by exactly the main card's settlement followed by the response card's (judged on the current player, scored for the opponent) or else the combo card's |
| Rules.GameRoundManager.CheckEndConditions | game/rules.py:115-140 | a winner exactly when the game is over, chosen by score, then hand size, then the player not to move |
| Rules.GameRoundManager.RunOneTurn | game/rules.py:19-32 | the turn always flips the player to move and adds exactly 1 to the round counter; the zones change as the prepare and action phases state; the winner is decided before the switch |

## Left out

- The judge's manual mode is left out. It reads free text and compares it with a floating-point similarity ratio. A judge here is any pair of verdict functions, and `AutoJudge` is the automatic mode.
- The judge's unknown-mode configuration error is left out.
- The judge gives one verdict per card and judged player. A human judge could answer differently when the same card is judged twice on the same player in one turn.
- The random shuffle is a `shuffled` parameter, required to be a permutation of the deck.
- Loading the card data is a parameter of the constructor: the given card list.
- Printing is left out. The winner that `check_end_conditions` prints is returned as `Option<string>` instead.
- The display helpers are left out: `__str__`, `__repr__`, `summary` and `to_dict`.
- The `create_*` construction helpers (game/card.py:148-162) are left out. They only call the constructors.
- The unused `is_counter` argument of `handle_resolution` is left out.
- `handle_resolution` takes the zone-count snapshot twice and ignores the first one. The model takes it once.
- The effects' result map is computed and discarded, as in the source.
- The unreachable `return False` after the operator match (game/card.py:62) is left out. The operator is an enumeration.
- Operands of other dynamic types are left out.
- The web server, the browser code and the terminal driver are not part of this model.
- GameStates.GameState.DrawCard: states the new deck and hand exactly, but not the all-cards multiset equality as a postcondition. `DrawKeepsCards` proves it about those contents. Carrying the multiset through every caller made the deal and turn proofs too costly.
- Rules.GameRoundManager.PreparePhase: the all-cards multiset equality is proved by `DrawKeepsCards` about the contents it states, not as a postcondition.
- Rules.GameRoundManager.ActionPhase: card conservation is proved by `ActionKeepsCards` about the per-zone contents it states, not as a multiset postcondition.
- Rules.GameRoundManager.RunOneTurn: card conservation is proved by `TurnKeepsCards` about the per-zone contents it states, not as a multiset postcondition.
- Rules.GameRoundManager.HandleResolution: its effect result is a ghost out-parameter, since the source never uses it.
- `Valid()` means two distinct players carrying the ids "player1" and "player2", and one of them to move. `SwitchTurn`, `DrawCard`, `PreparePhase`, `DealPhase`, `HandleResolution`, `ActionPhase` and `RunOneTurn` require it and ensure it again. The constructors and `Reset` establish it. `MoveToDiscard`, `ShuffleDeck` and `InitializeGameState` do not require it but keep it when it held. `CheckEndConditions` changes nothing.
