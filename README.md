# War: the rules engine, modelled in Dafny

This project models the rules engine of a browser game of War (`script.js`). The browser
page, its timers and its random number source are not part of the model. The model covers:

- **Cards** (`Cards.dfy`). A card has a suit, a rank label and a comparison value from 2 to 14.
  Its colour is derived from the suit.
- **Deck** (`Decks.dfy`). The `Deck` class builds the 52 cards suit by suit and rank by rank. It
  shuffles them in place with Fisher–Yates and deals them into two halves. The random draw
  `Math.floor(Math.random() * (i + 1))` becomes a caller-supplied pick `js[i]` in `[0, i]`
  (predicate `Picks`). The shuffle is specified by the function `Shuffled`, which replays the
  same descending swaps.
- **Rules** (`Rules.dfy`). These are pure decisions:
  - `Compare` is the three-way comparison the end of the game makes on the two deck sizes.
    A round compares the two card values inline, as the code does.
  - `WarStake` is `min(3, n1 - 1, n2 - 1)`.
  - `StakePairs` gives the order in which staked cards join the war pile: one pair per step,
    player 1's card first.
- **Game** (`Game.dfy`). The `WarGame` class has the source's fields: both decks, both revealed
  cards, the war pile, `gameOver` and `isWar`. It adds two fields:
  - `winner`, the outcome the game-over message announces.
  - `pending`, which stands for the tracked timeouts. The source schedules the resolution of a
    round 1000 ms after the reveal, and the next round of a war 2000 ms after the stake. In the
    model these are the states `ResolveScheduled` and `WarScheduled`. The driver leaves them by
    calling `ResolveRound` or `ContinueWar`. `StartNewGame` and `EndGame` cancel whatever is
    scheduled, as `clearTrackedTimeouts` does.
  - `Valid()` is the invariant between two driver calls. A scheduled resolution has both
    cards revealed. A scheduled war continuation has both decks non-empty. A game that is idle
    and not over has both decks non-empty. A finished game has nothing scheduled and has
    announced `Compare(|deck1|, |deck2|)`. `isWar` holds exactly when the war pile is non-empty.
  - No transition creates or loses a card. `Pool(d1, d2, pile)` is the multiset of both decks
    and the war pile. Revealing a round takes exactly the two revealed cards out of the pool,
    and resolving the round puts exactly those two back (`RevealKeepsCards`,
    `ResolveKeepsCards`). A new game's pool is exactly the 52 standard cards. This holds even
    when a war ends the game for lack of cards: those cards stay in the war pile, where neither
    player's count includes them.
  - `ResolveOutcome` and `WarOutcome` state, as relations on values, what the decks and pile
    become when a round is resolved or a war is declared. The methods promise them, and the
    conservation lemmas are proved about them.
- **Scenarios** (`Scenarios.dfy`). Short games are played through the engine's contracts
  from hand-set decks: a single decisive round, a war with no reserve, and a war that stakes
  three cards a side and is decided by the next round.

Modelling choices that follow the code:

- `PlayRound` requires that nothing be scheduled. The code has no such guard. While a step is
  pending it sets the play button's `disabled` flag and adds the CSS class `is-disabled` to both
  deck areas (script.js:155-157), and undoes both when the round ends (script.js:283-285). The
  handlers bound to the deck areas (script.js:102-103, through script.js:86-96) never test that
  class. The precondition therefore assumes that this class blocks pointer input, which
  depends on a stylesheet that is not part of this model.
- `ResolveRound` and `ContinueWar` can only be called in the state that scheduled them. This is
  true of a timer callback, and the code has no guard for any other call.
- In `initiateWar`, the continuation tests whether both decks are non-empty and otherwise calls
  `endGame` (script.js:257-261). That alternative cannot occur: a positive stake leaves at
  least one card on each side. `ContinueWar` proves this; its `else` branch is `assert false`.
- Likewise, the guard inside the stake loop (script.js:246) always holds.

## Model

| member | source | states |
|---|---|---|
| Cards.ColorOf | script.js:8-10 | a card is red exactly when its suit is hearts or diamonds, and black exactly when it is spades or clubs |
| Cards.ValuesAscend | script.js:30-31 | the rank and value tables have 13 entries, and the value of the i-th rank is i + 2, so two is 2 and the ace is 14 |
| Cards.TablesDistinct | script.js:29-30 | the four suits are pairwise different, and so are the thirteen rank labels |
| Decks.StandardDeck | script.js:28-38 | the built deck has 52 cards; `StandardDeckAt` gives each one |
| Decks.StandardDeckAt | script.js:28-38 | the card at index 13*s + i of the built deck has suit s, rank i and value i + 2 |
| Decks.StandardDeckDistinct | script.js:28-38 | no two cards of the built deck share both suit and rank |
| Decks.Deck.InitializeDeck | script.js:28-38 | the nested loops append exactly the 52 standard cards, suit-major and rank-minor, after whatever the deck held |
| Decks.Swap | script.js:43 | a swap exchanges positions i and j, and leaves the length and every other position alone |
| Decks.SwapPermutes | script.js:43 | a swap keeps the multiset of the sequence |
| Decks.StandardDeckGrows | script.js:33-37 | building card (s, i) appends exactly that card to the prefix built so far |
| Decks.ShuffleDown | script.js:41-44 | the remaining swaps from index i down to 1, with pick js[k] for step k, keep the length |
| Decks.Shuffled | script.js:40-45 | the whole descending shuffle keeps the length; `ShufflePermutes` shows it is a permutation |
| Decks.ShuffleDownPermutes | script.js:41-44 | the remaining shuffle steps from index i down to 1 permute their input |
| Decks.ShufflePermutes | script.js:40-45 | for every choice of picks in [0, i], the shuffle keeps the length and yields a permutation of its input |
| Decks.Deck.Shuffle | script.js:40-45 | the descending in-place loop leaves the deck equal to `Shuffled` of the old deck, with the same length and multiset |
| Decks.Deck.constructor | script.js:22-26 | a new deck is the shuffled standard deck, and its multiset is the 52 standard cards |
| Decks.Deck.Deal | script.js:47-53 | the first half has floor(n/2) cards, and the two halves concatenated are the deck |
| Rules.Compare | script.js:308-314 | player 1 wins iff a > b, player 2 wins iff b > a, and it is a tie iff a == b |
| Rules.WarStake | script.js:238 | the stake is at most 3, n1 - 1 and n2 - 1, and equals one of them, which makes it their minimum |
| Rules.StakePairs | script.js:245-249 | staking pairs from two equal-length prefixes yields twice as many cards; the lemmas below give their order and contents |
| Rules.StakePairsAt | script.js:245-249 | the k-th staked pair is player 1's k-th card followed by player 2's k-th card |
| Rules.StakePairsSnoc | script.js:245-249 | one more staking step appends its pair, player 1's card first, after the pairs already staked |
| Rules.StakePairsCards | script.js:245-249 | the staked cards are exactly the cards taken from both sides |
| Game.WarOutcome | script.js:229-249 | after a war is declared the decks and pile hold two cards more than before (the tied pair), and a positive stake leaves both decks non-empty |
| Game.ResolveOutcome | script.js:185-227 | after a round is resolved the decks and pile hold exactly two cards more than before, whichever branch applies |
| Game.WarGame.Valid | script.js:124-318 | between driver calls, a game that is not over and not awaiting a resolution has a card in each deck, and a finished game has nothing scheduled and has announced a winner |
| Game.RevealKeepsCards | script.js:159-160 | taking the front card of each deck leaves the pool short by exactly those two cards |
| Game.WinKeepsCards | script.js:195-215 | the round winner's deck gaining the revealed pair and the war pile, with the pile emptied, puts exactly the revealed pair back into the pool |
| Game.PileKeepsCards | script.js:231 | pushing the tied pair onto the war pile adds exactly that pair to the pool |
| Game.StakeKeepsCards | script.js:245-249 | moving k front cards of each deck onto the pile in pairs leaves the pool unchanged |
| Game.WarKeepsCards | script.js:229-249 | declaring a war, with or without a positive stake, returns exactly the tied pair to the pool |
| Game.ResolveKeepsCards | script.js:185-193 | whichever way a round is resolved, exactly the two revealed cards return to the pool |
| Game.WarGame.constructor | script.js:57-70 | a new game is valid, freshly dealt, and holds exactly the 52 standard cards |
| Game.WarGame.StartNewGame | script.js:124-144 | from any state: nothing stays scheduled, the two decks are the halves (26 cards each) of the shuffled deck, the cards and war pile are cleared, the game is not over, and it holds exactly the 52 standard cards |
| Game.WarGame.PlayRound | script.js:146-168 | if the game is over or a deck is empty, the game ends with the decks and the revealed cards unchanged; otherwise exactly the front card of each deck is revealed and removed, and the resolution is scheduled; cards are conserved |
| Game.WarGame.ResolveRound | script.js:185-193 | on the higher value, that player's deck becomes old ++ [card1, card2] ++ warPile, the other deck is unchanged, the pile is emptied, and the game ends iff the loser's deck is empty; on equal values, whatever the suits, the war of InitiateWar follows; cards are conserved |
| Game.WarGame.Player1WinsRound | script.js:195-210 | player 1's deck becomes old ++ [card1, card2] ++ warPile, player 2's deck is unchanged, the pile is empty, isWar is cleared, and the game is over iff a deck is empty |
| Game.WarGame.Player2WinsRound | script.js:212-227 | symmetric: player 2's deck becomes old ++ [card1, card2] ++ warPile, and player 1's deck is unchanged |
| Game.WarGame.InitiateWar | script.js:229-263 | the tied pair joins the pile; with stake = min(3, size1 - 1, size2 - 1), from the deck sizes after the draw, <= 0 the game ends with no card popped and the pile kept; otherwise exactly `stake` front cards of each deck join the pile in pairs, player 1's first, both decks stay non-empty, and the continuation is scheduled |
| Game.WarGame.StakeCards | script.js:245-249 | the stake loop removes exactly `stake` front cards from each deck and appends them to the pile as StakePairs |
| Game.WarGame.ContinueWar | script.js:253-262 | the war continuation always reveals and removes a new front card from each deck and schedules its resolution, leaving the war pile as it was |
| Game.WarGame.EndRound | script.js:277-288 | the game ends exactly when one of the decks is empty, announcing the comparison of the deck sizes; otherwise nothing changes |
| Game.WarGame.EndGame | script.js:300-318 | the game is over with nothing scheduled, and the winner is player 1 iff deck 1 is larger, player 2 iff deck 2 is larger, and a tie otherwise; decks and pile are unchanged |
| Scenarios.AceBeatsKing | script.js:185-210 | an ace against a king with no reserve: player 1 ends with both cards, player 2 with none, and player 1 is announced |
| Scenarios.TieWithoutReserve | script.js:229-243 | two sevens with no reserve: the stake is negative, the game ends at once with both decks empty and both sevens left in the war pile, and a tie is announced |
| Scenarios.StakeThreeOfFour | script.js:238-249 | with four cards a side after the tie, the stake is 3, each side keeps its fourth card, and the pile becomes the tied pair followed by the three staked pairs |
| Scenarios.WarDecidedByAce | script.js:185-262 | two sevens with three cards in reserve and an ace against a king behind them: player 1 ends with all ten cards, the deciding pair first and then the war pile in stake order, player 2 with none, and player 1 is announced |

## Left out

- PlayRound: out-of-turn calls are excluded by its precondition and not modelled. If a deck
  area accepts input while a resolution is pending, a second `playRound` in the 1000 ms window
  (script.js:159-160, 165-167) overwrites `player1Card` and `player2Card`, so the first pair
  leaves the decks for good. It also schedules a second `resolveRound`, which credits the
  second pair twice.
- Rendering is left out: `getDisplay`, `initializeElements`, `displayCard`, `displayWarCards`
  (including its display cap of 8 face-down cards), `clearCards`, `updateDisplay`, CSS class
  changes and message texts. They are presentation only. The announced outcome is kept as the
  field `winner`.
- Event wiring is left out: `addActivateListener`, `initializeEventListeners` and the
  `DOMContentLoaded` handler. They are browser input. The blocking of play that they are
  assumed to give while a step is pending is `PlayRound`'s precondition (see the first line).
- Real timers and their delays are left out: `setTrackedTimeout`, `clearTrackedTimeouts`,
  1000 ms, 2000 ms, and the cosmetic 500 ms and 600 ms animations. They are asynchronous
  scheduling, replaced by the `pending` field and the methods that consume it.
- `Math.random` is left out. The shuffle takes the picks as a parameter. Uniformity over
  permutations is a statistical property and is not modelled.
- An injectable scheduler with cancellation handles is not modelled. The source has none.
