# Casino rules engine — a Dafny model

This project models the game rules of a small browser casino: a shared
balance kept by the game manager, and the games played against it.
Blackjack, roulette and slots stake from that balance and credit their
wins to it. Uno stakes nothing and only credits 50 when the player wins.
The older standalone slot machine keeps a balance of its own.

- **Game manager (`GameManager.Ledger`).** The shared balance, starting at
  1000, and the screen currently shown.
- **Blackjack (`Blackjack`).** Each `deal` builds and shuffles a fresh 52-card
  deck and gives two cards to each side. `calculateHandValue` counts aces
  as 11 and demotes them to 1 while the hand is over 21. In `hit` a bust
  ends the round, and in `stand` the dealer draws while below 17.
  `checkWinner` then credits twice the bet, the bet, or nothing.
- **Roulette (`Roulette`).** A single-zero wheel of 37 pockets and five bets:
  red, black, zero, 1–18 and 19–36. A spin pays 36 times the bet on zero
  and 2 times on the others.
- **Slots (`Slots`, on the shared balance; `StandaloneSlots`, the older page
  with its own balance).** Three reels drawn with weights 0.25, 0.20,
  0.15, 0.12, 0.10, 0.08, 0.10. Three of a kind pays the table's
  multiplier. The rules the two machines share are in `SlotRules`.
- **Uno (`UnoCards`, `Uno`).** The 108-card deck is built in a fixed order,
  shuffled, and seven cards are dealt to each of the player and the bot.
  The first non-wild card is turned up. Then come the player's play, draw
  and colour choice, and the bot's turn.

Every source of randomness is a parameter:
- the Fisher–Yates shuffle takes the index drawn at step `i` as `picks[i]`
  (with `picks[i] <= i`), so a shuffle is the function `Piles.Shuffled`
  of the deck and the picks;
- the roulette pocket is an `index` below 37;
- each slot reel's `Math.random()` is a real `draw`;
- the colour the bot picks for a wild is a `colorPick` below 4.

The `async` spins are split in two. `StartSpin` runs up to the animation
and `FinishSpin` is the continuation after it. `Spin` composes them. The
dealer's `await`-paced loop in blackjack's `stand` is one loop. Uno's
`opponentTurn`, which the source schedules on a timer, is a method the
caller invokes next.

Modelled as the source behaves, including where it looks unintended:
- A wild the player plays leaves the hand but is never put on the discard
  pile. `selectWildColor` then paints the chosen colour on the card that
  was already on top.
- `handleActionCard` always makes the bot draw for a draw-two, even when
  the bot played it.
- Skip and reverse only show a message: the turn passes as for any other card.
- Refilling an empty draw pile keeps the top discard and turns the other
  discards into the draw pile in the order they lie. The shuffle in that
  branch runs on the (empty) `deck`, not on the new draw pile.
- `setupGame` pushes the first card onto `discardPile` without clearing it.
- A finished blackjack round returns to betting only through `resetGame`,
  which `init` calls when the game's screen is entered again. Until then
  `deal` is ignored.
- Bet buttons accept a new bet during a round or a spin, and each payout
  is computed from `currentBet` at the moment the round is settled.

## Model

| member | source | states |
|---|---|---|
| GameManager.Ledger.constructor | gameManager.js:2-4 | the balance starts at 1000 and the current screen is the world map |
| GameManager.Ledger.AddBalance | gameManager.js:116-119 | the amount is added unconditionally |
| GameManager.Ledger.DeductBalance | gameManager.js:121-128 | succeeds exactly when the balance covers the amount; on success the balance drops by the amount, on failure it is unchanged; a non-negative balance never goes negative |
| GameManager.Ledger.GetBalance | gameManager.js:130-132 | returns the current balance and changes nothing |
| GameManager.Ledger.SwitchToGame | gameManager.js:58-76 | the current game becomes the named one exactly when its screen exists, otherwise stays as it was |
| GameManager.Ledger.ReturnToWorld | gameManager.js:78-101 | the current game becomes the world map exactly when its screen exists |
| GameManager.DeductAll | gameManager.js:121-132 | deducting the whole balance read by `getBalance` always succeeds and leaves exactly zero |
| Piles.Swap | blackjack.js:91 | the destructuring swap exchanges the two positions and leaves every other position alone |
| Piles.StepsPermutes | blackjack.js:89-92 | any run of the shuffle loop's steps keeps the length and the multiset of cards |
| Piles.ShuffledPermutes | uno.js:150-155 | a whole shuffle is a permutation: no card added, lost or duplicated |
| Piles.FisherYates | blackjack.js:88-92 | the in-place loop leaves the array equal to `Shuffled` of its old contents and a permutation of them |
| Blackjack.RanksInOrder | blackjack.js:79 | the values list holds face value `i + 1` at position `i` |
| Blackjack.PushAllCards | blackjack.js:80-86 | the nested suit/value loops push exactly the ordered deck, card `k` being suit `k / 13`, value `k % 13 + 1`, coloured by its suit |
| Blackjack.OrderedDeckComposition | blackjack.js:82-86 | the built deck holds every card whose colour matches its suit exactly once, and nothing else |
| Blackjack.FullDeckSize | blackjack.js:82-86 | any collection with that composition has 52 cards |
| Blackjack.CreateDeck | blackjack.js:77-95 | the result is the ordered deck shuffled with the picks; it has 52 cards and the full-deck composition |
| Blackjack.DemotionIsHandValue | blackjack.js:124-145 | counting every ace as 11 and then taking 10 off per ace while over 21 gives the blackjack total |
| Blackjack.HandValueIsBest | blackjack.js:124-145 | the total is the all-ones total or ten more (only with an ace), is only over 21 when the all-ones total is, and is the largest total at most 21 over every choice of aces counted as 11 |
| Blackjack.HandValueBounds | blackjack.js:124-145 | a hand scores at least one per card; a hand whose all-ones total is at most 21 is not bust; no hand of at most two cards is bust |
| Blackjack.TwoCardsNotBust | blackjack.js:106 | the two cards dealt to the player never bust |
| Blackjack.CalculateHandValue | blackjack.js:124-145 | the counting loop and the demotion loop return the blackjack total of the hand |
| Blackjack.Settlement | blackjack.js:182-199 | the credit is nothing, the bet or twice the bet, and nothing on a player bust |
| Blackjack.SettlementNet | blackjack.js:182-199 | against the stake deducted at the deal a round nets +bet, 0 or -bet: +bet exactly when the player is at most 21 and the dealer busts or is beaten, 0 exactly on a tie without a bust |
| Blackjack.SettlementMonotone | blackjack.js:182-199 | a higher player score at most 21 never settles for less |
| Blackjack.DealCount | blackjack.js:106-107 | dealing the top four cards neither adds nor loses a card, and the rest of the deck is what lay below them |
| Blackjack.DrawExtends | blackjack.js:170-175 | one more pop into a dealer hand below 17 extends the record of the dealer's draws |
| Blackjack.DealKeepsFull | blackjack.js:105-107 | dealing the top two cards to the player and the next two to the dealer from a full deck leaves a full set among the deck and the hands, and the player is not bust |
| Blackjack.DeckNotEmpty | blackjack.js:115-117 | while the hands hold fewer than 52 cards of a full set, the deck still has a card to pop |
| Blackjack.PlayerTakeKeepsFull | blackjack.js:150 | moving the popped card to the player's hand keeps the full set |
| Blackjack.DealerTakeKeepsFull | blackjack.js:172 | moving the popped card to a dealer hand below 17 keeps the full set and extends the record of the dealer's draws |
| Blackjack.BlackjackGame.constructor | blackjack.js:2-15 | a bet of 10, no cards, the betting phase |
| Blackjack.BlackjackGame.ResetGame | blackjack.js:17-25 | empty hands, zero scores, back to betting; the deck and the bet are kept |
| Blackjack.BlackjackGame.SelectBet | blackjack.js:27-41 | the bet is taken exactly when the balance covers it, otherwise the old bet stays |
| Blackjack.BlackjackGame.DrawCard | blackjack.js:115-117 | returns the last card of the deck and removes it |
| Blackjack.BlackjackGame.CalculateScores | blackjack.js:119-122 | both scores are the blackjack totals of their hands |
| Blackjack.BlackjackGame.Deal | blackjack.js:97-113 | ignored outside betting; refused without change when the bet exceeds the balance; otherwise the bet is deducted, the player holds the top two cards of the shuffled deck, the dealer the next two, the rest is the deck, play begins, and no card is added or lost |
| Blackjack.BlackjackGame.StartRound | blackjack.js:104-109 | deducts the covered bet, builds the shuffled deck and deals the two hands from its top |
| Blackjack.BlackjackGame.DealFour | blackjack.js:106-107 | the player takes the top two cards, the dealer the next two, in pop order |
| Blackjack.BlackjackGame.DealHands | blackjack.js:105-109 | dealing from a full deck starts play with the invariant: scores match the hands, a full set of cards, two dealer cards, player not bust |
| Blackjack.BlackjackGame.Hit | blackjack.js:147-160 | ignored outside play; otherwise the top card joins the player's hand, the dealer's hand is untouched, and the round finishes exactly on a bust |
| Blackjack.BlackjackGame.PlayerDraws | blackjack.js:150-151 | the deck was not empty; the top card moves to the player's hand; the full set and the scores are kept |
| Blackjack.BlackjackGame.Stand | blackjack.js:162-180 | ignored outside play; otherwise the dealer ends at 17 or more, every card the dealer drew came from the top of the deck in pop order while below 17, the round finishes and the balance gains the settlement |
| Blackjack.BlackjackGame.DealerDraws | blackjack.js:170-175 | the loop ends with the dealer at 17 or more, the player's hand and score untouched, and the draws recorded |
| Blackjack.BlackjackGame.DealerHit | blackjack.js:172-173 | one pass of the loop keeps the invariant and shrinks the deck |
| Blackjack.BlackjackGame.DealerTakes | blackjack.js:172 | one pop into the dealer's hand keeps the full set, extends the record of draws and shrinks the deck |
| Blackjack.BlackjackGame.CheckWinner | blackjack.js:182-199 | the balance gains exactly the settlement for the scores and the current bet |
| Roulette.WheelIsOneToOne | roulette.js:6-20 | the wheel has 37 pockets and holds every number 0..36 exactly once |
| Roulette.WheelColors | roulette.js:6-20 | only 0 is green; a pocket is red exactly when its number is one of the eighteen red numbers, black otherwise |
| Roulette.PocketAt | roulette.js:6-20 | the pocket at each index has a number at most 36, is green exactly for 0, and its number leads back to that index |
| Roulette.GetRandomNumber | roulette.js:158-160 | the pocket drawn has a number at most 36, green exactly for 0, and different indices draw different numbers |
| Roulette.CalculateWin | roulette.js:162-181 | no selection pays nothing; a win is 0, 2 times or 36 times the bet; 36 times only for the zero bet on 0 |
| Roulette.CalculateWinPaysCoveredNumbers | roulette.js:162-181 | on every pocket each option pays its odds exactly when it covers the number, nothing otherwise |
| Roulette.ZeroPaysOnlyZeroBet | roulette.js:168-178 | the ball on 0 pays only the bet on 0 |
| Roulette.Credited | roulette.js:233-234 | only a positive win is paid into the balance |
| Roulette.RouletteGame.constructor | roulette.js:2-5 | a bet of 10, no option selected, not spinning |
| Roulette.RouletteGame.SelectBetAmount | roulette.js:104-118 | the bet is taken exactly when the balance covers it |
| Roulette.RouletteGame.SelectBetOption | roulette.js:120-131 | a selection while spinning is ignored, otherwise it replaces the previous one |
| Roulette.RouletteGame.StartSpin | roulette.js:183-205 | the guards in order (spinning, no option, balance), each refusing without change; an accepted spin marks the wheel spinning and deducts the bet |
| Roulette.RouletteGame.FinishSpin | roulette.js:214-261 | with the wheel on screen the pocket's win is computed, a positive win credited and the selection cleared; the wheel stops in any case |
| Roulette.RouletteGame.Spin | roulette.js:183-262 | which guard refuses the spin, with nothing changed; an accepted spin moves the balance by the credited win minus the bet, clears the selection and stops the wheel |
| SlotRules.WeightsTable | slots.js:105 | one positive weight per symbol, the seven symbols distinct, and the weights sum to 1 |
| SlotRules.CumulativeMonotone | slots.js:107-110 | the running sum of the weights only grows |
| SlotRules.WeightedIndexFrom | slots.js:109-115 | scanning on from a point no earlier sum reached stops at the first running sum that reaches the draw, or falls back to 0 when none does |
| SlotRules.WeightedIndexIsFirstCovering | slots.js:104-116 | the symbol chosen is the first whose running sum reaches the draw; only a draw above the total falls back to the first symbol |
| SlotRules.DrawFallsInBand | slots.js:104-116 | for a draw in [0, 1) the chosen symbol's band of running sums holds the draw and is exactly as wide as its weight |
| SlotRules.GetRandomSymbol | slots.js:104-116 | the accumulating loop returns the symbol the weighted choice selects |
| SlotRules.TripleInTable | slots.js:6-14 | every symbol's triple is in the payout table with a nonzero multiplier |
| SlotRules.CalculateWin | slots.js:118-128 | the multiplier is nonzero exactly when the three reels agree, and then is the table's entry for that triple |
| SlotRules.CalculateWinExamples | slots.js:6-14 | three diamonds pay 100, three cherries 2, a pair with a third symbol nothing |
| SlotRules.WinAmount | slots.js:210 | for a positive bet the payout is never negative and is positive exactly on a win |
| Slots.SlotsGame.constructor | slots.js:2-4 | a bet of 10, idle, the spin button enabled |
| Slots.SlotsGame.SelectBet | slots.js:23-37 | the bet is taken exactly when the balance covers it |
| Slots.SlotsGame.StartSpin | slots.js:159-179 | the guards in order (spinning, balance, positive bet), each refusing without change; an accepted spin marks spinning, disables the button and deducts the bet |
| Slots.SlotsGame.FinishSpin | slots.js:187-228 | the reels show the weighted symbols of the draws, the win is credited, the button stays disabled exactly when the balance is gone, and the machine is idle |
| Slots.SlotsGame.Spin | slots.js:159-229 | which guard refuses the spin, with nothing changed; an accepted spin moves the balance by the payout minus the bet, never below zero, and disables the button exactly when the balance is gone |
| StandaloneSlots.SlotMachine.constructor | game.js:2-4 | 1000 to play with, a bet of 10, idle |
| StandaloneSlots.SlotMachine.SelectBet | game.js:36-47 | the bet is taken exactly when the page's balance covers it |
| StandaloneSlots.SlotMachine.StartSpin | game.js:163-180 | the guards in order, each refusing without change; an accepted spin marks spinning, disables the button and takes the bet |
| StandaloneSlots.SlotMachine.FinishSpin | game.js:188-220 | the reels show the weighted symbols, the win is added, the button stays disabled exactly when the balance is gone |
| StandaloneSlots.SlotMachine.Spin | game.js:163-221 | which guard refuses the spin, with nothing changed; an accepted spin moves the balance by the payout minus the bet, never below zero |
| UnoCards.ColorIndex | uno.js:13 | the four playing colours have positions 0..3, the wild colour none of them |
| UnoCards.ColorAt | uno.js:13 | reading the colours array at `i` gives the colour whose position is `i` |
| UnoCards.ColorAtIndex | uno.js:13 | every playing colour is found at its own position |
| UnoCards.NumberPairsCount | uno.js:101-104 | the number loop pushes two of each 1..9 of its colour and nothing else |
| UnoCards.ColorBlockCount | uno.js:96-113 | one colour's pushes hold one 0 and two of each 1..9, skip, reverse and draw-two of that colour |
| UnoCards.ColorBlocksCount | uno.js:96-113 | after the first `k` colours each card of those colours has its per-colour count |
| UnoCards.WildPairsCount | uno.js:116-119 | `k` rounds of the wild loop hold `k` wilds and `k` wild draw-fours |
| UnoCards.UnoDeckCount | uno.js:93-119 | the built deck holds each card in the standard number of copies |
| UnoCards.UnoDeckSize | uno.js:93-119 | the built deck has 108 cards |
| UnoCards.UnoDeckComposition | uno.js:93-119 | the built deck has the standard composition |
| UnoCards.Playable | uno.js:172-180 | nothing is playable before a current colour and value exist; then a wild always is, and any other card only on a matching colour or value |
| UnoCards.FirstPlayable | uno.js:290-296 | the search stops at a playable card with no playable card before it, or gives -1 when none is playable |
| UnoCards.PlayableAgainstTop | uno.js:172-180 | against the top discard's colour and value, a card is playable exactly when it is wild or matches it |
| UnoCards.WildRunStops | uno.js:133-137 | below the wilds on top lies a non-wild card whenever the pile holds one |
| UnoCards.WildRunAt | uno.js:133-137 | counting down from the top, a card is wild exactly while it is within the run |
| UnoCards.FirstDiscard | uno.js:133-137 | the card turned up is not wild and comes from the pile |
| UnoCards.RotateStep | uno.js:135-136 | putting the popped card at the bottom and popping again moves one more card round |
| UnoCards.TurnUpKeepsCards | uno.js:133-143 | the turned-up card and the pile left behind are the pile it was taken from |
| UnoCards.TurnUpMovesWilds | uno.js:133-137 | the cards moved to the bottom are the wilds that were on top |
| UnoCards.NotAllWild | uno.js:133-137 | more than eight cards of a standard deck cannot all be wild, so the turn-up loop ends |
| Uno.WithoutKeeps | uno.js:194 | the splice removes exactly that card and keeps the others in order |
| Uno.DrawSource | uno.js:267-275 | the draw comes from the draw pile, or when it is empty from every discard but the top |
| Uno.Penalty | uno.js:298-322 | a card the bot plays makes someone draw exactly when it is a wild draw-four or a draw-two |
| Uno.Recolored | uno.js:304-307 | a bot's wild takes the picked colour, every other card keeps its own, and the face never changes |
| Uno.DealRound | uno.js:127-130 | one round of dealing only moves cards |
| Uno.DealtCards | uno.js:127-130 | the `m`-th card of the player's hand lies `2m` below the top, the opponent's one further down |
| Uno.DealtKeeps | uno.js:127-130 | the two hands and the rest of the deck hold the cards of the deck |
| Uno.SetupKeepsCards | uno.js:125-144 | after dealing and turning up, the hands, the first discard and the draw pile hold a standard deck |
| Uno.PushColorBlock | uno.js:96-113 | one pass of the colour loop appends that colour's 25-card block |
| Uno.PushWildPairs | uno.js:116-119 | the wild loop appends its rounds of a wild and a wild draw-four |
| Uno.BuildDeck | uno.js:93-119 | the deck-building loops produce the ordered Uno deck |
| Uno.FreshDeck | uno.js:93-119 | the built deck has 108 cards of the standard composition |
| Uno.DealHands | uno.js:125-130 | seven alternating pops from the top fill the two hands, each card at its place, and lose no card |
| Uno.TurnUpFirstCard | uno.js:133-137 | the loop ends with the topmost non-wild card, the wilds above it moved to the bottom |
| Uno.TakeMoves | uno.js:255-259 | `n` guarded pops move the top `min(n, size)` cards to the hand, top card first |
| Uno.TakeKeeps | uno.js:255-259 | guarded pops lose no card and make none up |
| Uno.PopInto | uno.js:200-204 | the guarded pop loop leaves the piles `Take` describes |
| Uno.DealAndTurnUp | uno.js:125-144 | on a shuffled standard deck: hands of seven at their places, a non-wild first card, a draw pile of 93, and every card in exactly one place |
| Uno.UnoGame.constructor | uno.js:2-21 | after the object literal and `init`'s set-up: hands of seven, a draw pile of 93, one non-wild discard, a standard deck across the piles, the player's turn |
| Uno.UnoGame.ShuffleDeck | uno.js:150-155 | the deck becomes its shuffle with the picks, a permutation of it |
| Uno.UnoGame.PrepareDeck | uno.js:93-122 | the built and shuffled deck has 108 cards of the standard composition |
| Uno.UnoGame.SetupGame | uno.js:91-148 | hands of seven, a draw pile of 93, one non-wild card pushed on the old discard pile and current, a standard deck across hands, that card and the draw pile, the player's turn |
| Uno.UnoGame.CanPlayCard | uno.js:172-180 | a card is playable exactly when it is wild or matches the top discard's colour or value |
| Uno.UnoGame.GiveCards | uno.js:255-259 | up to `n` guarded pops move to the chosen hand; the other hand is untouched |
| Uno.UnoGame.HandleActionCard | uno.js:247-262 | a draw-two gives the bot up to two cards, whoever played it; any other card changes nothing |
| Uno.UnoGame.EndGame | uno.js:480-484 | the game is over |
| Uno.UnoGame.PlayCard | uno.js:182-232 | ignored off turn, after the game or for an index outside the hand; an unplayable card changes nothing; a wild leaves the hand without reaching the discard pile (a wild draw-four gives the bot up to four cards) and the player keeps the turn; any other card goes on the discard pile with the action rule, an emptied hand wins and pays 50, otherwise the turn passes |
| Uno.UnoGame.PlaceCard | uno.js:211-227 | the card goes on the discard pile and becomes current, the action rule applies, an emptied hand ends the game and pays 50, otherwise the turn passes |
| Uno.UnoGame.SelectWildColor | uno.js:234-245 | only the top discard changes, painted in the chosen colour, which becomes current; the turn passes |
| Uno.UnoGame.Replenish | uno.js:267-273 | the top discard stays alone on the discard pile and the others become the draw pile in order |
| Uno.UnoGame.DrawOne | uno.js:267-276 | a refill when the draw pile is empty, then one guarded pop into the chosen hand |
| Uno.UnoGame.DrawCard | uno.js:264-284 | ignored off turn or after the game; otherwise at most one card from the draw pile or the refill moves to the player and the turn passes |
| Uno.UnoGame.FindPlayable | uno.js:290-296 | the search loop returns the first playable card of the bot's hand, or -1 |
| Uno.UnoGame.ApplyOpponentCard | uno.js:308-322 | a wild draw-four gives the player up to four cards, a draw-two the bot up to two; the card becomes current |
| Uno.UnoGame.PlayOpponentCard | uno.js:298-322 | the card leaves the bot's hand, recoloured if wild, goes on the discard pile, its penalty is dealt and it becomes current |
| Uno.UnoGame.FinishOpponentPlay | uno.js:324-345 | an empty bot hand wins and ends the game without handing back the turn; otherwise the turn goes back to the player |
| Uno.UnoGame.OpponentDraws | uno.js:331-345 | the bot draws at most one card (refilling first if needed) and the turn goes back to the player |
| Uno.UnoGame.OpponentTurn | uno.js:286-347 | idle after the game; otherwise the bot plays its first playable card with the effects above and wins on an empty hand, or draws at most one card when none is playable; unless it won, the turn goes back to the player |

## Left out

- The DOM, animations, timers, messages, the auto-play loops, the world
  map's character controller and `getCardDisplay`'s emoji rendering are
  not modelled. Only the game state they read and write is.
- `switchToGame` calls the game's `init`, but `GameManager.Ledger.SwitchToGame`
  only records the screen. Re-initialising a game is modelled by that
  game's own members (`ResetGame`, `SetupGame`, the constructors).
- Floating-point arithmetic is not modelled. Slot weights and draws are
  exact reals, so rounding of the running sum near a band boundary is not
  represented.
- `Math.random()` and the uniformity of the shuffle, the pocket and the
  reels are not modelled. Each random choice is a parameter, and only
  that the shuffle is a permutation is proved.
- Uno.UnoGame.DrawOne: when the refill leaves the draw pile empty (the
  discard pile held one card), the source pops `undefined` into the hand.
  The model moves nothing.
- Uno.UnoGame.DrawCard: draws through `DrawOne`, so in the same case the
  player's hand stays as it was instead of gaining `undefined`.
- Uno.UnoGame.OpponentDraws: draws through `DrawOne`, so in the same case
  the bot's hand stays as it was instead of gaining `undefined`.
- Uno.UnoGame.OpponentTurn: its draw branch is `OpponentDraws`, with the
  same gap.
- Uno.UnoGame.SelectWildColor: the source throws if the discard pile is
  empty. The model requires a discard on the table, which every reachable
  state has.
- Uno.UnoGame.SetupGame: the contract states the composition of the piles
  and that the first discard is not wild. It does not state each card's
  position relative to `Shuffled` of the built deck; `Uno.DealAndTurnUp`
  states those positions for its input.
- Uno.UnoGame.PrepareDeck: states the size and composition of the shuffled
  deck, not its order.
- The card `type` field (`number` / `action` / `wild`) is not a field of
  the model. It is determined by the face, and `UnoCards.IsWild` stands
  for the `wild` type.
- Roulette.RouletteGame.Spin: composes the two halves with the wheel on
  screen. The branch where the wheel or the ball element is missing is
  `FinishSpin` with `wheelShown` false.
- The `calculateWin` and `getRandomSymbol` of game.js are the same code as
  in slots.js. Both machines use the single copy in `SlotRules`, cited to
  slots.js.
- UnoCards.UnoDeckCount: takes the number of colour blocks and wild rounds
  as a parameter fixed at four, rather than the loop bounds directly.
- The integers are unbounded. JavaScript's number type would lose
  precision above 2^53, which no balance here reaches.
