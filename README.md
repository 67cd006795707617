# 101 — a verified model of both card-game engines

The repository holds two unrelated games called "101", and this project models each one separately.

**The Swift running-total game** (`Sources/main.swift`).
- Players take turns adding cards to a running total.
- An Eight leaves the total unchanged, a Nine reverses the order of play and a Joker played at 100 wins outright.
- Landing on exactly 101 makes the table "flow": a card from the deck restarts the total.
- Going over 101 loses the round. The round's penalty is the flow count plus one.

It is modelled in five modules:
- `SwiftCards`: ranks, default values and the 54-card deck.
- `SwiftRules`: the decisions a card offers, the flow card's contribution and turn order.
- `SwiftDeck`: the draw pile as a class, with the discard pile passed in and out.
- `SwiftCpu`: the CPU's greedy scoring scan.
- `SwiftRound`: one round of `playRound` as a `Round` object. Its turn step is a method of its own, and the human and CPU turns wrap it.

The round invariant `Round.Valid` has two parts:
- The table is consistent: seats in range, direction ±1 and the total never left at 101.
- No card is created or lost: the draw pile, the discard pile and the hands together always hold the cards of one standard deck.

**The Python blackjack-style game** (`game101/`).
- A human and a computer draw cards. An ace counts 11 or 1.
- The best total at most 101 wins.
- The computer draws while its best total is below 85.

It is modelled in four modules, `Game101Card`, `Game101Deck`, `Game101Hand` and `Game101Game`. They follow `card.py`, `deck.py`, `hand.py` and `game.py`. Python exceptions become `Err` results. The mutable decks, hands and game are classes.

**Shared modules.**
- `Common` holds `Option` and `Result`.
- `Permutations` models a shuffle as an index permutation: `Permute(s, order)[i] == s[order[i]]`. Its lemmas prove that a shuffle only reorders cards.

**Inputs in place of I/O and randomness.**
- Every shuffle is a permutation supplied by the caller. Round methods take a source `shuffle(n)` of permutations of `n` positions.
- The random starting seat is a parameter.
- The human's console answers are parameters: card index, decision index, or a decision picked once a drawn card is shown.

## Model

| member | source | states |
|---|---|---|
| Permutations.Permute | Sources/main.swift:104 | a shuffle keeps the length and places old card `order[i]` at position `i` |
| Permutations.PermutationDistinct | Sources/main.swift:104 | a permutation never takes the same old position twice |
| Permutations.PermutePreservesMultiset | Sources/main.swift:120 | shuffling keeps exactly the same multiset of cards |
| Permutations.PermutePreservesDistinct | game101/deck.py:14-19 | shuffling cards that are all different leaves them all different |
| Permutations.DistinctCount | game101/card.py:51-54 | in a sequence without repeats every element occurs once and any other value not at all |
| SwiftCards.DefaultValue | Sources/main.swift:38-55 | rank values lie in 0..50; exactly Eight and Nine are worth 0, exactly the Joker 50, and every other rank at most 30 |
| SwiftCards.RowPosition | Sources/main.swift:87-101 | every non-Joker rank has a place in the ace-to-two row `reset` appends per suit |
| SwiftCards.RowRankInjective | Sources/main.swift:88-100 | a suit row never repeats a rank and holds no Joker |
| SwiftCards.FullDeck | Sources/main.swift:85-103 | the unshuffled deck holds 54 cards |
| SwiftCards.SuitRowCount | Sources/main.swift:87-101 | one suit's row holds each non-Joker card of that suit exactly once and nothing else |
| SwiftCards.SuitRowsCount | Sources/main.swift:87-101 | the rows of distinct suits hold each suited non-Joker card of those suits exactly once |
| SwiftCards.SuitRowsLength | Sources/main.swift:87-101 | each suit adds thirteen cards |
| SwiftCards.JokersCount | Sources/main.swift:102-103 | the appended Jokers are two suitless Jokers and nothing else |
| SwiftCards.FullDeckContents | Sources/main.swift:85-103 | a standard deck is 54 cards: every non-Joker rank of every suit once and two suitless Jokers |
| SwiftRules.PossibleDecisions | Sources/main.swift:150-175 | never empty, no repeats; a skip exactly for an Eight, a reverse exactly for a Nine, the special win exactly for a Joker at total 100, two choices exactly for Ace and Ten, the smaller first (+1 before +11, -10 before +10); otherwise the rank's default value, and every value offered is the default, +1 for an ace or -10 for a ten |
| SwiftRules.FlowContribution | Sources/main.swift:277-293 | a flow card restarts the total at its rank's default value and flips the direction exactly for a Nine |
| SwiftRules.NextIndex | Sources/main.swift:177-184 | the next seat is `(current + direction) mod playerCount`, in `0 ..< playerCount`; the loop ends because the table size is positive |
| SwiftRules.ShiftByCount | Sources/main.swift:179-181 | adding the table size does not change the seat a number denotes, which keeps the loop's invariant |
| SwiftDeck.DrawnIsNext | Sources/main.swift:111-116 | a successful draw hands out the top of the pile, or the top of the reshuffled discard when the pile is empty |
| SwiftDeck.Deck.constructor | Sources/main.swift:81-83 | a new deck is the standard deck under the given shuffle, with the standard deck's cards |
| SwiftDeck.Deck.Reset | Sources/main.swift:85-105 | the pile becomes the 54-card standard deck shuffled by `order`, with exactly the standard deck's cards |
| SwiftDeck.Deck.CanDraw | Sources/main.swift:107-109 | a draw is possible exactly when pile and discard together hold a card |
| SwiftDeck.Deck.Reshuffle | Sources/main.swift:118-122 | an empty discard changes nothing; otherwise the pile becomes the shuffled discard, with the same cards, and the discard is emptied |
| SwiftDeck.Deck.Draw | Sources/main.swift:111-116 | a card comes back exactly when `canDraw` held; it is the pile's last card with the discard untouched, or, on an empty pile, the last card of the shuffled discard, which is emptied; either way it is `NextCard`, the next card of the deck; pile, discard and card keep the cards |
| SwiftCpu.Score | Sources/main.swift:212-230 | the special win scores above 500 and only it does; skip exactly 500; reverse 400; value plays at most 400; a bust below -1000; a non-bust value play above -1000 (unless the total falls to -1300 or below) |
| SwiftCpu.ScoreOrdersValuePlays | Sources/main.swift:220-228 | below 101 a higher new total scores more; among busts a smaller overshoot scores more; landing on 101 scores 150 |
| SwiftCpu.ScanHand | Sources/main.swift:232-242 | the double loop finds the first option, in hand and menu order, with the highest score; it finds none only when every score is at most `Int.min` |
| SwiftCpu.MaxByScore | Sources/main.swift:250 | a drawn card's decision is the first of its menu with the highest score |
| SwiftCpu.CpuSelectAction | Sources/main.swift:207-261 | the decision is one the card offers; if some hand option avoids a bust, the first best hand option is played with its valid index; otherwise the CPU draws when it can and plays the drawn card with its best decision, keeping the cards; with nothing to draw it plays the best hand option, or the first card's first decision |
| SwiftCpu.SafeWitness | Sources/main.swift:244-246 | a first-best option above -1000 is a non-busting option of the hand |
| SwiftCpu.FirstBestAvoidsBust | Sources/main.swift:232-246 | the CPU never picks a busting hand play when its hand has a non-busting one |
| SwiftCpu.EightBeforeKingAt95 | Sources/main.swift:212-246 | at 95 with an Eight and a King, the CPU skips with the Eight |
| SwiftRound.HandCardsSameHands | Sources/main.swift:428-436 | changing scores leaves the cards in the hands alone |
| SwiftRound.HandCardsSetHand | Sources/main.swift:379 | replacing one hand swaps exactly its cards in the multiset of all hand cards |
| SwiftRound.Round.constructor | Sources/main.swift:295-315 | a new round gets a fresh deck, the standard deck under the shuffle `order`; empty discard, total 0, clockwise, flow count 0, the given seat to play and the seat before it as previous player, seats kept up to their hands, the round invariant holding; seat `i` of `p` holds the `i`-th and then the `(p + i)`-th card from the top of the shuffled deck, and the pile keeps the rest in order (up to 27 seats) |
| SwiftRound.Round.Setup | Sources/main.swift:297-315 | the set-up keeps every card and the seats up to their hands; when the deck suffices, seat `i` of `p` holds the `i`-th and `(p + i)`-th cards from the top and the pile loses exactly its top `2p` cards; it starts at total 0 clockwise from the given seat |
| SwiftRound.Round.StartAt | Sources/main.swift:311-315 | total 0, clockwise, flow count 0, the given seat to play and the seat before it as previous player |
| SwiftRound.Round.DealHands | Sources/main.swift:299-309 | the hands are emptied and dealt; every card of the deck ends in the pile or a hand; when the deck suffices, seat `i` of `p` holds exactly the `i`-th and `(p + i)`-th cards from the top, and the pile loses its top `2p` cards |
| SwiftRound.Round.Deal | Sources/main.swift:303-309 | two passes keep every card; when the deck suffices, seat `i` of `p` gets the `i`-th and then the `(p + i)`-th card from the top at the end of its hand, and the pile loses its top `2p` cards |
| SwiftRound.Round.DealPass | Sources/main.swift:304-308 | one pass keeps every card; when the pile has a card per seat, seat `j` gets the `j`-th card from the top at the end of its hand and the pile loses its top cards, one per seat |
| SwiftRound.DealtNext | Sources/main.swift:304-307 | dealing the pile's top card to the next seat extends a pass in seat order by one seat |
| SwiftRound.TwoPasses | Sources/main.swift:303-309 | two passes in a row give seat `i` of `p` the `i`-th and `(p + i)`-th cards from the top, in that order |
| SwiftRound.Round.DealOne | Sources/main.swift:305-307 | when the pile has a card, its top card is removed from the pile, which keeps the rest in order, and appended to the end of the one hand; nothing else changes, and with an empty pile nothing changes at all |
| SwiftRound.Round.GiveCard | Sources/main.swift:306 | the card is appended to one hand and added to the cards in the hands |
| SwiftRound.Round.Resolve | Sources/main.swift:379-449 | the turn step keeps the round invariant and does `TurnEffect`: the card's effect on total, direction, flow count and outcome, then either the settlement or the refill and move to the next seat; by `TurnPiles`, the played card goes on top of the discard, under the deck's next card when the play flowed, and a refill of an ongoing round then takes the deck's next card onto the end of the hand |
| SwiftRound.Round.Conclude | Sources/main.swift:425-449 | a finished round settles the scores with penalty `flowCount + 1` and leaves the seats and piles alone; otherwise the current hand gets the deck's next card at its end if it played from hand, and the turn passes on in the current direction; no card is lost |
| SwiftRound.Round.PassOn | Sources/main.swift:442-449 | an ongoing turn refills a hand that played from hand with the deck's next card, at its end, leaves the piles alone otherwise, and then passes the turn on; no card is lost |
| SwiftRound.Round.Advance | Sources/main.swift:448-449 | the current seat becomes the previous one and the next seat in the current direction plays |
| SwiftRound.Round.ApplyEffect | Sources/main.swift:385-423 | the played card goes on top of the discard, and a flow lays the deck's next card over it; skip changes nothing else, reverse flips the direction, the special win makes the current player winner and the previous player loser, a value play adds its delta, flows on exactly 101 and busts the current player above 101; the round ends exactly on a bust or the special win |
| SwiftRound.Round.Discard | Sources/main.swift:388 | the played card goes on top of the discard pile |
| SwiftRound.Round.CheckTotal | Sources/main.swift:404-422 | after the delta is added: exactly 101 counts one more flow and restarts the total and direction from the flow card, the deck's next card laid on the discard; above 101 the current player busts; below it nothing changes; no card is lost |
| SwiftRound.ValuePlayed | Sources/main.swift:399-422 | adding the delta, discarding the card and then the flow or bust check is the card effect and the pile effect of a value play |
| SwiftRound.Round.AddValue | Sources/main.swift:399-422 | the total grows by the delta; exactly 101 counts a flow and restarts from the flow card, the deck's next card, laid on the played card; above 101 the current player loses; without a flow the played card is the new top of the discard and the pile is untouched |
| SwiftRound.Round.Flow | Sources/main.swift:404-417 | a flow counts one more flow and always reveals the deck's next card, which then lies on top of the discard and sets the total and the direction through `flowContribution`; the total is then not 101 and no card is lost |
| SwiftRound.Round.RevealFlowCard | Sources/main.swift:407-413 | the flow card is always drawn; it is the deck's next card and is laid on top of the discard; no card is lost |
| SwiftRound.Round.DrawCard | Sources/main.swift:407 | a draw succeeds exactly when the deck can draw; the drawn card is the deck's next card and the one card that leaves the piles |
| SwiftRound.Round.Refill | Sources/main.swift:442-446 | after a play from hand the current player's hand gets the deck's next card at its end; other seats and the card count are unchanged |
| SwiftRound.Round.HumanTurn | Sources/main.swift:345-350 | the chosen hand card leaves the hand and is played with the chosen decision from its menu, with the full turn effect; by `HandTurnPiles`, the card goes on top of the discard, a flow card is the deck's next card, and an ongoing round refills the hand with the deck's next card after that |
| SwiftRound.Round.HumanDrawTurn | Sources/main.swift:351-356 | the human plays the next card of the deck with a decision from its menu; the hand is not refilled; by `DrawnTurnPiles`, the drawn card leaves the piles as `Drew` says, then goes on top of the discard, and a flow card is the deck's next card after that |
| SwiftRound.Round.CpuTurn | Sources/main.swift:366-377 | the CPU plays the first best hand option whenever one avoids a bust, else draws and plays the next card of the deck with that card's first highest-scoring decision (`max(by:)`); with nothing to draw it plays the first best hand option, or `hand[0]` with its first decision when every option scores `Int.min`; the played card is removed from the hand when it came from there, and the turn effect follows; the piles change as `HandTurnPiles` says for a hand card and as `DrawnTurnPiles` says for a drawn one: the played card goes on the discard, a flow card and a refill card are each the deck's next card |
| SwiftRound.Round.PlayFromHand | Sources/main.swift:370-372 | playing hand card `k` is the turn effect on the table without that card; by `HandTurnPiles`, the card goes on top of the discard, a flow card is the deck's next card, and an ongoing round refills the hand without card `k` with the deck's next card |
| SwiftRound.Round.TakeFromHand | Sources/main.swift:347 | `remove(at:)` returns the `k`-th card and leaves the rest of the hand in order |
| SwiftRound.Round.DrawToPlay | Sources/main.swift:352-354 | the drawn card is the next card of the deck and leaves the piles; `Drew` gives the exact piles after the draw, reshuffle included |
| SwiftRound.Round.PlayDrawn | Sources/main.swift:352-356 | a drawn card is played with the turn effect and no refill, and the piles change as `PileEffect` says: the card goes on top of the discard, under the deck's next card when the play flowed |
| SwiftRound.Round.PlayDrawnByCpu | Sources/main.swift:374-376 | the card the CPU drew, which `DrawnFrom` ties to the deck's next card, is played with the turn effect and no refill; the piles change as `DrawnTurnPiles` says |
| SwiftRound.Round.Settle | Sources/main.swift:425-438 | with penalty `flowCount + 1`, the special winner gains it and the loser loses it, a bust costs the loser it, and no other score or hand changes |
| SwiftRound.NewDeck | Sources/main.swift:296 | a round's deck is new and is the standard deck under the shuffle `order`: the 54 standard cards |
| SwiftRound.ClearHands | Sources/main.swift:299-301 | every hand is emptied and nothing else about the seats changes |
| SwiftRound.HandCardsEmpty | Sources/main.swift:299-301 | empty hands hold no cards |
| SwiftRound.ScoreSumShift | Sources/main.swift:425-438 | changing each score by its settlement share changes the score sum by the summed shares |
| SwiftRound.SettlementBalance | Sources/main.swift:425-438 | a special win is zero-sum, a bust takes exactly `flowCount + 1` from the total score, and a turn that does not end the round changes no score |
| SwiftRound.Roster | Sources/main.swift:460-469 | the human sits at seat 0 and CPUs after, at least one; ids are seat numbers; hands are empty and scores 0 |
| SwiftRound.FinalLoser | Sources/main.swift:479-481 | `min(by:)` gives the first seat with the lowest score, and nothing only for no players |
| SwiftRound.GameOver | Sources/main.swift:471-481 | the game loop stops exactly when some score is at -5 or below, which is exactly when the final loser's score is |
| Game101Card.Value | game101/card.py:35-48 | a card is worth 2..11: 11 exactly for an ace, 10 exactly for 10, J, Q and K, otherwise the numeral on the rank |
| Game101Card.NumeralValue | game101/card.py:48 | `int(rank)` of a numeral rank reads its digits, and it equals the rank's place in `RANKS` |
| Game101Card.NumeralDigits | game101/card.py:8-22 | the numeral labels of `RANKS` are digit strings reading as their position counted from 1 |
| Game101Card.Label | game101/card.py:8-22 | a rank's label has one character, or two exactly for "10"; it is a digit string exactly for the numeral ranks 2..10 |
| Game101Card.DecimalValue | game101/card.py:48 | `int` of a digit string of length `n` is below `10^n`, and at least `10^(n-1)` when the first digit is not 0 |
| Game101Card.CreateStandardDeck | game101/card.py:51-54 | the standard deck has 52 cards |
| Game101Card.StandardDeckLayout | game101/card.py:51-54 | suit-major order: the `j`-th rank of the `i`-th suit sits at `13 * i + j` |
| Game101Card.StandardDeckComplete | game101/card.py:51-54 | every (suit, rank) card is in the deck and no card occurs twice |
| Game101Deck.Deck.constructor | game101/deck.py:14-16 | a deck is the given cards, or a standard deck, shuffled, with the same multiset |
| Game101Deck.Deck.Shuffle | game101/deck.py:18-19 | the shuffle only reorders the cards |
| Game101Deck.Deck.Draw | game101/deck.py:21-24 | drawing from an empty deck is the `RuntimeError`; otherwise it returns the last card and keeps the rest in order |
| Game101Deck.Deck.Len | game101/deck.py:26-30 | the length is the number of cards the iteration yields |
| Game101Deck.DefaultDeckDistinct | game101/deck.py:14-16 | a default deck holds 52 distinct cards, one of every (suit, rank) |
| Game101Hand.AceCount | game101/hand.py:24-29 | a hand has no more aces than cards |
| Game101Hand.AddedCard | game101/hand.py:24-29 | one more card adds its value to the sum and one to the ace count exactly when it is an ace |
| Game101Hand.HandSum | game101/hand.py:24-29 | the summing loop's total lies between 2 and 11 per card, and stays at least one per card with every ace brought down to 1 |
| Game101Hand.Candidates | game101/hand.py:31-35 | there is one candidate total per ace, plus the plain sum; the list starts at the plain sum and ends at the all-aces-at-1 total |
| Game101Hand.StepsGrow | game101/hand.py:33-35 | each pass of the ace loop appends the total 10 below the last one |
| Game101Hand.KeptIff | game101/hand.py:36 | a candidate is kept exactly when it is at most 101 |
| Game101Hand.LowestIsLeast | game101/hand.py:36 | `min(totals)` is the all-aces-at-1 total |
| Game101Hand.TotalsOf | game101/hand.py:21-36 | `totals()` is never empty and its first entry is the all-aces-at-1 candidate |
| Game101Hand.TotalsSpec | game101/hand.py:21-36 | the totals are strictly ascending and are exactly the candidates at most 101, or only the lowest candidate when all are above 101 |
| Game101Hand.AtMostMax | game101/hand.py:42 | the filter keeps exactly the totals at most 101 |
| Game101Hand.MaxOf | game101/hand.py:43 | `max` is a member not below any other |
| Game101Hand.MinOf | game101/hand.py:43 | `min` is a member not above any other |
| Game101Hand.BestOf | game101/hand.py:38-43 | the best total is a total: the largest at most 101 if any, otherwise the smallest |
| Game101Hand.AllOver | game101/hand.py:45-47 | every total is above 101 exactly when filtering for totals at most 101 keeps nothing |
| Game101Hand.BustIffBestOver | game101/hand.py:45-47 | a hand is bust exactly when its best total is above 101 |
| Game101Hand.BestTotalClosedForm | game101/hand.py:38-43 | the best total is the highest kept candidate, or the lowest candidate when none is kept |
| Game101Hand.Hand.constructor | game101/hand.py:15-16 | a hand is a copy of the given cards, or empty |
| Game101Hand.Hand.AddCard | game101/hand.py:18-19 | the card is appended and the earlier cards keep their order |
| Game101Hand.Hand.Totals | game101/hand.py:21-36 | the loops compute the totals described by `TotalsSpec` |
| Game101Hand.Hand.SumAndAces | game101/hand.py:24-29 | the first loop yields the sum of values and the number of aces |
| Game101Hand.Hand.KeepSorted | game101/hand.py:36 | the filter-and-sort step yields the ascending kept totals, or the minimum |
| Game101Hand.Hand.BestTotal | game101/hand.py:38-43 | `best_total` is the best total of the hand's totals |
| Game101Hand.Hand.IsBust | game101/hand.py:45-47 | `is_bust` holds exactly when every total is above 101 |
| Game101Hand.AceNineAce | tests/test_game.py:19-23 | A, 9, A has totals 11, 21, 31 and best total 31 |
| Game101Hand.EmptyHand | game101/hand.py:21-36 | an empty hand has the single total 0, which is its best total |
| Game101Game.StopsIff | game101/game.py:44-46 | the computer's loop stops exactly at a bust hand or a best total of at least 85 |
| Game101Game.Stops | game101/game.py:44-46 | the computer stops whenever even its all-aces-at-1 total is 85 or more, and keeps drawing while its plain sum is below 85 |
| Game101Game.ReversedMultiset | game101/game.py:44-46 | the cards drawn, in drawing order, are the same cards as those gone from the deck |
| Game101Game.MoveTop | game101/game.py:41-42 | moving the deck's top card onto a hand keeps the cards |
| Game101Game.DealtFromTop | game101/game.py:36-39 | dealing alternately hands out exactly the cards taken from the top of the deck |
| Game101Game.DealtPairs | game101/game.py:36-39 | after `k` full rounds the two hands hold exactly the top `2k` cards |
| Game101Game.DealtOdd | game101/game.py:36-39 | a round cut short after the human's card hands out the top `2k + 1` cards |
| Game101Game.DealingConserves | game101/game.py:36-39 | dealing creates and loses no card across deck and hands |
| Game101Game.PrefixesKept | game101/game.py:44-46 | one more card after a hand that did not stop keeps every earlier hand non-stopping |
| Game101Game.TopTaken | game101/game.py:46 | each draw takes the next card from the top of the deck |
| Game101Game.DrawnFromTop | game101/game.py:44-46 | the computer's new cards follow its old hand and are the deck's lost top cards, first drawn first; no card is lost |
| Game101Game.Player.constructor | game101/game.py:11-17 | a player keeps the given name, hand and kind |
| Game101Game.Player.WantsCard | game101/game.py:19-25 | asking a human is the `RuntimeError`; the computer wants a card exactly when its best total is below 85 |
| Game101Game.Decide | game101/game.py:48-66 | the human wins exactly when not bust and the computer is bust or lower; the computer likewise; a draw exactly when both are bust or both equal |
| Game101Game.DecideSymmetric | game101/game.py:48-66 | swapping the two totals swaps the winner and keeps a draw |
| Game101Game.NoAceBest | game101/hand.py:38-43 | an ace-free hand at most 101 has its plain sum as best total |
| Game101Game.KingQueenNine | tests/test_game.py:30 | K, Q, 9 sums to 29 with no ace |
| Game101Game.TenEightSeven | tests/test_game.py:31 | 10, 8, 7 sums to 25 with no ace |
| Game101Game.KingQueenNineBeatsTenEightSeven | tests/test_game.py:25-32 | K, Q, 9 against 10, 8, 7 is won by the human |
| Game101Game.Game.constructor | game101/game.py:31-34 | a game has a shuffled standard deck, a human with the given name ("You" by default) and the "Computer" player, both with empty hands |
| Game101Game.Game.DealInitialCards | game101/game.py:36-39 | with at least four cards, the human gets the first and third cards from the top and the computer the second and fourth, and the deck loses exactly those; a shorter deck is the empty-deck error after every card was dealt in the same alternation |
| Game101Game.Game.DealPair | game101/game.py:38-39 | one card to the human, then one to the computer, from the top; the error after the first card when only one was left |
| Game101Game.Game.HumanHit | game101/game.py:41-42 | the deck's top card moves to the human's hand; the computer's hand is untouched; an empty deck is the error; no card is lost |
| Game101Game.Game.ComputerTurn | game101/game.py:44-46 | the computer only adds cards, taken in order from the top of the deck; no intermediate hand stopped; it ends stopped, or with the empty-deck error while still wanting a card; the human's hand and the card count are unchanged |
| Game101Game.Game.DrawWhileWanted | game101/game.py:45-46 | the loop draws from the top while the hand does not stop |
| Game101Game.Game.ComputerHit | game101/game.py:46 | one card from the top of the deck to the computer's hand, or the empty-deck error |
| Game101Game.Game.ComputerWantsMore | game101/game.py:45 | the loop goes on exactly while the hand is not bust and the computer wants a card |
| Game101Game.Game.Winner | game101/game.py:48-66 | the winner's name by `Decide` on the two best totals, or none for a draw |

## Left out

- Console input and output: every `print`, `readInt`, `chooseDecision`, the action menu of the human branch, `describeDecision`, `Card.description`, `Rank.displayName` and the suits' symbols. `main.py` and the `__str__` methods are also left out. The human's answers are parameters, already validated as `readInt` guarantees.
- Randomness: `cards.shuffle()`, `discard.shuffled()`, `random.shuffle` and `Int.random` are a permutation or a seat supplied by the caller.
- The `roundLoop` of `playRound` and the game loop of `startGame` are not modelled as loops. Their steps are: set-up (`Round.constructor`), one turn (`HumanTurn`, `HumanDrawTurn`, `CpuTurn`), the stop condition (`GameOver`) and the final loser (`FinalLoser`). Their termination depends on random play.
- Swift's `Int` is unbounded here. The only bound kept is `Int.min`, the starting score of the CPU scan. Nothing else can come near 64-bit overflow in a game with a 54-card deck.
- Python ranks and suits outside `RANKS` and `SUITS` are not modelled, because `Card` accepts any string. Cards are built from the two lists.
- SwiftRound.Round.Flow: the branch of `playRound` that restarts the total at 0 when no flow card can be drawn is dead code. The played card was just discarded, so a draw always succeeds. `Flow` states that the draw succeeds and keeps a 0 default for that branch.
- SwiftRound.Round.Refill: the branch of `playRound` that leaves the hand as it is when the refill draw fails (main.swift:443) is dead code, for the same reason: the played card was just discarded, so the discard is not empty and the draw succeeds. `Refill` requires a non-empty discard and always adds a card.
- SwiftRound.Round.HumanDrawTurn: the fallback to a hand card when the draw fails is dead code, because the console offers drawing only when `canDraw` holds. The method requires that condition.
- SwiftRound.Round.CpuTurn: requires a non-empty hand or a possible draw. Otherwise Swift's fallback `player.hand[0]` would trap. Every hand keeps its two dealt cards, so this holds in play.
- SwiftRound.Round.constructor: states the dealt hands and the remaining pile only for up to 27 seats. `startGame` seats at most four players.
- Game101Game.Game.ComputerTurn: its loop condition is stated through the closed form `Stops`. `StopsIff` proves it equal to "bust, or best total at least 85" as the source writes it.
- The turn of `playRound` writes the CPU's changed hand back (`players[currentIndex] = player`). The model removes the card in place, which has the same effect.
