/**
 * One round of the Swift game (`playRound` in Sources/main.swift), with the
 * turn step taken out as its own method. Turn order, the running total, the
 * flow count and the scores live in a `Round` object; the draw pile is its
 * `Deck` and the discard pile one of its fields. Every card of the standard
 * deck is, at all times between turns, in exactly one of: the draw pile, the
 * discard pile, a hand.
 */
module SwiftRound {
  import opened Common
  import opened Permutations
  import opened SwiftCards
  import opened SwiftRules
  import opened SwiftDeck
  import opened SwiftCpu

  datatype PlayerType = Human | Cpu

  datatype Player = Player(id: int, name: string, kind: PlayerType, hand: seq<Card>, score: int)

  /** How the round stands: still running, lost by a bust, or won by the special Joker. */
  datatype Outcome = Ongoing | Busted(loser: nat) | SpecialWin(winner: nat, loser: nat)

  /** The round's variables other than the two piles. */
  datatype Table = Table(players: seq<Player>, total: int, direction: int, flowCount: nat,
                         currentIndex: nat, previousIndex: nat, outcome: Outcome)

  /** A source of shuffles: `shuffle(n)` permutes n positions. */
  ghost predicate ShuffleSource(shuffle: nat -> seq<nat>)
  {
    forall n: nat :: IsPermutation(shuffle(n), n)
  }

  /** All the cards held in the players' hands. */
  function HandCards(players: seq<Player>): multiset<Card>
  {
    if players == [] then multiset{}
    else HandCards(players[..|players| - 1]) + multiset(players[|players| - 1].hand)
  }

  /** Only the hands count towards `HandCards`. */
  lemma {:induction false} HandCardsSameHands(ps: seq<Player>, qs: seq<Player>)
    requires |ps| == |qs|
    requires forall i :: 0 <= i < |ps| ==> ps[i].hand == qs[i].hand
    ensures HandCards(ps) == HandCards(qs)
  {
    if ps != [] {
      HandCardsSameHands(ps[..|ps| - 1], qs[..|qs| - 1]);
    }
  }

  /** Replacing one hand swaps its cards in `HandCards`. */
  lemma {:induction false} HandCardsSetHand(ps: seq<Player>, i: nat, h: seq<Card>)
    requires i < |ps|
    ensures HandCards(ps[i := ps[i].(hand := h)]) + multiset(ps[i].hand)
         == HandCards(ps) + multiset(h)
  {
    var qs := ps[i := ps[i].(hand := h)];
    var n := |ps| - 1;
    if i == n {
      assert qs[..n] == ps[..n];
    } else {
      var front := ps[..n];
      assert front[i] == ps[i];
      assert qs[..n] == front[i := front[i].(hand := h)];
      HandCardsSetHand(front, i, h);
      assert qs[n] == ps[n];
      SwapInSum(HandCards(qs[..n]), HandCards(front), multiset(ps[n].hand), multiset(ps[i].hand), multiset(h));
    }
  }

  /** Adding the same cards to both sides keeps a swap balanced. */
  lemma SwapInSum(a: multiset<Card>, b: multiset<Card>, x: multiset<Card>, out: multiset<Card>, into: multiset<Card>)
    requires a + out == b + into
    ensures (a + x) + out == (b + x) + into
  {
    assert (a + x) + out == (a + out) + x;
    assert (b + x) + into == (b + into) + x;
  }

  /** Playing `d` at `total` ends the round: the special win, or a bust. */
  predicate EndsRound(total: int, d: Decision)
  {
    d == JokerSpecial || Busts(total, d)
  }

  /** Playing `d` at `total` lands exactly on 101 and makes the table flow. */
  predicate LandsOn101(total: int, d: Decision)
  {
    d.Value? && total + d.delta == 101
  }

  /** How the final settlement changes player i's score, for a given penalty. */
  function ScoreChange(outcome: Outcome, penalty: int, i: nat): int
  {
    match outcome
    case Ongoing => 0
    case Busted(loser) => if i == loser then -penalty else 0
    case SpecialWin(winner, loser) =>
      (if i == winner then penalty else 0) - (if i == loser then penalty else 0)
  }

  /** The table with the current player's k-th hand card taken out (`hand.remove(at:)`). */
  function WithoutCard(t: Table, k: nat): Table
    requires t.currentIndex < |t.players| && k < |t.players[t.currentIndex].hand|
  {
    var p := t.players[t.currentIndex];
    t.(players := t.players[t.currentIndex := p.(hand := p.hand[..k] + p.hand[k + 1..])])
  }

  /**
   * The first half of a turn, the `switch decision.mode` of `playRound`:
   * the effect of decision `d` on the total and the direction, the flow on
   * exactly 101, and the end of the round on a bust or the special win.
   * The players and the turn order are not touched.
   */
  ghost predicate CardEffect(b: Table, m: Table, d: Decision, flowCard: Option<Card>)
  {
    && m.players == b.players && m.currentIndex == b.currentIndex && m.previousIndex == b.previousIndex
    // the round ends exactly on the special win or a bust
    && (m.outcome.Ongoing? <==> !EndsRound(b.total, d))
    && (d == JokerSpecial ==> m.outcome == SpecialWin(b.currentIndex, b.previousIndex))
    && (Busts(b.total, d) ==> m.outcome == Busted(b.currentIndex))
    // landing on 101 flows: one more flow, the total restarts from the flow card
    && m.flowCount == b.flowCount + (if LandsOn101(b.total, d) then 1 else 0)
    && (flowCard.Some? <==> LandsOn101(b.total, d))
    && (flowCard.Some? ==> (m.total, m.direction) == FlowContribution(flowCard.value, b.direction))
    // the other effects on the total and the direction
    && (d.Value? && !LandsOn101(b.total, d) ==> m.total == b.total + d.delta && m.direction == b.direction)
    && (d == Reverse ==> m.total == b.total && m.direction == -b.direction)
    && (d == Skip || d == JokerSpecial ==> m.total == b.total && m.direction == b.direction)
  }

  /**
   * What follows adding a value to the total, from `b` to `m`: on exactly
   * 101 one more flow and a restart from the flow card, which `Revealed`
   * says is the deck's next card; otherwise a bust above 101 or nothing,
   * and the piles stay.
   */
  ghost predicate Checked(b: Table, m: Table, flowCard: Option<Card>, pile: seq<Card>, discard: seq<Card>,
                          order: seq<nat>, pile': seq<Card>, discard': seq<Card>)
  {
    if b.total == 101 then
      && flowCard.Some?
      && m == b.(total := FlowContribution(flowCard.value, b.direction).0,
                 direction := FlowContribution(flowCard.value, b.direction).1,
                 flowCount := b.flowCount + 1)
      && Revealed(pile, discard, order, flowCard.value, pile', discard')
    else
      && flowCard.None?
      && m == b.(outcome := if b.total > 101 then Busted(b.currentIndex) else b.outcome)
      && pile' == pile && discard' == discard
  }

  /**
   * A value play of `delta`, as `AddValue` does it: the total grows by
   * `delta`, the card goes onto the discard, and then `Checked`. This is
   * `CardEffect` and `PileEffect` for `Value(delta)`.
   */
  lemma ValuePlayed(b: Table, m: Table, delta: int, card: Card, flowCard: Option<Card>,
                    pile: seq<Card>, discard: seq<Card>, order: seq<nat>, pile': seq<Card>, discard': seq<Card>)
    requires b.outcome == Ongoing
    requires Checked(b.(total := b.total + delta), m, flowCard, pile, discard + [card], order, pile', discard')
    ensures CardEffect(b, m, Value(delta), flowCard)
    ensures PileEffect(pile, discard, card, order, flowCard, pile', discard')
  {
  }

  /**
   * The second half of a turn: if the round ended, settle the scores with
   * the penalty `flowCount + 1` and stop; otherwise give the current player
   * a replacement card when the played card came from the hand, and pass
   * the turn on in the current direction.
   */
  ghost predicate Aftermath(m: Table, a: Table, playedFromHand: bool)
  {
    && a.total == m.total && a.direction == m.direction
    && a.flowCount == m.flowCount && a.outcome == m.outcome
    && if m.outcome.Ongoing? then Passed(m, a, playedFromHand) else Settled(m, a)
  }

  /** The round goes on: only the current player's hand may grow, and the turn moves on in the current direction. */
  ghost predicate Passed(m: Table, a: Table, playedFromHand: bool)
  {
    && m.currentIndex < |m.players| && |a.players| == |m.players|
    && (forall i :: 0 <= i < |a.players| && i != m.currentIndex ==> a.players[i] == m.players[i])
    && (var before, after := m.players[m.currentIndex], a.players[m.currentIndex];
        && after == before.(hand := after.hand)
        && if playedFromHand
           then |after.hand| == |before.hand| + 1 && after.hand[..|before.hand|] == before.hand
           else after.hand == before.hand)
    && a.previousIndex == m.currentIndex
    && a.currentIndex == (m.currentIndex + m.direction) % |m.players|
  }

  /** The round is over: every score changes by its share of the penalty `flowCount + 1`, and nothing else. */
  ghost predicate Settled(m: Table, a: Table)
  {
    && m.currentIndex < |m.players| && |a.players| == |m.players|
    && (forall i :: 0 <= i < |a.players| ==>
          a.players[i] == m.players[i].(score := m.players[i].score + ScoreChange(m.outcome, m.flowCount + 1, i)))
    && a.currentIndex == m.currentIndex && a.previousIndex == m.previousIndex
  }

  /** The table between the two halves of a turn that goes from `b` to `a`. */
  function Midway(b: Table, a: Table): Table
  {
    b.(total := a.total, direction := a.direction, flowCount := a.flowCount, outcome := a.outcome)
  }

  /** The flow card is the next card of the deck, drawn and laid on top of the discard pile. */
  ghost predicate Revealed(pile: seq<Card>, discard: seq<Card>, order: seq<nat>, card: Card,
                           pile': seq<Card>, discard': seq<Card>)
  {
    && discard' != [] && discard'[|discard'| - 1] == card
    && Drew(pile, discard, order, card, pile', discard'[..|discard'| - 1])
  }

  /**
   * The two piles after `card` is played: it lies on top of the discard
   * pile, under the flow card when the play revealed one.
   */
  ghost predicate PileEffect(pile: seq<Card>, discard: seq<Card>, card: Card, order: seq<nat>,
                             flowCard: Option<Card>, pile': seq<Card>, discard': seq<Card>)
  {
    if flowCard.None? then pile' == pile && discard' == discard + [card]
    else Revealed(pile, discard + [card], order, flowCard.value, pile', discard')
  }

  /**
   * The piles over one turn that plays `card`: the play goes from `pile`,
   * `discard` to `pile1`, `discard1` as `PileEffect` says; then, when
   * `refill`, the hand `hand` gets the deck's next card and becomes `hand'`,
   * and otherwise the piles stay as the play left them.
   */
  ghost predicate TurnPiles(pile: seq<Card>, discard: seq<Card>, card: Card, shuffle: nat -> seq<nat>,
                            flowCard: Option<Card>, pile1: seq<Card>, discard1: seq<Card>, refill: bool,
                            hand: seq<Card>, hand': seq<Card>, pile': seq<Card>, discard': seq<Card>)
  {
    && PileEffect(pile, discard, card, shuffle(|discard| + 1), flowCard, pile1, discard1)
    && if refill then Refilled(pile1, discard1, shuffle(|discard1|), hand, hand', pile', discard')
       else pile' == pile1 && discard' == discard1
  }

  /**
   * The piles over one turn that plays card `k` of `hand`: `TurnPiles`, with
   * the refill going to the hand without that card.
   */
  ghost predicate HandTurnPiles(pile: seq<Card>, discard: seq<Card>, hand: seq<Card>, k: nat, shuffle: nat -> seq<nat>,
                                flowCard: Option<Card>, pile1: seq<Card>, discard1: seq<Card>, refill: bool,
                                hand': seq<Card>, pile': seq<Card>, discard': seq<Card>)
  {
    && k < |hand|
    && TurnPiles(pile, discard, hand[k], shuffle, flowCard, pile1, discard1, refill,
                 hand[..k] + hand[k + 1..], hand', pile', discard')
  }

  /**
   * The piles over one turn that plays a card drawn from the deck: `card`
   * is the deck's next card, drawn from `pile`, `discard` to leave `pile1`,
   * `discard1`; the play then goes on as `PileEffect` says, with no refill.
   */
  ghost predicate DrawnTurnPiles(pile: seq<Card>, discard: seq<Card>, card: Card, shuffle: nat -> seq<nat>,
                                 flowCard: Option<Card>, pile1: seq<Card>, discard1: seq<Card>,
                                 pile': seq<Card>, discard': seq<Card>)
  {
    && Drew(pile, discard, shuffle(|discard|), card, pile1, discard1)
    && PileEffect(pile1, discard1, card, shuffle(|discard1| + 1), flowCard, pile', discard')
  }

  /** The hand got the next card of the deck at its end, and the piles gave it up. */
  ghost predicate Refilled(pile: seq<Card>, discard: seq<Card>, order: seq<nat>, hand: seq<Card>,
                           hand': seq<Card>, pile': seq<Card>, discard': seq<Card>)
  {
    && |hand'| == |hand| + 1 && hand'[..|hand|] == hand
    && Drew(pile, discard, order, hand'[|hand|], pile', discard')
  }

  /** What one whole turn does to the table when the current player plays a card with decision `d`. */
  ghost predicate TurnEffect(b: Table, a: Table, d: Decision, flowCard: Option<Card>, playedFromHand: bool)
  {
    CardEffect(b, Midway(b, a), d, flowCard) && Aftermath(Midway(b, a), a, playedFromHand)
  }

  class Round {
    var players: seq<Player>
    const deck: Deck
    var discard: seq<Card>
    var total: int
    var direction: int
    var flowCount: nat
    var currentIndex: nat
    var previousIndex: nat
    var outcome: Outcome
    /** The cards of the standard deck the round was dealt from. */
    ghost const allCards: multiset<Card>

    /** The round's variables other than the two piles. */
    ghost function Snapshot(): Table
      reads this`players, this`total, this`direction, this`flowCount
      reads this`currentIndex, this`previousIndex, this`outcome
    {
      Table(players, total, direction, flowCount, currentIndex, previousIndex, outcome)
    }

    /** Indices in range, direction one way or the other, total never parked on 101. */
    ghost predicate Consistent()
      reads this`players, this`currentIndex, this`previousIndex, this`direction, this`total
    {
      && |players| > 0
      && currentIndex < |players| && previousIndex < |players|
      && (direction == 1 || direction == -1)
      && total != 101
    }

    /** Every card in the draw pile and the discard pile. */
    ghost function Piles(): multiset<Card>
      reads this`discard, deck`cards
    {
      multiset(deck.cards) + multiset(discard)
    }

    /** Every card in the draw pile, the discard pile and the hands. */
    ghost function CardsInPlay(): multiset<Card>
      reads this`players, this`discard, deck`cards
    {
      Piles() + HandCards(players)
    }

    /** The round invariant: consistent, and no card created or lost. */
    ghost predicate Valid()
      reads this`players, this`currentIndex, this`previousIndex, this`direction, this`total
      reads this`discard, deck`cards
    {
      Consistent() && CardsInPlay() == allCards
    }

    /**
     * The set-up of `playRound`: a fresh shuffled deck, empty hands, two
     * cards dealt to every player in seat order twice, the total at 0 going
     * clockwise from seat `start`.
     */
    constructor (roster: seq<Player>, order: seq<nat>, start: nat)
      requires |roster| > 0 && start < |roster|
      requires IsPermutation(order, 54)
      ensures Valid() && outcome == Ongoing && allCards == multiset(FullDeck())
      ensures total == 0 && direction == 1 && flowCount == 0 && discard == []
      ensures currentIndex == start && previousIndex == (start - 1) % |roster|
      ensures fresh(deck)
      ensures SeatsKept(players, roster)
      ensures |roster| <= 27 ==>
                && deck.cards == Permute(FullDeck(), order)[..54 - 2 * |roster|]
                && forall i :: 0 <= i < |players| ==> players[i].hand == DealtTo(Permute(FullDeck(), order), |roster|, i)
    {
      var newDeck := NewDeck(order);
      deck := newDeck;
      allCards := multiset(newDeck.cards);
      players := roster;
      new;
      Setup(start);
    }

    /** Empty the hands, deal, and start the total at 0 going clockwise from seat `start`. */
    method Setup(start: nat)
      requires |players| > 0 && start < |players|
      requires multiset(deck.cards) == allCards
      modifies this, deck
      ensures Valid() && outcome == Ongoing
      ensures total == 0 && direction == 1 && flowCount == 0 && discard == []
      ensures currentIndex == start && previousIndex == (start - 1) % |players|
      ensures SeatsKept(players, old(players))
      ensures old(|deck.cards|) >= 2 * |players| ==>
                && deck.cards == old(deck.cards[..|deck.cards| - 2 * |players|])
                && forall i :: 0 <= i < |players| ==> players[i].hand == DealtTo(old(deck.cards), |players|, i)
    {
      discard := [];
      DealHands();
      StartAt(start);
    }

    /** The turn variables at the start of a round: total 0, clockwise, seat `start` to play. */
    method StartAt(start: nat)
      requires start < |players|
      modifies this`total, this`direction, this`flowCount, this`currentIndex, this`previousIndex, this`outcome
      ensures total == 0 && direction == 1 && flowCount == 0 && outcome == Ongoing
      ensures currentIndex == start && previousIndex == (start - 1) % |players|
    {
      var startDirection := 1;
      var previous := NextIndex(start, -startDirection, |players|);
      total, direction, flowCount := 0, startDirection, 0;
      currentIndex, previousIndex, outcome := start, previous, Ongoing;
    }

    /** Empty every hand, then deal two cards to each player from the deck. */
    method DealHands()
      requires discard == []
      modifies this`players, deck
      ensures CardsInPlay() == old(multiset(deck.cards))
      ensures SeatsKept(players, old(players))
      ensures old(|deck.cards|) >= 2 * |players| ==>
                && deck.cards == old(deck.cards[..|deck.cards| - 2 * |players|])
                && forall i :: 0 <= i < |players| ==> players[i].hand == DealtTo(old(deck.cards), |players|, i)
    {
      ghost var roster := players;
      var cleared := ClearHands(players);
      HandCardsEmpty(cleared);
      players := cleared;
      Deal();
      assert SeatsKept(players, roster) by {
        forall j | 0 <= j < |players|
          ensures players[j] == roster[j].(hand := players[j].hand)
        {
          assert players[j] == cleared[j].(hand := players[j].hand);
        }
      }
    }

    /** The deal: two passes round the table. */
    method Deal()
      requires discard == []
      modifies this`players, deck
      ensures CardsInPlay() == old(CardsInPlay())
      ensures SeatsKept(players, old(players))
      ensures TwoPassesDealt(old(deck.cards), old(players), deck.cards, players)
    {
      ghost var d, hands := deck.cards, players;
      DealPass();
      ghost var d1, hands1 := deck.cards, players;
      DealPass();
      TwoPasses(d, hands, d1, hands1, deck.cards, players);
    }

    /** One pass of the deal: a card from the deck to every player in seat order, while the deck lasts. */
    method DealPass()
      requires discard == []
      modifies this`players, deck
      ensures CardsInPlay() == old(CardsInPlay())
      ensures SeatsKept(players, old(players))
      ensures PassDealt(old(deck.cards), old(players), deck.cards, players, |players|)
    {
      ghost var d, ps := deck.cards, players;
      for index := 0 to |players|
        invariant |players| == |old(players)|
        invariant CardsInPlay() == old(CardsInPlay())
        invariant forall j :: 0 <= j < |players| ==> players[j] == old(players[j]).(hand := players[j].hand)
        invariant forall j :: index <= j < |players| ==> players[j] == old(players[j])
        invariant PassDealt(d, ps, deck.cards, players, index)
      {
        ghost var pile, before := deck.cards, players;
        DealOne(index);
        DealtNext(d, ps, pile, before, deck.cards, players, index);
      }
    }

    /** `deck.draw(from: &discard)` into seat `index` during the deal, when the discard pile is empty. */
    method DealOne(index: nat)
      requires index < |players| && discard == []
      modifies this`players, deck
      ensures CardsInPlay() == old(CardsInPlay())
      ensures |players| == |old(players)|
      ensures forall j :: 0 <= j < |players| && j != index ==> players[j] == old(players[j])
      ensures players[index] == old(players[index]).(hand := players[index].hand)
      ensures old(deck.cards) != [] ==>
                && deck.cards == old(deck.cards[..|deck.cards| - 1])
                && players[index].hand == old(players[index].hand + [deck.cards[|deck.cards| - 1]])
      ensures old(deck.cards) == [] ==> deck.cards == [] && players[index] == old(players[index])
    {
      ghost var piles, hands := Piles(), HandCards(players);
      var card, rest := deck.Draw(discard, []);
      if card.Some? {
        GiveCard(index, card.value);
        MoveOne(piles, Piles(), hands, HandCards(players), card.value);
      }
    }

    /** The drawn `card` goes to the end of seat `index`'s hand (`players[index].hand.append`). */
    method GiveCard(index: nat, card: Card)
      requires index < |players|
      modifies this`players
      ensures players == old(players[index := players[index].(hand := players[index].hand + [card])])
      ensures HandCards(players) == old(HandCards(players)) + multiset{card}
    {
      var p := players[index];
      HandCardsSetHand(players, index, p.hand + [card]);
      ghost var hands := HandCards(players);
      players := players[index := p.(hand := p.hand + [card])];
      AddOne(HandCards(players), hands, multiset(p.hand), card);
    }

    /**
     * The turn step of `playRound` (its lines after the card and decision
     * are chosen). `card` is already out of the hand or the pile, so it is
     * the one card missing from the piles and hands.
     */
    method Resolve(card: Card, decision: Decision, playedFromHand: bool, shuffle: nat -> seq<nat>)
      returns (flowCard: Option<Card>, ghost pileBetween: seq<Card>, ghost discardBetween: seq<Card>)
      requires Consistent() && outcome == Ongoing
      requires CardsInPlay() + multiset{card} == allCards
      requires ShuffleSource(shuffle)
      modifies this, deck
      ensures Valid()
      ensures TurnEffect(old(Snapshot()), Snapshot(), decision, flowCard, playedFromHand)
      ensures TurnPiles(old(deck.cards), old(discard), card, shuffle, flowCard, pileBetween, discardBetween,
                        outcome.Ongoing? && playedFromHand, old(players[currentIndex].hand),
                        players[old(currentIndex)].hand, deck.cards, discard)
    {
      ghost var b := Snapshot();
      flowCard := ApplyEffect(card, decision, shuffle);
      ghost var m := Snapshot();
      pileBetween, discardBetween := deck.cards, discard;
      Conclude(playedFromHand, shuffle);
      assert m == Midway(b, Snapshot());
    }

    /** The second half of the turn step: settle and stop, or refill and pass the turn on. */
    method Conclude(playedFromHand: bool, shuffle: nat -> seq<nat>)
      requires Consistent() && discard != []
      requires ShuffleSource(shuffle)
      requires outcome.Busted? ==> outcome.loser < |players|
      requires outcome.SpecialWin? ==> outcome.winner < |players| && outcome.loser < |players|
      modifies this`players, this`discard, this`previousIndex, this`currentIndex, deck
      ensures CardsInPlay() == old(CardsInPlay())
      ensures Aftermath(old(Snapshot()), Snapshot(), playedFromHand)
      ensures if outcome.Ongoing? && playedFromHand
              then Refilled(old(deck.cards), old(discard), shuffle(|old(discard)|), old(players[currentIndex].hand),
                            players[old(currentIndex)].hand, deck.cards, discard)
              else deck.cards == old(deck.cards) && discard == old(discard)
    {
      ghost var m := Snapshot();
      if outcome != Ongoing {
        Settle();
        assert Settled(m, Snapshot());
      } else {
        PassOn(playedFromHand, shuffle);
      }
    }

    /** The round goes on: the replacement card for a play from hand, then the move to the next player. */
    method PassOn(playedFromHand: bool, shuffle: nat -> seq<nat>)
      requires Consistent() && discard != []
      requires ShuffleSource(shuffle)
      modifies this`players, this`discard, this`previousIndex, this`currentIndex, deck
      ensures CardsInPlay() == old(CardsInPlay())
      ensures Passed(old(Snapshot()), Snapshot(), playedFromHand)
      ensures if playedFromHand
              then Refilled(old(deck.cards), old(discard), shuffle(|old(discard)|), old(players[currentIndex].hand),
                            players[old(currentIndex)].hand, deck.cards, discard)
              else deck.cards == old(deck.cards) && discard == old(discard)
    {
      ghost var m := Snapshot();
      if playedFromHand {
        Refill(shuffle);
      }
      Advance();
      assert Passed(m, Snapshot(), playedFromHand);
    }

    /** The move to the next player: `previousPlayerIndex = currentIndex`, then `nextIndex`. */
    method Advance()
      requires Consistent()
      modifies this`previousIndex, this`currentIndex
      ensures previousIndex == old(currentIndex)
      ensures currentIndex == (old(currentIndex) + direction) % |players|
    {
      previousIndex := currentIndex;
      currentIndex := NextIndex(currentIndex, direction, |players|);
    }

    /**
     * The `switch decision.mode` of `playRound`: discard the played card and
     * apply its effect; on exactly 101 reveal a flow card from the deck.
     */
    method ApplyEffect(card: Card, decision: Decision, shuffle: nat -> seq<nat>)
      returns (flowCard: Option<Card>)
      requires Consistent() && outcome == Ongoing
      requires ShuffleSource(shuffle)
      modifies this`total, this`direction, this`discard, this`flowCount, this`outcome, deck
      ensures Piles() == old(Piles()) + multiset{card}
      ensures discard != []
      ensures direction == 1 || direction == -1
      ensures outcome.Ongoing? ==> total != 101
      ensures CardEffect(old(Snapshot()), Snapshot(), decision, flowCard)
      ensures PileEffect(old(deck.cards), old(discard), card, shuffle(|old(discard)| + 1), flowCard, deck.cards, discard)
    {
      ghost var b := Snapshot();
      flowCard := None;
      match decision
      case Skip =>
        Discard(card);
        assert Snapshot() == b;
      case Reverse =>
        direction := direction * -1;
        Discard(card);
        assert Snapshot() == b.(direction := -b.direction);
      case JokerSpecial =>
        Discard(card);
        outcome := SpecialWin(currentIndex, previousIndex);
        assert Snapshot() == b.(outcome := SpecialWin(b.currentIndex, b.previousIndex));
      case Value(delta) =>
        flowCard := AddValue(card, delta, shuffle);
    }

    /** `discard.append(card)`: the played card goes onto the discard pile. */
    method Discard(card: Card)
      modifies this`discard
      ensures discard == old(discard) + [card]
      ensures Piles() == old(Piles()) + multiset{card}
    {
      discard := discard + [card];
    }

    /** The `.value` case: add the delta, then flow on exactly 101 or bust above it. */
    method AddValue(card: Card, delta: int, shuffle: nat -> seq<nat>) returns (flowCard: Option<Card>)
      requires Consistent() && outcome == Ongoing
      requires ShuffleSource(shuffle)
      modifies this`total, this`direction, this`discard, this`flowCount, this`outcome, deck
      ensures Piles() == old(Piles()) + multiset{card}
      ensures discard != []
      ensures direction == 1 || direction == -1
      ensures outcome.Ongoing? ==> total != 101
      ensures CardEffect(old(Snapshot()), Snapshot(), Value(delta), flowCard)
      ensures PileEffect(old(deck.cards), old(discard), card, shuffle(|old(discard)| + 1), flowCard, deck.cards, discard)
    {
      total := total + delta;
      Discard(card);
      flowCard := CheckTotal(shuffle);
      ValuePlayed(old(Snapshot()), Snapshot(), delta, card, flowCard,
                  old(deck.cards), old(discard), shuffle(|old(discard)| + 1), deck.cards, discard);
    }

    /** After a value play: a flow on exactly 101, a bust above it, nothing below. */
    method CheckTotal(shuffle: nat -> seq<nat>) returns (flowCard: Option<Card>)
      requires discard != [] && (direction == 1 || direction == -1) && outcome == Ongoing
      requires ShuffleSource(shuffle)
      modifies this`total, this`direction, this`discard, this`flowCount, this`outcome, deck
      ensures Piles() == old(Piles())
      ensures discard != [] && (direction == 1 || direction == -1)
      ensures outcome.Ongoing? ==> total != 101
      ensures Checked(old(Snapshot()), Snapshot(), flowCard, old(deck.cards), old(discard), shuffle(|old(discard)|), deck.cards, discard)
    {
      flowCard := None;
      if total == 101 {
        flowCard := Flow(shuffle);
      } else if total > 101 {
        outcome := Busted(currentIndex);
      }
    }

    /** The flow on 101: count it, reveal a card from the deck and restart the total from it. */
    method Flow(shuffle: nat -> seq<nat>) returns (flowCard: Option<Card>)
      requires discard != [] && (direction == 1 || direction == -1)
      requires ShuffleSource(shuffle)
      modifies this`total, this`direction, this`flowCount, this`discard, deck
      ensures Piles() == old(Piles())
      ensures discard != [] && (direction == 1 || direction == -1)
      ensures flowCard.Some? && (total, direction) == FlowContribution(flowCard.value, old(direction))
      ensures flowCount == old(flowCount) + 1
      ensures total != 101
      ensures Revealed(old(deck.cards), old(discard), shuffle(|old(discard)|), flowCard.value, deck.cards, discard)
    {
      flowCount := flowCount + 1;
      var drawn := RevealFlowCard(shuffle);
      var flowDirection, contribution := direction, 0;
      if drawn.Some? {
        contribution, flowDirection := FlowContribution(drawn.value, flowDirection).0,
                                       FlowContribution(drawn.value, flowDirection).1;
      }
      direction := flowDirection;
      total := contribution;
      flowCard := drawn;
    }

    /**
     * The flow card: `deck.draw(from: &discard)`, then `discard.append` of
     * the drawn card. The played card lies on the discard pile, so a card can
     * always be drawn.
     */
    method RevealFlowCard(shuffle: nat -> seq<nat>) returns (drawn: Option<Card>)
      requires discard != [] && ShuffleSource(shuffle)
      modifies this`discard, deck
      ensures drawn.Some?
      ensures Piles() == old(Piles())
      ensures Revealed(old(deck.cards), old(discard), shuffle(|old(discard)|), drawn.value, deck.cards, discard)
    {
      drawn := DrawCard(shuffle);
      if drawn.Some? {
        ghost var rest := discard;
        discard := discard + [drawn.value];
        assert discard[..|discard| - 1] == rest;
      }
    }

    /** `deck.draw(from: &discard)` during play: the drawn card leaves the two piles. */
    method DrawCard(shuffle: nat -> seq<nat>) returns (drawn: Option<Card>)
      requires ShuffleSource(shuffle)
      modifies this`discard, deck
      ensures drawn.Some? <==> old(deck.CanDraw(discard))
      ensures drawn.Some? ==> Drew(old(deck.cards), old(discard), shuffle(|old(discard)|), drawn.value, deck.cards, discard)
      ensures Piles() + OptionMultiset(drawn) == old(Piles())
    {
      var rest;
      drawn, rest := deck.Draw(discard, shuffle(|discard|));
      discard := rest;
    }

    /** The replacement card after playing from hand, drawn into the current player's hand. */
    method Refill(shuffle: nat -> seq<nat>)
      requires currentIndex < |players| && discard != []
      requires ShuffleSource(shuffle)
      modifies this`players, this`discard, deck
      ensures CardsInPlay() == old(CardsInPlay())
      ensures |players| == |old(players)|
      ensures forall i :: 0 <= i < |players| && i != currentIndex ==> players[i] == old(players[i])
      ensures var before, after := old(players[currentIndex]), players[currentIndex];
              after == before.(hand := after.hand)
              && |after.hand| == |before.hand| + 1 && after.hand[..|before.hand|] == before.hand
      ensures Refilled(old(deck.cards), old(discard), shuffle(|old(discard)|), old(players[currentIndex].hand),
                       players[currentIndex].hand, deck.cards, discard)
    {
      ghost var piles, hands := Piles(), HandCards(players);
      var drawCard := DrawCard(shuffle);
      if drawCard.Some? {
        GiveCard(currentIndex, drawCard.value);
        MoveOne(piles, Piles(), hands, HandCards(players), drawCard.value);
      }
    }

    /**
     * A human turn that plays hand card `cardIndex` (`hand.remove(at:)`) with
     * the `decisionIndex`-th of its possible decisions; the two indices are
     * the player's console answers.
     */
    method HumanTurn(cardIndex: nat, decisionIndex: nat, shuffle: nat -> seq<nat>)
      returns (card: Card, decision: Decision, flowCard: Option<Card>,
               ghost pileMid: seq<Card>, ghost discardMid: seq<Card>)
      requires Valid() && outcome == Ongoing && ShuffleSource(shuffle)
      requires players[currentIndex].kind == Human
      requires cardIndex < |players[currentIndex].hand|
      requires decisionIndex < |PossibleDecisions(players[currentIndex].hand[cardIndex], total)|
      modifies this, deck
      ensures Valid()
      ensures card == old(players[currentIndex].hand[cardIndex])
      ensures decision == PossibleDecisions(card, old(total))[decisionIndex]
      ensures TurnEffect(WithoutCard(old(Snapshot()), cardIndex), Snapshot(), decision, flowCard, true)
      ensures HandTurnPiles(old(deck.cards), old(discard), old(players[currentIndex].hand), cardIndex, shuffle, flowCard,
                            pileMid, discardMid, outcome.Ongoing?, players[old(currentIndex)].hand, deck.cards, discard)
    {
      card := players[currentIndex].hand[cardIndex];
      decision := PossibleDecisions(card, total)[decisionIndex];
      flowCard, pileMid, discardMid := PlayFromHand(cardIndex, decision, shuffle);
    }

    /**
     * A human turn that draws from the deck and plays the drawn card at
     * once, with decision number `pick(card)` (the player's console answer
     * once the card is shown). The console offers this only while the deck
     * can draw.
     */
    method HumanDrawTurn(pick: Card -> nat, shuffle: nat -> seq<nat>)
      returns (card: Card, decision: Decision, flowCard: Option<Card>,
               ghost pileMid: seq<Card>, ghost discardMid: seq<Card>)
      requires Valid() && outcome == Ongoing && ShuffleSource(shuffle)
      requires players[currentIndex].kind == Human
      requires deck.CanDraw(discard)
      requires forall c :: pick(c) < |PossibleDecisions(c, total)|
      modifies this, deck
      ensures Valid()
      ensures card == NextCard(old(deck.cards), old(discard), shuffle(|old(discard)|))
      ensures decision == PossibleDecisions(card, old(total))[pick(card)]
      ensures TurnEffect(old(Snapshot()), Snapshot(), decision, flowCard, false)
      ensures DrawnTurnPiles(old(deck.cards), old(discard), card, shuffle, flowCard, pileMid, discardMid, deck.cards, discard)
    {
      card := DrawToPlay(shuffle);
      pileMid, discardMid := deck.cards, discard;
      decision := PossibleDecisions(card, total)[pick(card)];
      flowCard := PlayDrawn(card, decision, shuffle);
    }

    /**
     * A CPU turn: `cpuSelectAction` picks a hand card or draws, the card
     * leaves the hand if it came from there, and the turn step runs.
     */
    method CpuTurn(shuffle: nat -> seq<nat>)
      returns (card: Card, decision: Decision, handIndex: Option<nat>, flowCard: Option<Card>,
               ghost pileMid: seq<Card>, ghost discardMid: seq<Card>)
      requires Valid() && outcome == Ongoing && ShuffleSource(shuffle)
      requires players[currentIndex].kind == Cpu
      requires |players[currentIndex].hand| > 0 || deck.CanDraw(discard)
      modifies this, deck
      ensures Valid()
      ensures decision in PossibleDecisions(card, old(total))
      ensures var hand, t := old(players[currentIndex].hand), old(total);
              && (SafeOptionExists(hand, t) ==> handIndex.Some? && FirstBest(hand, t, handIndex.value, decision))
              && (!SafeOptionExists(hand, t) && old(deck.CanDraw(discard)) ==> handIndex.None?)
      ensures var hand, t := old(players[currentIndex].hand), old(total);
              !old(deck.CanDraw(discard)) ==>
                handIndex.Some?
                && (FirstBest(hand, t, handIndex.value, decision)
                    || (AllAtMost(hand, t, IntMin) && handIndex == Some(0) && decision == PossibleDecisions(hand[0], t)[0]))
      ensures handIndex.None? ==>
                decision == PossibleDecisions(card, old(total))[MaxByScore(PossibleDecisions(card, old(total)), old(total))]
      ensures handIndex.Some? ==>
                handIndex.value < old(|players[currentIndex].hand|)
                && card == old(players[currentIndex].hand[handIndex.value])
                && TurnEffect(WithoutCard(old(Snapshot()), handIndex.value), Snapshot(), decision, flowCard, true)
                && HandTurnPiles(old(deck.cards), old(discard), old(players[currentIndex].hand), handIndex.value, shuffle,
                                 flowCard, pileMid, discardMid, outcome.Ongoing?, players[old(currentIndex)].hand,
                                 deck.cards, discard)
      ensures handIndex.None? ==>
                old(deck.CanDraw(discard))
                && card == NextCard(old(deck.cards), old(discard), shuffle(|old(discard)|))
                && TurnEffect(old(Snapshot()), Snapshot(), decision, flowCard, false)
                && DrawnTurnPiles(old(deck.cards), old(discard), card, shuffle, flowCard, pileMid, discardMid, deck.cards, discard)
    {
      var hand := players[currentIndex].hand;
      var order := shuffle(|discard|);
      ghost var pile, oldDiscard, before := deck.cards, discard, Snapshot();
      var rest;
      card, decision, handIndex, rest := CpuSelectAction(hand, total, deck, discard, order);
      discard := rest;
      assert Snapshot() == before;
      if handIndex.Some? {
        flowCard, pileMid, discardMid := PlayFromHand(handIndex.value, decision, shuffle);
      } else {
        flowCard, pileMid, discardMid := PlayDrawnByCpu(card, decision, pile, oldDiscard, shuffle);
      }
    }

    /**
     * The turn step for the card `cpuSelectAction` drew, which left the
     * piles `pile`, `oldDiscard` as they are now.
     */
    method PlayDrawnByCpu(card: Card, decision: Decision, ghost pile: seq<Card>, ghost oldDiscard: seq<Card>,
                          shuffle: nat -> seq<nat>)
      returns (flowCard: Option<Card>, ghost pileMid: seq<Card>, ghost discardMid: seq<Card>)
      requires Consistent() && outcome == Ongoing && ShuffleSource(shuffle)
      requires CardsInPlay() + multiset{card} == allCards
      requires pile != [] || oldDiscard != []
      requires DrawnFrom(pile, oldDiscard, shuffle(|oldDiscard|), card, deck.cards, discard)
      modifies this, deck
      ensures Valid()
      ensures TurnEffect(old(Snapshot()), Snapshot(), decision, flowCard, false)
      ensures DrawnTurnPiles(pile, oldDiscard, card, shuffle, flowCard, pileMid, discardMid, deck.cards, discard)
    {
      DrawnIsNext(pile, oldDiscard, shuffle(|oldDiscard|), card, deck.cards, discard);
      pileMid, discardMid := deck.cards, discard;
      flowCard := PlayDrawn(card, decision, shuffle);
    }

    /** The turn step for a card drawn from the deck: no refill follows. */
    method PlayDrawn(card: Card, decision: Decision, shuffle: nat -> seq<nat>) returns (flowCard: Option<Card>)
      requires Consistent() && outcome == Ongoing
      requires CardsInPlay() + multiset{card} == allCards
      requires ShuffleSource(shuffle)
      modifies this, deck
      ensures Valid()
      ensures TurnEffect(old(Snapshot()), Snapshot(), decision, flowCard, false)
      ensures PileEffect(old(deck.cards), old(discard), card, shuffle(|old(discard)| + 1), flowCard, deck.cards, discard)
    {
      ghost var pileBetween, discardBetween;
      flowCard, pileBetween, discardBetween := Resolve(card, decision, false, shuffle);
    }

    /** The turn step for hand card `k` of the current player, played with `decision`. */
    method PlayFromHand(k: nat, decision: Decision, shuffle: nat -> seq<nat>)
      returns (flowCard: Option<Card>, ghost pileBetween: seq<Card>, ghost discardBetween: seq<Card>)
      requires Valid() && outcome == Ongoing && ShuffleSource(shuffle)
      requires k < |players[currentIndex].hand|
      modifies this, deck
      ensures Valid()
      ensures TurnEffect(WithoutCard(old(Snapshot()), k), Snapshot(), decision, flowCard, true)
      ensures HandTurnPiles(old(deck.cards), old(discard), old(players[currentIndex].hand), k, shuffle, flowCard,
                            pileBetween, discardBetween, outcome.Ongoing?, players[old(currentIndex)].hand,
                            deck.cards, discard)
    {
      ghost var h := players[currentIndex].hand;
      var card := TakeFromHand(k);
      assert players[currentIndex].hand == h[..k] + h[k + 1..];
      flowCard, pileBetween, discardBetween := Resolve(card, decision, true, shuffle);
    }

    /** `hand.remove(at: k)` on the current player's hand. */
    method TakeFromHand(k: nat) returns (card: Card)
      requires currentIndex < |players| && k < |players[currentIndex].hand|
      modifies this`players
      ensures card == old(players[currentIndex].hand[k])
      ensures Snapshot() == WithoutCard(old(Snapshot()), k)
      ensures HandCards(players) + multiset{card} == old(HandCards(players))
    {
      var p := players[currentIndex];
      card := p.hand[k];
      var rest := p.hand[..k] + p.hand[k + 1..];
      assert p.hand == p.hand[..k] + [card] + p.hand[k + 1..];
      HandCardsSetHand(players, currentIndex, rest);
      ghost var hands := HandCards(players);
      players := players[currentIndex := p.(hand := rest)];
      TakeOne(HandCards(players), hands, multiset(rest), card);
    }

    /** The draw of a human who plays straight from the deck. */
    method DrawToPlay(shuffle: nat -> seq<nat>) returns (card: Card)
      requires deck.CanDraw(discard) && ShuffleSource(shuffle)
      modifies this`discard, deck
      ensures Piles() + multiset{card} == old(Piles())
      ensures card == NextCard(old(deck.cards), old(discard), shuffle(|old(discard)|))
      ensures Drew(old(deck.cards), old(discard), shuffle(|old(discard)|), card, deck.cards, discard)
    {
      var order := shuffle(|discard|);
      ghost var pile, oldDiscard := deck.cards, discard;
      var drawn, rest := deck.Draw(discard, order);
      discard := rest;
      card := drawn.value;
      DrawnIsNext(pile, oldDiscard, order, card, deck.cards, rest);
    }

    /** The settlement at the end of a round: `penalty = flowCount + 1`. */
    method Settle()
      requires Consistent() && !outcome.Ongoing?
      requires outcome.Busted? ==> outcome.loser < |players|
      requires outcome.SpecialWin? ==> outcome.winner < |players| && outcome.loser < |players|
      modifies this`players
      ensures |players| == |old(players)|
      ensures forall i :: 0 <= i < |players| ==>
                players[i] == old(players[i]).(score := old(players[i].score) + ScoreChange(outcome, flowCount + 1, i))
      ensures HandCards(players) == HandCards(old(players))
    {
      var penalty := flowCount + 1;
      match outcome {
        case SpecialWin(winner, loser) =>
          players := players[winner := players[winner].(score := players[winner].score + penalty)];
          players := players[loser := players[loser].(score := players[loser].score - penalty)];
        case Busted(loser) =>
          players := players[loser := players[loser].(score := players[loser].score - penalty)];
      }
      HandCardsSameHands(players, old(players));
    }
  }

  method NewDeck(order: seq<nat>) returns (d: Deck)
    requires IsPermutation(order, 54)
    ensures fresh(d) && d.cards == Permute(FullDeck(), order)
    ensures multiset(d.cards) == multiset(FullDeck()) && |d.cards| == 54
  {
    d := new Deck(order);
  }

  method ClearHands(roster: seq<Player>) returns (cleared: seq<Player>)
    ensures |cleared| == |roster|
    ensures forall j :: 0 <= j < |cleared| ==> cleared[j] == roster[j].(hand := [])
  {
    cleared := roster;
    for i := 0 to |cleared|
      invariant |cleared| == |roster|
      invariant forall j :: 0 <= j < i ==> cleared[j] == roster[j].(hand := [])
      invariant forall j :: i <= j < |cleared| ==> cleared[j] == roster[j]
    {
      cleared := cleared[i := cleared[i].(hand := [])];
    }
  }

  /** `ps` is `qs` up to the cards in the hands. */
  ghost predicate SeatsKept(ps: seq<Player>, qs: seq<Player>)
  {
    |ps| == |qs| && forall j :: 0 <= j < |ps| ==> ps[j] == qs[j].(hand := ps[j].hand)
  }

  /**
   * A pass of the deal from pile `d` has served seats `0 .. k - 1` of `ps`
   * (when `d` holds a card for every seat): the pile lost its top `k` cards
   * and seat `j` got the `j`-th card from the top at the end of its hand.
   */
  ghost predicate PassDealt(d: seq<Card>, ps: seq<Player>, pile: seq<Card>, ps': seq<Player>, k: nat)
  {
    |d| >= |ps| >= k && |ps'| == |ps| ==>
      && pile == d[..|d| - k]
      && forall j :: 0 <= j < k ==> ps'[j].hand == ps[j].hand + [d[|d| - 1 - j]]
  }

  /** Dealing the pile's top card to seat `k` extends a pass by one seat. */
  lemma DealtNext(d: seq<Card>, ps: seq<Player>, pile: seq<Card>, qs: seq<Player>, pile': seq<Card>, qs': seq<Player>, k: nat)
    requires PassDealt(d, ps, pile, qs, k)
    requires k < |ps| == |qs| == |qs'| && qs[k] == ps[k]
    requires forall j :: 0 <= j < |qs| && j != k ==> qs'[j] == qs[j]
    requires pile != [] ==> pile' == pile[..|pile| - 1] && qs'[k].hand == qs[k].hand + [pile[|pile| - 1]]
    ensures PassDealt(d, ps, pile', qs', k + 1)
  {
    if |d| >= |ps| {
      assert pile[|pile| - 1] == d[|d| - 1 - k];
    }
  }

  /** Both passes of the deal from pile `d`: seat `j` got the cards `DealtTo(d, |ps|, j)`. */
  ghost predicate TwoPassesDealt(d: seq<Card>, ps: seq<Player>, pile: seq<Card>, ps': seq<Player>)
  {
    |d| >= 2 * |ps| && |ps'| == |ps| ==>
      && pile == d[..|d| - 2 * |ps|]
      && forall j :: 0 <= j < |ps| ==> ps'[j].hand == ps[j].hand + DealtTo(d, |ps|, j)
  }

  /** Two full passes, one after the other, deal `DealtTo` to every seat. */
  lemma TwoPasses(d: seq<Card>, ps: seq<Player>, d1: seq<Card>, ps1: seq<Player>, d2: seq<Card>, ps2: seq<Player>)
    requires |ps1| == |ps2| == |ps|
    requires PassDealt(d, ps, d1, ps1, |ps|) && PassDealt(d1, ps1, d2, ps2, |ps|)
    ensures TwoPassesDealt(d, ps, d2, ps2)
  {
    if |d| >= 2 * |ps| {
      var n, p := |d|, |ps|;
      forall j | 0 <= j < p
        ensures ps2[j].hand == ps[j].hand + DealtTo(d, p, j)
      {
        assert d1[n - p - 1 - j] == d[n - p - 1 - j];
      }
    }
  }

  /**
   * The two cards seat `j` of `p` seats is dealt from pile `d`: the first
   * pass hands out the top `p` cards in seat order, the second the next `p`.
   */
  function DealtTo(d: seq<Card>, p: nat, j: nat): seq<Card>
    requires j < p && 2 * p <= |d|
  {
    [d[|d| - 1 - j], d[|d| - 1 - p - j]]
  }

  /** Moving one card from the piles into the hands keeps the total. */
  lemma MoveOne(piles: multiset<Card>, piles': multiset<Card>, hands: multiset<Card>, hands': multiset<Card>, c: Card)
    requires piles' + multiset{c} == piles
    requires hands' == hands + multiset{c}
    ensures piles' + hands' == piles + hands
  {
  }

  /** Adding one card to one hand adds it to all the hands. */
  lemma AddOne(hands': multiset<Card>, hands: multiset<Card>, hand: multiset<Card>, c: Card)
    requires hands' + hand == hands + (hand + multiset{c})
    ensures hands' == hands + multiset{c}
  {
    forall x
      ensures hands'[x] == (hands + multiset{c})[x]
    {
      assert (hands' + hand)[x] == (hands + (hand + multiset{c}))[x];
    }
  }

  /** Taking one card out of a hand takes it out of all the hands. */
  lemma TakeOne(hands': multiset<Card>, hands: multiset<Card>, rest: multiset<Card>, c: Card)
    requires hands' + (rest + multiset{c}) == hands + rest
    ensures hands' + multiset{c} == hands
  {
    forall x
      ensures (hands' + multiset{c})[x] == hands[x]
    {
      assert (hands' + (rest + multiset{c}))[x] == (hands + rest)[x];
    }
  }

  /** Hands that are all empty hold no cards. */
  lemma {:induction false} HandCardsEmpty(ps: seq<Player>)
    requires forall i :: 0 <= i < |ps| ==> ps[i].hand == []
    ensures HandCards(ps) == multiset{}
  {
    if ps != [] {
      HandCardsEmpty(ps[..|ps| - 1]);
    }
  }

  /** The sum of all scores. */
  function ScoreSum(ps: seq<Player>): int
  {
    if ps == [] then 0 else ScoreSum(ps[..|ps| - 1]) + ps[|ps| - 1].score
  }

  /** The sum of `ScoreChange` over the seats 0 .. n - 1. */
  function ChangeSum(outcome: Outcome, penalty: int, n: nat): int
  {
    match outcome
    case Ongoing => 0
    case Busted(loser) => if loser < n then -penalty else 0
    case SpecialWin(winner, loser) =>
      (if winner < n then penalty else 0) - (if loser < n then penalty else 0)
  }

  /** Changing every score by its `ScoreChange` changes the sum by `ChangeSum`. */
  lemma {:induction false} ScoreSumShift(ps: seq<Player>, qs: seq<Player>, outcome: Outcome, penalty: int)
    requires |ps| == |qs|
    requires forall i :: 0 <= i < |ps| ==> ps[i].score == qs[i].score + ScoreChange(outcome, penalty, i)
    ensures ScoreSum(ps) == ScoreSum(qs) + ChangeSum(outcome, penalty, |ps|)
  {
    if ps != [] {
      var n := |ps| - 1;
      ScoreSumShift(ps[..n], qs[..n], outcome, penalty);
    }
  }

  /**
   * The settlement is zero-sum for the special win (the winner's gain is
   * the loser's loss) and costs exactly the penalty on a bust; a turn that
   * does not end the round leaves every score alone.
   */
  lemma SettlementBalance(b: Table, a: Table, d: Decision, flowCard: Option<Card>, playedFromHand: bool)
    requires TurnEffect(b, a, d, flowCard, playedFromHand)
    requires b.previousIndex < |b.players|
    ensures ScoreSum(a.players) == ScoreSum(b.players) - (if a.outcome.Busted? then a.flowCount + 1 else 0)
  {
    var m := Midway(b, a);
    forall i | 0 <= i < |a.players|
      ensures a.players[i].score == b.players[i].score + ScoreChange(a.outcome, a.flowCount + 1, i)
    {
      if a.outcome.Ongoing? && i == b.currentIndex {
        assert a.players[i] == m.players[i].(hand := a.players[i].hand);
      }
    }
    ScoreSumShift(a.players, b.players, a.outcome, a.flowCount + 1);
  }

  /** The seats of `startGame`: the human first, then `cpuCount` CPUs, with at least one CPU. */
  function Roster(cpuCount: nat): (r: seq<Player>)
    requires cpuCount <= 3
    ensures |r| == if cpuCount == 0 then 2 else cpuCount + 1
    ensures r[0].kind == Human && forall i :: 1 <= i < |r| ==> r[i].kind == Cpu
    ensures forall i :: 0 <= i < |r| ==> r[i].id == i && r[i].hand == [] && r[i].score == 0
  {
    var cpus := seq(cpuCount, i requires 0 <= i < cpuCount => Player(i + 1, CpuName(i + 1), Cpu, [], 0));
    var seats := [Player(0, "あなた", Human, [], 0)] + cpus;
    if |seats| < 2 then seats + [Player(|seats|, "CPU1", Cpu, [], 0)] else seats
  }

  /** `"CPU\(k)"` for a one-digit k. */
  function CpuName(k: nat): string
    requires k <= 9
  {
    "CPU" + [('0' as int + k) as char]
  }

  /**
   * The game loop of `startGame` stops once some score is at -5 or below,
   * which is exactly when the final loser's score is.
   */
  predicate GameOver(players: seq<Player>)
    ensures GameOver(players) <==> players != [] && players[FinalLoser(players).value].score <= -5
  {
    exists i :: 0 <= i < |players| && players[i].score <= -5
  }

  /** `players.min(by: score)`: the first seat with the lowest score. */
  function FinalLoser(players: seq<Player>): (k: Option<nat>)
    ensures k.None? <==> players == []
    ensures k.Some? ==>
              && k.value < |players|
              && (forall i :: 0 <= i < |players| ==> players[k.value].score <= players[i].score)
              && (forall i :: 0 <= i < k.value ==> players[i].score > players[k.value].score)
  {
    if players == [] then None
    else
      var n := |players| - 1;
      match FinalLoser(players[..n])
      case None => Some(n)
      case Some(k) => if players[n].score < players[k].score then Some(n) else Some(k)
  }
}
