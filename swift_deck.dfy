/**
 * The draw pile of the Swift game (`struct Deck` in Sources/main.swift).
 * The pile is a stack: `draw` takes its last card. The discard pile is owned
 * by the round and passed in and out (Swift's `inout [Card]`); when the
 * pile runs dry, the discard is shuffled into it and emptied. Each shuffle is
 * an index permutation supplied by the caller.
 */
module SwiftDeck {
  import opened Common
  import opened Permutations
  import opened SwiftCards

  /**
   * What a successful draw did: it took the last card of the pile, or, when
   * the pile was empty, refilled the pile from the shuffled discard (now
   * empty) and took the last card of that.
   */
  ghost predicate DrawnFrom(oldPile: seq<Card>, discard: seq<Card>, order: seq<nat>,
                            card: Card, pile: seq<Card>, rest: seq<Card>)
  {
    && (oldPile != [] ==> oldPile == pile + [card] && rest == discard)
    && (oldPile == [] ==>
          IsPermutation(order, |discard|) && pile + [card] == Permute(discard, order) && rest == [])
  }

  /** The card the next draw hands out: the top of the pile, or of the reshuffled discard pile. */
  ghost function NextCard(pile: seq<Card>, discard: seq<Card>, order: seq<nat>): Card
    requires pile != [] || (discard != [] && IsPermutation(order, |discard|))
  {
    if pile != [] then pile[|pile| - 1] else Permute(discard, order)[|discard| - 1]
  }

  /** A successful draw hands out exactly `NextCard`. */
  lemma DrawnIsNext(oldPile: seq<Card>, discard: seq<Card>, order: seq<nat>, card: Card, pile: seq<Card>, rest: seq<Card>)
    requires DrawnFrom(oldPile, discard, order, card, pile, rest)
    requires oldPile != [] || (discard != [] && IsPermutation(order, |discard|))
    ensures card == NextCard(oldPile, discard, order)
  {
    if oldPile == [] {
      assert (pile + [card])[|discard| - 1] == card;
    } else {
      assert (pile + [card])[|oldPile| - 1] == card;
    }
  }

  /**
   * A draw from `pile` (with `discard` behind it) handed out `card`, the next
   * card, and left `pile'` and `rest`.
   */
  ghost predicate Drew(pile: seq<Card>, discard: seq<Card>, order: seq<nat>,
                       card: Card, pile': seq<Card>, rest: seq<Card>)
  {
    && DrawnFrom(pile, discard, order, card, pile', rest)
    && (pile != [] || discard != [])
    && card == NextCard(pile, discard, order)
  }

  class Deck {
    var cards: seq<Card>

    /** `Deck()`: a freshly reset, shuffled standard deck. */
    constructor (order: seq<nat>)
      requires IsPermutation(order, 54)
      ensures cards == Permute(FullDeck(), order)
      ensures multiset(cards) == multiset(FullDeck())
    {
      cards := [];
      new;
      Reset(order);
    }

    /**
     * Rebuilds the standard deck suit by suit, adds the two Jokers and
     * shuffles with `order`.
     */
    method Reset(order: seq<nat>)
      requires IsPermutation(order, 54)
      modifies this
      ensures cards == Permute(FullDeck(), order)
      ensures multiset(cards) == multiset(FullDeck())
    {
      cards := [];
      for k := 0 to |StandardSuits|
        invariant cards == SuitRows(StandardSuits[..k])
      {
        assert StandardSuits[..k + 1][..k] == StandardSuits[..k];
        cards := cards + SuitRow(StandardSuits[k]);
      }
      assert StandardSuits[..|StandardSuits|] == StandardSuits;
      cards := cards + [Card(Joker, None)];
      cards := cards + [Card(Joker, None)];
      assert cards == FullDeck();
      FullDeckContents();
      PermutePreservesMultiset(cards, order);
      cards := Permute(cards, order);
    }

    /** `canDraw(using:)`: some card is left in the pile or in the discard. */
    predicate CanDraw(discard: seq<Card>)
      reads this
      ensures CanDraw(discard) <==> |cards| + |discard| > 0
    {
      cards != [] || discard != []
    }

    /**
     * `reshuffle(from:)`: a no-op on an empty discard; otherwise the pile
     * becomes the shuffled discard and the discard is emptied.
     */
    method Reshuffle(discard: seq<Card>, order: seq<nat>) returns (rest: seq<Card>)
      requires IsPermutation(order, |discard|)
      modifies this
      ensures discard == [] ==> cards == old(cards)
      ensures discard != [] ==> cards == Permute(discard, order)
      ensures discard != [] ==> multiset(cards) == multiset(discard)
      ensures rest == []
    {
      if discard == [] {
        return discard;
      }
      PermutePreservesMultiset(discard, order);
      cards := Permute(discard, order);
      rest := [];
    }

    /**
     * `draw(from:)`: pops the last card of the pile, first refilling the pile
     * from the discard when it is empty. Returns `None` only when both piles
     * are empty. No card is created or lost.
     */
    method Draw(discard: seq<Card>, order: seq<nat>) returns (card: Option<Card>, rest: seq<Card>)
      requires IsPermutation(order, |discard|)
      modifies this
      ensures card.Some? <==> old(CanDraw(discard))
      ensures card.Some? ==> DrawnFrom(old(cards), discard, order, card.value, cards, rest)
      ensures card.Some? ==> Drew(old(cards), discard, order, card.value, cards, rest)
      ensures card.None? ==> cards == [] && rest == []
      ensures multiset(cards) + multiset(rest) + OptionMultiset(card)
           == old(multiset(cards)) + multiset(discard)
    {
      rest := discard;
      if cards == [] {
        rest := Reshuffle(discard, order);
      }
      if cards == [] {
        card := None;
      } else {
        var n := |cards| - 1;
        assert cards == cards[..n] + [cards[n]];
        card := Some(cards[n]);
        cards := cards[..n];
        DrawnIsNext(old(cards), discard, order, card.value, cards, rest);
      }
    }
  }
}
