/**
 * The Python deck (game101/deck.py): a list of cards used as a stack, shuffled
 * once when built. `random.shuffle` is an index permutation supplied by the
 * caller.
 */
module Game101Deck {
  import opened Common
  import opened Permutations
  import opened Game101Card

  /** The message of the `RuntimeError` raised by drawing from an empty deck. */
  const EmptyDeckMessage := "The deck is empty. No more cards can be drawn."

  /** The cards a deck starts from: the given ones, or a standard deck when none are given. */
  function InitialCards(given: Option<seq<Card>>): seq<Card>
  {
    if given.Some? then given.value else CreateStandardDeck()
  }

  class Deck {
    var cards: seq<Card>

    /** `Deck(cards)`: copy the given cards (or a standard deck), then shuffle. */
    constructor (given: Option<seq<Card>>, order: seq<nat>)
      requires IsPermutation(order, |InitialCards(given)|)
      ensures cards == Permute(InitialCards(given), order)
      ensures multiset(cards) == multiset(InitialCards(given))
    {
      cards := InitialCards(given);
      new;
      Shuffle(order);
    }

    /** `shuffle`: reorder the cards in place. */
    method Shuffle(order: seq<nat>)
      requires IsPermutation(order, |cards|)
      modifies this
      ensures cards == Permute(old(cards), order)
      ensures multiset(cards) == multiset(old(cards))
    {
      PermutePreservesMultiset(cards, order);
      cards := Permute(cards, order);
    }

    /** `draw`: an error on an empty deck, otherwise pop the last card. */
    method Draw() returns (r: Result<Card, string>)
      modifies this
      ensures old(Iter()) == [] ==> r == Err(EmptyDeckMessage) && Iter() == []
      ensures old(Iter()) != [] ==> r.Ok? && old(Iter()) == Iter() + [r.value]
    {
      if cards == [] {
        return Err(EmptyDeckMessage);
      }
      var n := |cards| - 1;
      r := Ok(cards[n]);
      cards := cards[..n];
    }

    /** `__len__`. */
    function Len(): (n: nat)
      reads this
      ensures n == |Iter()|
    {
      |cards|
    }

    /** `__iter__`: the cards in stored order, bottom first, the next draw last. */
    function Iter(): seq<Card>
      reads this
    {
      cards
    }
  }

  /** A default deck holds 52 cards, all different, one of every (suit, rank) pair. */
  lemma DefaultDeckDistinct(order: seq<nat>)
    requires IsPermutation(order, 52)
    ensures |Permute(CreateStandardDeck(), order)| == 52
    ensures forall i, j :: 0 <= i < j < 52 ==>
              Permute(CreateStandardDeck(), order)[i] != Permute(CreateStandardDeck(), order)[j]
    ensures forall c: Card :: c in Permute(CreateStandardDeck(), order)
  {
    var d := CreateStandardDeck();
    StandardDeckComplete();
    PermutePreservesDistinct(d, order);
    PermutePreservesMultiset(d, order);
    forall c: Card
      ensures c in Permute(d, order)
    {
      assert c in d;
      assert c in multiset(d);
    }
  }
}
