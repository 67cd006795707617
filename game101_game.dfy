/**
 * One round of the Python variant (game101/game.py): a human and a computer
 * player, each with a hand, drawing from one deck. Drawing from an empty
 * deck raises, which here is an `Err` result that stops the operation where
 * the exception would.
 */
module Game101Game {
  import opened Common
  import opened Permutations
  import opened Game101Card
  import opened Game101Deck
  import opened Game101Hand

  /** The computer draws while its best total is below this. */
  const StandAt := 85

  /** The message of the `RuntimeError` raised by asking a human player. */
  const HumanOnlyMessage := "wants_card should not be called for human players."

  /**
   * The condition that ends `computer_turn`, in closed form over the sum of
   * the card values and the number of aces: every total is above 101, or
   * the highest total at most 101 is at least 85.
   */
  predicate Stops(cards: seq<Card>)
    ensures Lowest(cards) >= StandAt ==> Stops(cards)
    ensures HandSum(cards) < StandAt ==> !Stops(cards)
  {
    var lo := Lowest(cards);
    lo > MaxTotal || lo + 10 * (KeptCount(cards) - 1) >= StandAt
  }

  /**
   * `Stops` is the loop's exit condition: the hand is bust or the computer
   * no longer wants a card. Since a bust hand's best total is above 101,
   * the exit condition is the same as a best total of at least 85.
   */
  lemma StopsIff(cards: seq<Card>)
    ensures Stops(cards) <==> AllOver(TotalsOf(cards)) || !(BestOf(TotalsOf(cards)) < StandAt)
    ensures Stops(cards) <==> BestOf(TotalsOf(cards)) >= StandAt
  {
    BestTotalClosedForm(cards);
    BustIffBestOver(TotalsOf(cards));
  }

  /** `s` read from its end: the order in which cards leave the top of a deck. */
  function Reversed<T>(s: seq<T>): (r: seq<T>)
    ensures |r| == |s|
  {
    seq(|s|, i requires 0 <= i < |s| => s[|s| - 1 - i])
  }

  lemma ReversedCons<T>(x: T, s: seq<T>)
    ensures Reversed([x] + s) == Reversed(s) + [x]
  {
  }

  lemma ReversedSnoc<T>(s: seq<T>, x: T)
    ensures Reversed(s + [x]) == [x] + Reversed(s)
  {
  }

  lemma ReversedTwice<T>(s: seq<T>)
    ensures Reversed(Reversed(s)) == s
  {
  }

  lemma {:induction false} ReversedMultiset<T>(s: seq<T>)
    ensures multiset(Reversed(s)) == multiset(s)
  {
    if s != [] {
      var init := s[..|s| - 1];
      ReversedMultiset(init);
      ReversedSnoc(init, s[|s| - 1]);
      assert s == init + [s[|s| - 1]];
    }
  }

  /** Moving the top card of `d` onto the end of `h` keeps the cards of `d`, `h` and `other` together. */
  lemma MoveTop<T>(d: seq<T>, rest: seq<T>, h: seq<T>, h': seq<T>, other: seq<T>)
    requires d != [] && rest == d[..|d| - 1] && h' == h + [d[|d| - 1]]
    ensures multiset(rest) + multiset(h') + multiset(other) == multiset(d) + multiset(h) + multiset(other)
  {
    assert d == rest + [d[|d| - 1]];
  }

  /** Every second card from the top of `d`, `k` of them, the first `skip` places below the top. */
  function Alternate<T>(d: seq<T>, k: nat, skip: nat): seq<T>
    requires 2 * k + skip <= |d| + 2 && skip >= 1
  {
    seq(k, j requires 0 <= j < k => d[|d| - skip - 2 * j])
  }

  lemma AlternateNext<T>(d: seq<T>, k: nat, skip: nat)
    requires 2 * (k + 1) + skip <= |d| + 2 && skip >= 1
    ensures Alternate(d, k + 1, skip) == Alternate(d, k, skip) + [d[|d| - skip - 2 * k]]
  {
  }

  /** After `k` rounds of dealing from `d`, one more round takes the next two cards of the pile. */
  lemma PairDealt<T>(d: seq<T>, k: nat, pile: seq<T>, rest: seq<T>, h0: seq<T>, c0: seq<T>)
    requires 2 * k + 2 <= |d| && pile == d[..|d| - 2 * k] && rest == pile[..|pile| - 2]
    ensures rest == d[..|d| - 2 * (k + 1)]
    ensures h0 + Alternate(d, k + 1, 1) == h0 + Alternate(d, k, 1) + [pile[|pile| - 1]]
    ensures c0 + Alternate(d, k + 1, 2) == c0 + Alternate(d, k, 2) + [pile[|pile| - 2]]
  {
    AlternateNext(d, k, 1);
    AlternateNext(d, k, 2);
  }

  /**
   * Dealing the top cards of `d` alternately, the first to the human, `hk`
   * of them to the human and `ck` to the computer, hands out exactly the
   * cards taken from the top of the deck.
   */
  lemma DealtFromTop<T>(d: seq<T>, hk: nat, ck: nat)
    requires ck <= hk <= ck + 1 && hk + ck <= |d|
    ensures multiset(Alternate(d, hk, 1)) + multiset(Alternate(d, ck, 2)) == multiset(d[|d| - (hk + ck)..])
  {
    if hk == ck {
      DealtPairs(d, ck);
      assert |d| - (hk + ck) == |d| - 2 * ck;
    } else {
      DealtOdd(d, ck);
      assert hk == ck + 1 && |d| - (hk + ck) == |d| - (2 * ck + 1);
    }
  }

  /** `DealtFromTop` after `k` full rounds, by induction on `k`. */
  lemma {:induction false} DealtPairs<T>(d: seq<T>, k: nat)
    requires 2 * k <= |d|
    ensures multiset(Alternate(d, k, 1)) + multiset(Alternate(d, k, 2)) == multiset(d[|d| - 2 * k..])
  {
    if k == 0 {
      assert d[|d|..] == [] && Alternate(d, 0, 1) == [] && Alternate(d, 0, 2) == [];
    } else {
      var k' := k - 1;
      DealtPairs(d, k');
      assert Alternate(d, k, 1) == Alternate(d, k', 1) + [d[|d| - 2 * k + 1]];
      assert Alternate(d, k, 2) == Alternate(d, k', 2) + [d[|d| - 2 * k]];
      var mid := |d| - 2 * k + 1;
      ToFirst(d, |d| - 2 * k', mid, Alternate(d, k', 1), Alternate(d, k, 1), Alternate(d, k', 2));
      ToSecond(d, mid, |d| - 2 * k, Alternate(d, k, 1), Alternate(d, k', 2), Alternate(d, k, 2));
    }
  }

  /** `DealtFromTop` after `k` full rounds and one more card to the human. */
  lemma DealtOdd<T>(d: seq<T>, k: nat)
    requires 2 * k + 1 <= |d|
    ensures multiset(Alternate(d, k + 1, 1)) + multiset(Alternate(d, k, 2)) == multiset(d[|d| - (2 * k + 1)..])
  {
    DealtPairs(d, k);
    assert Alternate(d, k + 1, 1) == Alternate(d, k, 1) + [d[|d| - (2 * k + 1)]];
    ToFirst(d, |d| - 2 * k, |d| - (2 * k + 1), Alternate(d, k, 1), Alternate(d, k + 1, 1), Alternate(d, k, 2));
  }

  /** The card at `i`, just below the cards already dealt, goes to the first hand. */
  lemma ToFirst<T>(d: seq<T>, j: nat, i: nat, a: seq<T>, a': seq<T>, b: seq<T>)
    requires i + 1 == j <= |d| && a' == a + [d[i]]
    requires multiset(a) + multiset(b) == multiset(d[j..])
    ensures multiset(a') + multiset(b) == multiset(d[i..])
  {
    assert d[i..] == [d[i]] + d[j..];
  }

  /** The card at `i`, just below the cards already dealt, goes to the second hand. */
  lemma ToSecond<T>(d: seq<T>, j: nat, i: nat, a: seq<T>, b: seq<T>, b': seq<T>)
    requires i + 1 == j <= |d| && b' == b + [d[i]]
    requires multiset(a) + multiset(b) == multiset(d[j..])
    ensures multiset(a) + multiset(b') == multiset(d[i..])
  {
    assert d[i..] == [d[i]] + d[j..];
  }

  /**
   * Dealing creates and loses no card: the deck and the two hands hold the
   * same cards before and after.
   */
  lemma DealingConserves<T>(d: seq<T>, hk: nat, ck: nat, h0: seq<T>, c0: seq<T>)
    requires ck <= hk <= ck + 1 && hk + ck <= |d|
    ensures multiset(d[..|d| - (hk + ck)]) + multiset(h0 + Alternate(d, hk, 1)) + multiset(c0 + Alternate(d, ck, 2))
            == multiset(d) + multiset(h0) + multiset(c0)
  {
    DealtFromTop(d, hk, ck);
    assert d == d[..|d| - (hk + ck)] + d[|d| - (hk + ck)..];
  }

  /**
   * One more card for a hand that did not stop: still no hand from the
   * starting one up to, but not including, the last one stops.
   */
  lemma PrefixesKept<T>(stops: seq<T> -> bool, c0: seq<T>, taken: seq<T>, card: T)
    requires forall m :: |c0| <= m < |c0 + taken| ==> !stops((c0 + taken)[..m])
    requires !stops(c0 + taken)
    ensures forall m :: |c0| <= m < |c0 + (taken + [card])| ==> !stops((c0 + (taken + [card]))[..m])
  {
    var h := c0 + taken;
    assert c0 + (taken + [card]) == h + [card];
    forall m | |c0| <= m < |h + [card]|
      ensures !stops((h + [card])[..m])
    {
      assert (h + [card])[..m] == h[..m];
      if m == |h| {
        assert h[..m] == h;
      }
    }
  }

  /** Taking the top card of what is left of `d0` extends the cards taken, in drawing order. */
  lemma TopTaken<T>(d0: seq<T>, d: seq<T>, rest: seq<T>, taken: seq<T>)
    requires |d| <= |d0| && d == d0[..|d|] && taken == Reversed(d0[|d|..])
    requires d != [] && rest == d[..|d| - 1]
    ensures |rest| <= |d0| && rest == d0[..|rest|]
    ensures Reversed(d0[|rest|..]) == taken + [d[|d| - 1]]
  {
    assert d0[|rest|..] == [d[|d| - 1]] + d0[|d|..];
    ReversedCons(d[|d| - 1], d0[|d|..]);
  }

  /**
   * The cards drawn by `computer_turn` sit after the starting hand, and are
   * the cards gone from the top of the deck, the first drawn being the old top.
   */
  lemma DrawnFromTop(c0: seq<Card>, taken: seq<Card>, rest: seq<Card>, d0: seq<Card>, other: seq<Card>)
    requires |rest| <= |d0| && rest == d0[..|rest|] && taken == Reversed(d0[|rest|..])
    ensures (c0 + taken)[..|c0|] == c0
    ensures rest + Reversed((c0 + taken)[|c0|..]) == d0
    ensures multiset(rest) + multiset(other) + multiset(c0 + taken) == multiset(d0) + multiset(other) + multiset(c0)
  {
    assert (c0 + taken)[..|c0|] == c0 && (c0 + taken)[|c0|..] == taken;
    ReversedTwice(d0[|rest|..]);
    assert d0 == rest + d0[|rest|..];
    ReversedMultiset(d0[|rest|..]);
  }

  class Player {
    const name: string
    var hand: Hand
    const isComputer: bool

    constructor (name: string, hand: Hand, isComputer: bool)
      ensures this.name == name && this.hand == hand && this.isComputer == isComputer
    {
      this.name, this.hand, this.isComputer := name, hand, isComputer;
    }

    /** `wants_card`: an error for a human; for the computer, a best total below 85. */
    method WantsCard() returns (r: Result<bool, string>)
      ensures !isComputer ==> r == Err(HumanOnlyMessage)
      ensures isComputer ==> r == Ok(BestOf(TotalsOf(hand.cards)) < StandAt)
    {
      if !isComputer {
        return Err(HumanOnlyMessage);
      }
      var best := hand.BestTotal();
      return Ok(best < StandAt);
    }
  }

  datatype Side = HumanSide | ComputerSide

  /** The decision of `winner` from the two best totals. */
  function Decide(humanTotal: int, computerTotal: int): (r: Option<Side>)
    ensures r == Some(HumanSide) <==>
              humanTotal <= MaxTotal && (computerTotal > MaxTotal || humanTotal > computerTotal)
    ensures r == Some(ComputerSide) <==>
              computerTotal <= MaxTotal && (humanTotal > MaxTotal || computerTotal > humanTotal)
    ensures r == None <==>
              (humanTotal > MaxTotal && computerTotal > MaxTotal)
              || (humanTotal <= MaxTotal && computerTotal <= MaxTotal && humanTotal == computerTotal)
  {
    var humanBust, computerBust := humanTotal > MaxTotal, computerTotal > MaxTotal;
    if humanBust && computerBust then None
    else if humanBust then Some(ComputerSide)
    else if computerBust then Some(HumanSide)
    else if humanTotal > computerTotal then Some(HumanSide)
    else if computerTotal > humanTotal then Some(ComputerSide)
    else None
  }

  function Other(s: Side): Side
  {
    if s == HumanSide then ComputerSide else HumanSide
  }

  /** `winner` treats the two players alike: swapping the totals swaps the winner. */
  lemma DecideSymmetric(humanTotal: int, computerTotal: int)
    ensures Decide(computerTotal, humanTotal) ==
              match Decide(humanTotal, computerTotal)
              case None => None
              case Some(s) => Some(Other(s))
  {
  }

  /** A hand without aces at most 101 has its plain sum as its best total. */
  lemma NoAceBest(cards: seq<Card>)
    requires AceCount(cards) == 0 && HandSum(cards) <= MaxTotal
    ensures BestOf(TotalsOf(cards)) == HandSum(cards)
  {
    BestTotalClosedForm(cards);
  }

  /** K, Q, 9: no ace, 29. */
  lemma KingQueenNine()
    ensures var h := [Card(Spades, King), Card(Clubs, Queen), Card(Diamonds, Nine)];
            HandSum(h) == 29 && AceCount(h) == 0
  {
    var h := [Card(Spades, King), Card(Clubs, Queen), Card(Diamonds, Nine)];
    assert Value(h[0]) == 10 && Value(h[1]) == 10 && Value(h[2]) == 9;
    assert h[..1] == [] + [h[0]] && h[..2] == h[..1] + [h[1]] && h == h[..2] + [h[2]];
    AddedCard([], h[0]);
    AddedCard(h[..1], h[1]);
    AddedCard(h[..2], h[2]);
  }

  /** 10, 8, 7: no ace, 25. */
  lemma TenEightSeven()
    ensures var c := [Card(Hearts, Ten), Card(Diamonds, Eight), Card(Clubs, Seven)];
            HandSum(c) == 25 && AceCount(c) == 0
  {
    var c := [Card(Hearts, Ten), Card(Diamonds, Eight), Card(Clubs, Seven)];
    assert Value(c[0]) == 10 && Value(c[1]) == 8 && Value(c[2]) == 7;
    assert c[..1] == [] + [c[0]] && c[..2] == c[..1] + [c[1]] && c == c[..2] + [c[2]];
    AddedCard([], c[0]);
    AddedCard(c[..1], c[1]);
    AddedCard(c[..2], c[2]);
  }

  /** The round of the test suite: K, Q, 9 (29) beats 10, 8, 7 (25). */
  lemma KingQueenNineBeatsTenEightSeven()
    ensures Decide(BestOf(TotalsOf([Card(Spades, King), Card(Clubs, Queen), Card(Diamonds, Nine)])),
                   BestOf(TotalsOf([Card(Hearts, Ten), Card(Diamonds, Eight), Card(Clubs, Seven)])))
            == Some(HumanSide)
  {
    KingQueenNine();
    TenEightSeven();
    NoAceBest([Card(Spades, King), Card(Clubs, Queen), Card(Diamonds, Nine)]);
    NoAceBest([Card(Hearts, Ten), Card(Diamonds, Eight), Card(Clubs, Seven)]);
  }

  class Game {
    const deck: Deck
    const human: Player
    const computer: Player

    /** Two different players with two different hands; the human is not the computer player. */
    ghost predicate Valid()
      reads this, human, computer
    {
      human != computer && human.hand != computer.hand && !human.isComputer && computer.isComputer
    }

    /** `Game101(human_name)`: a shuffled standard deck and two empty hands; the human is "You" by default. */
    constructor (order: seq<nat>, humanName: string := "You")
      requires IsPermutation(order, 52)
      ensures Valid()
      ensures deck.cards == Permute(CreateStandardDeck(), order)
      ensures human.name == humanName && human.hand.cards == []
      ensures computer.name == "Computer" && computer.hand.cards == []
    {
      deck := new Deck(None, order);
      var humanHand := new Hand(None);
      var computerHand := new Hand(None);
      human := new Player(humanName, humanHand, false);
      computer := new Player("Computer", computerHand, true);
    }

    /**
     * `deal_initial_cards`: twice, one card to the human, then one to the
     * computer. With fewer than four cards the draw that finds the deck
     * empty ends the dealing, after every card has been dealt.
     */
    method DealInitialCards() returns (r: Result<(), string>)
      requires Valid()
      modifies deck, human.hand, computer.hand
      ensures r.Ok? <==> old(|deck.cards|) >= 4
      ensures r.Err? ==> r.error == EmptyDeckMessage
      ensures var d, n := old(deck.cards), old(|deck.cards|);
              var hk, ck := if n < 4 then (n + 1) / 2 else 2, if n < 4 then n / 2 else 2;
              && deck.cards == d[..n - (hk + ck)]
              && human.hand.cards == old(human.hand.cards) + Alternate(d, hk, 1)
              && computer.hand.cards == old(computer.hand.cards) + Alternate(d, ck, 2)
      ensures r.Ok? ==>
                var d, n := old(deck.cards), old(|deck.cards|);
                && human.hand.cards == old(human.hand.cards) + [d[n - 1], d[n - 3]]
                && computer.hand.cards == old(computer.hand.cards) + [d[n - 2], d[n - 4]]
    {
      ghost var d, n := deck.cards, |deck.cards|;
      ghost var h0, c0 := human.hand.cards, computer.hand.cards;
      for k := 0 to 2
        invariant 2 * k <= n && deck.cards == d[..n - 2 * k]
        invariant human.hand.cards == h0 + Alternate(d, k, 1)
        invariant computer.hand.cards == c0 + Alternate(d, k, 2)
      {
        ghost var pile := deck.cards;
        r := DealPair();
        if r.Err? {
          assert n < 4 && (n + 1) / 2 == k + |pile| && n / 2 == k;
          if |pile| == 1 {
            AlternateNext(d, k, 1);
          }
          return;
        }
        PairDealt(d, k, pile, deck.cards, h0, c0);
      }
      return Ok(());
    }

    /** One pass of the dealing loop: one card to the human, then one to the computer. */
    method DealPair() returns (r: Result<(), string>)
      requires Valid()
      modifies deck, human.hand, computer.hand
      ensures r.Ok? <==> old(|deck.cards|) >= 2
      ensures r.Err? ==>
                && r.error == EmptyDeckMessage && deck.cards == []
                && human.hand.cards == old(human.hand.cards) + old(deck.cards)
                && computer.hand.cards == old(computer.hand.cards)
      ensures r.Ok? ==>
                var d, n := old(deck.cards), old(|deck.cards|);
                && deck.cards == d[..n - 2]
                && human.hand.cards == old(human.hand.cards) + [d[n - 1]]
                && computer.hand.cards == old(computer.hand.cards) + [d[n - 2]]
    {
      ghost var d0 := deck.cards;
      var card := deck.Draw();
      if card.Err? {
        return Err(card.error);
      }
      human.hand.AddCard(card.value);
      ghost var d := deck.cards;
      card := deck.Draw();
      if card.Err? {
        assert d0 == [d0[0]];
        return Err(card.error);
      }
      assert deck.cards == d0[..|d0| - 2] && card.value == d0[|d0| - 2] by {
        assert d == d0[..|d0| - 1];
      }
      computer.hand.AddCard(card.value);
      return Ok(());
    }

    /** `human_hit`: one card from the deck to the human's hand. */
    method HumanHit() returns (r: Result<(), string>)
      requires Valid()
      modifies deck, human.hand
      ensures multiset(deck.cards) + multiset(human.hand.cards) + multiset(computer.hand.cards)
              == old(multiset(deck.cards) + multiset(human.hand.cards) + multiset(computer.hand.cards))
      ensures computer.hand.cards == old(computer.hand.cards)
      ensures old(deck.cards) == [] ==>
                r == Err(EmptyDeckMessage) && deck.cards == [] && human.hand.cards == old(human.hand.cards)
      ensures old(deck.cards) != [] ==>
                var d, n := old(deck.cards), old(|deck.cards|);
                r.Ok? && deck.cards == d[..n - 1] && human.hand.cards == old(human.hand.cards) + [d[n - 1]]
    {
      ghost var d, h := deck.cards, human.hand.cards;
      var card := deck.Draw();
      if card.Err? {
        return Err(card.error);
      }
      human.hand.AddCard(card.value);
      MoveTop(d, deck.cards, h, human.hand.cards, computer.hand.cards);
      return Ok(());
    }

    /**
     * `computer_turn`: while the computer's hand is not bust and it wants a
     * card, draw one. It takes the deck's cards from the top, and it stops
     * at the first hand that is bust or reaches 85.
     */
    method ComputerTurn() returns (r: Result<(), string>)
      requires Valid()
      modifies deck, computer.hand
      ensures multiset(deck.cards) + multiset(human.hand.cards) + multiset(computer.hand.cards)
              == old(multiset(deck.cards) + multiset(human.hand.cards) + multiset(computer.hand.cards))
      ensures human.hand.cards == old(human.hand.cards)
      ensures |computer.hand.cards| >= old(|computer.hand.cards|)
      ensures computer.hand.cards[..old(|computer.hand.cards|)] == old(computer.hand.cards)
      ensures deck.cards + Reversed(computer.hand.cards[old(|computer.hand.cards|)..]) == old(deck.cards)
      ensures forall m :: old(|computer.hand.cards|) <= m < |computer.hand.cards| ==>
                !Stops(computer.hand.cards[..m])
      ensures r.Ok? ==> Stops(computer.hand.cards)
      ensures r.Err? ==> r.error == EmptyDeckMessage && deck.cards == [] && !Stops(computer.hand.cards)
    {
      ghost var c0, d0 := computer.hand.cards, deck.cards;
      ghost var taken;
      r, taken := DrawWhileWanted();
      DrawnFromTop(c0, taken, deck.cards, d0, human.hand.cards);
    }

    /** The loop of `computer_turn`, with the cards it draws, in drawing order. */
    method DrawWhileWanted() returns (r: Result<(), string>, ghost taken: seq<Card>)
      requires Valid()
      modifies deck, computer.hand
      ensures computer.hand.cards == old(computer.hand.cards) + taken
      ensures |deck.cards| <= old(|deck.cards|) && deck.cards == old(deck.cards)[..|deck.cards|]
      ensures taken == Reversed(old(deck.cards)[|deck.cards|..])
      ensures forall m :: old(|computer.hand.cards|) <= m < |computer.hand.cards| ==>
                !Stops(computer.hand.cards[..m])
      ensures r.Ok? ==> Stops(computer.hand.cards)
      ensures r.Err? ==> r.error == EmptyDeckMessage && deck.cards == [] && !Stops(computer.hand.cards)
    {
      ghost var c0, d0 := computer.hand.cards, deck.cards;
      taken := [];
      while true
        invariant computer.hand.cards == c0 + taken
        invariant |deck.cards| <= |d0| && deck.cards == d0[..|deck.cards|]
        invariant taken == Reversed(d0[|deck.cards|..])
        invariant forall m :: |c0| <= m < |c0 + taken| ==> !Stops((c0 + taken)[..m])
        decreases |deck.cards|
      {
        var more := ComputerWantsMore();
        if !more {
          r := Ok(());
          break;
        }
        ghost var d := deck.cards;
        r := ComputerHit();
        if r.Err? {
          break;
        }
        ghost var card := d[|d| - 1];
        TopTaken(d0, d, deck.cards, taken);
        PrefixesKept(Stops, c0, taken, card);
        taken := taken + [card];
      }
    }

    /** The body of the `computer_turn` loop: one card from the deck to the computer's hand. */
    method ComputerHit() returns (r: Result<(), string>)
      requires Valid()
      modifies deck, computer.hand
      ensures old(deck.cards) == [] ==>
                r == Err(EmptyDeckMessage) && deck.cards == [] && computer.hand.cards == old(computer.hand.cards)
      ensures old(deck.cards) != [] ==>
                var d, n := old(deck.cards), old(|deck.cards|);
                r.Ok? && deck.cards == d[..n - 1] && computer.hand.cards == old(computer.hand.cards) + [d[n - 1]]
    {
      var card := deck.Draw();
      if card.Err? {
        return Err(card.error);
      }
      computer.hand.AddCard(card.value);
      return Ok(());
    }

    /** The loop condition of `computer_turn`: not bust, and the computer wants a card. */
    method ComputerWantsMore() returns (more: bool)
      requires Valid()
      ensures more <==> !Stops(computer.hand.cards)
    {
      var bust := computer.hand.IsBust();
      if bust {
        StopsIff(computer.hand.cards);
        return false;
      }
      var wants := computer.WantsCard();
      more := wants.value;
      StopsIff(computer.hand.cards);
    }

    /** `winner`: the name of the winning player, or none for a draw. */
    method Winner() returns (w: Option<string>)
      requires Valid()
      ensures w == match Decide(BestOf(TotalsOf(human.hand.cards)), BestOf(TotalsOf(computer.hand.cards)))
                   case None => None
                   case Some(HumanSide) => Some(human.name)
                   case Some(ComputerSide) => Some(computer.name)
    {
      var humanTotal := human.hand.BestTotal();
      var computerTotal := computer.hand.BestTotal();
      var humanBust := humanTotal > MaxTotal;
      var computerBust := computerTotal > MaxTotal;
      if humanBust && computerBust {
        return None;
      }
      if humanBust {
        return Some(computer.name);
      }
      if computerBust {
        return Some(human.name);
      }
      if humanTotal > computerTotal {
        return Some(human.name);
      }
      if computerTotal > humanTotal {
        return Some(computer.name);
      }
      return None;
    }
  }
}
