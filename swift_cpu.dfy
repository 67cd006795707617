/**
 * The CPU player's greedy, single-ply strategy (`cpuSelectAction` in
 * Sources/main.swift). Every (hand card, decision) option is scored; the
 * first option with the highest score wins unless every option scores at
 * most -1000 (a bust), in which case the CPU draws and plays the drawn card
 * with that card's own best decision. With nothing to draw it falls back to
 * the best hand option, or to the first card's first decision.
 */
module SwiftCpu {
  import opened Common
  import opened Permutations
  import opened SwiftCards
  import opened SwiftRules
  import opened SwiftDeck

  /** Swift's `Int.min`, the score the scan starts from. */
  const IntMin: int := -0x8000_0000_0000_0000

  /** Playing `d` at `total` pushes the total past 101. */
  predicate Busts(total: int, d: Decision)
  {
    d.Value? && total + d.delta > 101
  }

  /**
   * `score(for:card:)`. The classes rank as: the special win above
   * everything, then skip, then reverse, then every non-busting value play,
   * and every bust below -1000. A non-busting value play scores above -1000
   * unless the new total is at most -1300.
   */
  function Score(total: int, d: Decision): (s: int)
    ensures d == JokerSpecial <==> s > 500
    ensures d == Skip ==> s == 500
    ensures d == Reverse ==> s == 400
    ensures d.Value? ==> s <= 400
    ensures Busts(total, d) ==> s < -1000
    ensures !Busts(total, d) && (d.Value? ==> total + d.delta > -1300) ==> s > -1000
  {
    match d
    case JokerSpecial => 10_000
    case Skip => 500
    case Reverse => 400
    case Value(delta) =>
      var result := total + delta;
      if result > 101 then -1000 - (result - 101)
      else if result == 101 then 150
      else 300 + result
  }

  /**
   * Within the value plays the CPU prefers a higher new total below 101 and,
   * among busts, the smaller overshoot; landing on 101 scores 150.
   */
  lemma ScoreOrdersValuePlays(total: int, a: int, b: int)
    ensures total + a < total + b < 101 ==> Score(total, Value(a)) < Score(total, Value(b))
    ensures 101 < total + a < total + b ==> Score(total, Value(a)) > Score(total, Value(b))
    ensures total + a == 101 ==> Score(total, Value(a)) == 150
  {
  }

  /** Option (i, j): hand card i played with its j-th decision. */
  predicate IsOption(hand: seq<Card>, total: int, i: int, j: int)
  {
    0 <= i < |hand| && 0 <= j < |PossibleDecisions(hand[i], total)|
  }

  function OptionScore(hand: seq<Card>, total: int, i: int, j: int): int
    requires IsOption(hand, total, i, j)
  {
    Score(total, PossibleDecisions(hand[i], total)[j])
  }

  /** Every option scores at most `bound`. */
  ghost predicate AllAtMost(hand: seq<Card>, total: int, bound: int)
  {
    forall i, j :: IsOption(hand, total, i, j) ==> OptionScore(hand, total, i, j) <= bound
  }

  /** Some hand option scores above -1000, i.e. avoids the bust class. */
  ghost predicate SafeOptionExists(hand: seq<Card>, total: int)
  {
    exists i, j :: IsOption(hand, total, i, j) && OptionScore(hand, total, i, j) > -1000
  }

  /**
   * Playing hand card i with decision d is the first option, in scan order
   * (card by card, decision by decision), that reaches the highest score.
   */
  ghost predicate FirstBest(hand: seq<Card>, total: int, i: int, d: Decision)
  {
    && 0 <= i < |hand|
    && d in PossibleDecisions(hand[i], total)
    && AllAtMost(hand, total, Score(total, d))
    && (forall i', j' :: IsOption(hand, total, i', j')
          && (i' < i || (i' == i && d !in PossibleDecisions(hand[i'], total)[..j' + 1]))
          ==> OptionScore(hand, total, i', j') < Score(total, d))
  }

  /** Option (i', j') comes before position (i, j) of the scan. */
  predicate Before(i': int, j': int, i: int, j: int)
  {
    i' < i || (i' == i && j' < j)
  }

  /** The scan's variables after it has looked at every option before (i, j). */
  ghost predicate ScanState(hand: seq<Card>, total: int, i: int, j: int, bestScore: int,
                            bestCardIndex: Option<nat>, bestDecision: Option<Decision>, bestPos: nat)
  {
    && (bestCardIndex.Some? <==> bestDecision.Some?)
    && (bestCardIndex.None? ==> bestScore == IntMin)
    && (bestCardIndex.Some? ==>
          && IsOption(hand, total, bestCardIndex.value, bestPos)
          && Before(bestCardIndex.value, bestPos, i, j)
          && PossibleDecisions(hand[bestCardIndex.value], total)[bestPos] == bestDecision.value
          && bestScore == Score(total, bestDecision.value)
          && bestScore > IntMin
          && (forall i', j' :: IsOption(hand, total, i', j') && Before(i', j', bestCardIndex.value, bestPos)
                ==> OptionScore(hand, total, i', j') < bestScore))
    && (forall i', j' :: IsOption(hand, total, i', j') && Before(i', j', i, j)
          ==> OptionScore(hand, total, i', j') <= bestScore)
  }

  /** Looking at option (i, k) advances the scan by one position. */
  lemma ScanStep(hand: seq<Card>, total: int, i: nat, k: nat, bestScore: int,
                 bestCardIndex: Option<nat>, bestDecision: Option<Decision>, bestPos: nat)
    requires IsOption(hand, total, i, k)
    requires ScanState(hand, total, i, k, bestScore, bestCardIndex, bestDecision, bestPos)
    ensures var d := PossibleDecisions(hand[i], total)[k];
            if Score(total, d) > bestScore
            then ScanState(hand, total, i, k + 1, Score(total, d), Some(i), Some(d), k)
            else ScanState(hand, total, i, k + 1, bestScore, bestCardIndex, bestDecision, bestPos)
  {
    var d := PossibleDecisions(hand[i], total)[k];
    assert forall i', j' :: IsOption(hand, total, i', j') ==>
      (Before(i', j', i, k + 1) <==> Before(i', j', i, k) || (i' == i && j' == k));
  }

  /** Finishing card i's decisions is starting card i + 1's. */
  lemma ScanNextCard(hand: seq<Card>, total: int, i: nat, bestScore: int,
                     bestCardIndex: Option<nat>, bestDecision: Option<Decision>, bestPos: nat)
    requires i < |hand|
    requires ScanState(hand, total, i, |PossibleDecisions(hand[i], total)|,
                       bestScore, bestCardIndex, bestDecision, bestPos)
    ensures ScanState(hand, total, i + 1, 0, bestScore, bestCardIndex, bestDecision, bestPos)
  {
    var n := |PossibleDecisions(hand[i], total)|;
    assert forall i', j' :: IsOption(hand, total, i', j') ==>
      (Before(i', j', i + 1, 0) <==> Before(i', j', i, n));
  }

  /**
   * The double loop of `cpuSelectAction` over the hand: the first option
   * with the highest score, if any option beats `Int.min`.
   */
  method ScanHand(hand: seq<Card>, total: int)
    returns (bestScore: int, bestCardIndex: Option<nat>, bestDecision: Option<Decision>)
    ensures bestCardIndex.Some? <==> bestDecision.Some?
    ensures bestCardIndex.None? ==> bestScore == IntMin && AllAtMost(hand, total, IntMin)
    ensures bestCardIndex.Some? ==>
              FirstBest(hand, total, bestCardIndex.value, bestDecision.value)
              && bestScore == Score(total, bestDecision.value) > IntMin
  {
    bestScore, bestCardIndex, bestDecision := IntMin, None, None;
    ghost var bestPos: nat := 0;
    for idx := 0 to |hand|
      invariant ScanState(hand, total, idx, 0, bestScore, bestCardIndex, bestDecision, bestPos)
    {
      var decisions := PossibleDecisions(hand[idx], total);
      for k := 0 to |decisions|
        invariant ScanState(hand, total, idx, k, bestScore, bestCardIndex, bestDecision, bestPos)
      {
        ScanStep(hand, total, idx, k, bestScore, bestCardIndex, bestDecision, bestPos);
        var s := Score(total, decisions[k]);
        if s > bestScore {
          bestScore, bestCardIndex, bestDecision := s, Some(idx), Some(decisions[k]);
          bestPos := k;
        }
      }
      ScanNextCard(hand, total, idx, bestScore, bestCardIndex, bestDecision, bestPos);
    }
    ScanDone(hand, total, bestScore, bestCardIndex, bestDecision, bestPos);
  }

  /** When the scan has passed every option, its state answers the postcondition. */
  lemma ScanDone(hand: seq<Card>, total: int, bestScore: int,
                 bestCardIndex: Option<nat>, bestDecision: Option<Decision>, bestPos: nat)
    requires ScanState(hand, total, |hand|, 0, bestScore, bestCardIndex, bestDecision, bestPos)
    ensures bestCardIndex.None? ==> bestScore == IntMin && AllAtMost(hand, total, IntMin)
    ensures bestCardIndex.Some? ==>
              FirstBest(hand, total, bestCardIndex.value, bestDecision.value)
              && bestScore == Score(total, bestDecision.value) > IntMin
  {
    assert forall i', j' :: IsOption(hand, total, i', j') ==> Before(i', j', |hand|, 0);
    if bestCardIndex.Some? {
      FirstBestFromScan(hand, total, bestCardIndex.value, bestPos, bestScore);
    }
  }

  /** The scan's record of its best option is exactly `FirstBest`. */
  lemma FirstBestFromScan(hand: seq<Card>, total: int, i: nat, k: nat, best: int)
    requires IsOption(hand, total, i, k)
    requires best == OptionScore(hand, total, i, k)
    requires AllAtMost(hand, total, best)
    requires forall i', j' :: IsOption(hand, total, i', j') && Before(i', j', i, k)
               ==> OptionScore(hand, total, i', j') < best
    ensures FirstBest(hand, total, i, PossibleDecisions(hand[i], total)[k])
  {
  }

  /**
   * `decisions.max(by:)` for a drawn card: the position of the first
   * decision with the highest score (Swift's `max(by:)` replaces its
   * candidate only on a strictly greater element).
   */
  function MaxByScore(ds: seq<Decision>, total: int): (k: nat)
    requires |ds| > 0
    ensures k < |ds|
    ensures forall j :: 0 <= j < |ds| ==> Score(total, ds[j]) <= Score(total, ds[k])
    ensures forall j :: 0 <= j < k ==> Score(total, ds[j]) < Score(total, ds[k])
  {
    if |ds| == 1 then 0
    else
      var k := MaxByScore(ds[..|ds| - 1], total);
      if Score(total, ds[k]) < Score(total, ds[|ds| - 1]) then |ds| - 1 else k
  }

  /**
   * `cpuSelectAction`. `handIndex` names the hand card played, or is `None`
   * when the card was drawn; the drawn card has left the piles.
   */
  method CpuSelectAction(hand: seq<Card>, total: int, deck: Deck, discard: seq<Card>, order: seq<nat>)
    returns (card: Card, decision: Decision, handIndex: Option<nat>, rest: seq<Card>)
    requires |hand| > 0 || deck.CanDraw(discard)
    requires IsPermutation(order, |discard|)
    modifies deck
    ensures decision in PossibleDecisions(card, total)
    ensures handIndex.Some? ==>
              handIndex.value < |hand| && card == hand[handIndex.value]
              && deck.cards == old(deck.cards) && rest == discard
    ensures SafeOptionExists(hand, total) ==>
              handIndex.Some? && FirstBest(hand, total, handIndex.value, decision)
    ensures !SafeOptionExists(hand, total) && old(deck.CanDraw(discard)) ==> handIndex.None?
    ensures handIndex.None? ==>
              && old(deck.CanDraw(discard))
              && decision == PossibleDecisions(card, total)[MaxByScore(PossibleDecisions(card, total), total)]
              && DrawnFrom(old(deck.cards), discard, order, card, deck.cards, rest)
              && multiset(deck.cards) + multiset(rest) + multiset{card}
                 == old(multiset(deck.cards)) + multiset(discard)
    ensures !old(deck.CanDraw(discard)) ==>
              handIndex.Some?
              && (FirstBest(hand, total, handIndex.value, decision)
                  || (AllAtMost(hand, total, IntMin)
                      && handIndex == Some(0) && decision == PossibleDecisions(hand[0], total)[0]))
  {
    var bestScore, bestCardIndex, bestDecision := ScanHand(hand, total);
    if bestCardIndex.Some? && bestScore > -1000 {
      SafeWitness(hand, total, bestCardIndex.value, bestDecision.value);
      return hand[bestCardIndex.value], bestDecision.value, bestCardIndex, discard;
    }
    assert !SafeOptionExists(hand, total);
    var drawn;
    drawn, rest := deck.Draw(discard, order);
    if drawn.Some? {
      var decisions := PossibleDecisions(drawn.value, total);
      return drawn.value, decisions[MaxByScore(decisions, total)], None, rest;
    }
    if bestCardIndex.Some? {
      return hand[bestCardIndex.value], bestDecision.value, bestCardIndex, discard;
    }
    card := hand[0];
    decision := PossibleDecisions(card, total)[0];
    handIndex := Some(0);
    rest := discard;
  }

  /** A first-best option that scores above -1000 is itself a safe option. */
  lemma SafeWitness(hand: seq<Card>, total: int, i: int, d: Decision)
    requires FirstBest(hand, total, i, d) && Score(total, d) > -1000
    ensures SafeOptionExists(hand, total)
  {
    var ds := PossibleDecisions(hand[i], total);
    var j :| 0 <= j < |ds| && ds[j] == d;
    assert IsOption(hand, total, i, j) && OptionScore(hand, total, i, j) > -1000;
  }

  /**
   * The CPU never chooses a busting play from its hand when its hand holds a
   * play that does not bust (and keeps the total above -1300).
   */
  lemma FirstBestAvoidsBust(hand: seq<Card>, total: int, i: int, d: Decision, i': int, j': int)
    requires FirstBest(hand, total, i, d)
    requires IsOption(hand, total, i', j')
    requires var e := PossibleDecisions(hand[i'], total)[j'];
               !Busts(total, e) && (e.Value? ==> total + e.delta > -1300)
    ensures !Busts(total, d)
  {
    assert OptionScore(hand, total, i', j') <= Score(total, d);
  }

  /**
   * A CPU holding an Eight and a King at total 95 skips with the Eight
   * rather than bust with the King's +30.
   */
  lemma EightBeforeKingAt95()
    ensures FirstBest([Card(Eight, Some(Hearts)), Card(King, Some(Spades))], 95, 0, Skip)
  {
    var hand := [Card(Eight, Some(Hearts)), Card(King, Some(Spades))];
    assert PossibleDecisions(hand[0], 95) == [Skip];
    assert PossibleDecisions(hand[1], 95) == [Value(30)];
    assert forall i, j :: IsOption(hand, 95, i, j) ==> (i == 0 || i == 1) && j == 0;
  }
}
