/**
 * Hands of the Python variant (game101/hand.py). An ace counts 11 or 1, so
 * a hand has several totals: the plain sum with 0, 1, ..., all of its aces
 * brought down by 10. `totals` keeps those at most 101 in ascending order,
 * or only the lowest when all are above 101.
 */
module Game101Hand {
  import opened Common
  import opened Game101Card

  /** `MAX_TOTAL`. */
  const MaxTotal := 101

  /**
   * The sum of the default card values (every ace at 11). Each card adds
   * 2 to 11, and even with every ace at 1 the sum stays at least one per card.
   */
  function HandSum(cards: seq<Card>): (s: int)
    ensures 2 * |cards| <= s <= 11 * |cards|
    ensures s - 10 * AceCount(cards) >= |cards|
  {
    if cards == [] then 0 else HandSum(cards[..|cards| - 1]) + Value(cards[|cards| - 1])
  }

  /** The number of aces. */
  function AceCount(cards: seq<Card>): (a: nat)
    ensures a <= |cards|
  {
    if cards == [] then 0
    else AceCount(cards[..|cards| - 1]) + (if cards[|cards| - 1].rank == Ace then 1 else 0)
  }

  /** Adding a card adds its value to the sum, and one to the ace count when it is an ace. */
  lemma AddedCard(cards: seq<Card>, card: Card)
    ensures HandSum(cards + [card]) == HandSum(cards) + Value(card)
    ensures AceCount(cards + [card]) == AceCount(cards) + (if card.rank == Ace then 1 else 0)
  {
    assert (cards + [card])[..|cards|] == cards;
  }

  /** The list `totals` builds before filtering: the sum, then 10 less for each ace in turn. */
  function Candidates(cards: seq<Card>): (cs: seq<int>)
    ensures |cs| == AceCount(cards) + 1
    ensures cs[0] == HandSum(cards) && cs[|cs| - 1] == Lowest(cards)
  {
    Steps(HandSum(cards), AceCount(cards) + 1)
  }

  /** `top`, `top - 10`, ... : `n` totals, each 10 below the one before. */
  function Steps(top: int, n: nat): (ts: seq<int>)
    ensures |ts| == n
  {
    seq(n, i requires 0 <= i < n => top - 10 * i)
  }

  /** One more step appends the next total, 10 below the last. */
  lemma StepsGrow(top: int, n: nat)
    ensures Steps(top, n + 1) == Steps(top, n) + [top - 10 * n]
  {
    assert Steps(top, n + 1)[..n] == Steps(top, n);
  }

  /** The total with every ace at 1: the last and smallest candidate. */
  function Lowest(cards: seq<Card>): int
  {
    HandSum(cards) - 10 * AceCount(cards)
  }

  function Min(a: int, b: int): int
  {
    if a <= b then a else b
  }

  /** How many candidates are at most 101. */
  function KeptCount(cards: seq<Card>): nat
  {
    var lo := Lowest(cards);
    if lo > MaxTotal then 0 else Min(AceCount(cards), (MaxTotal - lo) / 10) + 1
  }

  /** `totals()` in closed form: the kept candidates from the lowest up, or the lowest alone. */
  function TotalsOf(cards: seq<Card>): (ts: seq<int>)
    ensures |ts| > 0 && ts[0] == Lowest(cards)
  {
    var lo, k := Lowest(cards), KeptCount(cards);
    if k == 0 then [lo] else seq(k, i requires 0 <= i < k => lo + 10 * i)
  }

  /** The candidate with j aces at 1 (counted from all aces at 1) is at most 101 exactly when j < `KeptCount`. */
  lemma KeptIff(cards: seq<Card>, j: nat)
    requires j <= AceCount(cards)
    ensures Lowest(cards) + 10 * j <= MaxTotal <==> j < KeptCount(cards)
  {
    var lo := Lowest(cards);
    if lo <= MaxTotal {
      var q := (MaxTotal - lo) / 10;
      assert MaxTotal - lo == 10 * q + (MaxTotal - lo) % 10;
    }
  }

  /** The lowest total is a candidate, and no candidate is lower. */
  lemma LowestIsLeast(cards: seq<Card>)
    ensures Lowest(cards) in Candidates(cards)
    ensures forall t :: t in Candidates(cards) ==> Lowest(cards) <= t
  {
    var cs := Candidates(cards);
    assert cs[AceCount(cards)] == Lowest(cards);
  }

  /**
   * What `totals` promises: a non-empty list, strictly ascending, holding
   * every candidate at most 101 and nothing else, or, when every candidate
   * is above 101, the lowest candidate alone.
   */
  lemma TotalsSpec(cards: seq<Card>)
    ensures forall i, j :: 0 <= i < j < |TotalsOf(cards)| ==> TotalsOf(cards)[i] < TotalsOf(cards)[j]
    ensures forall t :: t in TotalsOf(cards) <==>
              if Lowest(cards) <= MaxTotal then t in Candidates(cards) && t <= MaxTotal
              else t == Lowest(cards)
  {
    var ts, cs, lo, a := TotalsOf(cards), Candidates(cards), Lowest(cards), AceCount(cards);
    if lo <= MaxTotal {
      KeptIff(cards, 0);
      forall t
        ensures t in ts <==> t in cs && t <= MaxTotal
      {
        if t in ts {
          var i :| 0 <= i < |ts| && ts[i] == t;
          KeptIff(cards, i);
          assert cs[a - i] == t;
        }
        if t in cs && t <= MaxTotal {
          var j :| 0 <= j < |cs| && cs[j] == t;
          KeptIff(cards, a - j);
          assert ts[a - j] == t;
        }
      }
    }
  }

  /** `[t for t in ts if t <= MAX_TOTAL]`. */
  function AtMostMax(ts: seq<int>): (kept: seq<int>)
    ensures forall t :: t in kept <==> t in ts && t <= MaxTotal
  {
    if ts == [] then []
    else
      var n := |ts| - 1;
      AtMostMax(ts[..n]) + (if ts[n] <= MaxTotal then [ts[n]] else [])
  }

  /** `max(ts)`. */
  function MaxOf(ts: seq<int>): (m: int)
    requires |ts| > 0
    ensures m in ts && forall t :: t in ts ==> t <= m
  {
    if |ts| == 1 then ts[0]
    else
      var n := |ts| - 1;
      var m := MaxOf(ts[..n]);
      assert ts == ts[..n] + [ts[n]];
      if ts[n] > m then ts[n] else m
  }

  /** `min(ts)`. */
  function MinOf(ts: seq<int>): (m: int)
    requires |ts| > 0
    ensures m in ts && forall t :: t in ts ==> m <= t
  {
    if |ts| == 1 then ts[0]
    else
      var n := |ts| - 1;
      var m := MinOf(ts[..n]);
      assert ts == ts[..n] + [ts[n]];
      if ts[n] < m then ts[n] else m
  }

  /** `best_total` over a list of totals: the largest at most 101, else the smallest. */
  function BestOf(ts: seq<int>): (b: int)
    requires |ts| > 0
    ensures b in ts
    ensures (exists t :: t in ts && t <= MaxTotal) ==>
              b <= MaxTotal && forall t :: t in ts && t <= MaxTotal ==> t <= b
    ensures (forall t :: t in ts ==> t > MaxTotal) ==> forall t :: t in ts ==> b <= t
  {
    var valid := AtMostMax(ts);
    if valid != [] then MaxOf(valid) else MinOf(ts)
  }

  /** `is_bust` over a list of totals: every total above 101. */
  predicate AllOver(ts: seq<int>)
    ensures AllOver(ts) <==> AtMostMax(ts) == []
  {
    var kept := AtMostMax(ts);
    assert kept != [] ==> kept[0] in kept;
    forall t :: t in ts ==> t > MaxTotal
  }

  /** A hand is bust exactly when its best total is above 101. */
  lemma BustIffBestOver(ts: seq<int>)
    requires |ts| > 0
    ensures AllOver(ts) <==> BestOf(ts) > MaxTotal
  {
    if !AllOver(ts) {
      var t :| t in ts && t <= MaxTotal;
    }
  }

  /** The best total in closed form: the highest kept candidate, or the lowest candidate when none is kept. */
  lemma BestTotalClosedForm(cards: seq<Card>)
    ensures BestOf(TotalsOf(cards)) ==
              if KeptCount(cards) == 0 then Lowest(cards) else Lowest(cards) + 10 * (KeptCount(cards) - 1)
  {
    var ts, lo, k := TotalsOf(cards), Lowest(cards), KeptCount(cards);
    TotalsSpec(cards);
    if k > 0 {
      KeptIff(cards, k - 1);
      var top := ts[k - 1];
      assert top in ts && top <= MaxTotal;
      assert forall j :: 0 <= j < |ts| ==> ts[j] <= top;
    }
  }

  class Hand {
    var cards: seq<Card>

    /** `Hand(cards)`: a copy of the given cards, or empty. */
    constructor (given: Option<seq<Card>>)
      ensures cards == if given.Some? then given.value else []
    {
      cards := if given.Some? then given.value else [];
    }

    /** `add_card`: append at the end. */
    method AddCard(card: Card)
      modifies this
      ensures cards == old(cards) + [card]
    {
      cards := cards + [card];
    }

    /**
     * `totals`: sum the values and count the aces, list the candidates,
     * then keep those at most 101 in ascending order (else the minimum).
     * The candidate list is strictly descending, so scanning it from its
     * end yields the kept totals already sorted and without duplicates.
     */
    method Totals() returns (ts: seq<int>)
      ensures ts == TotalsOf(cards)
    {
      var total, aces := SumAndAces(cards);
      var all := [total];
      for k := 0 to aces
        invariant total == HandSum(cards) - 10 * k
        invariant all == Steps(HandSum(cards), k + 1)
      {
        total := total - 10;
        StepsGrow(HandSum(cards), k + 1);
        all := all + [total];
      }
      ts := KeepSorted(all, cards);
    }

    /** The first loop of `totals`: the sum of the values and the number of aces. */
    static method SumAndAces(cards: seq<Card>) returns (total: int, aces: nat)
      ensures total == HandSum(cards) && aces == AceCount(cards)
    {
      total, aces := 0, 0;
      for i := 0 to |cards|
        invariant total == HandSum(cards[..i]) && aces == AceCount(cards[..i])
      {
        assert cards[..i + 1][..i] == cards[..i];
        if cards[i].rank == Ace {
          aces := aces + 1;
        }
        total := total + Value(cards[i]);
      }
      assert cards[..|cards|] == cards;
    }

    /** The filter-and-sort step of `totals`, over the candidate list `all`. */
    static method KeepSorted(all: seq<int>, ghost cards: seq<Card>) returns (ts: seq<int>)
      requires all == Candidates(cards)
      ensures ts == TotalsOf(cards)
    {
      var lo, k := Lowest(cards), KeptCount(cards);
      var kept: seq<int> := [];
      for j := 0 to |all|
        invariant kept == seq(Min(j, k), m requires 0 <= m < Min(j, k) => lo + 10 * m)
      {
        var t := all[|all| - 1 - j];
        KeptIff(cards, j);
        if t <= MaxTotal {
          kept := kept + [t];
        }
      }
      if kept == [] {
        LowestIsLeast(cards);
        ts := [MinOf(all)];
      } else {
        ts := kept;
      }
    }

    /** `best_total`. */
    method BestTotal() returns (b: int)
      ensures b == BestOf(TotalsOf(cards))
    {
      var ts := Totals();
      TotalsSpec(cards);
      b := BestOf(ts);
    }

    /** `is_bust`. */
    method IsBust() returns (bust: bool)
      ensures bust <==> AllOver(TotalsOf(cards))
    {
      var ts := Totals();
      bust := AllOver(ts);
    }
  }

  /** `Hand([A, 9, A]).totals() == [11, 21, 31]` and its best total is 31. */
  lemma AceNineAce()
    ensures TotalsOf([Card(Spades, Ace), Card(Diamonds, Nine), Card(Hearts, Ace)]) == [11, 21, 31]
    ensures BestOf(TotalsOf([Card(Spades, Ace), Card(Diamonds, Nine), Card(Hearts, Ace)])) == 31
  {
    var cards := [Card(Spades, Ace), Card(Diamonds, Nine), Card(Hearts, Ace)];
    assert cards[..2][..1] == [Card(Spades, Ace)];
    assert cards[..2] == [Card(Spades, Ace), Card(Diamonds, Nine)];
    assert cards[..1][..0] == [];
    assert Value(cards[0]) == 11 && Value(cards[1]) == 9 && Value(cards[2]) == 11;
    assert HandSum(cards[..1]) == 11 && AceCount(cards[..1]) == 1;
    assert HandSum(cards[..2]) == 20 && AceCount(cards[..2]) == 1;
    assert HandSum(cards) == 31 && AceCount(cards) == 2;
    assert KeptCount(cards) == 3;
    var ts := TotalsOf(cards);
    assert ts[0] == 11 && ts[1] == 21 && ts[2] == 31;
    BestTotalClosedForm(cards);
  }

  /** An empty hand has the single total 0, which is also its best total. */
  lemma EmptyHand()
    ensures TotalsOf([]) == [0] && BestOf(TotalsOf([])) == 0
  {
  }
}
