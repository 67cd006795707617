/**
 * The per-card rules of the Swift running-total game (Sources/main.swift):
 * which effects a card offers at a given total, what a flow card restarts
 * the total with, and how the turn passes to the next player.
 */
module SwiftRules {
  import opened SwiftCards

  /** The effect chosen for a played card (`CardDecisionMode`). */
  datatype Decision = Value(delta: int) | Skip | Reverse | JokerSpecial

  /** The effects a card offers when the running total is `total`, in menu order. */
  function PossibleDecisions(card: Card, total: int): (ds: seq<Decision>)
    ensures |ds| >= 1
    ensures forall i, j :: 0 <= i < j < |ds| ==> ds[i] != ds[j]
    ensures JokerSpecial in ds <==> card.rank == Joker && total == 100
    ensures Skip in ds <==> card.rank == Eight
    ensures Reverse in ds <==> card.rank == Nine
    ensures |ds| == 2 <==> card.rank == Ace || card.rank == Ten
    ensures |ds| == 2 ==> ds[0].Value? && ds[1].Value? && ds[0].delta < ds[1].delta
    ensures card.rank != Eight && card.rank != Nine && !(card.rank == Joker && total == 100)
            ==> Value(DefaultValue(card.rank)) in ds
    ensures forall d :: d in ds && d.Value? ==>
              d.delta == DefaultValue(card.rank)
              || (card.rank == Ace && d.delta == 1)
              || (card.rank == Ten && d.delta == -10)
  {
    match card.rank
    case Ace => [Value(1), Value(11)]
    case Ten => [Value(-10), Value(10)]
    case Eight => [Skip]
    case Nine => [Reverse]
    case Joker => if total == 100 then [JokerSpecial] else [Value(50)]
    case _ => [Value(DefaultValue(card.rank))]
  }

  /**
   * The value a flow card restarts the total with, and the direction after
   * it is revealed (Swift's `inout direction`): a Nine flips the direction.
   */
  function FlowContribution(card: Card, direction: int): (r: (int, int))
    ensures r.0 == DefaultValue(card.rank)
    ensures r.1 == if card.rank == Nine then -direction else direction
  {
    match card.rank
    case Ace => (11, direction)
    case Ten => (10, direction)
    case Eight => (0, direction)
    case Nine => (0, direction * -1)
    case Joker => (50, direction)
    case _ => (DefaultValue(card.rank), direction)
  }

  /**
   * The seat after `current` when moving `direction` seats round a table of
   * `playerCount`. The loop lifts a negative index by whole rounds of the
   * table; the final `%` then acts on a non-negative number, where Swift's
   * remainder and Dafny's agree.
   */
  method NextIndex(current: int, direction: int, playerCount: int) returns (index: int)
    requires playerCount > 0
    ensures 0 <= index < playerCount
    ensures index == (current + direction) % playerCount
  {
    index := current + direction;
    while index < 0
      invariant index % playerCount == (current + direction) % playerCount
    {
      ShiftByCount(index, playerCount);
      index := index + playerCount;
    }
    index := index % playerCount;
  }

  /** Adding the table size does not change the seat a number denotes. */
  lemma ShiftByCount(x: int, n: int)
    requires n > 0
    ensures (x + n) % n == x % n
  {
    var y := x + n;
    var k := y / n - x / n - 1;
    assert n * k == x % n - y % n;
    if k >= 1 {
      assert n * k == n * (k - 1) + n;
      MulNonNegative(n, k - 1);
    } else if k <= -1 {
      assert n * k == -(n * (-k - 1)) - n;
      MulNonNegative(n, -k - 1);
    }
  }

  lemma MulNonNegative(a: int, b: int)
    requires a >= 0 && b >= 0
    ensures a * b >= 0
  {
  }
}
