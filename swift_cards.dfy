/**
 * The card and rank catalog of the Swift running-total game
 * (Sources/main.swift). Ranks carry a default value; a standard deck is the
 * 52 suited cards plus two suitless Jokers.
 */
module SwiftCards {
  import opened Common
  import opened Permutations

  datatype Suit = Hearts | Diamonds | Clubs | Spades

  datatype Rank = Two | Three | Four | Five | Six | Seven | Eight | Nine | Ten
                | Jack | Queen | King | Ace | Joker

  /** A card; Jokers carry no suit. */
  datatype Card = Card(rank: Rank, suit: Option<Suit>)

  /** The suits in the order `Suit.standard` lists them. */
  const StandardSuits: seq<Suit> := [Hearts, Diamonds, Clubs, Spades]

  /** The base value of a rank, used for plain plays and for flow cards. */
  function DefaultValue(r: Rank): (v: int)
    ensures 0 <= v <= 50
    ensures v == 0 <==> r == Eight || r == Nine
    ensures v == 50 <==> r == Joker
    ensures r != Joker ==> v <= 30
  {
    match r
    case Two => 2
    case Three => 3
    case Four => 4
    case Five => 5
    case Six => 6
    case Seven => 7
    case Eight => 0
    case Nine => 0
    case Ten => 10
    case Jack => 10
    case Queen => 20
    case King => 30
    case Ace => 11
    case Joker => 50
  }

  /** The rank of the i-th card `reset` appends for each suit: ace first, two last. */
  function RowRank(i: nat): Rank
    requires i < 13
  {
    [Ace, King, Queen, Jack, Ten, Nine, Eight, Seven, Six, Five, Four, Three, Two][i]
  }

  /** Where a non-Joker rank sits within a suit row. */
  function RowPosition(r: Rank): (i: nat)
    requires r != Joker
    ensures i < 13 && RowRank(i) == r
  {
    match r
    case Ace => 0
    case King => 1
    case Queen => 2
    case Jack => 3
    case Ten => 4
    case Nine => 5
    case Eight => 6
    case Seven => 7
    case Six => 8
    case Five => 9
    case Four => 10
    case Three => 11
    case Two => 12
  }

  /** A suit row never repeats a rank and never holds a Joker. */
  lemma RowRankInjective(i: nat, j: nat)
    requires i < j < 13
    ensures RowRank(i) != RowRank(j) && RowRank(i) != Joker && RowRank(j) != Joker
  {
  }

  /** The thirteen cards `reset` appends for one suit. */
  function SuitRow(s: Suit): seq<Card>
  {
    seq(13, i requires 0 <= i < 13 => Card(RowRank(i), Some(s)))
  }

  /** The rows for the given suits, in order. */
  function SuitRows(suits: seq<Suit>): seq<Card>
  {
    if suits == [] then [] else SuitRows(suits[..|suits| - 1]) + SuitRow(suits[|suits| - 1])
  }

  /** The two suitless Jokers appended after the suit rows. */
  const Jokers: seq<Card> := [Card(Joker, None), Card(Joker, None)]

  /** The unshuffled deck `reset` builds before it shuffles. */
  function FullDeck(): (d: seq<Card>)
    ensures |d| == 54
  {
    SuitRowsLength(StandardSuits);
    SuitRows(StandardSuits) + Jokers
  }

  /** How often a card occurs in a standard deck: suited non-Jokers once, the suitless Joker twice. */
  function StandardCount(c: Card): nat
  {
    if c.rank == Joker then (if c.suit == None then 2 else 0)
    else if c.suit.Some? then 1 else 0
  }

  /** One suit row holds each non-Joker rank of that suit exactly once. */
  lemma SuitRowCount(s: Suit, c: Card)
    ensures multiset(SuitRow(s))[c] == if c.rank != Joker && c.suit == Some(s) then 1 else 0
  {
    var row := SuitRow(s);
    forall i, j | 0 <= i < j < |row|
      ensures row[i] != row[j]
    {
      RowRankInjective(i, j);
    }
    DistinctCount(row, c);
    if c.rank != Joker && c.suit == Some(s) {
      assert row[RowPosition(c.rank)] == c;
    } else if c in row {
      var i :| 0 <= i < |row| && row[i] == c;
      if i > 0 { RowRankInjective(0, i); } else { RowRankInjective(0, 1); }
    }
  }

  /** The rows of pairwise different suits hold each suited non-Joker card of those suits once. */
  lemma {:induction false} SuitRowsCount(suits: seq<Suit>, c: Card)
    requires forall i, j :: 0 <= i < j < |suits| ==> suits[i] != suits[j]
    ensures multiset(SuitRows(suits))[c]
         == if c.rank != Joker && c.suit.Some? && c.suit.value in suits then 1 else 0
  {
    if suits != [] {
      var init := suits[..|suits| - 1];
      var last := suits[|suits| - 1];
      SuitRowsCount(init, c);
      SuitRowCount(last, c);
      assert suits == init + [last];
      assert c.suit == Some(last) ==> last !in init;
    }
  }

  /** Each suit contributes a row of thirteen cards. */
  lemma {:induction false} SuitRowsLength(suits: seq<Suit>)
    ensures |SuitRows(suits)| == 13 * |suits|
  {
    if suits != [] {
      SuitRowsLength(suits[..|suits| - 1]);
    }
  }

  /** The two Jokers are the only suitless cards appended. */
  lemma JokersCount(c: Card)
    ensures multiset(Jokers)[c] == if c == Card(Joker, None) then 2 else 0
  {
  }

  /**
   * A standard deck holds 54 cards: each of the 13 non-Joker ranks in each
   * of the four suits once, and two suitless Jokers.
   */
  lemma FullDeckContents()
    ensures |FullDeck()| == 54
    ensures forall c :: multiset(FullDeck())[c] == StandardCount(c)
  {
    SuitRowsLength(StandardSuits);
    forall c
      ensures multiset(FullDeck())[c] == StandardCount(c)
    {
      SuitRowsCount(StandardSuits, c);
      JokersCount(c);
      assert multiset(FullDeck()) == multiset(SuitRows(StandardSuits)) + multiset(Jokers);
      if c.suit.Some? {
        var s := c.suit.value;
        assert s in StandardSuits by {
          match s
          case Hearts => assert StandardSuits[0] == s;
          case Diamonds => assert StandardSuits[1] == s;
          case Clubs => assert StandardSuits[2] == s;
          case Spades => assert StandardSuits[3] == s;
        }
      }
    }
  }
}
