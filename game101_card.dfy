/**
 * Cards of the Python variant (game101/card.py). Suits and ranks are the
 * entries of `SUITS` and `RANKS`; a card is a frozen value, so two cards are
 * equal exactly when suit and rank are.
 */
module Game101Card {

  datatype Suit = Spades | Hearts | Diamonds | Clubs

  datatype Rank = Ace | Two | Three | Four | Five | Six | Seven | Eight | Nine | Ten | Jack | Queen | King

  datatype Card = Card(suit: Suit, rank: Rank)

  /** `SUITS`, in order. */
  const Suits: seq<Suit> := [Spades, Hearts, Diamonds, Clubs]

  /** `RANKS`, in order. */
  const Ranks: seq<Rank> := [Ace, Two, Three, Four, Five, Six, Seven, Eight, Nine, Ten, Jack, Queen, King]

  /** The rank's entry in `RANKS`. */
  function Label(r: Rank): (l: string)
    ensures 1 <= |l| <= 2 && (|l| == 2 <==> r == Ten)
    ensures IsDigits(l) <==> r !in {Ace, Jack, Queen, King}
  {
    match r
    case Ace => assert "A"[0] !in "0123456789"; "A"
    case Two => "2"
    case Three => "3"
    case Four => "4"
    case Five => "5"
    case Six => "6"
    case Seven => "7"
    case Eight => "8"
    case Nine => "9"
    case Ten => "10"
    case Jack => assert "J"[0] !in "0123456789"; "J"
    case Queen => assert "Q"[0] !in "0123456789"; "Q"
    case King => assert "K"[0] !in "0123456789"; "K"
  }

  predicate IsDigits(s: string)
  {
    forall i :: 0 <= i < |s| ==> '0' <= s[i] <= '9'
  }

  /** `10 ^ k`. */
  function Pow10(k: nat): (p: nat)
    ensures p >= 1
  {
    if k == 0 then 1 else 10 * Pow10(k - 1)
  }

  /**
   * `int(s)` for a string of decimal digits: a number of at most `|s|`
   * digits, and of exactly `|s|` when the first digit is not 0.
   */
  function DecimalValue(s: string): (v: nat)
    requires IsDigits(s)
    ensures v < Pow10(|s|)
    ensures s != [] && s[0] != '0' ==> Pow10(|s| - 1) <= v
  {
    if s == [] then 0 else DecimalValue(s[..|s| - 1]) * 10 + (s[|s| - 1] as int - '0' as int)
  }

  /**
   * `Card.value`: 10 for a face card, 11 for an ace, and otherwise the
   * number written on the rank, which is the rank's position in `RANKS`
   * counting from 1.
   */
  function Value(c: Card): (v: int)
    ensures 2 <= v <= 11
    ensures v == 11 <==> c.rank == Ace
    ensures v == 10 <==> c.rank in {Ten, Jack, Queen, King}
    ensures c.rank !in {Ace, Jack, Queen, King} ==> v == RankIndex(c.rank) + 1
  {
    var text := Label(c.rank);
    if text in {"J", "Q", "K"} then 10
    else if text == "A" then 11
    else NumeralValue(c.rank)
  }

  /** `int(rank)` for the numeral ranks: the number is the rank's position in `RANKS`. */
  function NumeralValue(r: Rank): (v: nat)
    requires r !in {Ace, Jack, Queen, King}
    ensures IsDigits(Label(r)) && v == DecimalValue(Label(r))
    ensures v == RankIndex(r) + 1
  {
    NumeralDigits(r);
    DecimalValue(Label(r))
  }

  /** The label of a numeral rank is a string of digits that reads as its position in `RANKS`. */
  lemma NumeralDigits(r: Rank)
    requires r !in {Ace, Jack, Queen, King}
    ensures IsDigits(Label(r)) && DecimalValue(Label(r)) == RankIndex(r) + 1
  {
    match r
    case Two =>
    case Three =>
    case Four =>
    case Five =>
    case Six =>
    case Seven =>
    case Eight =>
    case Nine =>
    case Ten =>
      assert Label(Ten)[..1] == "1";
  }

  /** `create_standard_deck`: suit by suit in `SUITS` order, each suit rank by rank in `RANKS` order. */
  function CreateStandardDeck(): (d: seq<Card>)
    ensures |d| == 52
  {
    seq(52, k requires 0 <= k < 52 => Card(Suits[k / 13], Ranks[k % 13]))
  }

  /** The deck is suit-major: suit i, rank j sits at position 13 * i + j. */
  lemma StandardDeckLayout()
    ensures forall i, j :: 0 <= i < 4 && 0 <= j < 13 ==>
              CreateStandardDeck()[13 * i + j] == Card(Suits[i], Ranks[j])
  {
    forall i, j | 0 <= i < 4 && 0 <= j < 13
      ensures CreateStandardDeck()[13 * i + j] == Card(Suits[i], Ranks[j])
    {
      var k := 13 * i + j;
      assert k / 13 == i && k % 13 == j;
    }
  }

  /** Every (suit, rank) pair occurs in the deck, and no card occurs twice. */
  lemma StandardDeckComplete()
    ensures forall c: Card :: c in CreateStandardDeck()
    ensures forall k, l :: 0 <= k < l < 52 ==> CreateStandardDeck()[k] != CreateStandardDeck()[l]
  {
    var d := CreateStandardDeck();
    StandardDeckLayout();
    forall c: Card
      ensures c in d
    {
      var i := SuitIndex(c.suit);
      var j := RankIndex(c.rank);
      assert d[13 * i + j] == c;
    }
    forall k, l | 0 <= k < l < 52
      ensures d[k] != d[l]
    {
      assert k == 13 * (k / 13) + k % 13 && l == 13 * (l / 13) + l % 13;
      if k / 13 == l / 13 {
        assert k % 13 != l % 13;
        RanksDistinct(k % 13, l % 13);
      } else {
        SuitsDistinct(k / 13, l / 13);
      }
    }
  }

  function SuitIndex(s: Suit): (i: nat)
    ensures i < 4 && Suits[i] == s
  {
    match s
    case Spades => 0
    case Hearts => 1
    case Diamonds => 2
    case Clubs => 3
  }

  function RankIndex(r: Rank): (j: nat)
    ensures j < 13 && Ranks[j] == r
  {
    match r
    case Ace => 0
    case Two => 1
    case Three => 2
    case Four => 3
    case Five => 4
    case Six => 5
    case Seven => 6
    case Eight => 7
    case Nine => 8
    case Ten => 9
    case Jack => 10
    case Queen => 11
    case King => 12
  }

  lemma SuitsDistinct(i: nat, j: nat)
    requires i < 4 && j < 4 && i != j
    ensures Suits[i] != Suits[j]
  {
  }

  lemma RanksDistinct(i: nat, j: nat)
    requires i < 13 && j < 13 && i != j
    ensures Ranks[i] != Ranks[j]
  {
  }
}
