/**
 * Playing cards: the `Rank` and `Suit` enumerations and the `Card` record
 * with its natural order (by rank ordinal, suit ordinal as tiebreak).
 */
module Cards {

  datatype Rank = Two | Three | Four | Five | Six | Seven | Eight | Nine | Ten | Jack | Queen | King | Ace

  datatype Suit = Hearts | Diamonds | Clubs | Spades

  datatype Card = Card(rank: Rank, suit: Suit)

  /** The enum ordinal of a rank: its position in declaration order. */
  function RankOrd(r: Rank): (k: nat)
    ensures k < 13
  {
    match r
    case Two => 0
    case Three => 1
    case Four => 2
    case Five => 3
    case Six => 4
    case Seven => 5
    case Eight => 6
    case Nine => 7
    case Ten => 8
    case Jack => 9
    case Queen => 10
    case King => 11
    case Ace => 12
  }

  /** The enum ordinal of a suit. */
  function SuitOrd(s: Suit): (k: nat)
    ensures k < 4
  {
    match s
    case Hearts => 0
    case Diamonds => 1
    case Clubs => 2
    case Spades => 3
  }

  /** `Rank.values().length` and `Suit.values().length`. */
  const RankCount: nat := 13
  const SuitCount: nat := 4

  /** `Rank.values()[k]`: the rank whose ordinal is `k`. */
  function RankAt(k: nat): (r: Rank)
    requires k < RankCount
    ensures RankOrd(r) == k
  {
    match k
    case 0 => Two
    case 1 => Three
    case 2 => Four
    case 3 => Five
    case 4 => Six
    case 5 => Seven
    case 6 => Eight
    case 7 => Nine
    case 8 => Ten
    case 9 => Jack
    case 10 => Queen
    case 11 => King
    case _ => Ace
  }

  /** `Suit.values()[k]`: the suit whose ordinal is `k`. */
  function SuitAt(k: nat): (s: Suit)
    requires k < SuitCount
    ensures SuitOrd(s) == k
  {
    match k
    case 0 => Hearts
    case 1 => Diamonds
    case 2 => Clubs
    case _ => Spades
  }

  lemma RankOrdInjective(a: Rank, b: Rank)
    ensures RankOrd(a) == RankOrd(b) <==> a == b
  {
  }

  lemma SuitOrdInjective(a: Suit, b: Suit)
    ensures SuitOrd(a) == SuitOrd(b) <==> a == b
  {
  }

  /** `Integer.compare`: the sign of x - y. */
  function IntCompare(x: int, y: int): (r: int)
    ensures r == -1 || r == 0 || r == 1
    ensures r < 0 <==> x < y
    ensures r == 0 <==> x == y
  {
    if x < y then -1 else if x == y then 0 else 1
  }

  /** `Card.compareTo`: compare rank ordinals first, then suit ordinals. */
  function Compare(a: Card, b: Card): (r: int)
    ensures r == -1 || r == 0 || r == 1
    ensures r == 0 <==> a == b
  {
    RankOrdInjective(a.rank, b.rank);
    SuitOrdInjective(a.suit, b.suit);
    var rankCompare := IntCompare(RankOrd(a.rank), RankOrd(b.rank));
    if rankCompare == 0 then IntCompare(SuitOrd(a.suit), SuitOrd(b.suit)) else rankCompare
  }

  /** Different ranks: the rank ordinals decide, whatever the suits are. */
  lemma CompareByRank(a: Card, b: Card)
    requires a.rank != b.rank
    ensures Compare(a, b) < 0 <==> RankOrd(a.rank) < RankOrd(b.rank)
    ensures Compare(a, b) > 0 <==> RankOrd(a.rank) > RankOrd(b.rank)
  {
    RankOrdInjective(a.rank, b.rank);
  }

  /** Equal ranks: the suit ordinals decide. */
  lemma CompareBySuit(a: Card, b: Card)
    requires a.rank == b.rank
    ensures Compare(a, b) < 0 <==> SuitOrd(a.suit) < SuitOrd(b.suit)
    ensures Compare(a, b) > 0 <==> SuitOrd(a.suit) > SuitOrd(b.suit)
  {
  }

  /** Swapping the arguments negates the result. */
  lemma CompareAntisymmetric(a: Card, b: Card)
    ensures Compare(a, b) == -Compare(b, a)
  {
  }

  /** The strict order `Compare(a, b) < 0` is transitive. */
  lemma CompareTransitive(a: Card, b: Card, c: Card)
    requires Compare(a, b) < 0 && Compare(b, c) < 0
    ensures Compare(a, c) < 0
  {
  }

  /** Any two cards are comparable one way or the other, or equal: a total order. */
  lemma CompareTotal(a: Card, b: Card)
    ensures Compare(a, b) < 0 || a == b || Compare(b, a) < 0
  {
  }
}
