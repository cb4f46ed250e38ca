/**
 * Construction of the Mau-Mau deck: `numDecks` copies of the 32 cards whose
 * rank is SEVEN or higher, generated suit by suit and then shuffled.
 */
module Deck {
  import opened Cards

  /** A card of the Mau-Mau deck: rank SEVEN up to ACE. */
  predicate InDeck(c: Card) {
    RankOrd(c.rank) >= RankOrd(Seven)
  }

  /**
   * How often the generation loops have emitted card `c` after `i` full
   * passes, `si` further suits and, in suit `si`, the first `ri` ranks.
   */
  ghost function Emitted(i: nat, si: nat, ri: nat, c: Card): nat
  {
    if !InDeck(c) then 0
    else i + (if SuitOrd(c.suit) < si then 1 else 0) + (if SuitOrd(c.suit) == si && RankOrd(c.rank) < ri then 1 else 0)
  }

  /**
   * `Collections.shuffle`: for i from the last index down to 1, swap the
   * element at i with one at a random index in [0, i]. The random source
   * is the parameter `rnd`.
   */
  method Shuffle(deck: seq<Card>, rnd: nat -> nat) returns (r: seq<Card>)
    ensures |r| == |deck|
    ensures multiset(r) == multiset(deck)
  {
    r := deck;
    var i := |r|;
    while i > 1
      invariant 0 <= i <= |r| == |deck|
      invariant multiset(r) == multiset(deck)
    {
      i := i - 1;
      var j := rnd(i) % (i + 1);
      var tmp := r[i];
      r := r[i := r[j]][j := tmp];
    }
  }

  /**
   * `MauMauDeck.makeDeck`: `numDecks` passes, each over the suits and, per
   * suit, over the ranks, keeping those from SEVEN up; then a shuffle.
   */
  method MakeDeck(numDecks: int, rnd: nat -> nat) returns (deck: seq<Card>)
    ensures numDecks <= 0 ==> deck == []
    ensures |deck| == if numDecks <= 0 then 0 else 32 * numDecks
    ensures forall c :: c in deck ==> InDeck(c)
    ensures forall c :: multiset(deck)[c] == if InDeck(c) && numDecks > 0 then numDecks else 0
  {
    deck := [];
    var i := 0;
    while i < numDecks
      invariant 0 <= i && (numDecks > 0 ==> i <= numDecks)
      invariant numDecks <= 0 ==> i == 0
      invariant |deck| == 32 * i
      invariant forall c :: multiset(deck)[c] == Emitted(i, 0, 0, c)
    {
      var si := 0;
      while si < SuitCount
        invariant 0 <= si <= SuitCount
        invariant |deck| == 32 * i + 8 * si
        invariant forall c :: multiset(deck)[c] == Emitted(i, si, 0, c)
      {
        var suit := SuitAt(si);
        var ri := 0;
        while ri < RankCount
          invariant 0 <= ri <= RankCount
          invariant |deck| == 32 * i + 8 * si + (if ri <= 5 then 0 else ri - 5)
          invariant forall c :: multiset(deck)[c] == Emitted(i, si, ri, c)
        {
          var rank := RankAt(ri);
          if RankOrd(rank) >= RankOrd(Seven) {
            deck := deck + [Card(rank, suit)];
          }
          forall c ensures multiset(deck)[c] == Emitted(i, si, ri + 1, c) {
            RankOrdInjective(c.rank, rank);
            SuitOrdInjective(c.suit, suit);
          }
          ri := ri + 1;
        }
        si := si + 1;
      }
      i := i + 1;
    }
    deck := Shuffle(deck, rnd);
    forall c | c in deck ensures InDeck(c) {
      assert multiset(deck)[c] > 0;
    }
  }
}
