/** Card identities.

    A specific card (suit and rank) is identified by a flat index 0..51,
    laid out as four blocks of thirteen ranks in the fixed suit order
    Clubs, Diamonds, Hearts, Spades: index = suit * 13 + rank.
 */
module Cards {

  const NumSuits: int := 4
  const NumRanks: int := 13
  const NumCards: int := 52

  /** 0 = Clubs, 1 = Diamonds, 2 = Hearts, 3 = Spades. */
  type Suit = s: int | 0 <= s < 4

  /** 0 = Ace, 1 = Two, ..., 9 = Ten, 10 = Jack, 11 = Queen, 12 = King. */
  type Rank = r: int | 0 <= r < 13

  /** A flat card identity. */
  type Card = c: int | 0 <= c < 52

  /** The identity of the card with the given suit and rank; the suit and
      rank can be read back from it. */
  function CardIndex(suit: Suit, rank: Rank): (c: Card)
    ensures CardSuit(c) == suit && CardRank(c) == rank
  {
    suit * NumRanks + rank
  }

  function CardSuit(c: Card): Suit
  {
    c / NumRanks
  }

  function CardRank(c: Card): Rank
  {
    c % NumRanks
  }

  /** Every identity is the index of its own suit and rank, so CardIndex is
      a bijection between Suit x Rank and Card. */
  lemma CardIndexRoundTrip(c: Card)
    ensures CardIndex(CardSuit(c), CardRank(c)) == c
  {
  }

  /** Diamonds and Hearts are red; Clubs and Spades are black. */
  predicate IsRedSuit(suit: Suit)
  {
    suit == 1 || suit == 2
  }

  /** Two different suits have the same colour exactly when they are
      Diamonds and Hearts or Clubs and Spades. */
  lemma SameColourSuits(s1: Suit, s2: Suit)
    requires s1 != s2
    ensures IsRedSuit(s1) == IsRedSuit(s2) <==> {s1, s2} == {1, 2} || {s1, s2} == {0, 3}
  {
    if IsRedSuit(s1) == IsRedSuit(s2) {
      if IsRedSuit(s1) {
        assert {s1, s2} == {1, 2};
      } else {
        assert {s1, s2} == {0, 3};
      }
    } else {
      assert s1 in {s1, s2} && s2 in {s1, s2};
    }
  }

  /** The 1-based value of a rank used by the straight test: Ace = 1, ..., King = 13. */
  function RankValue(rank: Rank): (v: int)
    ensures 1 <= v <= 13
    ensures v - 1 == rank
  {
    rank + 1
  }
}
