/** The 21+3 hand classifier: the three-card straight test and the
    prioritised payout category of three cards.
 */
module HandClassifier {
  import opened Cards
  import opened Values

  /** The three values in ascending order: a sorted rearrangement of them. */
  function Sort3(x: int, y: int, z: int): (t: (int, int, int))
    ensures t.0 <= t.1 <= t.2
    ensures t == (x, y, z) || t == (x, z, y) || t == (y, x, z)
         || t == (y, z, x) || t == (z, x, y) || t == (z, y, x)
  {
    if x <= y then
      if y <= z then (x, y, z)
      else if x <= z then (x, z, y)
      else (z, x, y)
    else
      if x <= z then (y, x, z)
      else if y <= z then (y, z, x)
      else (z, y, x)
  }

  /** The straight test on 1-based rank values: after sorting, a run of three
      consecutive values, A-2-3, or Q-K-A (the Ace counted high). */
  predicate IsStraight3(r1: int, r2: int, r3: int)
  {
    var (a0, a1, a2) := Sort3(r1, r2, r3);
    (a0 + 1 == a1 && a1 + 1 == a2)
    || (a0 == 1 && a1 == 2 && a2 == 3)
    || (a0 == 1 && a1 == 12 && a2 == 13)
  }

  function Min3(x: int, y: int, z: int): int
  {
    if x <= y && x <= z then x else if y <= z then y else z
  }

  function Max3(x: int, y: int, z: int): int
  {
    if x >= y && x >= z then x else if y >= z then y else z
  }

  /** A straight is exactly three distinct values spanning two steps, or the
      values Ace, Queen and King (lowest 1, highest 13, middle 12). */
  lemma StraightMeaning(x: int, y: int, z: int)
    ensures IsStraight3(x, y, z) <==>
              (x != y && y != z && x != z && Max3(x, y, z) - Min3(x, y, z) == 2)
              || (Min3(x, y, z) == 1 && Max3(x, y, z) == 13 && x + y + z == 26)
  {
  }

  /** Sorting three values gives the same triple whichever order they come in. */
  lemma Sort3OrderIndependent(x: int, y: int, z: int)
    ensures Sort3(x, y, z) == Sort3(y, x, z) == Sort3(x, z, y)
  {
  }

  /** The straight test does not depend on the order of its arguments. */
  lemma StraightOrderIndependent(x: int, y: int, z: int)
    ensures IsStraight3(x, y, z) == IsStraight3(y, x, z) == IsStraight3(x, z, y)
            == IsStraight3(y, z, x) == IsStraight3(z, x, y) == IsStraight3(z, y, x)
  {
    Sort3OrderIndependent(x, y, z);
    Sort3OrderIndependent(y, z, x);
    Sort3OrderIndependent(z, x, y);
  }

  /** Three equal values are never a straight. */
  lemma TripsAreNotStraight(v: int)
    ensures !IsStraight3(v, v, v)
  {
  }

  /** The wraparound cases: Q-K-A and A-2-3 are straights, K-A-2 is not. */
  lemma StraightEdgeCases()
    ensures IsStraight3(12, 13, 1)
    ensures IsStraight3(3, 1, 2)
    ensures !IsStraight3(13, 1, 2)
  {
  }

  /** The six 21+3 outcomes, from the highest payout to the lowest. */
  datatype Category = SuitedTrips | StraightFlush | Trips | Straight | Flush | Lose

  /** The profit per unit stake of each category. */
  function Payout(cat: Category): int
  {
    match cat
    case SuitedTrips => 100
    case StraightFlush => 40
    case Trips => 30
    case Straight => 10
    case Flush => 5
    case Lose => -1
  }

  predicate SameRank3(c1: Card, c2: Card, c3: Card)
  {
    CardRank(c1) == CardRank(c2) && CardRank(c2) == CardRank(c3)
  }

  predicate SameSuit3(c1: Card, c2: Card, c3: Card)
  {
    CardSuit(c1) == CardSuit(c2) && CardSuit(c2) == CardSuit(c3)
  }

  predicate Straight3(c1: Card, c2: Card, c3: Card)
  {
    IsStraight3(RankValue(CardRank(c1)), RankValue(CardRank(c2)), RankValue(CardRank(c3)))
  }

  /** The defining condition of each category, stated without priorities:
      each excludes what would make a higher-paying category apply. */
  predicate Ranked(cat: Category, c1: Card, c2: Card, c3: Card)
  {
    match cat
    case SuitedTrips => SameRank3(c1, c2, c3) && SameSuit3(c1, c2, c3)
    case StraightFlush => SameSuit3(c1, c2, c3) && Straight3(c1, c2, c3)
    case Trips => SameRank3(c1, c2, c3) && !SameSuit3(c1, c2, c3)
    case Straight => Straight3(c1, c2, c3) && !SameSuit3(c1, c2, c3)
    case Flush => SameSuit3(c1, c2, c3) && !Straight3(c1, c2, c3) && !SameRank3(c1, c2, c3)
    case Lose => !SameRank3(c1, c2, c3) && !SameSuit3(c1, c2, c3) && !Straight3(c1, c2, c3)
  }

  /** The category of three cards: the first of suited trips, straight flush,
      trips, straight, flush that applies, otherwise a loss. */
  function Classify(c1: Card, c2: Card, c3: Card): (cat: Category)
    ensures Ranked(cat, c1, c2, c3)
  {
    var sameRank := SameRank3(c1, c2, c3);
    var sameSuit := SameSuit3(c1, c2, c3);
    if sameRank && sameSuit then SuitedTrips
    else
      var straight := Straight3(c1, c2, c3);
      TripsAreNotStraight(RankValue(CardRank(c1)));
      if straight && sameSuit then StraightFlush
      else if sameRank then Trips
      else if straight then Straight
      else if sameSuit then Flush
      else Lose
  }

  /** The categories are mutually exclusive, so the category Classify picks is
      the only one whose defining condition holds. */
  lemma RankedUnique(cat: Category, c1: Card, c2: Card, c3: Card)
    requires Ranked(cat, c1, c2, c3)
    ensures cat == Classify(c1, c2, c3)
  {
    if SameRank3(c1, c2, c3) {
      TripsAreNotStraight(RankValue(CardRank(c1)));
    }
  }

  /** Three copies of one card score suited trips, never trips or a flush. */
  lemma IdenticalCardsAreSuitedTrips(c: Card)
    ensures Classify(c, c, c) == SuitedTrips
  {
  }

  /** The category depends only on the set of three cards, not on the order
      in which they were drawn. */
  lemma ClassifyOrderIndependent(c1: Card, c2: Card, c3: Card)
    ensures Classify(c1, c2, c3) == Classify(c2, c1, c3) == Classify(c1, c3, c2)
            == Classify(c2, c3, c1) == Classify(c3, c1, c2) == Classify(c3, c2, c1)
  {
    var v1, v2, v3 := RankValue(CardRank(c1)), RankValue(CardRank(c2)), RankValue(CardRank(c3));
    StraightOrderIndependent(v1, v2, v3);
    var cat := Classify(c1, c2, c3);
    RankedUnique(cat, c2, c1, c3);
    RankedUnique(cat, c1, c3, c2);
    RankedUnique(cat, c2, c3, c1);
    RankedUnique(cat, c3, c1, c2);
    RankedUnique(cat, c3, c2, c1);
  }

  /** The 21+3 result record: the expected value and the six outcome probabilities. */
  datatype TwentyOnePlusThreeStats = TwentyOnePlusThreeStats(
    ev: Value,
    pSuitedTrips: real,
    pStraightFlush: real,
    pTrips: real,
    pStraight: real,
    pFlush: real,
    pLose: real)

  /** A record with every field zero, as a freshly declared one is. */
  const ZeroStats := TwentyOnePlusThreeStats(Defined(0.0), 0.0, 0.0, 0.0, 0.0, 0.0, 0.0)

  /** The probability field of the record that belongs to a category. */
  function Bucket(s: TwentyOnePlusThreeStats, cat: Category): real
  {
    match cat
    case SuitedTrips => s.pSuitedTrips
    case StraightFlush => s.pStraightFlush
    case Trips => s.pTrips
    case Straight => s.pStraight
    case Flush => s.pFlush
    case Lose => s.pLose
  }

  function BucketSum(s: TwentyOnePlusThreeStats): real
  {
    s.pSuitedTrips + s.pStraightFlush + s.pTrips + s.pStraight + s.pFlush + s.pLose
  }

  /** Scores three cards: returns the profit of their category and the record
      with that category's field, and no other, increased by one. */
  function Profit21p3(c1: Card, c2: Card, c3: Card, acc: TwentyOnePlusThreeStats): (res: (real, TwentyOnePlusThreeStats))
    ensures res.0 == Payout(Classify(c1, c2, c3)) as real
    ensures res.1.ev == acc.ev
    ensures forall cat :: Bucket(res.1, cat) == Bucket(acc, cat) + (if cat == Classify(c1, c2, c3) then 1.0 else 0.0)
    ensures BucketSum(res.1) == BucketSum(acc) + 1.0
  {
    var sameRank := SameRank3(c1, c2, c3);
    var sameSuit := SameSuit3(c1, c2, c3);
    if sameRank && sameSuit then
      (100.0, acc.(pSuitedTrips := acc.pSuitedTrips + 1.0))
    else
      var straight := Straight3(c1, c2, c3);
      var flush := sameSuit;
      if straight && flush then
        (40.0, acc.(pStraightFlush := acc.pStraightFlush + 1.0))
      else if sameRank then
        (30.0, acc.(pTrips := acc.pTrips + 1.0))
      else if straight then
        (10.0, acc.(pStraight := acc.pStraight + 1.0))
      else if flush then
        (5.0, acc.(pFlush := acc.pFlush + 1.0))
      else
        (-1.0, acc.(pLose := acc.pLose + 1.0))
  }
}
