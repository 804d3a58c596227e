/** The Perfect Pairs engine.

    The player's first two cards are an ordered draw without replacement.
    The ordered pair of identities (a, b) is drawn with weight
    cnt[a] * (cnt[b] - [a = b]) out of N * (N - 1); every pair is scored as a
    perfect pair (same card), a coloured pair (same rank and colour, other
    suit), a mixed pair (same rank, other colour) or a loss.
 */
module PerfectPairs {
  import opened Cards
  import opened Values
  import opened Shoe

  datatype PairCategory = PerfectPair | ColoredPair | MixedPair | NoPair

  /** The profit per unit stake of each outcome. */
  function PairPayout(cat: PairCategory): int
  {
    match cat
    case PerfectPair => 25
    case ColoredPair => 12
    case MixedPair => 6
    case NoPair => -1
  }

  /** The outcome of the player's two cards a and b. */
  function PairOutcome(a: Card, b: Card): PairCategory
  {
    if CardRank(a) == CardRank(b) then
      if CardSuit(a) == CardSuit(b) then PerfectPair
      else if IsRedSuit(CardSuit(a)) == IsRedSuit(CardSuit(b)) then ColoredPair
      else MixedPair
    else NoPair
  }

  /** What each outcome means in terms of the two cards, and that the outcome
      does not depend on the order of the two cards. */
  lemma PairOutcomeMeaning(a: Card, b: Card)
    ensures PairOutcome(a, b) == PerfectPair <==> a == b
    ensures PairOutcome(a, b) == ColoredPair <==>
              a != b && CardRank(a) == CardRank(b)
              && ({CardSuit(a), CardSuit(b)} == {1, 2} || {CardSuit(a), CardSuit(b)} == {0, 3})
    ensures PairOutcome(a, b) == MixedPair <==>
              CardRank(a) == CardRank(b) && IsRedSuit(CardSuit(a)) != IsRedSuit(CardSuit(b))
    ensures PairOutcome(a, b) == NoPair <==> CardRank(a) != CardRank(b)
    ensures PairOutcome(a, b) == PairOutcome(b, a)
  {
    CardIndexRoundTrip(a);
    CardIndexRoundTrip(b);
    if CardSuit(a) != CardSuit(b) {
      SameColourSuits(CardSuit(a), CardSuit(b));
    }
  }

  /** Integer weight, out of N * (N - 1), accumulated by each outcome, and
      the accumulated weighted profit, the numerator of the expected value. */
  datatype PairTally = PairTally(perfect: int, colored: int, mixed: int, lose: int, winnings: int)
  {
    function Total(): int
    {
      perfect + colored + mixed + lose
    }

    /** The winnings are the payout-weighted sum of the outcome weights. */
    predicate Consistent()
    {
      winnings == 25 * perfect + 12 * colored + 6 * mixed - lose
    }

    predicate NonNegative()
    {
      perfect >= 0 && colored >= 0 && mixed >= 0 && lose >= 0
    }
  }

  const NoPairs := PairTally(0, 0, 0, 0, 0)

  /** The profit of weight w of an outcome: w times its payout. */
  function WeightedProfit(cat: PairCategory, w: int): int
  {
    match cat
    case PerfectPair => 25 * w
    case ColoredPair => 12 * w
    case MixedPair => 6 * w
    case NoPair => -w
  }

  /** Adds weight w to an outcome and its weighted profit to the winnings. */
  function Credit(t: PairTally, cat: PairCategory, w: int): PairTally
  {
    var u := t.(winnings := t.winnings + WeightedProfit(cat, w));
    match cat
    case PerfectPair => u.(perfect := t.perfect + w)
    case ColoredPair => u.(colored := t.colored + w)
    case MixedPair => u.(mixed := t.mixed + w)
    case NoPair => u.(lose := t.lose + w)
  }

  function PairBucket(t: PairTally, cat: PairCategory): int
  {
    match cat
    case PerfectPair => t.perfect
    case ColoredPair => t.colored
    case MixedPair => t.mixed
    case NoPair => t.lose
  }

  function AddTallies(t: PairTally, u: PairTally): PairTally
  {
    PairTally(t.perfect + u.perfect, t.colored + u.colored, t.mixed + u.mixed, t.lose + u.lose,
              t.winnings + u.winnings)
  }

  /** The number of ways to draw a and then b: zero when a is absent or no
      card b is left once a has been drawn, as the engine skips those pairs. */
  function PairWeight(cnt: seq<int>, a: Card, b: Card): (w: int)
    requires |cnt| == NumCards
    ensures w >= 0
  {
    var nb := cnt[b] - (if a == b then 1 else 0);
    if cnt[a] <= 0 || nb <= 0 then 0 else cnt[a] * nb
  }

  /** Every pair the engine visits has a positive weight, and every pair it
      skips has weight zero. */
  lemma VisitedPairWeight(cnt: seq<int>, a: Card, b: Card)
    requires |cnt| == NumCards
    ensures PairWeight(cnt, a, b) > 0 <==> cnt[a] > 0 && cnt[b] - (if a == b then 1 else 0) > 0
  {
    var nb := cnt[b] - (if a == b then 1 else 0);
    if cnt[a] > 0 && nb > 0 {
      PositiveProduct(cnt[a], nb);
    }
  }

  /** In a valid shoe the skipped pairs are exactly those of weight
      cnt[a] * (cnt[b] - [a = b]) zero, so the weight is that product. */
  lemma PairWeightProduct(cnt: seq<int>, a: Card, b: Card)
    requires ValidShoe(cnt)
    ensures PairWeight(cnt, a, b) == cnt[a] * (cnt[b] - (if a == b then 1 else 0))
  {
    var nb := cnt[b] - (if a == b then 1 else 0);
    if cnt[a] <= 0 {
      assert cnt[a] == 0;
    } else if nb <= 0 {
      assert nb == 0;
    }
  }

  /** The weights of the pairs (a, b) with b < j, by outcome. */
  function RowTally(cnt: seq<int>, a: Card, j: nat): PairTally
    requires |cnt| == NumCards && j <= NumCards
  {
    if j == 0 then NoPairs
    else Credit(RowTally(cnt, a, j - 1), PairOutcome(a, j - 1), PairWeight(cnt, a, j - 1))
  }

  /** The weights of the pairs (a, b) with a < i, by outcome. */
  function GridTally(cnt: seq<int>, i: nat): PairTally
    requires |cnt| == NumCards && i <= NumCards
  {
    if i == 0 then NoPairs else AddTallies(GridTally(cnt, i - 1), RowTally(cnt, i - 1, |cnt|))
  }

  /** The weights of all ordered pairs, by outcome. */
  function PairsTally(cnt: seq<int>): PairTally
    requires |cnt| == NumCards
  {
    GridTally(cnt, |cnt|)
  }

  /** One more row of the grid, or one more pair of a row. */
  lemma GridStep(cnt: seq<int>, a: Card)
    requires |cnt| == NumCards
    ensures GridTally(cnt, a + 1) == AddTallies(GridTally(cnt, a), RowTally(cnt, a, |cnt|))
    ensures AddTallies(GridTally(cnt, a), NoPairs) == GridTally(cnt, a)
  {
  }


  lemma RowStep(cnt: seq<int>, a: Card, b: Card, done: PairTally)
    requires |cnt| == NumCards
    ensures AddTallies(done, RowTally(cnt, a, b + 1))
            == AddTallies(done, Credit(RowTally(cnt, a, b), PairOutcome(a, b), PairWeight(cnt, a, b)))
  {
  }

  lemma {:induction false} CreditTotal(t: PairTally, cat: PairCategory, w: int)
    ensures Credit(t, cat, w).Total() == t.Total() + w
    ensures t.NonNegative() && w >= 0 ==> Credit(t, cat, w).NonNegative()
  {
  }

  /** A row whose first card is absent weighs nothing. */
  lemma {:induction false} ZeroRow(cnt: seq<int>, a: Card, j: nat)
    requires |cnt| == NumCards && j <= NumCards && cnt[a] <= 0
    ensures RowTally(cnt, a, j) == NoPairs
  {
    if j > 0 {
      ZeroRow(cnt, a, j - 1);
    }
  }

  /** Row a weighs cnt[a] times the number of cards that can follow a. */
  lemma {:induction false} RowTallyTotal(cnt: seq<int>, a: Card, j: nat)
    requires ValidShoe(cnt) && j <= NumCards
    ensures RowTally(cnt, a, j).Total() == cnt[a] * (SumTo(cnt, j) - (if a < j then 1 else 0))
  {
    if j > 0 {
      var b := j - 1;
      RowTallyTotal(cnt, a, b);
      PairWeightProduct(cnt, a, b);
      CreditTotal(RowTally(cnt, a, b), PairOutcome(a, b), PairWeight(cnt, a, b));
      ProductStep(cnt[a], RowTally(cnt, a, j).Total(), RowTally(cnt, a, b).Total(), PairWeight(cnt, a, b),
        SumTo(cnt, b) - (if a < b then 1 else 0), cnt[b] - (if a == b then 1 else 0),
        SumTo(cnt, j) - (if a < j then 1 else 0));
    }
  }

  lemma {:induction false} RowTallyNonNegative(cnt: seq<int>, a: Card, j: nat)
    requires |cnt| == NumCards && j <= NumCards
    ensures RowTally(cnt, a, j).NonNegative()
  {
    if j > 0 {
      RowTallyNonNegative(cnt, a, j - 1);
      CreditTotal(RowTally(cnt, a, j - 1), PairOutcome(a, j - 1), PairWeight(cnt, a, j - 1));
    }
  }

  lemma {:induction false} GridTallyTotal(cnt: seq<int>, i: nat)
    requires ValidShoe(cnt) && i <= NumCards
    ensures GridTally(cnt, i).Total() == SumTo(cnt, i) * (Total(cnt) - 1)
  {
    if i > 0 {
      GridTallyTotal(cnt, i - 1);
      RowTallyTotal(cnt, i - 1, |cnt|);
      var x := Total(cnt) - 1;
      assert SumTo(cnt, |cnt|) - (if i - 1 < |cnt| then 1 else 0) == x;
      AddProductsRight(SumTo(cnt, i - 1), cnt[i - 1], x, GridTally(cnt, i - 1).Total(), RowTally(cnt, i - 1, |cnt|).Total());
    }
  }

  lemma {:induction false} GridTallyNonNegative(cnt: seq<int>, i: nat)
    requires |cnt| == NumCards && i <= NumCards
    ensures GridTally(cnt, i).NonNegative()
  {
    if i > 0 {
      GridTallyNonNegative(cnt, i - 1);
      RowTallyNonNegative(cnt, i - 1, |cnt|);
    }
  }

  /** Crediting an outcome and adding tallies keep the winnings consistent. */
  lemma CreditConsistent(t: PairTally, cat: PairCategory, w: int)
    requires t.Consistent()
    ensures Credit(t, cat, w).Consistent()
  {
  }

  lemma AddConsistent(t: PairTally, u: PairTally)
    requires t.Consistent() && u.Consistent()
    ensures AddTallies(t, u).Consistent()
  {
  }

  lemma {:induction false} RowTallyConsistent(cnt: seq<int>, a: Card, j: nat)
    requires |cnt| == NumCards && j <= NumCards
    ensures RowTally(cnt, a, j).Consistent()
  {
    if j > 0 {
      RowTallyConsistent(cnt, a, j - 1);
      CreditConsistent(RowTally(cnt, a, j - 1), PairOutcome(a, j - 1), PairWeight(cnt, a, j - 1));
    }
  }

  /** The engine's expected-value numerator is the payout-weighted sum of
      the outcome weights. */
  lemma {:induction false} GridTallyConsistent(cnt: seq<int>, i: nat)
    requires |cnt| == NumCards && i <= NumCards
    ensures GridTally(cnt, i).Consistent()
  {
    if i > 0 {
      GridTallyConsistent(cnt, i - 1);
      RowTallyConsistent(cnt, i - 1, |cnt|);
      AddConsistent(GridTally(cnt, i - 1), RowTally(cnt, i - 1, |cnt|));
    }
  }

  /** The ordered-pair weights partition the N * (N - 1) ordered draws. */
  lemma PairsPartition(cnt: seq<int>)
    requires ValidShoe(cnt)
    ensures PairsTally(cnt).Total() == Total(cnt) * (Total(cnt) - 1)
    ensures PairsTally(cnt).NonNegative()
  {
    GridTallyTotal(cnt, |cnt|);
    GridTallyNonNegative(cnt, |cnt|);
  }

  /** Dividing a non-negative tally by its own total gives probabilities
      that sum to one, and its winnings give their payout-weighted sum. */
  lemma TallyQuotients(t: PairTally, d: real)
    requires t.NonNegative() && t.Consistent() && d == t.Total() as real && d > 0.0
    ensures t.perfect as real / d >= 0.0 && t.colored as real / d >= 0.0
    ensures t.mixed as real / d >= 0.0 && t.lose as real / d >= 0.0
    ensures t.perfect as real / d + t.colored as real / d + t.mixed as real / d + t.lose as real / d == 1.0
    ensures t.winnings as real / d
            == 25.0 * (t.perfect as real / d) + 12.0 * (t.colored as real / d)
               + 6.0 * (t.mixed as real / d) - t.lose as real / d
  {
    var p, c, m, l := t.perfect as real, t.colored as real, t.mixed as real, t.lose as real;
    FourQuotientsSum(p, c, m, l, d);
    FourQuotientsWinnings(p, c, m, l, t.winnings as real, d);
  }

  lemma FourQuotientsSum(p: real, c: real, m: real, l: real, d: real)
    requires p >= 0.0 && c >= 0.0 && m >= 0.0 && l >= 0.0 && d == p + c + m + l && d > 0.0
    ensures p / d >= 0.0 && c / d >= 0.0 && m / d >= 0.0 && l / d >= 0.0
    ensures p / d + c / d + m / d + l / d == 1.0
  {
    NonNegativeQuotient(p, d);
    NonNegativeQuotient(c, d);
    NonNegativeQuotient(m, d);
    NonNegativeQuotient(l, d);
    AddQuotients(p, c, d);
    AddQuotients(p + c, m, d);
    AddQuotients(p + c + m, l, d);
    UnitQuotient(d);
  }

  lemma FourQuotientsWinnings(p: real, c: real, m: real, l: real, x: real, d: real)
    requires x == 25.0 * p + 12.0 * c + 6.0 * m - l && d != 0.0
    ensures x / d == 25.0 * (p / d) + 12.0 * (c / d) + 6.0 * (m / d) - l / d
  {
    ScaleQuotient(25.0, p, d);
    ScaleQuotient(12.0, c, d);
    ScaleQuotient(6.0, m, d);
    ScaleQuotient(-1.0, l, d);
    AddQuotients(25.0 * p, 12.0 * c, d);
    AddQuotients(25.0 * p + 12.0 * c, 6.0 * m, d);
    AddQuotients(25.0 * p + 12.0 * c + 6.0 * m, -1.0 * l, d);
  }

  /** The Perfect Pairs result record. */
  datatype PerfectPairsStats = PerfectPairsStats(
    ev: Value,
    pPerfect: real,
    pColored: real,
    pMixed: real,
    pLose: real)

  /** The exact Perfect Pairs odds of a shoe: undefined with fewer than two
      cards, otherwise four probabilities that sum to one and an expected
      value that is their payout-weighted sum. */
  function PerfectPairsOdds(cnt: seq<int>): (s: PerfectPairsStats)
    requires ValidShoe(cnt)
    ensures Total(cnt) < 2 ==> s == PerfectPairsStats(Undefined, 0.0, 0.0, 0.0, 0.0)
    ensures Total(cnt) >= 2 ==>
              && s.ev.Defined?
              && s.pPerfect >= 0.0 && s.pColored >= 0.0 && s.pMixed >= 0.0 && s.pLose >= 0.0
              && s.pPerfect + s.pColored + s.pMixed + s.pLose == 1.0
              && s.ev.v == 25.0 * s.pPerfect + 12.0 * s.pColored + 6.0 * s.pMixed - s.pLose
  {
    var n := Total(cnt);
    if n < 2 then PerfectPairsStats(Undefined, 0.0, 0.0, 0.0, 0.0)
    else
      var t := PairsTally(cnt);
      var d := (n * (n - 1)) as real;
      PairsPartition(cnt);
      PositiveProduct(n, n - 1);
      GridTallyConsistent(cnt, |cnt|);
      TallyQuotients(t, d);
      PerfectPairsStats(Defined(t.winnings as real / d),
        t.perfect as real / d, t.colored as real / d, t.mixed as real / d, t.lose as real / d)
  }

  /** One row of the engine's double loop: the pairs (a, b) for every b,
      skipping those that cannot be drawn, each adding its weight to its
      outcome and its weighted profit to the expected-value numerator. */
  method TallyRow(cnt: seq<int>, a: Card, raw0: PairTally) returns (raw: PairTally)
    requires |cnt| == NumCards
    ensures raw == AddTallies(raw0, RowTally(cnt, a, |cnt|))
  {
    raw := raw0;
    var na := cnt[a];
    if na <= 0 {
      ZeroRow(cnt, a, |cnt|);
      return;
    }
    for b := 0 to NumCards
      invariant raw == AddTallies(raw0, RowTally(cnt, a, b))
    {
      RowStep(cnt, a, b, raw0);
      var nb := cnt[b];
      if a == b {
        nb := nb - 1;
      }
      if nb <= 0 {
        continue;
      }
      var w := na * nb;
      var ra, rb := CardRank(a), CardRank(b);
      var sa, sb := CardSuit(a), CardSuit(b);
      var profit := -1;
      if ra == rb {
        if sa == sb {
          profit := 25;
          raw := raw.(perfect := raw.perfect + w);
        } else if IsRedSuit(sa) == IsRedSuit(sb) {
          profit := 12;
          raw := raw.(colored := raw.colored + w);
        } else {
          profit := 6;
          raw := raw.(mixed := raw.mixed + w);
        }
      } else {
        raw := raw.(lose := raw.lose + w);
      }
      raw := raw.(winnings := raw.winnings + w * profit);
    }
  }

  /** The engine's double loop over all 52 x 52 ordered pairs of identities. */
  method TallyPairs(cnt: seq<int>) returns (raw: PairTally)
    requires |cnt| == NumCards
    ensures raw == PairsTally(cnt)
  {
    raw := NoPairs;
    for a := 0 to |cnt|
      invariant raw == GridTally(cnt, a)
    {
      GridStep(cnt, a);
      raw := TallyRow(cnt, a, raw);
    }
  }

  /** The Perfect Pairs engine: counts the shoe, returns an undefined
      expected value and zero probabilities below two cards, and otherwise
      divides the pair tallies by N * (N - 1), then applies the residual
      probability-sum guard, which never fires. */
  method ComputePerfectPairs(cnt: seq<int>) returns (out: PerfectPairsStats)
    requires ValidShoe(cnt)
    ensures out == PerfectPairsOdds(cnt)
  {
    var n := 0;
    for i := 0 to NumCards
      invariant n == SumTo(cnt, i)
    {
      n := n + cnt[i];
    }

    out := PerfectPairsStats(Defined(0.0), 0.0, 0.0, 0.0, 0.0);
    if n < 2 {
      out := out.(ev := Undefined);
      return;
    }

    var raw := TallyPairs(cnt);
    PairsPartition(cnt);
    PositiveProduct(n, n - 1);
    var denom := (n * (n - 1)) as real;
    out := PerfectPairsStats(Defined(raw.winnings as real / denom),
      raw.perfect as real / denom, raw.colored as real / denom,
      raw.mixed as real / denom, raw.lose as real / denom);

    var ps := out.pPerfect + out.pColored + out.pMixed + out.pLose;
    if Abs(ps - 1.0) > Tolerance {
      out := out.(pLose := out.pLose + (1.0 - ps));
    }
  }

  /** A tally holding weight w of perfect pairs and nothing else. */
  function PerfectsOnly(w: int): PairTally
  {
    PairTally(w, 0, 0, 0, 25 * w)
  }

  lemma CreditZero(t: PairTally, cat: PairCategory)
    ensures Credit(t, cat, 0) == t
  {
  }

  lemma AddNoPairs(t: PairTally)
    ensures AddTallies(t, NoPairs) == t && AddTallies(NoPairs, t) == t
  {
  }

  /** The only drawable pair of a single-card shoe is the card twice. */
  lemma {:induction false} SingleCardRow(cnt: seq<int>, c: Card, k: nat, a: Card, j: nat)
    requires SingleCardShoe(cnt, c, k) && k >= 2 && j <= NumCards
    ensures RowTally(cnt, a, j)
            == if a == c && c < j then PerfectsOnly(PairWeight(cnt, c, c)) else NoPairs
  {
    if a != c {
      assert cnt[a] == 0;
      ZeroRow(cnt, a, j);
    } else if j > 0 {
      SingleCardRow(cnt, c, k, a, j - 1);
      var b := j - 1;
      if b == c {
        assert PairOutcome(c, c) == PerfectPair;
        assert RowTally(cnt, a, b) == NoPairs;
      } else {
        assert cnt[b] == 0;
        assert PairWeight(cnt, a, b) == 0;
        CreditZero(RowTally(cnt, a, b), PairOutcome(a, b));
      }
    }
  }

  lemma {:induction false} SingleCardGrid(cnt: seq<int>, c: Card, k: nat, i: nat)
    requires SingleCardShoe(cnt, c, k) && k >= 2 && i <= NumCards
    ensures GridTally(cnt, i)
            == if c < i then PerfectsOnly(PairWeight(cnt, c, c)) else NoPairs
  {
    if i > 0 {
      SingleCardGrid(cnt, c, k, i - 1);
      SingleCardRow(cnt, c, k, i - 1, |cnt|);
      var g, r := GridTally(cnt, i - 1), RowTally(cnt, i - 1, |cnt|);
      assert GridTally(cnt, i) == AddTallies(g, r);
      if c < i - 1 {
        assert r == NoPairs;
        AddNoPairs(g);
      } else if c == i - 1 {
        assert g == NoPairs;
        AddNoPairs(r);
      } else {
        assert g == NoPairs && r == NoPairs;
        AddNoPairs(g);
      }
    }
  }

  /** A shoe holding only copies of one card, at least two of them, always
      deals a perfect pair: probability one and expected value 25. */
  lemma SingleCardPerfectPair(cnt: seq<int>, c: Card, k: nat)
    requires SingleCardShoe(cnt, c, k) && k >= 2
    ensures PerfectPairsOdds(cnt) == PerfectPairsStats(Defined(25.0), 1.0, 0.0, 0.0, 0.0)
  {
    SingleCardTotal(cnt, c, k);
    SingleCardGrid(cnt, c, k, |cnt|);
    assert PairWeight(cnt, c, c) == k * (k - 1);
    var d := (k * (k - 1)) as real;
    PositiveProduct(k, k - 1);
    UnitQuotient(d);
    ScaleQuotient(25.0, d, d);
  }

  // A reference definition of one row that does not follow the loop

  /** The other suit of the same colour: Diamonds and Hearts, Clubs and Spades. */
  function PartnerSuit(s: Suit): Suit
  {
    3 - s
  }

  /** The two suits of the other colour. */
  function OtherColourLow(s: Suit): Suit
  {
    if IsRedSuit(s) then 0 else 1
  }

  function OtherColourHigh(s: Suit): Suit
  {
    if IsRedSuit(s) then 3 else 2
  }

  /** With card a first, the coloured pair's second card is exactly a's
      same-colour partner of its rank, and the mixed pair's exactly the two
      cards of its rank in the other colour. */
  lemma PairPartners(a: Card, b: Card)
    ensures PairOutcome(a, b) == ColoredPair <==> b == CardIndex(PartnerSuit(CardSuit(a)), CardRank(a))
    ensures PairOutcome(a, b) == MixedPair <==>
              b == CardIndex(OtherColourLow(CardSuit(a)), CardRank(a))
              || b == CardIndex(OtherColourHigh(CardSuit(a)), CardRank(a))
  {
    CardIndexRoundTrip(b);
  }

  /** The cards left among the first j identities that make outcome cat
      when they follow a. */
  function OutcomeCount(cnt: seq<int>, a: Card, cat: PairCategory, j: nat): int
    requires |cnt| == NumCards && j <= NumCards
  {
    if j == 0 then 0
    else OutcomeCount(cnt, a, cat, j - 1) + (if PairOutcome(a, j - 1) == cat then cnt[j - 1] else 0)
  }

  /** Row a credits each outcome with cnt[a] times the cards that can
      follow a with that outcome, a itself counted once fewer. */
  lemma {:induction false} RowBucket(cnt: seq<int>, a: Card, cat: PairCategory, j: nat)
    requires ValidShoe(cnt) && j <= NumCards
    ensures PairBucket(RowTally(cnt, a, j), cat)
            == cnt[a] * (OutcomeCount(cnt, a, cat, j) - (if cat == PerfectPair && a < j then 1 else 0))
  {
    if j > 0 {
      var b := j - 1;
      RowBucket(cnt, a, cat, b);
      PairOutcomeMeaning(a, b);
      if PairOutcome(a, b) == cat {
        PairWeightProduct(cnt, a, b);
        ProductStep(cnt[a], PairBucket(RowTally(cnt, a, j), cat), PairBucket(RowTally(cnt, a, b), cat),
          PairWeight(cnt, a, b),
          OutcomeCount(cnt, a, cat, b) - (if cat == PerfectPair && a < b then 1 else 0),
          cnt[b] - (if a == b then 1 else 0),
          OutcomeCount(cnt, a, cat, j) - (if cat == PerfectPair && a < j then 1 else 0));
      }
    }
  }

  /** An outcome that exactly one card x makes after a counts the copies of x. */
  lemma {:induction false} OneCardCount(cnt: seq<int>, a: Card, cat: PairCategory, x: Card, j: nat)
    requires |cnt| == NumCards && j <= NumCards
    requires forall b: Card :: PairOutcome(a, b) == cat <==> b == x
    ensures OutcomeCount(cnt, a, cat, j) == if x < j then cnt[x] else 0
  {
    if j > 0 {
      OneCardCount(cnt, a, cat, x, j - 1);
    }
  }

  /** An outcome that exactly two cards x and y make after a counts both. */
  lemma {:induction false} TwoCardCount(cnt: seq<int>, a: Card, cat: PairCategory, x: Card, y: Card, j: nat)
    requires |cnt| == NumCards && j <= NumCards && x != y
    requires forall b: Card :: PairOutcome(a, b) == cat <==> b == x || b == y
    ensures OutcomeCount(cnt, a, cat, j) == (if x < j then cnt[x] else 0) + (if y < j then cnt[y] else 0)
  {
    if j > 0 {
      TwoCardCount(cnt, a, cat, x, y, j - 1);
    }
  }

  /** Every card makes exactly one outcome, so the four counts share out
      all the cards. */
  lemma {:induction false} OutcomeCountsPartition(cnt: seq<int>, a: Card, j: nat)
    requires |cnt| == NumCards && j <= NumCards
    ensures OutcomeCount(cnt, a, PerfectPair, j) + OutcomeCount(cnt, a, ColoredPair, j)
            + OutcomeCount(cnt, a, MixedPair, j) + OutcomeCount(cnt, a, NoPair, j) == SumTo(cnt, j)
  {
    if j > 0 {
      OutcomeCountsPartition(cnt, a, j - 1);
    }
  }

  /** The tally of row a written out from the counts of a's rank: cnt[a]
      times, respectively, the other copies of a, the same-colour partner,
      the two cards of the other colour, and the cards of other ranks. */
  function RowFormula(cnt: seq<int>, a: Card): PairTally
    requires |cnt| == NumCards
  {
    var s, r := CardSuit(a), CardRank(a);
    var n := cnt[a];
    var perfect := n * (n - 1);
    var colored := n * cnt[CardIndex(PartnerSuit(s), r)];
    var mixed := n * (cnt[CardIndex(OtherColourLow(s), r)] + cnt[CardIndex(OtherColourHigh(s), r)]);
    var lose := n * (Total(cnt) - RankTotal(cnt, r));
    PairTally(perfect, colored, mixed, lose, 25 * perfect + 12 * colored + 6 * mixed - lose)
  }

  /** The engine's row of pairs agrees with the reference formula in every
      valid shoe. */
  lemma RowClosedForm(cnt: seq<int>, a: Card)
    requires ValidShoe(cnt)
    ensures RowTally(cnt, a, |cnt|) == RowFormula(cnt, a)
  {
    var s, r := CardSuit(a), CardRank(a);
    var p := CardIndex(PartnerSuit(s), r);
    var lo, hi := CardIndex(OtherColourLow(s), r), CardIndex(OtherColourHigh(s), r);
    forall b: Card ensures PairOutcome(a, b) == PerfectPair <==> b == a {
      PairOutcomeMeaning(a, b);
    }
    forall b: Card
      ensures PairOutcome(a, b) == ColoredPair <==> b == p
      ensures PairOutcome(a, b) == MixedPair <==> b == lo || b == hi
    {
      PairPartners(a, b);
    }
    OneCardCount(cnt, a, PerfectPair, a, |cnt|);
    OneCardCount(cnt, a, ColoredPair, p, |cnt|);
    TwoCardCount(cnt, a, MixedPair, lo, hi, |cnt|);
    OutcomeCountsPartition(cnt, a, |cnt|);
    CardIndexRoundTrip(a);
    RankTotalSuits(cnt, r);
    assert RankTotal(cnt, r) == cnt[a] + cnt[p] + cnt[lo] + cnt[hi];
    assert OutcomeCount(cnt, a, NoPair, |cnt|) == Total(cnt) - RankTotal(cnt, r);
    RowBucket(cnt, a, PerfectPair, |cnt|);
    RowBucket(cnt, a, ColoredPair, |cnt|);
    RowBucket(cnt, a, MixedPair, |cnt|);
    RowBucket(cnt, a, NoPair, |cnt|);
    RowTallyConsistent(cnt, a, |cnt|);
  }

  /** In a fresh deck every first card is followed by one coloured pair,
      two mixed pairs and 48 losses. */
  lemma FreshDeckRow(a: Card)
    ensures RowTally(FreshDeck, a, NumCards) == PairTally(0, 1, 2, 48, -24)
  {
    FreshDeckShoe(CardRank(a));
    RowClosedForm(FreshDeck, a);
    var s, r := CardSuit(a), CardRank(a);
    assert FreshDeck[a] == 1;
    assert FreshDeck[CardIndex(PartnerSuit(s), r)] == 1;
    assert FreshDeck[CardIndex(OtherColourLow(s), r)] == 1;
    assert FreshDeck[CardIndex(OtherColourHigh(s), r)] == 1;
  }

  lemma {:induction false} FreshDeckGrid(i: nat)
    requires i <= NumCards
    ensures GridTally(FreshDeck, i) == PairTally(0, i, 2 * i, 48 * i, -24 * i)
  {
    if i > 0 {
      FreshDeckGrid(i - 1);
      FreshDeckRow(i - 1);
    }
  }

  /** A single fresh deck: out of 52 * 51 ordered pairs, 52 are coloured
      pairs, 104 mixed pairs and 2496 losses, so the expected value is
      -8/17 per unit. */
  lemma FreshDeckPerfectPairs()
    ensures PerfectPairsOdds(FreshDeck)
            == PerfectPairsStats(Defined(-8.0 / 17.0), 0.0, 1.0 / 51.0, 2.0 / 51.0, 48.0 / 51.0)
  {
    FreshDeckShoe(0);
    FreshDeckGrid(NumCards);
    assert PairsTally(FreshDeck) == PairTally(0, 52, 104, 2496, -1248);
  }
}
