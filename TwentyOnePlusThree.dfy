/** The 21+3 engine.

    The player's two cards and the dealer's up card are three ordered draws
    without replacement. The ordered triple of identities (c1, c2, c3) is
    drawn with weight n1 * n2 * n3 out of N * (N - 1) * (N - 2), where
    n1 = cnt[c1], n2 = cnt[c2] - [c2 = c1] and
    n3 = cnt[c3] - [c3 = c1] - [c3 = c2]; every triple is scored by the
    prioritised classifier.
 */
module TwentyOnePlusThree {
  import opened Cards
  import opened Values
  import opened Shoe
  import opened HandClassifier

  /** The engine's raw accumulators: the weight of every outcome and the
      weighted profit, all out of N * (N - 1) * (N - 2). */
  datatype TripleSums = TripleSums(
    suitedTrips: real,
    straightFlush: real,
    trips: real,
    straight: real,
    flush: real,
    lose: real,
    ev: real)
  {
    function Total(): real
    {
      suitedTrips + straightFlush + trips + straight + flush + lose
    }

    predicate NonNegative()
    {
      suitedTrips >= 0.0 && straightFlush >= 0.0 && trips >= 0.0
      && straight >= 0.0 && flush >= 0.0 && lose >= 0.0
    }

    /** The weighted profit is the payout-weighted sum of the outcome weights. */
    predicate Consistent()
    {
      ev == 100.0 * suitedTrips + 40.0 * straightFlush + 30.0 * trips
            + 10.0 * straight + 5.0 * flush - lose
    }
  }

  const NoTriples := TripleSums(0.0, 0.0, 0.0, 0.0, 0.0, 0.0, 0.0)

  /** Adds w times each probability field of a scored record, and w times
      the profit, to the accumulators. */
  function Accumulate(raw: TripleSums, w: real, profit: real, tmp: TwentyOnePlusThreeStats): TripleSums
  {
    TripleSums(
      raw.suitedTrips + w * tmp.pSuitedTrips,
      raw.straightFlush + w * tmp.pStraightFlush,
      raw.trips + w * tmp.pTrips,
      raw.straight + w * tmp.pStraight,
      raw.flush + w * tmp.pFlush,
      raw.lose + w * tmp.pLose,
      raw.ev + w * profit)
  }

  /** Adds weight w to one outcome and w times its payout to the profit. */
  function CreditSums(t: TripleSums, cat: Category, w: real): TripleSums
  {
    match cat
    case SuitedTrips => t.(suitedTrips := t.suitedTrips + w, ev := t.ev + 100.0 * w)
    case StraightFlush => t.(straightFlush := t.straightFlush + w, ev := t.ev + 40.0 * w)
    case Trips => t.(trips := t.trips + w, ev := t.ev + 30.0 * w)
    case Straight => t.(straight := t.straight + w, ev := t.ev + 10.0 * w)
    case Flush => t.(flush := t.flush + w, ev := t.ev + 5.0 * w)
    case Lose => t.(lose := t.lose + w, ev := t.ev - w)
  }

  function AddSums(t: TripleSums, u: TripleSums): TripleSums
  {
    TripleSums(
      t.suitedTrips + u.suitedTrips, t.straightFlush + u.straightFlush, t.trips + u.trips,
      t.straight + u.straight, t.flush + u.flush, t.lose + u.lose, t.ev + u.ev)
  }

  /** The copies of c2 left once c1 has been drawn. */
  function SecondCount(cnt: seq<int>, c1: Card, c2: Card): int
    requires |cnt| == NumCards
  {
    cnt[c2] - (if c2 == c1 then 1 else 0)
  }

  /** The copies of c3 left once c1 and c2 have been drawn. */
  function ThirdCount(cnt: seq<int>, c1: Card, c2: Card, c3: Card): int
    requires |cnt| == NumCards
  {
    cnt[c3] - (if c3 == c1 then 1 else 0) - (if c3 == c2 then 1 else 0)
  }

  /** Once c1 and then c2 could be drawn, the count left for any third card
      is never negative. */
  lemma ThirdCountNonNegative(cnt: seq<int>, c1: Card, c2: Card, c3: Card)
    requires ValidShoe(cnt) && cnt[c1] > 0 && SecondCount(cnt, c1, c2) > 0
    ensures ThirdCount(cnt, c1, c2, c3) >= 0
  {
    assert cnt[c3] >= 0;
  }

  /** Scores triple (c1, c2, c3) into the accumulators t, unless one of its
      cards cannot be drawn, as the engine does: its category gains weight
      n1 * n2 * n3. */
  function Scored(cnt: seq<int>, c1: Card, c2: Card, c3: Card, t: TripleSums): TripleSums
    requires |cnt| == NumCards
  {
    var n1, n2, n3 := cnt[c1], SecondCount(cnt, c1, c2), ThirdCount(cnt, c1, c2, c3);
    if n1 <= 0 || n2 <= 0 || n3 <= 0 then t
    else CreditSums(t, Classify(c1, c2, c3), (n1 * n2 * n3) as real)
  }

  /** The accumulators over the triples (c1, c2, c3) with c3 < k. */
  function CellSums(cnt: seq<int>, c1: Card, c2: Card, k: nat): TripleSums
    requires |cnt| == NumCards && k <= NumCards
  {
    if k == 0 then NoTriples else Scored(cnt, c1, c2, k - 1, CellSums(cnt, c1, c2, k - 1))
  }

  /** The accumulators over the triples (c1, c2, c3) with c2 < j. */
  function RowSums(cnt: seq<int>, c1: Card, j: nat): TripleSums
    requires |cnt| == NumCards && j <= NumCards
  {
    if j == 0 then NoTriples else AddSums(RowSums(cnt, c1, j - 1), CellSums(cnt, c1, j - 1, |cnt|))
  }

  /** The accumulators over the triples (c1, c2, c3) with c1 < i. */
  function GridSums(cnt: seq<int>, i: nat): TripleSums
    requires |cnt| == NumCards && i <= NumCards
  {
    if i == 0 then NoTriples else AddSums(GridSums(cnt, i - 1), RowSums(cnt, i - 1, |cnt|))
  }

  /** The accumulators over all ordered triples. */
  function TriplesSums(cnt: seq<int>): TripleSums
    requires |cnt| == NumCards
  {
    GridSums(cnt, |cnt|)
  }

  lemma AddNoTriples(t: TripleSums)
    ensures AddSums(t, NoTriples) == t
  {
  }

  /** One more triple of a cell, one more cell of a row, one more row. */
  lemma CellStep(cnt: seq<int>, c1: Card, c2: Card, c3: Card, done: TripleSums)
    requires |cnt| == NumCards
    ensures AddSums(done, CellSums(cnt, c1, c2, c3 + 1))
            == AddSums(done, Scored(cnt, c1, c2, c3, CellSums(cnt, c1, c2, c3)))
  {
  }

  lemma RowStep(cnt: seq<int>, c1: Card, c2: Card, done: TripleSums)
    requires |cnt| == NumCards
    ensures AddSums(done, RowSums(cnt, c1, c2 + 1))
            == AddSums(AddSums(done, RowSums(cnt, c1, c2)), CellSums(cnt, c1, c2, |cnt|))
  {
  }

  lemma GridStep(cnt: seq<int>, c1: Card)
    requires |cnt| == NumCards
    ensures GridSums(cnt, c1 + 1) == AddSums(GridSums(cnt, c1), RowSums(cnt, c1, |cnt|))
  {
  }

  /** Cells whose first or second card cannot be drawn add nothing. */
  lemma {:induction false} ZeroCells(cnt: seq<int>, c1: Card, c2: Card, k: nat)
    requires |cnt| == NumCards && k <= NumCards
    requires cnt[c1] <= 0 || SecondCount(cnt, c1, c2) <= 0
    ensures CellSums(cnt, c1, c2, k) == NoTriples
  {
    if k > 0 {
      ZeroCells(cnt, c1, c2, k - 1);
    }
  }

  lemma {:induction false} ZeroRow(cnt: seq<int>, c1: Card, j: nat)
    requires |cnt| == NumCards && j <= NumCards && cnt[c1] <= 0
    ensures RowSums(cnt, c1, j) == NoTriples
  {
    if j > 0 {
      ZeroRow(cnt, c1, j - 1);
      ZeroCells(cnt, c1, j - 1, |cnt|);
    }
  }

  /** Accumulating the record and profit that profit_21p3 returns for a
      fresh record credits the triple's category, and no other, with the
      weight: the record has exactly that field set to one. */
  lemma AccumulateProfit(t: TripleSums, w: real, c1: Card, c2: Card, c3: Card)
    ensures var (profit, tmp) := Profit21p3(c1, c2, c3, ZeroStats);
            Accumulate(t, w, profit, tmp) == CreditSums(t, Classify(c1, c2, c3), w)
  {
    var (profit, tmp) := Profit21p3(c1, c2, c3, ZeroStats);
    var cat := Classify(c1, c2, c3);
    assert Bucket(tmp, SuitedTrips) == if cat == SuitedTrips then 1.0 else 0.0;
    assert Bucket(tmp, StraightFlush) == if cat == StraightFlush then 1.0 else 0.0;
    assert Bucket(tmp, Trips) == if cat == Trips then 1.0 else 0.0;
    assert Bucket(tmp, Straight) == if cat == Straight then 1.0 else 0.0;
    assert Bucket(tmp, Flush) == if cat == Flush then 1.0 else 0.0;
    assert Bucket(tmp, Lose) == if cat == Lose then 1.0 else 0.0;
  }

  lemma CreditSumsKeeps(t: TripleSums, cat: Category, w: real)
    ensures CreditSums(t, cat, w).Total() == t.Total() + w
    ensures t.NonNegative() && w >= 0.0 ==> CreditSums(t, cat, w).NonNegative()
    ensures t.Consistent() ==> CreditSums(t, cat, w).Consistent()
  {
  }

  lemma AddSumsKeeps(t: TripleSums, u: TripleSums)
    ensures AddSums(t, u).Total() == t.Total() + u.Total()
    ensures t.NonNegative() && u.NonNegative() ==> AddSums(t, u).NonNegative()
    ensures t.Consistent() && u.Consistent() ==> AddSums(t, u).Consistent()
  {
  }

  /** The real weight the engine computes is the integer product. */
  lemma CastProduct3(x: int, y: int, z: int)
    ensures x as real * y as real * z as real == (x * y * z) as real
  {
    assert (x * y) as real == x as real * y as real;
    assert (x * y * z) as real == (x * y) as real * z as real;
  }

  /** One step of a cell: the triple (c1, c2, c3) is either skipped, when
      its weight is zero, or credits its category with its weight. */
  lemma CellSumsStep(cnt: seq<int>, c1: Card, c2: Card, c3: Card)
    requires ValidShoe(cnt) && cnt[c1] > 0 && SecondCount(cnt, c1, c2) > 0
    ensures ThirdCount(cnt, c1, c2, c3) >= 0
    ensures var w := cnt[c1] * SecondCount(cnt, c1, c2) * ThirdCount(cnt, c1, c2, c3);
            CellSums(cnt, c1, c2, c3 + 1)
            == if ThirdCount(cnt, c1, c2, c3) == 0 then CellSums(cnt, c1, c2, c3)
               else CreditSums(CellSums(cnt, c1, c2, c3), Classify(c1, c2, c3), w as real)
  {
    ThirdCountNonNegative(cnt, c1, c2, c3);
  }

  /** The accumulators of a cell are non-negative and consistent. */
  lemma {:induction false} CellSumsShape(cnt: seq<int>, c1: Card, c2: Card, k: nat)
    requires ValidShoe(cnt) && k <= NumCards
    requires cnt[c1] > 0 && SecondCount(cnt, c1, c2) > 0
    ensures CellSums(cnt, c1, c2, k).NonNegative()
    ensures CellSums(cnt, c1, c2, k).Consistent()
  {
    if k > 0 {
      CellSumsShape(cnt, c1, c2, k - 1);
      CellSumsStep(cnt, c1, c2, k - 1);
      var n3 := ThirdCount(cnt, c1, c2, k - 1);
      if n3 != 0 {
        var m := cnt[c1] * SecondCount(cnt, c1, c2);
        PositiveProduct(cnt[c1], SecondCount(cnt, c1, c2));
        PositiveProduct(m, n3);
        CreditSumsKeeps(CellSums(cnt, c1, c2, k - 1), Classify(c1, c2, k - 1), (m * n3) as real);
      }
    }
  }

  /** The cell of (c1, c2) weighs n1 * n2 times the number of cards that can
      follow c1 and c2. */
  lemma {:induction false} CellSumsTotal(cnt: seq<int>, c1: Card, c2: Card, k: nat)
    requires ValidShoe(cnt) && k <= NumCards
    requires cnt[c1] > 0 && SecondCount(cnt, c1, c2) > 0
    ensures CellSums(cnt, c1, c2, k).Total()
            == (cnt[c1] * SecondCount(cnt, c1, c2)
                * (SumTo(cnt, k) - (if c1 < k then 1 else 0) - (if c2 < k then 1 else 0))) as real
  {
    if k > 0 {
      var c3 := k - 1;
      CellSumsTotal(cnt, c1, c2, c3);
      CellSumsStep(cnt, c1, c2, c3);
      var m := cnt[c1] * SecondCount(cnt, c1, c2);
      var n3 := ThirdCount(cnt, c1, c2, c3);
      var y := SumTo(cnt, c3) - (if c1 < c3 then 1 else 0) - (if c2 < c3 then 1 else 0);
      assert y + n3 == SumTo(cnt, k) - (if c1 < k then 1 else 0) - (if c2 < k then 1 else 0);
      CastSumOfProducts(m, y, n3);
      if n3 != 0 {
        CreditSumsKeeps(CellSums(cnt, c1, c2, c3), Classify(c1, c2, c3), (m * n3) as real);
      }
    }
  }

  /** m * y + m * z == m * (y + z), as reals. */
  lemma CastSumOfProducts(m: int, y: int, z: int)
    ensures (m * y) as real + (m * z) as real == (m * (y + z)) as real
  {
    assert m * y + m * z == m * (y + z);
  }

  /** A whole cell weighs n1 * n2 * (N - 2), in every case of a valid shoe. */
  lemma CellTotal(cnt: seq<int>, c1: Card, c2: Card)
    requires ValidShoe(cnt)
    ensures CellSums(cnt, c1, c2, |cnt|).Total()
            == (cnt[c1] * SecondCount(cnt, c1, c2) * (Total(cnt) - 2)) as real
  {
    var y := SumTo(cnt, |cnt|) - (if c1 < |cnt| then 1 else 0) - (if c2 < |cnt| then 1 else 0);
    assert y == Total(cnt) - 2;
    if cnt[c1] > 0 && SecondCount(cnt, c1, c2) > 0 {
      CellSumsTotal(cnt, c1, c2, |cnt|);
      EqualThirdFactor(cnt[c1], SecondCount(cnt, c1, c2), y, Total(cnt) - 2);
    } else {
      ZeroCells(cnt, c1, c2, |cnt|);
      if cnt[c1] > 0 {
        assert SecondCount(cnt, c1, c2) == 0;
      } else {
        assert cnt[c1] == 0;
      }
      ZeroFactor(cnt[c1], SecondCount(cnt, c1, c2), Total(cnt) - 2);
    }
  }

  lemma CellShape(cnt: seq<int>, c1: Card, c2: Card)
    requires ValidShoe(cnt)
    ensures CellSums(cnt, c1, c2, |cnt|).NonNegative()
    ensures CellSums(cnt, c1, c2, |cnt|).Consistent()
  {
    if cnt[c1] > 0 && SecondCount(cnt, c1, c2) > 0 {
      CellSumsShape(cnt, c1, c2, |cnt|);
    } else {
      ZeroCells(cnt, c1, c2, |cnt|);
    }
  }

  lemma {:induction false} RowSumsTotal(cnt: seq<int>, c1: Card, j: nat)
    requires ValidShoe(cnt) && j <= NumCards
    ensures RowSums(cnt, c1, j).Total()
            == (cnt[c1] * (SumTo(cnt, j) - (if c1 < j then 1 else 0)) * (Total(cnt) - 2)) as real
  {
    if j > 0 {
      var c2 := j - 1;
      RowSumsTotal(cnt, c1, c2);
      CellTotal(cnt, c1, c2);
      AddSumsKeeps(RowSums(cnt, c1, c2), CellSums(cnt, c1, c2, |cnt|));
      var x := SumTo(cnt, c2) - (if c1 < c2 then 1 else 0);
      var y := SecondCount(cnt, c1, c2);
      ThreeFactorStep(cnt[c1], x, y, SumTo(cnt, j) - (if c1 < j then 1 else 0), Total(cnt) - 2);
    }
  }

  lemma {:induction false} RowSumsShape(cnt: seq<int>, c1: Card, j: nat)
    requires ValidShoe(cnt) && j <= NumCards
    ensures RowSums(cnt, c1, j).NonNegative()
    ensures RowSums(cnt, c1, j).Consistent()
  {
    if j > 0 {
      RowSumsShape(cnt, c1, j - 1);
      CellShape(cnt, c1, j - 1);
      AddSumsKeeps(RowSums(cnt, c1, j - 1), CellSums(cnt, c1, j - 1, |cnt|));
    }
  }

  lemma {:induction false} GridSumsTotal(cnt: seq<int>, i: nat)
    requires ValidShoe(cnt) && i <= NumCards
    ensures GridSums(cnt, i).Total() == (SumTo(cnt, i) * (Total(cnt) - 1) * (Total(cnt) - 2)) as real
  {
    if i > 0 {
      var c1 := i - 1;
      GridSumsTotal(cnt, c1);
      RowSumsTotal(cnt, c1, |cnt|);
      AddSumsKeeps(GridSums(cnt, c1), RowSums(cnt, c1, |cnt|));
      var x := SumTo(cnt, |cnt|) - (if c1 < |cnt| then 1 else 0);
      assert x == Total(cnt) - 1;
      EqualSecondFactor(cnt[c1], x, Total(cnt) - 1, Total(cnt) - 2);
      LeadingFactorStep(SumTo(cnt, c1), cnt[c1], SumTo(cnt, i), Total(cnt) - 1, Total(cnt) - 2);
    }
  }

  lemma {:induction false} GridSumsShape(cnt: seq<int>, i: nat)
    requires ValidShoe(cnt) && i <= NumCards
    ensures GridSums(cnt, i).NonNegative()
    ensures GridSums(cnt, i).Consistent()
  {
    if i > 0 {
      GridSumsShape(cnt, i - 1);
      RowSumsShape(cnt, i - 1, |cnt|);
      AddSumsKeeps(GridSums(cnt, i - 1), RowSums(cnt, i - 1, |cnt|));
    }
  }

  lemma EqualThirdFactor(a: int, b: int, x: int, y: int)
    requires x == y
    ensures (a * b * x) as real == (a * b * y) as real
  {
  }

  lemma EqualSecondFactor(a: int, x: int, y: int, z: int)
    requires x == y
    ensures (a * x * z) as real == (a * y * z) as real
  {
  }

  lemma ZeroFactor(a: int, b: int, z: int)
    requires a == 0 || b == 0
    ensures (a * b * z) as real == 0.0
  {
  }

  /** m * x * z + m * y * z == m * s * z when x + y == s, as reals. */
  lemma ThreeFactorStep(m: int, x: int, y: int, s: int, z: int)
    requires x + y == s
    ensures (m * x * z) as real + (m * y * z) as real == (m * s * z) as real
  {
    assert m * s == m * x + m * y;
    assert (m * x + m * y) * z == m * x * z + m * y * z;
  }

  /** x * p * q + y * p * q == s * p * q when x + y == s, as reals. */
  lemma LeadingFactorStep(x: int, y: int, s: int, p: int, q: int)
    requires x + y == s
    ensures (x * p * q) as real + (y * p * q) as real == (s * p * q) as real
  {
    assert s * p == x * p + y * p;
    assert (x * p + y * p) * q == x * p * q + y * p * q;
  }

  /** The ordered-triple weights partition the N * (N - 1) * (N - 2)
      ordered draws, and the weighted profit is their payout-weighted sum. */
  lemma TriplesPartition(cnt: seq<int>)
    requires ValidShoe(cnt)
    ensures TriplesSums(cnt).Total() == (Total(cnt) * (Total(cnt) - 1) * (Total(cnt) - 2)) as real
    ensures TriplesSums(cnt).NonNegative()
    ensures TriplesSums(cnt).Consistent()
  {
    GridSumsTotal(cnt, |cnt|);
    GridSumsShape(cnt, |cnt|);
  }

  /** Dividing non-negative accumulators by their own total. */
  lemma SumsQuotients(t: TripleSums, d: real)
    requires t.NonNegative() && t.Consistent() && d == t.Total() && d > 0.0
    ensures t.suitedTrips / d >= 0.0 && t.straightFlush / d >= 0.0 && t.trips / d >= 0.0
    ensures t.straight / d >= 0.0 && t.flush / d >= 0.0 && t.lose / d >= 0.0
    ensures t.suitedTrips / d + t.straightFlush / d + t.trips / d
            + t.straight / d + t.flush / d + t.lose / d == 1.0
    ensures t.ev / d == 100.0 * (t.suitedTrips / d) + 40.0 * (t.straightFlush / d)
                        + 30.0 * (t.trips / d) + 10.0 * (t.straight / d)
                        + 5.0 * (t.flush / d) - t.lose / d
  {
    SixQuotientsSum(t.suitedTrips, t.straightFlush, t.trips, t.straight, t.flush, t.lose, d);
    SixQuotientsWinnings(t.suitedTrips, t.straightFlush, t.trips, t.straight, t.flush, t.lose, t.ev, d);
  }

  lemma SixQuotientsSum(a: real, b: real, c: real, e: real, f: real, l: real, d: real)
    requires a >= 0.0 && b >= 0.0 && c >= 0.0 && e >= 0.0 && f >= 0.0 && l >= 0.0
    requires d == a + b + c + e + f + l && d > 0.0
    ensures a / d >= 0.0 && b / d >= 0.0 && c / d >= 0.0 && e / d >= 0.0 && f / d >= 0.0 && l / d >= 0.0
    ensures a / d + b / d + c / d + e / d + f / d + l / d == 1.0
  {
    NonNegativeQuotient(a, d);
    NonNegativeQuotient(b, d);
    NonNegativeQuotient(c, d);
    NonNegativeQuotient(e, d);
    NonNegativeQuotient(f, d);
    NonNegativeQuotient(l, d);
    AddQuotients(a, b, d);
    AddQuotients(a + b, c, d);
    AddQuotients(a + b + c, e, d);
    AddQuotients(a + b + c + e, f, d);
    AddQuotients(a + b + c + e + f, l, d);
    UnitQuotient(d);
  }

  lemma SixQuotientsWinnings(a: real, b: real, c: real, e: real, f: real, l: real, x: real, d: real)
    requires x == 100.0 * a + 40.0 * b + 30.0 * c + 10.0 * e + 5.0 * f - l && d != 0.0
    ensures x / d == 100.0 * (a / d) + 40.0 * (b / d) + 30.0 * (c / d)
                     + 10.0 * (e / d) + 5.0 * (f / d) - l / d
  {
    ScaleQuotient(100.0, a, d);
    ScaleQuotient(40.0, b, d);
    ScaleQuotient(30.0, c, d);
    ScaleQuotient(10.0, e, d);
    ScaleQuotient(5.0, f, d);
    ScaleQuotient(-1.0, l, d);
    AddQuotients(100.0 * a, 40.0 * b, d);
    AddQuotients(100.0 * a + 40.0 * b, 30.0 * c, d);
    AddQuotients(100.0 * a + 40.0 * b + 30.0 * c, 10.0 * e, d);
    AddQuotients(100.0 * a + 40.0 * b + 30.0 * c + 10.0 * e, 5.0 * f, d);
    AddQuotients(100.0 * a + 40.0 * b + 30.0 * c + 10.0 * e + 5.0 * f, -1.0 * l, d);
  }

  /** The exact 21+3 odds of a shoe: undefined with fewer than three cards,
      otherwise six probabilities that sum to one and an expected value that
      is their payout-weighted sum. */
  function TwentyOnePlusThreeOdds(cnt: seq<int>): (s: TwentyOnePlusThreeStats)
    requires ValidShoe(cnt)
    ensures Total(cnt) < 3 ==> s == ZeroStats.(ev := Undefined)
    ensures Total(cnt) >= 3 ==>
              && s.ev.Defined?
              && s.pSuitedTrips >= 0.0 && s.pStraightFlush >= 0.0 && s.pTrips >= 0.0
              && s.pStraight >= 0.0 && s.pFlush >= 0.0 && s.pLose >= 0.0
              && BucketSum(s) == 1.0
              && s.ev.v == 100.0 * s.pSuitedTrips + 40.0 * s.pStraightFlush + 30.0 * s.pTrips
                           + 10.0 * s.pStraight + 5.0 * s.pFlush - s.pLose
  {
    var n := Total(cnt);
    if n < 3 then ZeroStats.(ev := Undefined)
    else
      var t := TriplesSums(cnt);
      var d := (n * (n - 1) * (n - 2)) as real;
      TriplesPartition(cnt);
      PositiveProduct(n, n - 1);
      PositiveProduct(n * (n - 1), n - 2);
      SumsQuotients(t, d);
      TwentyOnePlusThreeStats(Defined(t.ev / d),
        t.suitedTrips / d, t.straightFlush / d, t.trips / d,
        t.straight / d, t.flush / d, t.lose / d)
  }

  /** The body of the innermost loop: scores the triple into a fresh
      record with profit_21p3 and adds w times that record's fields, and w
      times the profit, to the accumulators. */
  method ScoreTriple(c1: Card, c2: Card, c3: Card, w: real, raw0: TripleSums) returns (raw: TripleSums)
    ensures raw == CreditSums(raw0, Classify(c1, c2, c3), w)
  {
    var (profit, tmp) := Profit21p3(c1, c2, c3, ZeroStats);
    AccumulateProfit(raw0, w, c1, c2, c3);
    raw := raw0.(
      suitedTrips := raw0.suitedTrips + w * tmp.pSuitedTrips,
      straightFlush := raw0.straightFlush + w * tmp.pStraightFlush,
      trips := raw0.trips + w * tmp.pTrips,
      straight := raw0.straight + w * tmp.pStraight,
      flush := raw0.flush + w * tmp.pFlush,
      lose := raw0.lose + w * tmp.pLose,
      ev := raw0.ev + w * profit);
    assert raw == Accumulate(raw0, w, profit, tmp);
  }

  /** The innermost loop: every third card c3 after c1 and c2. */
  method TallyCell(cnt: seq<int>, c1: Card, c2: Card, n1: int, n2: int, raw0: TripleSums)
    returns (raw: TripleSums)
    requires |cnt| == NumCards && n1 == cnt[c1] > 0 && n2 == SecondCount(cnt, c1, c2) > 0
    ensures raw == AddSums(raw0, CellSums(cnt, c1, c2, |cnt|))
  {
    raw := raw0;
    AddNoTriples(raw0);
    for c3 := 0 to NumCards
      invariant raw == AddSums(raw0, CellSums(cnt, c1, c2, c3))
    {
      CellStep(cnt, c1, c2, c3, raw0);
      var n3 := cnt[c3] - (if c3 == c1 then 1 else 0) - (if c3 == c2 then 1 else 0);
      if n3 <= 0 {
        continue;
      }
      CastProduct3(n1, n2, n3);
      raw := ScoreTriple(c1, c2, c3, n1 as real * n2 as real * n3 as real, raw);
    }
  }

  /** The middle loop: every second card c2 after c1. */
  method TallyRow(cnt: seq<int>, c1: Card, n1: int, raw0: TripleSums) returns (raw: TripleSums)
    requires |cnt| == NumCards && n1 == cnt[c1] > 0
    ensures raw == AddSums(raw0, RowSums(cnt, c1, |cnt|))
  {
    raw := raw0;
    AddNoTriples(raw0);
    for c2 := 0 to NumCards
      invariant raw == AddSums(raw0, RowSums(cnt, c1, c2))
    {
      RowStep(cnt, c1, c2, raw0);
      var n2 := cnt[c2] - (if c2 == c1 then 1 else 0);
      if n2 <= 0 {
        ZeroCells(cnt, c1, c2, |cnt|);
        AddNoTriples(raw);
        continue;
      }
      raw := TallyCell(cnt, c1, c2, n1, n2, raw);
    }
  }

  /** The outer loop: every first card c1. */
  method TallyTriples(cnt: seq<int>) returns (raw: TripleSums)
    requires |cnt| == NumCards
    ensures raw == TriplesSums(cnt)
  {
    raw := NoTriples;
    for c1 := 0 to |cnt|
      invariant raw == GridSums(cnt, c1)
    {
      GridStep(cnt, c1);
      var n1 := cnt[c1];
      if n1 <= 0 {
        ZeroRow(cnt, c1, |cnt|);
        AddNoTriples(raw);
        continue;
      }
      raw := TallyRow(cnt, c1, n1, raw);
    }
  }

  /** The 21+3 engine: counts the shoe, returns an undefined expected value
      and zero probabilities below three cards, and otherwise divides the
      accumulators by N * (N - 1) * (N - 2), applying the residual
      probability-sum guard, which never fires. */
  method ComputeTwentyOnePlusThree(cnt: seq<int>) returns (out: TwentyOnePlusThreeStats)
    requires ValidShoe(cnt)
    ensures out == TwentyOnePlusThreeOdds(cnt)
  {
    var n := 0;
    for i := 0 to NumCards
      invariant n == SumTo(cnt, i)
    {
      n := n + cnt[i];
    }

    out := ZeroStats;
    if n < 3 {
      out := out.(ev := Undefined);
      return;
    }

    var raw := TallyTriples(cnt);
    TriplesPartition(cnt);
    PositiveProduct(n, n - 1);
    PositiveProduct(n * (n - 1), n - 2);
    var denom := (n * (n - 1) * (n - 2)) as real;
    out := out.(
      pSuitedTrips := raw.suitedTrips / denom,
      pStraightFlush := raw.straightFlush / denom,
      pTrips := raw.trips / denom,
      pStraight := raw.straight / denom,
      pFlush := raw.flush / denom,
      pLose := raw.lose / denom);

    var ps := out.pSuitedTrips + out.pStraightFlush + out.pTrips + out.pStraight + out.pFlush + out.pLose;
    if Abs(ps - 1.0) > Tolerance {
      out := out.(pLose := out.pLose + (1.0 - ps));
    }

    out := out.(ev := Defined(raw.ev / denom));
  }
}
