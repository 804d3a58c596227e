/** The effect-of-removal analyser: for every rank, how much the expected
    value of a side bet moves when one card of that rank leaves the shoe,
    averaged over the suits in proportion to their counts.
 */
module EffectOfRemoval {
  import opened Cards
  import opened Values
  import opened Shoe
  import opened PerfectPairs
  import opened TwentyOnePlusThree

  /** The per-rank result: the change in expected value, the same change in
      percent, and whether the rank had any card left. */
  datatype RankEor = RankEor(eorEv: seq<Value>, eorEvPct: seq<Value>, valid: seq<bool>)

  /** The fewest cards for which an engine's expected value is defined. */
  function MinimumCards(for21p3: bool): nat
  {
    if for21p3 then 3 else 2
  }

  /** The expected value the chosen engine reports for a shoe. */
  function EngineEv(cnt: seq<int>, for21p3: bool): (e: Value)
    requires ValidShoe(cnt)
    ensures e.Defined? <==> Total(cnt) >= MinimumCards(for21p3)
  {
    if for21p3 then TwentyOnePlusThreeOdds(cnt).ev else PerfectPairsOdds(cnt).ev
  }

  /** The expected value after one copy of card c leaves the shoe; undefined
      when the card is absent or too few cards would remain. */
  function RemovalEv(cnt: seq<int>, c: Card, for21p3: bool): (e: Value)
    requires ValidShoe(cnt)
    ensures e.Defined? <==> cnt[c] > 0 && Total(cnt) - 1 >= MinimumCards(for21p3)
  {
    if cnt[c] <= 0 then Undefined
    else
      RemovedShoe(cnt, c);
      EngineEv(Removed(cnt, c), for21p3)
  }

  /** The expected value after removing each card identity once: the table
      the analyser fills before it aggregates the ranks. */
  function RemovalTable(cnt: seq<int>, for21p3: bool): (t: seq<Value>)
    requires ValidShoe(cnt)
    ensures |t| == NumCards
    ensures forall c :: 0 <= c < NumCards ==> (t[c].Defined? <==> cnt[c] > 0 && Total(cnt) - 1 >= MinimumCards(for21p3))
  {
    seq(NumCards, c requires 0 <= c < NumCards => RemovalEv(cnt, c, for21p3))
  }

  /** The change in expected value accumulated over the first k suits of rank
      r: every suit with a card left and a finite post-removal value adds its
      share of the rank's cards times the change from the base value; an
      undefined base value makes every added term undefined. */
  function RankDeltaUpTo(cnt: seq<int>, evAfter: seq<Value>, r: Rank, k: nat, baseEv: Value): Value
    requires |cnt| == NumCards && |evAfter| == NumCards && RankTotal(cnt, r) > 0 && k <= NumSuits
  {
    if k == 0 then Defined(0.0)
    else
      var e := RankDeltaUpTo(cnt, evAfter, r, k - 1, baseEv);
      var c := CardIndex(k - 1, r);
      if cnt[c] <= 0 || !IsFinite(evAfter[c]) then e
      else Plus(e, Scale(cnt[c] as real / RankTotal(cnt, r) as real, Minus(evAfter[c], baseEv)))
  }

  /** A rank has cards left exactly when one of its four suits does. */
  lemma RankTotalPositive(cnt: seq<int>, r: Rank)
    requires ValidShoe(cnt)
    ensures RankTotal(cnt, r) > 0 <==> exists s: Suit :: cnt[CardIndex(s, r)] > 0
  {
    RankTotalSuits(cnt, r);
    if RankTotal(cnt, r) > 0 {
      if cnt[CardIndex(0, r)] <= 0 && cnt[CardIndex(1, r)] <= 0 && cnt[CardIndex(2, r)] <= 0 {
        assert cnt[CardIndex(3, r)] > 0;
      }
    }
  }

  /** One rank's entry of the result: undefined and not valid when the rank
      has no card left, otherwise valid, with the percentage one hundred
      times the change. */
  function RankResult(cnt: seq<int>, evAfter: seq<Value>, r: Rank, baseEv: Value): (res: (Value, Value, bool))
    requires ValidShoe(cnt) && |evAfter| == NumCards
    ensures res.2 <==> RankTotal(cnt, r) > 0
    ensures !res.2 ==> res.0 == Undefined && res.1 == Undefined
    ensures res.2 ==> res.0 == RankDeltaUpTo(cnt, evAfter, r, NumSuits, baseEv)
    ensures res.2 ==> (res.1.Defined? <==> res.0.Defined?)
    ensures res.2 && res.0.Defined? ==> res.1.v == res.0.v * 100.0
  {
    RankTotalPositive(cnt, r);
    if RankTotal(cnt, r) <= 0 then (Undefined, Undefined, false)
    else
      var e := RankDeltaUpTo(cnt, evAfter, r, NumSuits, baseEv);
      (e, Scale(100.0, e), true)
  }

  /** The effect-of-removal analyser. The shoe is a value and is never
      changed; each removal works on a private copy with one count taken
      off. Every rank's entry is the one RankResult describes for the table
      of post-removal values. */
  method ComputeEorRank(cnt: seq<int>, baseEv: Value, for21p3: bool) returns (out: RankEor)
    requires ValidShoe(cnt)
    ensures |out.eorEv| == NumRanks && |out.eorEvPct| == NumRanks && |out.valid| == NumRanks
    ensures forall r: Rank :: (out.eorEv[r], out.eorEvPct[r], out.valid[r])
                              == RankResult(cnt, RemovalTable(cnt, for21p3), r, baseEv)
  {
    var evAfter := FillRemovalTable(cnt, for21p3);

    var eorEv := new Value[NumRanks](_ => Undefined);
    var eorEvPct := new Value[NumRanks](_ => Undefined);
    var valid := new bool[NumRanks](_ => false);
    for r := 0 to NumRanks
      invariant forall j :: 0 <= j < r ==> (eorEv[j], eorEvPct[j], valid[j]) == RankResult(cnt, evAfter, j, baseEv)
      invariant forall j :: r <= j < NumRanks ==> eorEv[j] == Undefined && eorEvPct[j] == Undefined && !valid[j]
    {
      var rankTotal := 0;
      for s := 0 to NumSuits
        invariant rankTotal == RankTotalUpTo(cnt, r, s)
      {
        rankTotal := rankTotal + cnt[CardIndex(s, r)];
      }
      if rankTotal <= 0 {
        assert RankResult(cnt, evAfter, r, baseEv) == (Undefined, Undefined, false);
        continue;
      }

      var e := AccumulateRank(cnt, evAfter, r, rankTotal, baseEv);
      assert RankResult(cnt, evAfter, r, baseEv) == (e, Scale(100.0, e), true);

      valid[r] := true;
      eorEv[r] := e;
      eorEvPct[r] := Scale(100.0, e);
    }

    out := RankEor(eorEv[..], eorEvPct[..], valid[..]);
  }

  /** The innermost loop of the analyser: the change of one rank with cards
      left, summed suit by suit. */
  method AccumulateRank(cnt: seq<int>, evAfter: seq<Value>, r: Rank, rankTotal: int, baseEv: Value)
    returns (e: Value)
    requires |cnt| == NumCards && |evAfter| == NumCards && rankTotal == RankTotal(cnt, r) > 0
    ensures e == RankDeltaUpTo(cnt, evAfter, r, NumSuits, baseEv)
  {
    e := Defined(0.0);
    for s := 0 to NumSuits
      invariant e == RankDeltaUpTo(cnt, evAfter, r, s, baseEv)
    {
      var c := CardIndex(s, r);
      var n := cnt[c];
      if n <= 0 {
        continue;
      }
      var pr := n as real / rankTotal as real;
      var ev2 := evAfter[c];
      if !IsFinite(ev2) {
        continue;
      }
      e := Plus(e, Scale(pr, Minus(ev2, baseEv)));
    }
  }

  /** The first loop of the analyser: for every card present, a private copy
      of the shoe with that card taken out is given to the chosen engine. */
  method FillRemovalTable(cnt: seq<int>, for21p3: bool) returns (evAfter: seq<Value>)
    requires ValidShoe(cnt)
    ensures evAfter == RemovalTable(cnt, for21p3)
  {
    var table := new Value[NumCards](_ => Undefined);
    for c := 0 to NumCards
      invariant forall i :: 0 <= i < c ==> table[i] == RemovalEv(cnt, i, for21p3)
      invariant forall i :: c <= i < NumCards ==> table[i] == Undefined
    {
      if cnt[c] <= 0 {
        continue;
      }
      var cnt2 := new int[NumCards](i requires 0 <= i < NumCards => cnt[i]);
      cnt2[c] := cnt2[c] - 1;
      assert cnt2[..] == Removed(cnt, c);
      RemovedShoe(cnt, c);
      if for21p3 {
        var t := ComputeTwentyOnePlusThree(cnt2[..]);
        table[c] := t.ev;
      } else {
        var p := ComputePerfectPairs(cnt2[..]);
        table[c] := p.ev;
      }
    }
    evAfter := table[..];
  }

  /** The number of cards of rank r over the first k suits whose removal is
      counted, as a real number. */
  function CountedUpTo(cnt: seq<int>, evAfter: seq<Value>, r: Rank, k: nat): real
    requires |cnt| == NumCards && |evAfter| == NumCards && k <= NumSuits
  {
    if k == 0 then 0.0
    else
      var c := CardIndex(k - 1, r);
      CountedUpTo(cnt, evAfter, r, k - 1) + (if cnt[c] <= 0 || !IsFinite(evAfter[c]) then 0.0 else cnt[c] as real)
  }

  /** The change over the first k suits in exact arithmetic: every counted
      suit adds its share of the rank's cards times its post-removal value
      less the base value b. */
  function ChangeUpTo(cnt: seq<int>, evAfter: seq<Value>, r: Rank, k: nat, b: real): real
    requires |cnt| == NumCards && |evAfter| == NumCards && RankTotal(cnt, r) > 0 && k <= NumSuits
  {
    if k == 0 then 0.0
    else
      var c := CardIndex(k - 1, r);
      ChangeUpTo(cnt, evAfter, r, k - 1, b)
        + (if cnt[c] <= 0 || !IsFinite(evAfter[c]) then 0.0
           else cnt[c] as real / RankTotal(cnt, r) as real * (evAfter[c].v - b))
  }

  /** The shares of the rank's cards that the counted suits of the first k
      suits carry. */
  function ShareUpTo(cnt: seq<int>, evAfter: seq<Value>, r: Rank, k: nat): real
    requires |cnt| == NumCards && |evAfter| == NumCards && RankTotal(cnt, r) > 0 && k <= NumSuits
  {
    if k == 0 then 0.0
    else
      var c := CardIndex(k - 1, r);
      ShareUpTo(cnt, evAfter, r, k - 1)
        + (if cnt[c] <= 0 || !IsFinite(evAfter[c]) then 0.0 else cnt[c] as real / RankTotal(cnt, r) as real)
  }

  /** With a defined base value no undefined term is ever added: the change
      is defined and is the exact share-weighted sum. */
  lemma {:induction false} RankDeltaDefined(cnt: seq<int>, evAfter: seq<Value>, r: Rank, k: nat, baseEv: Value)
    requires |cnt| == NumCards && |evAfter| == NumCards && RankTotal(cnt, r) > 0 && k <= NumSuits
    requires baseEv.Defined?
    ensures RankDeltaUpTo(cnt, evAfter, r, k, baseEv) == Defined(ChangeUpTo(cnt, evAfter, r, k, baseEv.v))
  {
    if k > 0 {
      RankDeltaDefined(cnt, evAfter, r, k - 1, baseEv);
    }
  }

  /** The shares of the counted suits add up to the counted cards over the
      rank's cards. */
  lemma {:induction false} ShareIsCounted(cnt: seq<int>, evAfter: seq<Value>, r: Rank, k: nat)
    requires |cnt| == NumCards && |evAfter| == NumCards && RankTotal(cnt, r) > 0 && k <= NumSuits
    ensures ShareUpTo(cnt, evAfter, r, k) == CountedUpTo(cnt, evAfter, r, k) / RankTotal(cnt, r) as real
  {
    if k > 0 {
      ShareIsCounted(cnt, evAfter, r, k - 1);
      var c := CardIndex(k - 1, r);
      if cnt[c] > 0 && IsFinite(evAfter[c]) {
        AddQuotients(CountedUpTo(cnt, evAfter, r, k - 1), cnt[c] as real, RankTotal(cnt, r) as real);
      }
    }
  }

  /** When every card present has a finite post-removal value, every card of
      the rank is counted. */
  lemma {:induction false} CountedAll(cnt: seq<int>, evAfter: seq<Value>, r: Rank, k: nat)
    requires ValidShoe(cnt) && |evAfter| == NumCards && k <= NumSuits
    requires forall c :: 0 <= c < NumCards && cnt[c] > 0 ==> evAfter[c].Defined?
    ensures CountedUpTo(cnt, evAfter, r, k) == RankTotalUpTo(cnt, r, k) as real
  {
    if k > 0 {
      CountedAll(cnt, evAfter, r, k - 1);
    }
  }

  /** The intended behaviour: when the shoe holds more cards than the engine
      needs, every removal has a defined value, and with a defined base value
      a rank's effect of removal is a weighted average of the changes after
      removing each of its cards, the weights adding up to one. */
  lemma EorIsWeightedChange(cnt: seq<int>, r: Rank, baseEv: Value, for21p3: bool)
    requires ValidShoe(cnt) && RankTotal(cnt, r) > 0 && baseEv.Defined?
    requires Total(cnt) > MinimumCards(for21p3)
    ensures var table := RemovalTable(cnt, for21p3);
            && RankDeltaUpTo(cnt, table, r, NumSuits, baseEv) == Defined(ChangeUpTo(cnt, table, r, NumSuits, baseEv.v))
            && ShareUpTo(cnt, table, r, NumSuits) == 1.0
  {
    var table := RemovalTable(cnt, for21p3);
    RankDeltaDefined(cnt, table, r, NumSuits, baseEv);
    ShareIsCounted(cnt, table, r, NumSuits);
    CountedAll(cnt, table, r, NumSuits);
    UnitQuotient(RankTotal(cnt, r) as real);
  }

  /** As the code is written, an undefined base value still marks a rank
      valid: its change is undefined as soon as one suit is counted, and
      stays a defined zero when none is. */
  lemma {:induction false} UndefinedBase(cnt: seq<int>, evAfter: seq<Value>, r: Rank, k: nat)
    requires ValidShoe(cnt) && |evAfter| == NumCards && RankTotal(cnt, r) > 0 && k <= NumSuits
    ensures RankDeltaUpTo(cnt, evAfter, r, k, Undefined)
            == if CountedUpTo(cnt, evAfter, r, k) > 0.0 then Undefined else Defined(0.0)
  {
    if k > 0 {
      UndefinedBase(cnt, evAfter, r, k - 1);
      CountedNonNegative(cnt, evAfter, r, k - 1);
    }
  }

  lemma {:induction false} CountedNonNegative(cnt: seq<int>, evAfter: seq<Value>, r: Rank, k: nat)
    requires ValidShoe(cnt) && |evAfter| == NumCards && k <= NumSuits
    ensures CountedUpTo(cnt, evAfter, r, k) >= 0.0
  {
    if k > 0 {
      CountedNonNegative(cnt, evAfter, r, k - 1);
    }
  }

  /** A rank none of whose post-removal values is defined gets a change of
      exactly zero, whatever the base value. */
  lemma {:induction false} NothingCounted(cnt: seq<int>, evAfter: seq<Value>, r: Rank, k: nat, baseEv: Value)
    requires |cnt| == NumCards && |evAfter| == NumCards && RankTotal(cnt, r) > 0 && k <= NumSuits
    requires forall c :: 0 <= c < NumCards ==> evAfter[c] == Undefined
    ensures RankDeltaUpTo(cnt, evAfter, r, k, baseEv) == Defined(0.0)
  {
    if k > 0 {
      NothingCounted(cnt, evAfter, r, k - 1, baseEv);
    }
  }

  /** As the code is written, a shoe too short for the engine has an
      undefined base value, yet every rank with cards left is reported valid
      with a defined change of zero: every removal is undefined too, so no
      suit is ever counted. */
  lemma ShortShoeReportsZero(cnt: seq<int>, r: Rank, for21p3: bool)
    requires ValidShoe(cnt) && Total(cnt) < MinimumCards(for21p3) && RankTotal(cnt, r) > 0
    ensures EngineEv(cnt, for21p3) == Undefined
    ensures RankResult(cnt, RemovalTable(cnt, for21p3), r, EngineEv(cnt, for21p3))
            == (Defined(0.0), Defined(0.0), true)
  {
    NothingCounted(cnt, RemovalTable(cnt, for21p3), r, NumSuits, Undefined);
  }
}
