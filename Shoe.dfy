/** The shoe: the remaining count of every card identity.

    A shoe is a sequence of 52 non-negative counts indexed by card identity;
    counts above one arise in multi-deck shoes.
 */
module Shoe {
  import opened Cards

  predicate ValidShoe(cnt: seq<int>)
  {
    |cnt| == NumCards && forall i :: 0 <= i < |cnt| ==> cnt[i] >= 0
  }

  /** The sum of the first n counts. */
  function SumTo(s: seq<int>, n: nat): int
    requires n <= |s|
  {
    if n == 0 then 0 else SumTo(s, n - 1) + s[n - 1]
  }

  /** N, the number of cards left in the shoe. */
  function Total(cnt: seq<int>): int
  {
    SumTo(cnt, |cnt|)
  }

  lemma {:induction false} SumToNonNegative(s: seq<int>, n: nat)
    requires n <= |s|
    requires forall i :: 0 <= i < |s| ==> s[i] >= 0
    ensures SumTo(s, n) >= 0
  {
    if n > 0 {
      SumToNonNegative(s, n - 1);
    }
  }

  /** The shoe with one copy of card c taken out. */
  function Removed(cnt: seq<int>, c: Card): seq<int>
    requires |cnt| == NumCards
  {
    cnt[c := cnt[c] - 1]
  }

  lemma {:induction false} SumToRemoved(cnt: seq<int>, c: Card, n: nat)
    requires |cnt| == NumCards && n <= NumCards
    ensures SumTo(Removed(cnt, c), n) == SumTo(cnt, n) - (if c < n then 1 else 0)
  {
    if n > 0 {
      SumToRemoved(cnt, c, n - 1);
    }
  }

  /** Taking out a card that is present leaves a valid shoe with one card fewer. */
  lemma RemovedShoe(cnt: seq<int>, c: Card)
    requires ValidShoe(cnt) && cnt[c] > 0
    ensures ValidShoe(Removed(cnt, c))
    ensures Total(Removed(cnt, c)) == Total(cnt) - 1
  {
    SumToRemoved(cnt, c, NumCards);
  }

  /** The count of rank r over the first k suits. */
  function RankTotalUpTo(cnt: seq<int>, r: Rank, k: nat): int
    requires |cnt| == NumCards && k <= NumSuits
  {
    if k == 0 then 0 else RankTotalUpTo(cnt, r, k - 1) + cnt[CardIndex(k - 1, r)]
  }

  /** How many cards of rank r are left, whatever their suit. */
  function RankTotal(cnt: seq<int>, r: Rank): int
    requires |cnt| == NumCards
  {
    RankTotalUpTo(cnt, r, NumSuits)
  }

  /** A rank's total is the count of its four cards, one per suit. */
  lemma RankTotalSuits(cnt: seq<int>, r: Rank)
    requires |cnt| == NumCards
    ensures RankTotal(cnt, r)
            == cnt[CardIndex(0, r)] + cnt[CardIndex(1, r)] + cnt[CardIndex(2, r)] + cnt[CardIndex(3, r)]
  {
    assert RankTotalUpTo(cnt, r, 1) == cnt[CardIndex(0, r)];
    assert RankTotalUpTo(cnt, r, 2) == RankTotalUpTo(cnt, r, 1) + cnt[CardIndex(1, r)];
    assert RankTotalUpTo(cnt, r, 3) == RankTotalUpTo(cnt, r, 2) + cnt[CardIndex(2, r)];
    assert RankTotal(cnt, r) == RankTotalUpTo(cnt, r, 3) + cnt[CardIndex(3, r)];
  }

  /** A shoe holding k copies of card c and nothing else. */
  predicate SingleCardShoe(cnt: seq<int>, c: Card, k: nat)
  {
    |cnt| == NumCards && forall i :: 0 <= i < |cnt| ==> cnt[i] == (if i == c then k else 0)
  }

  lemma {:induction false} SingleCardSumTo(cnt: seq<int>, c: Card, k: nat, n: nat)
    requires SingleCardShoe(cnt, c, k) && n <= NumCards
    ensures SumTo(cnt, n) == if c < n then k else 0
  {
    if n > 0 {
      SingleCardSumTo(cnt, c, k, n - 1);
    }
  }

  /** A single-card shoe is valid and holds exactly its k copies. */
  lemma SingleCardTotal(cnt: seq<int>, c: Card, k: nat)
    requires SingleCardShoe(cnt, c, k)
    ensures ValidShoe(cnt) && Total(cnt) == k
  {
    SingleCardSumTo(cnt, c, k, NumCards);
  }

  /** A single fresh 52-card deck: one copy of every card. */
  const FreshDeck: seq<int> := seq(NumCards, c => 1)

  lemma {:induction false} FreshDeckSumTo(n: nat)
    requires n <= NumCards
    ensures SumTo(FreshDeck, n) == n
  {
    if n > 0 {
      FreshDeckSumTo(n - 1);
    }
  }

  /** A fresh deck is a valid shoe of 52 cards, four of every rank. */
  lemma FreshDeckShoe(r: Rank)
    ensures ValidShoe(FreshDeck) && Total(FreshDeck) == 52
    ensures RankTotal(FreshDeck, r) == 4
  {
    FreshDeckSumTo(NumCards);
    RankTotalSuits(FreshDeck, r);
  }
}
