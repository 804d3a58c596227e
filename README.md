# Blackjack side-bet odds: a verified model

This project models the computational core of `sidebetsCDC.cpp`, a calculator
for two blackjack side bets. It takes a shoe: the remaining count of each of
the 52 card identities. From the shoe it derives the exact odds and the
expected value of each bet:

- **Perfect Pairs** is settled on the player's first two cards: a perfect
  pair (the same card) pays 25, a coloured pair (same rank and colour) pays 12,
  a mixed pair (same rank, other colour) pays 6, and anything else loses 1.
- **21+3** is settled on the player's two cards plus the dealer's up-card.
  Suited trips pay 100, a straight flush 40, trips 30, a straight 10 and a
  flush 5; anything else loses 1. A hand that fits several categories is paid
  as the first of them in that order. The Ace counts low (A-2-3) or high
  (Q-K-A), but a straight never wraps around (K-A-2).
- The **effect-of-removal analyser** (`compute_eor_rank`) says how much a
  bet's expected value moves when one card of a given rank leaves the shoe.
  It averages over that rank's suits in proportion to their counts.

Both engines enumerate ordered draws without replacement. Perfect Pairs walks
every ordered pair of identities, weighted `cnt[a] * (cnt[b] - [a = b])`. 21+3
walks every ordered triple, weighted `n1 * n2 * n3` with the same overlap
corrections.

## Structure

- `Cards.dfy`: card identities, their suit and rank, and colour.
- `Values.dfy`: an exact value that may be undefined, standing in for the NaN
  sentinel, plus small arithmetic lemmas.
- `Shoe.dfy`: the shoe, the total count N, removing one card, and rank totals.
- `HandClassifier.dfy`: the straight test and the 21+3 category of three cards.
- `PerfectPairs.dfy`: the Perfect Pairs engine.
- `TwentyOnePlusThree.dfy`: the 21+3 engine.
- `EffectOfRemoval.dfy`: the effect-of-removal analyser.

Each engine is a method whose loops follow the source, proved equal to a
specification function (`PerfectPairsOdds`, `TwentyOnePlusThreeOdds`). Each
specification function carries what the source promises:

- the undefined result for a short shoe;
- probabilities that are non-negative and sum to one;
- the expected value as the payout-weighted sum of the probabilities.

These rest on partition lemmas. The ordered-pair weights sum to N(N-1) and
the ordered-triple weights to N(N-1)(N-2). Because of that, the residual
probability guard never changes a result in exact arithmetic.

Each row of the Perfect Pairs loop also has a reference formula, written
from the counts of the first card's rank rather than from the loop
(`RowClosedForm`). From it the odds of a single fresh deck follow:
p_coloured = 1/51, p_mixed = 2/51, p_lose = 48/51 and an expected value of
-8/17 (`FreshDeckPerfectPairs`).

The shoe is a value (`seq<int>`), so no engine or analyser can change its
caller's shoe. The analyser's private copy of the shoe is an `array` whose
one count is decremented in place. Its table of post-removal values and its
three result tables are also arrays, filled by loops.

## Model

| member | source | states |
|---|---|---|
| Cards.CardIndex | sidebetsCDC.cpp:72-83 | the suit and rank read back from a card index are the ones it was built from |
| Cards.CardIndexRoundTrip | sidebetsCDC.cpp:72-83 | every identity 0..51 is the index of its own suit (0..3) and rank (0..12) |
| Cards.SameColourSuits | sidebetsCDC.cpp:85-89 | two different suits share a colour exactly when they are Diamonds and Hearts, or Clubs and Spades |
| Cards.RankValue | sidebetsCDC.cpp:91-96 | the 1-based value lies in 1..13 and is one more than the rank |
| HandClassifier.Sort3 | sidebetsCDC.cpp:101-102 | the result is ascending and a rearrangement of the three inputs |
| HandClassifier.StraightMeaning | sidebetsCDC.cpp:99-114 | a straight is exactly three distinct values spanning two steps, or Ace, Queen and King |
| HandClassifier.StraightOrderIndependent | sidebetsCDC.cpp:99-114 | the straight test gives the same answer for all six orders of its arguments |
| HandClassifier.TripsAreNotStraight | sidebetsCDC.cpp:104-105 | three equal values are never a straight |
| HandClassifier.StraightEdgeCases | sidebetsCDC.cpp:107-111 | Q-K-A and A-2-3 are straights and K-A-2 is not |
| HandClassifier.Classify | sidebetsCDC.cpp:214-256 | the chosen category satisfies its own defining condition, which excludes every higher-paying category |
| HandClassifier.RankedUnique | sidebetsCDC.cpp:209-257 | the categories are mutually exclusive, so the defining condition determines the category |
| HandClassifier.IdenticalCardsAreSuitedTrips | sidebetsCDC.cpp:217-222 | three copies of one card score suited trips, never trips or a flush |
| HandClassifier.ClassifyOrderIndependent | sidebetsCDC.cpp:273-274 | the category depends only on the three cards, not on the order they are drawn in |
| HandClassifier.Profit21p3 | sidebetsCDC.cpp:209-257 | the returned profit is the category's payout (100, 40, 30, 10, 5 or -1); exactly that category's field grows by one; the bucket sum grows by one; the expected value is untouched |
| PerfectPairs.PairOutcomeMeaning | sidebetsCDC.cpp:156-181 | perfect pair iff the same card; coloured pair iff the same rank and colour from another suit; mixed pair iff the same rank and the other colour; a loss iff the ranks differ; the outcome is symmetric |
| PerfectPairs.PairWeight | sidebetsCDC.cpp:146-154 | the weight of a pair is never negative |
| PerfectPairs.VisitedPairWeight | sidebetsCDC.cpp:146-154 | a pair has positive weight exactly when the engine visits it (cnt[a] > 0 and nb > 0) |
| PerfectPairs.PairWeightProduct | sidebetsCDC.cpp:146-154 | in a valid shoe the weight equals cnt[a] * (cnt[b] - [a = b]), with skipped pairs counted as zero |
| PerfectPairs.ZeroRow | sidebetsCDC.cpp:146-147 | a row whose first card is absent adds nothing |
| PerfectPairs.RowTallyTotal | sidebetsCDC.cpp:148-184 | the weights of row a sum to cnt[a] times the cards that can follow a |
| PerfectPairs.GridTallyTotal | sidebetsCDC.cpp:144-185 | the weights of the first i rows sum to (cards among them) * (N - 1) |
| PerfectPairs.RowTallyNonNegative | sidebetsCDC.cpp:148-184 | every bucket of a row's tally is non-negative |
| PerfectPairs.GridTallyNonNegative | sidebetsCDC.cpp:144-185 | every bucket of the pair tally is non-negative |
| PerfectPairs.RowTallyConsistent | sidebetsCDC.cpp:159-183 | within a row, the expected-value numerator is 25, 12 and 6 times the pair weights less the losing weight |
| PerfectPairs.GridTallyConsistent | sidebetsCDC.cpp:159-183 | the expected-value numerator is 25, 12 and 6 times the pair weights less the losing weight |
| PerfectPairs.PairsPartition | sidebetsCDC.cpp:140-185 | the ordered-pair weights over all pairs sum to N(N-1), and every bucket is non-negative |
| PerfectPairs.TallyQuotients | sidebetsCDC.cpp:154-192 | dividing a consistent non-negative tally by its total gives non-negative probabilities summing to 1, and an expected value equal to their payout-weighted sum |
| PerfectPairs.PerfectPairsOdds | sidebetsCDC.cpp:127-195 | below two cards the expected value is undefined and the buckets are zero; otherwise the buckets are non-negative, sum to 1, and ev = 25pP + 12pC + 6pM - pL |
| PerfectPairs.TallyRow | sidebetsCDC.cpp:146-184 | the inner loop adds exactly row a's tally to the accumulators |
| PerfectPairs.TallyPairs | sidebetsCDC.cpp:144-185 | the double loop produces the tally of all ordered pairs |
| PerfectPairs.ComputePerfectPairs | sidebetsCDC.cpp:127-195 | the engine returns exactly the Perfect Pairs odds of the shoe, including the short-shoe result; the residual guard never fires |
| PerfectPairs.SingleCardPerfectPair | sidebetsCDC.cpp:127-195 | a shoe holding k >= 2 copies of one card and nothing else gives p_perfect = 1, the other buckets 0, and ev = 25 |
| PerfectPairs.PairPartners | sidebetsCDC.cpp:156-181 | after card a, a coloured pair comes exactly from the other suit of a's colour (suit 3 - s) in a's rank, and a mixed pair exactly from the two suits of the other colour in a's rank |
| PerfectPairs.RowBucket | sidebetsCDC.cpp:146-184 | row a credits each outcome with cnt[a] times the cards that make that outcome after a, with a itself counted once fewer |
| PerfectPairs.OneCardCount | sidebetsCDC.cpp:156-181 | an outcome that only one card x makes after a counts exactly the copies of x |
| PerfectPairs.TwoCardCount | sidebetsCDC.cpp:156-181 | an outcome that exactly two cards make after a counts exactly the copies of both |
| PerfectPairs.OutcomeCountsPartition | sidebetsCDC.cpp:156-181 | every card makes exactly one outcome after a, so the four outcome counts add up to the whole shoe |
| PerfectPairs.RowClosedForm | sidebetsCDC.cpp:146-184 | in every valid shoe, row a of the engine equals a formula in a's rank counts: perfect cnt[a](cnt[a]-1), coloured cnt[a] times the partner's count, mixed cnt[a] times the other colour's two counts, lose cnt[a](N - rank total) |
| PerfectPairs.FreshDeckRow | sidebetsCDC.cpp:146-184 | in a fresh 52-card deck each row holds 0 perfect, 1 coloured, 2 mixed and 48 losing pairs |
| PerfectPairs.FreshDeckGrid | sidebetsCDC.cpp:144-185 | in a fresh deck the first i rows hold 0 perfect, i coloured, 2i mixed and 48i losing pairs |
| PerfectPairs.FreshDeckPerfectPairs | sidebetsCDC.cpp:127-195 | a fresh 52-card deck gives p_perfect = 0, p_coloured = 1/51, p_mixed = 2/51, p_lose = 48/51 and ev = -8/17 |
| Shoe.FreshDeckShoe | sidebetsCDC.cpp:127-195 | a fresh deck is a valid shoe of 52 cards holding 4 of every rank |
| Shoe.RemovedShoe | sidebetsCDC.cpp:356-358 | taking out a present card leaves a valid shoe with one card fewer |
| Shoe.RankTotalSuits | sidebetsCDC.cpp:374-377 | a rank's total is the sum of the counts of its four cards, one per suit |
| TwentyOnePlusThree.ThirdCountNonNegative | sidebetsCDC.cpp:284-295 | once n1 > 0 and n2 > 0, n3 is never negative |
| TwentyOnePlusThree.AccumulateProfit | sidebetsCDC.cpp:297-308 | adding w times a fresh record scored by profit_21p3, and w times its profit, credits weight w to the triple's category and w times its payout to the EV sum |
| TwentyOnePlusThree.ZeroCells | sidebetsCDC.cpp:284-290 | a cell whose first or second card cannot be drawn adds nothing |
| TwentyOnePlusThree.CellSumsTotal | sidebetsCDC.cpp:292-309 | once n1 > 0 and n2 > 0, the weights over c3 < k sum to n1 * n2 * (cards before k that can follow c1 and c2) |
| TwentyOnePlusThree.CellTotal | sidebetsCDC.cpp:284-309 | in every case the weights over all c3 sum to n1 * n2 * (N - 2), where n1 or n2 is zero for a skipped cell |
| TwentyOnePlusThree.CellSumsShape | sidebetsCDC.cpp:297-308 | a cell's accumulators are non-negative and its EV sum is the payout-weighted sum of its buckets |
| TwentyOnePlusThree.RowSumsTotal | sidebetsCDC.cpp:287-310 | the weights over c2 < j and all c3 sum to n1 * (cards before j that can follow c1) * (N - 2) |
| TwentyOnePlusThree.GridSumsTotal | sidebetsCDC.cpp:282-311 | the weights over the first i first cards sum to (cards among them) * (N - 1) * (N - 2) |
| TwentyOnePlusThree.GridSumsShape | sidebetsCDC.cpp:297-308 | the accumulators are non-negative and the EV sum is the payout-weighted sum of the buckets |
| TwentyOnePlusThree.TriplesPartition | sidebetsCDC.cpp:275-311 | the ordered-triple weights over all triples sum to N(N-1)(N-2); the buckets are non-negative and consistent with the EV sum |
| TwentyOnePlusThree.SumsQuotients | sidebetsCDC.cpp:313-324 | dividing by that total gives six non-negative probabilities summing to 1, and an EV equal to their payout-weighted sum |
| TwentyOnePlusThree.TwentyOnePlusThreeOdds | sidebetsCDC.cpp:260-326 | below three cards the EV is undefined and the buckets are zero; otherwise the buckets are non-negative, sum to 1, and ev = 100pST + 40pSF + 30pT + 10pS + 5pF - pL |
| TwentyOnePlusThree.ScoreTriple | sidebetsCDC.cpp:297-308 | the innermost loop body credits the weight to the triple's category and the weighted payout to the EV sum |
| TwentyOnePlusThree.TallyCell | sidebetsCDC.cpp:292-309 | the innermost loop adds exactly the cell's sums to the accumulators |
| TwentyOnePlusThree.TallyRow | sidebetsCDC.cpp:287-310 | the middle loop adds exactly the row's sums to the accumulators |
| TwentyOnePlusThree.TallyTriples | sidebetsCDC.cpp:282-311 | the triple loop produces the sums over all ordered triples |
| TwentyOnePlusThree.ComputeTwentyOnePlusThree | sidebetsCDC.cpp:260-326 | the engine returns exactly the 21+3 odds of the shoe, including the short-shoe result; the residual guard never fires |
| EffectOfRemoval.EngineEv | sidebetsCDC.cpp:359-368 | the chosen engine's EV is defined exactly when the shoe holds at least 2 (Perfect Pairs) or 3 (21+3) cards |
| EffectOfRemoval.RemovalEv | sidebetsCDC.cpp:354-368 | the post-removal EV is defined exactly when the card is present and at least 2 (or 3) cards remain after removing it; an absent card's entry stays undefined |
| EffectOfRemoval.RemovalTable | sidebetsCDC.cpp:347-369 | the table has 52 entries, and entry c is defined exactly when card c is present and enough cards remain |
| EffectOfRemoval.FillRemovalTable | sidebetsCDC.cpp:347-369 | the loop over private copies, each with one card removed, builds exactly that table |
| EffectOfRemoval.RankTotalPositive | sidebetsCDC.cpp:374-377 | a rank's total is positive exactly when one of its suits has a card left |
| EffectOfRemoval.RankResult | sidebetsCDC.cpp:340-395 | a rank is valid exactly when its total is positive; an invalid rank keeps undefined values; a valid one has eor_ev equal to the suit sum, and eor_ev_pct is defined exactly when eor_ev is, equal to 100 * eor_ev |
| EffectOfRemoval.AccumulateRank | sidebetsCDC.cpp:379-389 | the suit loop, which skips absent suits and non-finite post-removal values, computes exactly the rank's change |
| EffectOfRemoval.ComputeEorRank | sidebetsCDC.cpp:337-398 | all 13 entries of the three result tables are exactly RankResult for the table of post-removal values |
| EffectOfRemoval.RankDeltaDefined | sidebetsCDC.cpp:379-389 | with a defined base EV, the change is defined and equals the exact sum of (n / rank_total) * (ev2 - base_ev) over counted suits |
| EffectOfRemoval.ShareIsCounted | sidebetsCDC.cpp:379-386 | the weights n / rank_total of the counted suits sum to the counted cards over rank_total |
| EffectOfRemoval.EorIsWeightedChange | sidebetsCDC.cpp:379-389 | when more cards are left than the engine needs, every removal is defined, so a rank's change is a weighted average of post-removal changes whose weights sum to 1 |
| EffectOfRemoval.UndefinedBase | sidebetsCDC.cpp:379-392 | with an undefined base EV, the change is undefined once any suit is counted, and a defined 0 otherwise |
| EffectOfRemoval.NothingCounted | sidebetsCDC.cpp:379-389 | with no defined post-removal value, the change is exactly 0 whatever the base |
| EffectOfRemoval.ShortShoeReportsZero | sidebetsCDC.cpp:337-398 | for a shoe too short for the engine, the base EV is undefined, yet every rank with cards left is valid with a change and percentage of exactly 0 |

## Undefined base values in the analyser

The intended behaviour is that an undefined base EV makes every rank's change
undefined. The code instead does the following, and this model follows the
code:

- `compute_eor_rank` starts each rank at `e = 0.0` and skips every suit whose
  post-removal EV is not finite. A rank with cards left is marked valid
  whatever happens afterwards.
- A shoe too short for the engine has an undefined base EV, and every removal
  from it is undefined as well. So the analyser reports every rank with cards
  left as valid with a change of exactly 0 (`ShortShoeReportsZero`).
- A NaN result appears only when the base EV is undefined and some suit's
  post-removal EV is finite (`UndefinedBase`). That needs a base EV that was
  not computed from the same shoe.

## Left out

- `main`, command-line and standard-input handling, tokenising and the help text (lines 430-497): input/output only.
- `fatalf`/`exit` and the negative-count check (lines 45-53 and 405): every engine instead requires a valid shoe, meaning 52 non-negative counts.
- `print_line_number` and the report in `compute_and_print_sidebets_report` (lines 60-64 and 401-428): output formatting only.
- `engine_mutex` and the OpenMP `parallel for` (lines 42 and 352): concurrency. The analyser's loop writes disjoint table slots, so it is modelled as a sequential loop.
- IEEE `double` arithmetic: probabilities and expected values are exact reals, and NaN is the explicit `Undefined` constructor. The 1e-9 residual guard is modelled and proved never to fire; rounding error, which is what it corrects in the source, is not modelled.
- PerfectPairs.ComputePerfectPairs: it accumulates integer weights and divides once at the end, whereas the source adds each pair's quotient as it goes. In exact arithmetic the two are equal; floating-point rounding differs.
- HandClassifier.Profit21p3: the null `acc_probs` path is not modelled. The only caller always passes a record.
- The nested loops of the engines and of the analyser are split into one helper method per loop level (`TallyRow`, `TallyCell`, `ScoreTriple`, `FillRemovalTable`, `AccumulateRank`). The loops and their branches are those of the source.
