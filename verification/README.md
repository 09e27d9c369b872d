# Yatzy scoring core, modelled in Dafny

The library scores a throw of five dice in three categories of the dice game
Yatzy. A `Roll` is an immutable value holding exactly five unsigned face
values; it answers `sum()` (the total of the faces, computed with
`std::accumulate` from 0) and `isUniform()` (whether the count of values equal
to the first value is five). The stateless `Yatzy` scorer offers `chance` (the
sum), `yatzy` (50 for a uniform roll, 0 otherwise) and `ones` (which, as
written, returns the value-initialised score 0 for every roll).

Files and modules:

- `seq_algorithms.dfy`, module `SeqAlgorithms`: `std::accumulate` (a left fold
  of `+`) and `std::count` over sequences, each with an independent reference
  (`Total`, the right-fold total; the multiset multiplicity) and the
  contracts and lemmas connecting them, including that the total is unchanged
  by reordering.
- `rolls.dfy`, module `Rolls`: the `Score` type, `NumberOfDice`, the `Roll`
  type (a sequence of exactly five faces, with no range check), `Sum` and
  `IsUniform`, and their order-independence.
- `scoring.dfy`, module `Scoring`: the three categories `Chance`, `Yatzy` and
  `Ones`, plus `CountOnes`, the rule the ones category is evidently meant to
  follow (see Findings).
- `yatzy_test_cases.dfy`, module `YatzyTestCases`: the concrete rolls of the
  repository's unit tests, each stated as a lemma about the model.

The test at test/yatzy.test.cpp:18-19 ("in ONES, the score is the number of
ones") expects a count of the ones, but src/Yatzy.h:41-43 returns 0 for every
roll, so `Scoring.Ones` returns 0 and the counting rule lives separately in
`Scoring.CountOnes`. Nothing claims that `Ones` satisfies it.

## Model

| member | source | states |
|---|---|---|
| SeqAlgorithms.Accumulate | src/Yatzy.h:18 | Accumulating a range left to right from a starting value gives that value plus the independently defined arithmetic total of the range |
| SeqAlgorithms.TotalPermutation | src/Yatzy.h:17-19 | The total of a sequence depends only on its multiset of values, not on their order |
| SeqAlgorithms.Count | src/Yatzy.h:22 | Counting the elements equal to a value never yields more than the length of the range |
| SeqAlgorithms.CountIsMultiplicity | src/Yatzy.h:22 | The count of a value equals its multiplicity in the sequence's multiset |
| SeqAlgorithms.CountAll | src/Yatzy.h:22 | The count of a value equals the length exactly when every element equals that value |
| Rolls.MakeRoll | src/Yatzy.h:11-16 | Any five face values, including 0 or 7, form a roll of exactly five dice that keeps them in the order given |
| Rolls.Sum | src/Yatzy.h:17-19 | The sum of a roll is the arithmetic total of its five faces |
| Rolls.IsUniform | src/Yatzy.h:21-23 | A roll is uniform exactly when every face equals the first, and exactly when all five faces are pairwise equal |
| Rolls.SumPermutation | src/Yatzy.h:17-19 | Reordering the five faces does not change the sum |
| Rolls.UniformOnFace | src/Yatzy.h:21-23 | Every die shows a given face exactly when that face occurs five times in the roll's multiset |
| Rolls.IsUniformPermutation | src/Yatzy.h:21-23 | Reordering the five faces does not change whether the roll is uniform |
| Scoring.Chance | src/Yatzy.h:30-32 | The chance score is the arithmetic total of the five faces |
| Scoring.Yatzy | src/Yatzy.h:34-39 | The yatzy score is 50 exactly when all five faces are pairwise equal, and 0 exactly when they are not |
| Scoring.YatzyRange | src/Yatzy.h:34-39 | The yatzy score is always 0 or 50 |
| Scoring.YatzyIgnoresFace | src/Yatzy.h:35-37 | Five equal faces score 50 whichever face is repeated |
| Scoring.Ones | src/Yatzy.h:41-43 | The ones score as written is 0 for every roll, so it matches the number of ones exactly when the roll shows no 1 |
| Scoring.CountOnes | test/yatzy.test.cpp:18-19 | The intended ones score is the multiplicity of the face 1 in the roll, at most five |
| Scoring.ScoresIgnoreOrder | src/Yatzy.h:30-43 | No category score, as written or intended, depends on the order of the dice |
| Scoring.OnesMissesCount | src/Yatzy.h:41-43 | The roll {1, 2, 1, 3, 5} shows two ones but the ones category as written scores it 0 |
| YatzyTestCases.ChanceOfStraight | test/yatzy.test.cpp:10 | Chance scores the roll {1, 2, 3, 4, 5} as 15 |
| YatzyTestCases.YatzyOfFiveTwosAndOfStraight | test/yatzy.test.cpp:14-15 | Yatzy scores {2, 2, 2, 2, 2} as 50 and {1, 2, 3, 4, 5} as 0 |
| YatzyTestCases.OnesExpectation | test/yatzy.test.cpp:19 | The roll {1, 2, 1, 3, 5} shows two ones, the score the test expects from the ones category |
| YatzyTestCases.SumOfStraight | test/yatzy.test.cpp:27-28 | The roll {1, 2, 3, 4, 5} sums to 15 |
| YatzyTestCases.UniformExamples | test/yatzy.test.cpp:32 | {2, 2, 2, 2, 2} is uniform and {1, 2, 3, 4, 5} is not |
| YatzyTestCases.OutOfRangeFaces | src/Yatzy.h:14-16 | Faces 0 and 7 are accepted and scored like any other values |

## Left out

- Rolls.Sum: does not model the 32-bit wrap-around of `unsigned int` in `std::accumulate`; faces and scores are unbounded naturals, so a sum that would wrap in the source is the true total here.
- Scoring.Chance: inherits the unbounded sum of `Rolls.Sum`, for the same reason.
- C++ object mechanics (the `const` array member, aggregate initialisation, the fieldless `Yatzy` class): a roll is a five-element sequence and the scorer is a module of pure functions.
- Idempotence of the queries and scores: Dafny functions are deterministic by construction, so no separate statement is needed.
- The Catch test harness: its concrete rolls appear only as lemmas in `YatzyTestCases`.
- A 1..6 range check on faces and any scoring category beyond chance, yatzy and ones: the source has neither.

## Findings

| source | as written | input that shows it | evidently intended | confidence | as-written member | corrected member |
|---|---|---|---|---|---|---|
| src/Yatzy.h:41-43 | `ones` returns `Score()`, which is 0, for every roll | {1, 2, 1, 3, 5} scores 0, while test/yatzy.test.cpp:19 expects 2 | one point per die showing 1 | high; not executed | Scoring.Ones, Scoring.OnesMissesCount | Scoring.CountOnes |

`Scoring.Ones` keeps the behaviour as written; `Scoring.CountOnes` is the
corrected rule, with its bound, its multiset characterisation and its order
independence proved.
