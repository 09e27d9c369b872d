/**
 The scorer: one stateless function per scoring category, each mapping a roll
 to a score. Only three categories exist: chance, yatzy and ones.
 */
module Scoring {
  import opened Rolls
  import SeqAlgorithms

  /** The fixed score of a yatzy, whatever face the five dice show. */
  const YatzyScore: Score := 50

  /** Chance: the sum of all the dice. */
  function Chance(r: Roll): (score: Score)
    ensures score == r[0] + r[1] + r[2] + r[3] + r[4]
  {
    Sum(r)
  }

  /** Yatzy: the fixed yatzy score when every die shows the same face, and 0
      otherwise. */
  function Yatzy(r: Roll): (score: Score)
    ensures score == YatzyScore <==> AllFacesEqual(r)
    ensures score == 0 <==> !AllFacesEqual(r)
  {
    if IsUniform(r) then YatzyScore else 0
  }

  /** Ones, as written: the value-initialised score, which is 0, for every
      roll. It therefore agrees with the number of dice showing 1 exactly when
      no die shows 1. */
  function Ones(r: Roll): (score: Score)
    ensures score == 0
    ensures score == CountOnes(r) <==> 1 !in r
  {
    0
  }

  /** The ones category as the game defines it: one point per die showing 1. */
  function CountOnes(r: Roll): (score: Score)
    ensures score <= NumberOfDice
    ensures score == multiset(r)[1]
  {
    SeqAlgorithms.CountIsMultiplicity(r, 1);
    SeqAlgorithms.Count(r, 1)
  }

  /** Every score the yatzy category gives is 0 or the yatzy score. */
  lemma YatzyRange(r: Roll)
    ensures Yatzy(r) in {0, YatzyScore}
  {
  }

  /** Which face the five dice share plays no part in the yatzy score. */
  lemma YatzyIgnoresFace(face: Score, other: Score)
    ensures Yatzy(MakeRoll(face, face, face, face, face)) == YatzyScore
    ensures Yatzy(MakeRoll(face, face, face, face, face))
         == Yatzy(MakeRoll(other, other, other, other, other))
  {
  }

  /** No category depends on the order of the dice. */
  lemma ScoresIgnoreOrder(a: Roll, b: Roll)
    requires multiset(a) == multiset(b)
    ensures Chance(a) == Chance(b)
    ensures Yatzy(a) == Yatzy(b)
    ensures Ones(a) == Ones(b)
    ensures CountOnes(a) == CountOnes(b)
  {
    SumPermutation(a, b);
    IsUniformPermutation(a, b);
  }

  /** The roll {1, 2, 1, 3, 5} shows two ones, yet the ones category as
      written scores it 0. */
  lemma OnesMissesCount()
    ensures Ones(MakeRoll(1, 2, 1, 3, 5)) == 0
    ensures CountOnes(MakeRoll(1, 2, 1, 3, 5)) == 2
    ensures Ones(MakeRoll(1, 2, 1, 3, 5)) != CountOnes(MakeRoll(1, 2, 1, 3, 5))
  {
  }
}
