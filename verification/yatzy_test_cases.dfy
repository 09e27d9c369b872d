/**
 The concrete rolls of the repository's unit tests, each stated as a fact
 about the model. The ones expectation is stated of `CountOnes`, the
 category's intended rule, because `Ones` as written scores every roll 0.
 */
module YatzyTestCases {
  import opened Rolls
  import opened Scoring

  /** A small straight scores its sum, 15, in chance. */
  lemma ChanceOfStraight()
    ensures Chance(MakeRoll(1, 2, 3, 4, 5)) == 15
  {
  }

  /** Five twos score 50 in yatzy; a straight scores 0. */
  lemma YatzyOfFiveTwosAndOfStraight()
    ensures Yatzy(MakeRoll(2, 2, 2, 2, 2)) == 50
    ensures Yatzy(MakeRoll(1, 2, 3, 4, 5)) == 0
  {
  }

  /** The roll {1, 2, 1, 3, 5} shows two ones. */
  lemma OnesExpectation()
    ensures CountOnes(MakeRoll(1, 2, 1, 3, 5)) == 2
  {
  }

  /** The dice 1 to 5 sum to 15. */
  lemma SumOfStraight()
    ensures Sum(MakeRoll(1, 2, 3, 4, 5)) == 15
  {
  }

  /** Five twos form a uniform roll; a straight does not. */
  lemma UniformExamples()
    ensures IsUniform(MakeRoll(2, 2, 2, 2, 2))
    ensures !IsUniform(MakeRoll(1, 2, 3, 4, 5))
  {
  }

  /** Faces outside 1..6 are accepted and scored like any others. */
  lemma OutOfRangeFaces()
    ensures Chance(MakeRoll(0, 7, 0, 7, 0)) == 14
    ensures Yatzy(MakeRoll(7, 7, 7, 7, 7)) == YatzyScore
  {
  }
}
