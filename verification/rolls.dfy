/**
 A throw of the dice: a fixed-size, immutable sequence of face values, and the
 two queries the scorer asks of it (its sum, and whether every die shows the
 same face).
 */
module Rolls {
  import opened SeqAlgorithms

  /** Scores and face values share one unsigned type; here it is unbounded. */
  type Score = nat

  /** The number of dice in a throw, fixed for the whole game. */
  const NumberOfDice: nat := 5

  /** A throw holds exactly `NumberOfDice` face values, in the order given.
      Nothing restricts a face to 1..6: a 0 or a 7 is an ordinary value. */
  type Roll = values: seq<Score> | |values| == NumberOfDice witness [0, 0, 0, 0, 0]

  /** Brace-initialisation of a roll from five face values. */
  function MakeRoll(a: Score, b: Score, c: Score, d: Score, e: Score): (r: Roll)
    ensures |r| == NumberOfDice
    ensures r[0] == a && r[1] == b && r[2] == c && r[3] == d && r[4] == e
  {
    [a, b, c, d, e]
  }

  /** Every pair of dice shows the same face. */
  predicate AllFacesEqual(r: Roll)
  {
    forall i, j | 0 <= i < |r| && 0 <= j < |r| :: r[i] == r[j]
  }

  /** The five-term total unfolds from the right fold over the roll. */
  lemma TotalOfRoll(r: Roll)
    ensures Total(r) == r[0] + r[1] + r[2] + r[3] + r[4]
  {
    var t1, t2, t3, t4 := r[1..], r[2..], r[3..], r[4..];
    assert t1[1..] == t2 && t2[1..] == t3 && t3[1..] == t4 && t4[1..] == [];
    assert Total(t4) == r[4];
    assert Total(t3) == r[3] + Total(t4);
    assert Total(t2) == r[2] + Total(t3);
    assert Total(t1) == r[1] + Total(t2);
  }

  /** `Roll::sum`: the values accumulated from a starting score of 0; this is
      the arithmetic total of the five faces. */
  function Sum(r: Roll): (s: Score)
    ensures s == r[0] + r[1] + r[2] + r[3] + r[4]
    ensures s == Total(r)
  {
    TotalOfRoll(r);
    Accumulate(r, 0)
  }

  /** `Roll::isUniform`: the number of values equal to the first one is the
      number of values in the roll. This holds exactly when every value equals
      the first, which is the same as all five being pairwise equal. */
  function IsUniform(r: Roll): (u: bool)
    ensures u <==> forall i | 0 <= i < |r| :: r[i] == r[0]
    ensures u <==> AllFacesEqual(r)
  {
    CountAll(r, r[0]);
    Count(r, r[0]) == |r|
  }

  /** Reordering the dice does not change the sum. */
  lemma SumPermutation(a: Roll, b: Roll)
    requires multiset(a) == multiset(b)
    ensures Sum(a) == Sum(b)
  {
    TotalPermutation(a, b);
  }

  /** Every die shows `face` exactly when `face` occurs once per die. */
  lemma UniformOnFace(r: Roll, face: Score)
    ensures (forall i | 0 <= i < |r| :: r[i] == face) <==> multiset(r)[face] == |r|
  {
    CountIsMultiplicity(r, face);
    CountAll(r, face);
  }

  /** Reordering the dice does not change whether the roll is uniform. */
  lemma IsUniformPermutation(a: Roll, b: Roll)
    requires multiset(a) == multiset(b)
    ensures IsUniform(a) == IsUniform(b)
  {
    UniformOnFace(a, a[0]);
    UniformOnFace(b, a[0]);
    UniformOnFace(b, b[0]);
    UniformOnFace(a, b[0]);
  }
}
