/**
 The two standard-library algorithms the scorer is built on, stated over
 sequences: `std::accumulate` with the default `+` (a left fold) and
 `std::count`. Each comes with an independent reference definition and the
 lemmas connecting the two.
 */
module SeqAlgorithms {

  /** `std::accumulate(first, last, init)`: walks the range from the front,
      adding each element to the running value. Folding from the left with a
      starting value adds that value to the total. */
  function Accumulate(s: seq<nat>, init: nat): (acc: nat)
    ensures acc == init + Total(s)
  {
    if |s| == 0 then init else Accumulate(s[1..], init + s[0])
  }

  /** The arithmetic total of a sequence, defined as a right fold; this is the
      reference `Accumulate` is measured against. */
  function Total(s: seq<nat>): nat
  {
    if |s| == 0 then 0 else s[0] + Total(s[1..])
  }

  /** The total of a concatenation is the sum of the totals. */
  lemma {:induction false} TotalAppend(a: seq<nat>, b: seq<nat>)
    ensures Total(a + b) == Total(a) + Total(b)
    decreases |a|
  {
    if |a| != 0 {
      assert (a + b)[1..] == a[1..] + b;
      TotalAppend(a[1..], b);
    } else {
      assert a + b == b;
    }
  }

  /** Taking one element out of a sequence takes its value out of the total. */
  lemma TotalRemoveAt(b: seq<nat>, i: nat)
    requires i < |b|
    ensures Total(b) == b[i] + Total(b[..i] + b[i + 1..])
  {
    assert b == b[..i] + ([b[i]] + b[i + 1..]);
    TotalAppend(b[..i], [b[i]] + b[i + 1..]);
    assert ([b[i]] + b[i + 1..])[1..] == b[i + 1..];
    TotalAppend(b[..i], b[i + 1..]);
  }

  /** Taking one element out of a sequence takes one occurrence out of its multiset. */
  lemma MultisetRemoveAt<T>(b: seq<T>, i: nat)
    requires i < |b|
    ensures multiset(b[..i] + b[i + 1..]) == multiset(b) - multiset{b[i]}
  {
    assert b == b[..i] + [b[i]] + b[i + 1..];
  }

  /** The total depends only on which values occur how often, not on their order. */
  lemma {:induction false} TotalPermutation(a: seq<nat>, b: seq<nat>)
    requires multiset(a) == multiset(b)
    ensures Total(a) == Total(b)
    decreases |a|
  {
    if |a| == 0 {
      assert |b| == |multiset(b)| == 0;
    } else {
      var x := a[0];
      MultisetRemoveAt(a, 0);
      assert a[..0] + a[1..] == a[1..];
      assert x in multiset(b);
      var i :| 0 <= i < |b| && b[i] == x;
      MultisetRemoveAt(b, i);
      TotalPermutation(a[1..], b[..i] + b[i + 1..]);
      TotalRemoveAt(b, i);
    }
  }

  /** `std::count(first, last, value)`: how many elements compare equal to `value`. */
  function Count<T(==)>(s: seq<T>, x: T): (n: nat)
    ensures n <= |s|
  {
    if |s| == 0 then 0 else (if s[0] == x then 1 else 0) + Count(s[1..], x)
  }

  /** Counting agrees with the multiplicity of the value in the sequence's multiset. */
  lemma {:induction false} CountIsMultiplicity<T>(s: seq<T>, x: T)
    ensures Count(s, x) == multiset(s)[x]
    decreases |s|
  {
    if |s| != 0 {
      assert s == [s[0]] + s[1..];
      CountIsMultiplicity(s[1..], x);
    }
  }

  /** Every element is counted exactly when every element equals the value. */
  lemma {:induction false} CountAll<T>(s: seq<T>, x: T)
    ensures Count(s, x) == |s| <==> forall i | 0 <= i < |s| :: s[i] == x
    decreases |s|
  {
    if |s| != 0 {
      CountAll(s[1..], x);
      if Count(s, x) == |s| {
        assert s[0] == x;
        forall i | 0 <= i < |s|
          ensures s[i] == x
        {
          if i > 0 {
            assert s[i] == s[1..][i - 1];
          }
        }
      }
    }
  }
}
