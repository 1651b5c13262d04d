/** Subsequences: what remains of a sequence when some elements are left out. */
module Subsequences {

  predicate Subsequence<T(==)>(a: seq<T>, b: seq<T>)
    decreases |b|
  {
    a == [] ||
    (b != [] &&
     ((a[|a| - 1] == b[|b| - 1] && Subsequence(a[..|a| - 1], b[..|b| - 1])) || Subsequence(a, b[..|b| - 1])))
  }

  lemma {:induction false} SubsequenceOfLonger<T>(a: seq<T>, b: seq<T>, c: seq<T>)
    requires Subsequence(a, b)
    ensures Subsequence(a, b + c)
    decreases |c|
  {
    if c == [] {
      assert b + c == b;
    } else if a != [] {
      SubsequenceOfLonger(a, b, c[..|c| - 1]);
      assert (b + c)[..|b + c| - 1] == b + c[..|c| - 1];
    }
  }

  lemma {:induction false} SubsequenceAppend<T>(a: seq<T>, b: seq<T>, c: seq<T>)
    requires Subsequence(a, b)
    ensures Subsequence(a + c, b + c)
    decreases |c|
  {
    if c == [] {
      assert a + c == a && b + c == b;
    } else {
      SubsequenceAppend(a, b, c[..|c| - 1]);
      assert (a + c)[..|a + c| - 1] == a + c[..|c| - 1];
      assert (b + c)[..|b + c| - 1] == b + c[..|c| - 1];
    }
  }

  /** Appending some of what the longer sequence gains. */
  lemma SubsequencePrefix<T>(a: seq<T>, b: seq<T>, p: seq<T>, c: seq<T>)
    requires Subsequence(a, b) && p <= c
    ensures Subsequence(a + p, b + c)
  {
    SubsequenceAppend(a, b, p);
    SubsequenceOfLonger(a + p, b + p, c[|p|..]);
    assert b + p + c[|p|..] == b + c;
  }
}
