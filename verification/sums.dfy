/** Sums over the values of a finite map. */
module Sums {

  ghost function Sum<K>(m: map<K, nat>): nat
    decreases m.Keys
  {
    if m == map[] then 0
    else
      var k :| k in m;
      m[k] + Sum(m - {k})
  }

  lemma {:induction false} SumSplit<K>(m: map<K, nat>, k: K)
    requires k in m
    ensures Sum(m) == m[k] + Sum(m - {k})
    decreases m.Keys
  {
    var c :| c in m && Sum(m) == m[c] + Sum(m - {c});
    if c != k {
      SumSplit(m - {c}, k);
      SumSplit(m - {k}, c);
      assert m - {c} - {k} == m - {k} - {c};
    }
  }

  /** Values that only shrink make the sum shrink, strictly when one of them does. */
  lemma {:induction false} SumShrinks<K>(m: map<K, nat>, m': map<K, nat>)
    requires m.Keys == m'.Keys && forall k | k in m :: m'[k] <= m[k]
    ensures Sum(m') <= Sum(m)
    ensures (exists k | k in m :: m'[k] < m[k]) ==> Sum(m') < Sum(m)
    decreases m.Keys
  {
    if m.Keys != {} {
      var k :| k in m && ((exists j | j in m :: m'[j] < m[j]) ==> m'[k] < m[k]);
      SumSplit(m, k);
      SumSplit(m', k);
      SumShrinks(m - {k}, m' - {k});
    }
  }

  /** New keys with value 0 do not change the sum. */
  lemma {:induction false} SumPadded<K>(m: map<K, nat>, m': map<K, nat>)
    requires m.Keys <= m'.Keys
    requires forall k | k in m' :: m'[k] == if k in m then m[k] else 0
    ensures Sum(m') == Sum(m)
    decreases m'.Keys
  {
    if m'.Keys == m.Keys {
      assert m' == m;
    } else {
      var k :| k in m' && k !in m;
      SumSplit(m', k);
      SumPadded(m, m' - {k});
    }
  }
}
