/** Sums of money over sequences (the `reduce((sum, x) => sum + f(x), 0)`
    pattern used throughout) and over the values of an id-keyed store. */
module Sums {

  function Max(a: real, b: real): (r: real)
    ensures r >= a && r >= b && (r == a || r == b)
  {
    if a >= b then a else b
  }

  function Min(a: real, b: real): (r: real)
    ensures r <= a && r <= b && (r == a || r == b)
  {
    if a <= b then a else b
  }

  /** Left-to-right total of `f` over `s`, the shape of `reduce` from 0. */
  function Sum<T>(s: seq<T>, f: T -> real): real
  {
    if |s| == 0 then 0.0 else Sum(s[..|s| - 1], f) + f(s[|s| - 1])
  }

  lemma {:induction false} SumAppend<T>(a: seq<T>, b: seq<T>, f: T -> real)
    ensures Sum(a + b, f) == Sum(a, f) + Sum(b, f)
    decreases |b|
  {
    if |b| == 0 {
      assert a + b == a;
    } else {
      assert (a + b)[..|a + b| - 1] == a + b[..|b| - 1];
      SumAppend(a, b[..|b| - 1], f);
    }
  }

  lemma SumSnoc<T>(a: seq<T>, x: T, f: T -> real)
    ensures Sum(a + [x], f) == Sum(a, f) + f(x)
  {
    assert (a + [x])[..|a|] == a;
  }

  /** Summing the first element first gives the same total. */
  lemma SumCons<T>(x: T, s: seq<T>, f: T -> real)
    ensures Sum([x] + s, f) == f(x) + Sum(s, f)
  {
    SumAppend([x], s, f);
    assert [x][..0] == [];
  }

  /** Two functions that agree on every element give the same sum. */
  lemma {:induction false} SumCongruent<T>(s: seq<T>, f: T -> real, g: T -> real)
    requires forall i :: 0 <= i < |s| ==> f(s[i]) == g(s[i])
    ensures Sum(s, f) == Sum(s, g)
    decreases |s|
  {
    if |s| > 0 {
      SumCongruent(s[..|s| - 1], f, g);
    }
  }

  lemma {:induction false} SumNonNegative<T>(s: seq<T>, f: T -> real)
    requires forall i :: 0 <= i < |s| ==> f(s[i]) >= 0.0
    ensures Sum(s, f) >= 0.0
    decreases |s|
  {
    if |s| > 0 {
      SumNonNegative(s[..|s| - 1], f);
    }
  }

  /** Sum of `f` over the values stored under the keys `ks` of `m`. The key
      is picked arbitrarily; `SumMapPick` shows the choice does not matter. */
  ghost function SumMap<V>(m: map<int, V>, ks: set<int>, f: V -> real): real
    requires ks <= m.Keys
  {
    if exists k :: k in ks then
      var k :| k in ks;
      f(m[k]) + SumMap(m, ks - {k}, f)
    else 0.0
  }

  /** Any key may be taken out first. */
  lemma {:induction false} SumMapPick<V>(m: map<int, V>, ks: set<int>, f: V -> real, k: int)
    requires ks <= m.Keys && k in ks
    ensures SumMap(m, ks, f) == f(m[k]) + SumMap(m, ks - {k}, f)
    decreases |ks|
  {
    var j :| j in ks && SumMap(m, ks, f) == f(m[j]) + SumMap(m, ks - {j}, f);
    if j != k {
      calc {
        SumMap(m, ks, f);
        f(m[j]) + SumMap(m, ks - {j}, f);
        { SumMapPick(m, ks - {j}, f, k); }
        f(m[j]) + (f(m[k]) + SumMap(m, ks - {j} - {k}, f));
        { assert ks - {j} - {k} == ks - {k} - {j}; }
        f(m[k]) + (f(m[j]) + SumMap(m, ks - {k} - {j}, f));
        { SumMapPick(m, ks - {k}, f, j); }
        f(m[k]) + SumMap(m, ks - {k}, f);
      }
    }
  }
}
