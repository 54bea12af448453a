/** The list operations the screens chain together: `filter`, a sort on a
    numeric key with the largest first, and `slice(0, n)`. */
module Seqs {

  function Filter<T(!new)>(s: seq<T>, p: T -> bool): (r: seq<T>)
    ensures forall x :: x in r <==> x in s && p(x)
    ensures forall i :: 0 <= i < |r| ==> p(r[i])
    ensures |r| <= |s|
  {
    if |s| == 0 then []
    else if p(s[|s| - 1]) then Filter(s[..|s| - 1], p) + [s[|s| - 1]]
    else Filter(s[..|s| - 1], p)
  }

  lemma FilterSnoc<T(!new)>(s: seq<T>, x: T, p: T -> bool)
    ensures Filter(s + [x], p) == if p(x) then Filter(s, p) + [x] else Filter(s, p)
  {
    assert (s + [x])[..|s|] == s;
  }

  /** A filter that every element passes keeps the list as it is. */
  lemma {:induction false} FilterKeepsAll<T(!new)>(s: seq<T>, p: T -> bool)
    requires forall i :: 0 <= i < |s| ==> p(s[i])
    ensures Filter(s, p) == s
    decreases |s|
  {
    if |s| > 0 {
      FilterKeepsAll(s[..|s| - 1], p);
      assert s[..|s| - 1] + [s[|s| - 1]] == s;
    }
  }

  /** Each element is kept as often as it occurs, if it passes. */
  lemma {:induction false} FilterMultiset<T(!new)>(s: seq<T>, p: T -> bool, x: T)
    ensures multiset(Filter(s, p))[x] == if p(x) then multiset(s)[x] else 0
    decreases |s|
  {
    if |s| > 0 {
      FilterMultiset(s[..|s| - 1], p, x);
      assert s == s[..|s| - 1] + [s[|s| - 1]];
      assert multiset(s) == multiset(s[..|s| - 1]) + multiset{s[|s| - 1]};
    }
  }

  predicate SortedDesc<T(!new)>(s: seq<T>, key: T -> real) {
    forall i, j :: 0 <= i < j < |s| ==> key(s[i]) >= key(s[j])
  }

  /** Places `x` after every element whose key is at least its own, so
      that equal keys keep their order. */
  function InsertDesc<T(!new)>(x: T, s: seq<T>, key: T -> real): (r: seq<T>)
    requires SortedDesc(s, key)
    ensures SortedDesc(r, key)
    ensures multiset(r) == multiset(s) + multiset{x}
    ensures |r| == |s| + 1
    ensures r[0] == x || (|s| > 0 && r[0] == s[0])
  {
    if |s| == 0 then [x]
    else if key(s[0]) >= key(x) then
      var rest := InsertDesc(x, s[1..], key);
      assert s == [s[0]] + s[1..];
      assert forall j :: 0 <= j < |rest| ==> key(rest[0]) >= key(rest[j]);
      assert key(s[0]) >= key(rest[0]);
      [s[0]] + rest
    else
      [x] + s
  }

  /** Insertion sort, the largest key first. */
  function SortDesc<T(!new)>(s: seq<T>, key: T -> real): (r: seq<T>)
    ensures SortedDesc(r, key)
    ensures multiset(r) == multiset(s)
    ensures |r| == |s|
  {
    if |s| == 0 then []
    else
      assert s == s[..|s| - 1] + [s[|s| - 1]];
      InsertDesc(s[|s| - 1], SortDesc(s[..|s| - 1], key), key)
  }

  /** Filtering distributes over concatenation. */
  lemma {:induction false} FilterAppend<T(!new)>(a: seq<T>, b: seq<T>, p: T -> bool)
    ensures Filter(a + b, p) == Filter(a, p) + Filter(b, p)
    decreases |b|
  {
    if |b| == 0 {
      assert a + b == a;
    } else {
      var init := b[..|b| - 1];
      var last := b[|b| - 1];
      var tail := if p(last) then [last] else [];
      assert b == init + [last];
      assert a + b == (a + init) + [last];
      calc {
        Filter(a + b, p);
        { FilterSnoc(a + init, last, p); }
        Filter(a + init, p) + tail;
        { FilterAppend(a, init, p); }
        Filter(a, p) + Filter(init, p) + tail;
        { FilterSnoc(init, last, p); }
        Filter(a, p) + Filter(b, p);
      }
    }
  }

  lemma FilterSingle<T(!new)>(x: T, p: T -> bool)
    ensures Filter([x], p) == if p(x) then [x] else []
  {
    assert [x][..0] == [];
  }

  /** The elements whose key is `k`. */
  function KeyIs<T>(key: T -> real, k: real): T -> bool {
    x => key(x) == k
  }

  /** Inserting places `x` after every element of its key already there. */
  lemma {:induction false} InsertDescStable<T(!new)>(x: T, s: seq<T>, key: T -> real, k: real)
    requires SortedDesc(s, key)
    ensures Filter(InsertDesc(x, s, key), KeyIs(key, k)) == Filter(s, KeyIs(key, k)) + Filter([x], KeyIs(key, k))
    decreases |s|
  {
    var p := KeyIs(key, k);
    FilterSingle(x, p);
    if |s| == 0 {
      assert InsertDesc(x, s, key) == [x];
    } else if key(s[0]) >= key(x) {
      var rest := InsertDesc(x, s[1..], key);
      assert InsertDesc(x, s, key) == [s[0]] + rest;
      InsertDescStable(x, s[1..], key, k);
      InsertBehind(s, rest, x, p);
    } else {
      assert InsertDesc(x, s, key) == [x] + s;
      InsertAhead(x, s, key, k);
    }
  }

  lemma InsertBehind<T(!new)>(s: seq<T>, rest: seq<T>, x: T, p: T -> bool)
    requires |s| > 0
    requires Filter(rest, p) == Filter(s[1..], p) + Filter([x], p)
    ensures Filter([s[0]] + rest, p) == Filter(s, p) + Filter([x], p)
  {
    assert s == [s[0]] + s[1..];
    FilterAppend([s[0]], rest, p);
    FilterAppend([s[0]], s[1..], p);
  }

  /** An element with a key above every key of `s` has no equal in `s`. */
  lemma InsertAhead<T(!new)>(x: T, s: seq<T>, key: T -> real, k: real)
    requires SortedDesc(s, key) && |s| > 0 && key(s[0]) < key(x)
    ensures Filter([x] + s, KeyIs(key, k)) == Filter(s, KeyIs(key, k)) + Filter([x], KeyIs(key, k))
  {
    var p := KeyIs(key, k);
    FilterSingle(x, p);
    FilterAppend([x], s, p);
    if key(x) == k {
      forall j | 0 <= j < |s| ensures key(s[j]) < k {
        if j > 0 {
          assert key(s[0]) >= key(s[j]);
        }
      }
      FilterNone(s, p);
    }
  }

  lemma FilterNone<T(!new)>(s: seq<T>, p: T -> bool)
    requires forall i :: 0 <= i < |s| ==> !p(s[i])
    ensures Filter(s, p) == []
  {
  }

  /** The sort is stable: the elements of any one key come out in the
      order they went in. */
  lemma {:induction false} SortDescStable<T(!new)>(s: seq<T>, key: T -> real, k: real)
    ensures Filter(SortDesc(s, key), KeyIs(key, k)) == Filter(s, KeyIs(key, k))
    decreases |s|
  {
    if |s| > 0 {
      var init := s[..|s| - 1];
      var last := s[|s| - 1];
      assert s == init + [last];
      SortDescStable(init, key, k);
      InsertDescStable(last, SortDesc(init, key), key, k);
      FilterAppend(init, [last], KeyIs(key, k));
    }
  }

  /** `slice(0, n)`. */
  function Take<T(!new)>(s: seq<T>, n: nat): (r: seq<T>)
    ensures |r| == if n <= |s| then n else |s|
    ensures forall i :: 0 <= i < |r| ==> r[i] == s[i]
  {
    if n <= |s| then s[..n] else s
  }

  /** Keeping the first elements of a sorted list keeps it sorted. */
  lemma TakeSorted<T(!new)>(s: seq<T>, key: T -> real, n: nat)
    requires SortedDesc(s, key)
    ensures SortedDesc(Take(s, n), key)
  {
  }
}
