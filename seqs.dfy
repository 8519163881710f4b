/** `Array.prototype.filter`, `Array.prototype.find` and the stable
    `Array.prototype.sort` with a numeric comparator, on sequences. */
module Seqs {

  /** `s.filter(p)`. */
  function Filter<T(!new)>(s: seq<T>, p: T -> bool): (r: seq<T>)
    ensures |r| <= |s|
    ensures forall x :: x in r <==> x in s && p(x)
    decreases |s|
  {
    if s == [] then [] else (if p(s[0]) then [s[0]] else []) + Filter(s[1..], p)
  }

  /** The filter keeps every element that passes as often as it occurs, and no other. */
  lemma {:induction false} FilterMultiset<T(!new)>(s: seq<T>, p: T -> bool)
    ensures forall x :: multiset(Filter(s, p))[x] == if p(x) then multiset(s)[x] else 0
    decreases |s|
  {
    if s != [] {
      FilterMultiset(s[1..], p);
      assert s == [s[0]] + s[1..];
      assert multiset(s) == multiset{s[0]} + multiset(s[1..]);
    }
  }

  /** Filtering a concatenation filters each part: the kept elements stay in order. */
  lemma {:induction false} FilterConcat<T(!new)>(a: seq<T>, b: seq<T>, p: T -> bool)
    ensures Filter(a + b, p) == Filter(a, p) + Filter(b, p)
    decreases |a|
  {
    if a == [] {
      assert a + b == b;
    } else {
      assert (a + b)[0] == a[0];
      assert (a + b)[1..] == a[1..] + b;
      FilterConcat(a[1..], b, p);
    }
  }

  /** When every element passes, the filter changes nothing. */
  lemma {:induction false} FilterAllPass<T(!new)>(s: seq<T>, p: T -> bool)
    requires forall i :: 0 <= i < |s| ==> p(s[i])
    ensures Filter(s, p) == s
    decreases |s|
  {
    if s != [] {
      FilterAllPass(s[1..], p);
    }
  }

  /** Filtering twice with the same predicate is filtering once. */
  lemma FilterIdempotent<T(!new)>(s: seq<T>, p: T -> bool)
    ensures Filter(Filter(s, p), p) == Filter(s, p)
  {
    var r := Filter(s, p);
    assert forall i :: 0 <= i < |r| ==> r[i] in r;
    FilterAllPass(r, p);
  }

  /** `s.findIndex(p)`, as an Option: the first position whose element passes. */
  function FindFirst<T(!new)>(s: seq<T>, p: T -> bool): (r: int)
    ensures -1 <= r < |s|
    ensures r >= 0 ==> p(s[r]) && forall j :: 0 <= j < r ==> !p(s[j])
    ensures r == -1 <==> forall j :: 0 <= j < |s| ==> !p(s[j])
    decreases |s|
  {
    if s == [] then -1
    else if p(s[0]) then 0
    else
      var k := FindFirst(s[1..], p);
      if k == -1 then -1 else k + 1
  }

  // ---------------------------------------------------------------------------
  // Stable sort by a numeric key

  /** Key a may stand before key b: b - a <= 0 for a descending comparator,
      a - b <= 0 for an ascending one. */
  predicate InOrder(a: real, b: real, descending: bool)
  {
    if descending then a >= b else a <= b
  }

  predicate SortedBy<T(!new)>(s: seq<T>, key: T -> real, descending: bool)
  {
    forall i, j :: 0 <= i < j < |s| ==> InOrder(key(s[i]), key(s[j]), descending)
  }

  /** A key that may precede every key of a sorted sequence may be put in front of it. */
  lemma SortedCons<T(!new)>(a: T, t: seq<T>, key: T -> real, descending: bool)
    requires SortedBy(t, key, descending)
    requires forall k :: 0 <= k < |t| ==> InOrder(key(a), key(t[k]), descending)
    ensures SortedBy([a] + t, key, descending)
  {
    var r := [a] + t;
    forall i, j | 0 <= i < j < |r| ensures InOrder(key(r[i]), key(r[j]), descending) {
      if i > 0 {
        assert r[i] == t[i - 1] && r[j] == t[j - 1];
      } else {
        assert r[j] == t[j - 1];
      }
    }
  }

  /** Places x before the first element it may precede; an element that came
      earlier in the input keeps its place before an equal one. */
  function Insert<T(!new)>(x: T, s: seq<T>, key: T -> real, descending: bool): (r: seq<T>)
    requires SortedBy(s, key, descending)
    ensures SortedBy(r, key, descending)
    ensures multiset(r) == multiset(s) + multiset{x}
    decreases |s|
  {
    if s == [] || InOrder(key(x), key(s[0]), descending) then
      SortedCons(x, s, key, descending);
      [x] + s
    else
      assert SortedBy(s[1..], key, descending) by {
        forall i, j | 0 <= i < j < |s[1..]| ensures InOrder(key(s[1..][i]), key(s[1..][j]), descending) {
          assert s[1..][i] == s[i + 1] && s[1..][j] == s[j + 1];
        }
      }
      var t := Insert(x, s[1..], key, descending);
      assert multiset(s) == multiset{s[0]} + multiset(s[1..]) by { assert s == [s[0]] + s[1..]; }
      forall k | 0 <= k < |t| ensures InOrder(key(s[0]), key(t[k]), descending) {
        assert t[k] in multiset(t);
        if t[k] != x {
          assert t[k] in multiset(s[1..]);
          var m :| 0 <= m < |s[1..]| && s[1..][m] == t[k];
          assert s[m + 1] == t[k];
        }
      }
      SortedCons(s[0], t, key, descending);
      [s[0]] + t
  }

  /** `s.sort((a, b) => ...)` for a comparator that compares one numeric key:
      the result is ordered by the key and is a permutation of s. */
  function SortBy<T(!new)>(s: seq<T>, key: T -> real, descending: bool): (r: seq<T>)
    ensures SortedBy(r, key, descending)
    ensures multiset(r) == multiset(s)
    decreases |s|
  {
    if s == [] then []
    else
      assert s == [s[0]] + s[1..];
      Insert(s[0], SortBy(s[1..], key, descending), key, descending)
  }

  /** A comparator that always returns 0 leaves the order as it is: with one key
      for every element, the stable sort is the identity. */
  lemma {:induction false} SortByUniformKey<T(!new)>(s: seq<T>, key: T -> real, descending: bool)
    requires forall i, j :: 0 <= i < |s| && 0 <= j < |s| ==> key(s[i]) == key(s[j])
    ensures SortBy(s, key, descending) == s
    decreases |s|
  {
    if s != [] {
      SortByUniformKey(s[1..], key, descending);
      assert SortBy(s[1..], key, descending) == s[1..];
      if |s| > 1 {
        assert key(s[0]) == key(s[1..][0]);
      }
      assert [s[0]] + s[1..] == s;
    }
  }
}
