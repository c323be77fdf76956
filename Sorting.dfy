/** The stable sort JavaScript's Array.prototype.sort performs with a numeric
    comparator `(a, b) => key(a) - key(b)`. A descending comparator
    `(a, b) => key(b) - key(a)` is the same sort on the negated key. */
module Sorting {

  predicate SortedBy<T>(s: seq<T>, key: T -> real)
  {
    forall i, j :: 0 <= i < j < |s| ==> key(s[i]) <= key(s[j])
  }

  /** The elements of `s` whose key is `k`, in their order in `s`. */
  function WithKey<T>(s: seq<T>, key: T -> real, k: real): seq<T>
  {
    if s == [] then []
    else if key(s[0]) == k then [s[0]] + WithKey(s[1..], key, k)
    else WithKey(s[1..], key, k)
  }

  /** Inserts `x` in front of the first element whose key is not smaller. */
  function Insert<T>(x: T, s: seq<T>, key: T -> real): (r: seq<T>)
    requires SortedBy(s, key)
    ensures |r| == |s| + 1
    ensures multiset(r) == multiset(s) + multiset{x}
    ensures SortedBy(r, key)
    ensures key(x) <= (if s == [] then key(x) else key(s[0])) ==> r == [x] + s
  {
    if s == [] || key(x) <= key(s[0]) then
      LeastFirst(s, key);
      ConsSorted(x, s, key);
      [x] + s
    else
      var t := Insert(x, s[1..], key);
      InsertBehindHead(x, s, key, t);
      [s[0]] + t
  }

  /** Putting the head of `s` in front of the insertion into its tail keeps the order. */
  lemma InsertBehindHead<T>(x: T, s: seq<T>, key: T -> real, t: seq<T>)
    requires SortedBy(s, key) && s != [] && key(s[0]) < key(x)
    requires SortedBy(t, key) && multiset(t) == multiset(s[1..]) + multiset{x}
    ensures SortedBy([s[0]] + t, key)
    ensures multiset([s[0]] + t) == multiset(s) + multiset{x}
  {
    assert s == [s[0]] + s[1..];
    LeastFirst(s, key);
    forall z | z in t ensures key(s[0]) <= key(z) {
      assert z in multiset(s[1..]) + multiset{x};
    }
    ConsSorted(s[0], t, key);
  }

  lemma LeastFirst<T>(s: seq<T>, key: T -> real)
    requires SortedBy(s, key)
    ensures forall z | z in s :: key(s[0]) <= key(z)
  {
  }

  lemma ConsSorted<T>(y: T, t: seq<T>, key: T -> real)
    requires SortedBy(t, key)
    requires forall z | z in t :: key(y) <= key(z)
    ensures SortedBy([y] + t, key)
  {
    var r := [y] + t;
    forall i, j | 0 <= i < j < |r| ensures key(r[i]) <= key(r[j]) {
      assert r[j] == t[j - 1];
      if i > 0 { assert r[i] == t[i - 1]; }
    }
  }

  /** Stable insertion sort by ascending key. */
  function SortBy<T>(s: seq<T>, key: T -> real): (r: seq<T>)
    ensures |r| == |s|
    ensures multiset(r) == multiset(s)
    ensures SortedBy(r, key)
  {
    if s == [] then []
    else
      assert s == [s[0]] + s[1..];
      Insert(s[0], SortBy(s[1..], key), key)
  }

  lemma {:induction false} InsertWithKey<T>(x: T, s: seq<T>, key: T -> real, k: real)
    requires SortedBy(s, key)
    ensures WithKey(Insert(x, s, key), key, k)
            == if key(x) == k then [x] + WithKey(s, key, k) else WithKey(s, key, k)
  {
    if s == [] || key(x) <= key(s[0]) {
      assert ([x] + s)[1..] == s;
    } else {
      InsertWithKey(x, s[1..], key, k);
      var t := Insert(x, s[1..], key);
      assert ([s[0]] + t)[1..] == t;
      if key(x) == k {
        // s[0] has a smaller key than x, so it is not among the elements with key k.
        assert key(s[0]) != k;
      }
    }
  }

  /** Stability: among elements with equal keys the sort keeps the input order. */
  lemma {:induction false} SortByStable<T>(s: seq<T>, key: T -> real, k: real)
    ensures WithKey(SortBy(s, key), key, k) == WithKey(s, key, k)
  {
    if s != [] {
      SortByStable(s[1..], key, k);
      InsertWithKey(s[0], SortBy(s[1..], key), key, k);
    }
  }

  /** `s.sort(cmp).slice(0, n)` (or `.splice(n)`): the first `n` elements of the stable sort. */
  function SortedPrefix<T>(s: seq<T>, key: T -> real, n: nat): (r: seq<T>)
    ensures |r| == if n < |s| then n else |s|
    ensures SortedBy(r, key)
    ensures multiset(r) <= multiset(s)
    ensures n >= |s| ==> multiset(r) == multiset(s)
  {
    var sorted := SortBy(s, key);
    var r := if n < |sorted| then sorted[..n] else sorted;
    assert sorted == r + sorted[|r|..];
    r
  }

  /** Every element the cut drops ranks no better than any element it keeps. */
  lemma SortedPrefixKeepsBest<T>(s: seq<T>, key: T -> real, n: nat)
    ensures var r := SortedPrefix(s, key, n);
            forall x, y | x in r && y in multiset(s) - multiset(r) :: key(x) <= key(y)
  {
    var sorted := SortBy(s, key);
    var r := SortedPrefix(s, key, n);
    var rest := sorted[|r|..];
    assert sorted == r + rest;
    assert multiset(s) - multiset(r) == multiset(rest) by {
      assert multiset(s) == multiset(r) + multiset(rest);
    }
    forall x, y | x in r && y in multiset(s) - multiset(r) ensures key(x) <= key(y) {
      assert y in rest;
      SortedSplit(sorted, |r|, key, x, y);
    }
  }

  lemma SortedSplit<T>(sorted: seq<T>, n: nat, key: T -> real, x: T, y: T)
    requires SortedBy(sorted, key) && n <= |sorted|
    requires x in sorted[..n] && y in sorted[n..]
    ensures key(x) <= key(y)
  {
    var i :| 0 <= i < n && sorted[..n][i] == x;
    var j :| 0 <= j < |sorted| - n && sorted[n..][j] == y;
    assert sorted[i] == x && sorted[n + j] == y;
  }

  /** Sequences with the same multiset have the same members. */
  lemma SameMembers<T>(a: seq<T>, b: seq<T>)
    requires multiset(a) == multiset(b)
    ensures forall x :: x in a <==> x in b
  {
    forall x ensures x in a <==> x in b {
      assert x in a <==> x in multiset(a);
      assert x in b <==> x in multiset(b);
    }
  }
}
