/** JavaScript's `Array.prototype.sort` is stable. Every sort in the
    dashboard (records by timestamp, beverage entries by count, feedback by
    date, action scores, AutoML candidates by accuracy) is this one stable
    insertion sort on an ascending real key; a descending comparator such as
    `(a, b) => b.n - a.n` is the ascending sort on the key `-n`. */
module Sorting {

  predicate SortedBy<T>(s: seq<T>, key: T -> real)
  {
    forall i, j :: 0 <= i < j < |s| ==> key(s[i]) <= key(s[j])
  }

  /** Places `x` before the first element whose key is not smaller, so that
      `x` stays ahead of later elements with an equal key. */
  function Insert<T(==)>(x: T, t: seq<T>, key: T -> real): (r: seq<T>)
    ensures |r| == |t| + 1
    ensures multiset(r) == multiset(t) + multiset{x}
    ensures (|t| == 0 || key(x) <= key(t[0])) ==> r[0] == x
    ensures (|t| > 0 && key(t[0]) < key(x)) ==> r[0] == t[0]
  {
    if |t| == 0 || key(x) <= key(t[0]) then
      [x] + t
    else
      assert t == [t[0]] + t[1..];
      [t[0]] + Insert(x, t[1..], key)
  }

  lemma {:induction false} InsertSorted<T>(x: T, t: seq<T>, key: T -> real)
    requires SortedBy(t, key)
    ensures SortedBy(Insert(x, t, key), key)
  {
    if |t| > 0 && key(t[0]) < key(x) {
      var tail := t[1..];
      var rest := Insert(x, tail, key);
      InsertSorted(x, tail, key);
      forall i | 0 <= i < |tail| ensures key(t[0]) <= key(tail[i]) {
        assert tail[i] == t[i + 1];
      }
      InsertLowerBound(x, tail, key, key(t[0]));
      var r := Insert(x, t, key);
      assert r == [t[0]] + rest;
      forall i, j | 0 <= i < j < |r| ensures key(r[i]) <= key(r[j]) {
        assert r[j] == rest[j - 1];
        if i > 0 { assert r[i] == rest[i - 1]; }
      }
    }
  }

  /** A lower bound on the keys of `x` and of `t` bounds the keys of the
      insertion. */
  lemma InsertLowerBound<T>(x: T, t: seq<T>, key: T -> real, lo: real)
    requires lo <= key(x)
    requires forall i :: 0 <= i < |t| ==> lo <= key(t[i])
    ensures forall j :: 0 <= j < |t| + 1 ==> lo <= key(Insert(x, t, key)[j])
  {
    var r := Insert(x, t, key);
    forall j | 0 <= j < |r| ensures lo <= key(r[j]) {
      assert r[j] in multiset(r);
      if r[j] != x {
        assert r[j] in multiset(t);
        var i :| 0 <= i < |t| && t[i] == r[j];
      }
    }
  }

  /** The elements of `s` whose key is `k`, in their order in `s`. */
  function Ties<T>(s: seq<T>, key: T -> real, k: real): seq<T>
  {
    if |s| == 0 then []
    else (if key(s[0]) == k then [s[0]] else []) + Ties(s[1..], key, k)
  }

  /** Insertion puts `x` ahead of every element with its key and keeps the
      order of those already there. */
  lemma {:induction false} InsertTies<T>(x: T, t: seq<T>, key: T -> real, k: real)
    ensures Ties(Insert(x, t, key), key, k) == (if key(x) == k then [x] else []) + Ties(t, key, k)
  {
    var r := Insert(x, t, key);
    if |t| == 0 || key(x) <= key(t[0]) {
      assert r == [x] + t && r[1..] == t;
    } else {
      var rest := Insert(x, t[1..], key);
      assert r == [t[0]] + rest && r[1..] == rest;
      InsertTies(x, t[1..], key, k);
    }
  }

  /** The stable sort of `s` by ascending `key`: a sorted permutation in
      which elements with equal keys keep their relative order. */
  function SortBy<T(==)>(s: seq<T>, key: T -> real): (r: seq<T>)
    ensures |r| == |s|
    ensures multiset(r) == multiset(s)
    ensures SortedBy(r, key)
    ensures forall k :: Ties(r, key, k) == Ties(s, key, k)
  {
    if |s| == 0 then []
    else
      assert s == [s[0]] + s[1..];
      var t := SortBy(s[1..], key);
      InsertSorted(s[0], t, key);
      forall k ensures Ties(Insert(s[0], t, key), key, k) == Ties(s, key, k) {
        InsertTies(s[0], t, key, k);
      }
      Insert(s[0], t, key)
  }

  /** Index of the first element with the smallest key, found by a left to
      right scan that only moves on a strictly smaller key (the
      `if (d < best)` loop of the source). */
  function FirstMinIndex<T>(s: seq<T>, key: T -> real): (i: nat)
    requires |s| > 0
    ensures i < |s|
    ensures forall j :: 0 <= j < |s| ==> key(s[i]) <= key(s[j])
    ensures forall j :: 0 <= j < i ==> key(s[i]) < key(s[j])
    decreases |s|
  {
    if |s| == 1 then 0
    else
      var k := FirstMinIndex(s[..|s| - 1], key);
      assert s[..|s| - 1][k] == s[k];
      assert forall j :: 0 <= j < |s| - 1 ==> s[..|s| - 1][j] == s[j];
      if key(s[|s| - 1]) < key(s[k]) then |s| - 1 else k
  }

  /** At most one index is a first minimum. */
  lemma FirstMinUnique<T>(s: seq<T>, key: T -> real, j: nat)
    requires j < |s|
    requires forall i :: 0 <= i < |s| ==> key(s[j]) <= key(s[i])
    requires forall i :: 0 <= i < j ==> key(s[j]) < key(s[i])
    ensures j == FirstMinIndex(s, key)
  {
  }

  /** Facts about `s[1..]` re-indexed into `s`. */
  lemma TailBounds<T>(s: seq<T>, key: T -> real, j: nat)
    requires |s| > 1 && j < |s| - 1
    requires forall i :: 0 <= i < |s[1..]| ==> key(s[1..][j]) <= key(s[1..][i])
    requires forall i :: 0 <= i < j ==> key(s[1..][j]) < key(s[1..][i])
    ensures forall i :: 1 <= i < |s| ==> key(s[j + 1]) <= key(s[i])
    ensures forall i :: 1 <= i < j + 1 ==> key(s[j + 1]) < key(s[i])
  {
    forall i | 1 <= i < |s| ensures key(s[j + 1]) <= key(s[i]) {
      assert s[i] == s[1..][i - 1];
    }
    forall i | 1 <= i < j + 1 ensures key(s[j + 1]) < key(s[i]) {
      assert s[i] == s[1..][i - 1];
    }
  }

  /** Inserting `s[0]` in front of a sorted tail whose head is the tail's
      first minimum gives the first minimum of all of `s`. */
  lemma HeadStep<T>(s: seq<T>, key: T -> real, j': nat, t: seq<T>) returns (j: nat)
    requires |s| > 1 && j' < |s| - 1
    requires |t| > 0 && t[0] == s[j' + 1]
    requires forall i :: 0 <= i < |s[1..]| ==> key(s[1..][j']) <= key(s[1..][i])
    requires forall i :: 0 <= i < j' ==> key(s[1..][j']) < key(s[1..][i])
    ensures j < |s| && Insert(s[0], t, key)[0] == s[j]
    ensures forall i :: 0 <= i < |s| ==> key(s[j]) <= key(s[i])
    ensures forall i :: 0 <= i < j ==> key(s[j]) < key(s[i])
  {
    TailBounds(s, key, j');
    if key(s[0]) <= key(s[j' + 1]) {
      j := 0;
    } else {
      j := j' + 1;
    }
  }

  lemma {:induction false} SortHeadIndex<T>(s: seq<T>, key: T -> real) returns (j: nat)
    requires |s| > 0
    ensures j < |s| && SortBy(s, key)[0] == s[j]
    ensures forall i :: 0 <= i < |s| ==> key(s[j]) <= key(s[i])
    ensures forall i :: 0 <= i < j ==> key(s[j]) < key(s[i])
  {
    if |s| == 1 {
      j := 0;
    } else {
      var j' := SortHeadIndex(s[1..], key);
      var t := SortBy(s[1..], key);
      assert t[0] == s[1..][j'];
      j := HeadStep(s, key, j', t);
      assert SortBy(s, key) == Insert(s[0], t, key);
    }
  }

  /** The head of the stable sort is the first element with the smallest
      key: `s.sort(cmp)[0]` picks the earliest of the tied best. */
  lemma SortHead<T>(s: seq<T>, key: T -> real)
    requires |s| > 0
    ensures SortBy(s, key)[0] == s[FirstMinIndex(s, key)]
  {
    var j := SortHeadIndex(s, key);
    FirstMinUnique(s, key, j);
  }

  /** The head of the stable sort, as a value. */
  function SortHeadOf<T(==)>(s: seq<T>, key: T -> real): (h: T)
    requires |s| > 0
    ensures h == s[FirstMinIndex(s, key)]
    ensures h in s
  {
    SortHead(s, key);
    SortBy(s, key)[0]
  }

  /** Elements of a sorted prefix come no later, by key, than anything left
      out of it: the first `n` entries of a sort are the `n` best. */
  lemma PrefixDominates<T>(r: seq<T>, key: T -> real, n: nat, x: T)
    requires SortedBy(r, key) && n <= |r|
    requires x in r && x !in r[..n]
    ensures forall i :: 0 <= i < n ==> key(r[i]) <= key(x)
  {
    assert forall i :: 0 <= i < n ==> r[i] == r[..n][i];
    var k :| 0 <= k < |r| && r[k] == x;
  }
}
