/**
 * Sequence facts, and Python's `sorted(xs, key=...)` and `xs.sort(key=...)` on an integer key:
 * a stable sort, written as an insertion sort.  The three lemmas say what
 * the callers rely on: the result is ordered by key, is a permutation of
 * the input, and keeps the input order among elements with equal keys.
 */
module Sequences {

  /** No element occurs twice. */
  predicate Distinct<T(==)>(s: seq<T>) {
    forall i, j | 0 <= i < j < |s| :: s[i] != s[j]
  }

  /** A sequence is duplicate-free exactly when its multiset counts nothing twice. */
  lemma {:induction false} DistinctMultiset<T>(s: seq<T>)
    ensures Distinct(s) <==> forall x :: multiset(s)[x] <= 1
  {
    if s != [] {
      var r := s[1..];
      DistinctMultiset(r);
      assert s == [s[0]] + r;
      assert multiset(s) == multiset{s[0]} + multiset(r);
      if Distinct(s) {
        assert Distinct(r) by {
          forall i, j | 0 <= i < j < |r| ensures r[i] != r[j] {
            assert s[i + 1] == r[i] && s[j + 1] == r[j];
          }
        }
      } else {
        var i, j :| 0 <= i < j < |s| && s[i] == s[j];
        if i == 0 {
          assert s[j] in r;
          assert multiset(s)[s[0]] >= 2;
        } else {
          assert r[i - 1] == r[j - 1];
          assert !Distinct(r);
          var x :| multiset(r)[x] > 1;
          assert multiset(s)[x] > 1;
        }
      }
    }
  }

  /** A permutation of a duplicate-free sequence is duplicate-free. */
  lemma PermutationDistinct<T>(s: seq<T>, t: seq<T>)
    requires Distinct(s) && multiset(s) == multiset(t)
    ensures Distinct(t)
  {
    DistinctMultiset(s);
    DistinctMultiset(t);
  }

  predicate SortedBy<T>(s: seq<T>, key: T -> int) {
    forall i, j | 0 <= i < j < |s| :: key(s[i]) <= key(s[j])
  }

  /** The elements of `s` whose key is `k`, in the order of `s`. */
  function WithKey<T>(s: seq<T>, key: T -> int, k: int): seq<T> {
    if s == [] then []
    else if key(s[0]) == k then [s[0]] + WithKey(s[1..], key, k)
    else WithKey(s[1..], key, k)
  }

  /** Puts `x` before the first element of `t` whose key is not smaller. */
  function Insert<T>(x: T, t: seq<T>, key: T -> int): (r: seq<T>)
    ensures multiset(r) == multiset(t) + multiset{x}
  {
    if t == [] || key(x) <= key(t[0]) then [x] + t
    else
      assert t == [t[0]] + t[1..];
      [t[0]] + Insert(x, t[1..], key)
  }

  /** Stable sort of `s` by `key`. */
  function SortBy<T>(s: seq<T>, key: T -> int): (r: seq<T>)
    ensures multiset(r) == multiset(s)
    ensures |r| == |s|
  {
    if s == [] then []
    else
      assert s == [s[0]] + s[1..];
      Insert(s[0], SortBy(s[1..], key), key)
  }

  lemma {:induction false} InsertSorted<T>(x: T, t: seq<T>, key: T -> int)
    requires SortedBy(t, key)
    ensures SortedBy(Insert(x, t, key), key)
    ensures Insert(x, t, key) != [] && (key(Insert(x, t, key)[0]) == key(x) || (t != [] && key(Insert(x, t, key)[0]) == key(t[0])))
  {
    if t == [] || key(x) <= key(t[0]) {
    } else {
      InsertSorted(x, t[1..], key);
      var r := Insert(x, t[1..], key);
      assert Insert(x, t, key) == [t[0]] + r;
      forall i, j | 0 <= i < j < |[t[0]] + r|
        ensures key(([t[0]] + r)[i]) <= key(([t[0]] + r)[j])
      {
        if i == 0 {
          assert r[j - 1] in multiset(r);
          assert r[j - 1] == x || r[j - 1] in multiset(t[1..]);
          if r[j - 1] != x {
            var m :| 0 <= m < |t[1..]| && t[1..][m] == r[j - 1];
            assert t[m + 1] == r[j - 1];
          }
        }
      }
    }
  }

  /** The sort orders its output by key. */
  lemma {:induction false} SortBySorted<T>(s: seq<T>, key: T -> int)
    ensures SortedBy(SortBy(s, key), key)
  {
    if s != [] {
      SortBySorted(s[1..], key);
      InsertSorted(s[0], SortBy(s[1..], key), key);
    }
  }

  lemma {:induction false} InsertWithKey<T>(x: T, t: seq<T>, key: T -> int, k: int)
    ensures WithKey(Insert(x, t, key), key, k)
         == if key(x) == k then [x] + WithKey(t, key, k) else WithKey(t, key, k)
  {
    if t == [] || key(x) <= key(t[0]) {
      assert ([x] + t)[1..] == t;
    } else {
      InsertWithKey(x, t[1..], key, k);
      assert ([t[0]] + Insert(x, t[1..], key))[1..] == Insert(x, t[1..], key);
    }
  }

  /** Stability: among elements with any one key, the sort keeps the input order. */
  lemma {:induction false} SortByStable<T>(s: seq<T>, key: T -> int, k: int)
    ensures WithKey(SortBy(s, key), key, k) == WithKey(s, key, k)
  {
    if s != [] {
      SortByStable(s[1..], key, k);
      InsertWithKey(s[0], SortBy(s[1..], key), key, k);
    }
  }
}
