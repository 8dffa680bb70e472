/**
 * A stable sort by an integer key. JavaScript's `Array.prototype.sort` is stable,
 * so sorting with a comparator of the form `(a, b) => key(a) - key(b)` orders the
 * elements by `key` and keeps the input order among elements with equal keys.
 */
module Sorting {
  import opened Seqs

  predicate SortedBy<T>(s: seq<T>, key: T -> int)
  {
    forall i, j :: 0 <= i < j < |s| ==> key(s[i]) <= key(s[j])
  }

  /** Places `x` before the first element whose key is not smaller than its own. */
  function Insert<T>(x: T, s: seq<T>, key: T -> int): (r: seq<T>)
    ensures multiset(r) == multiset(s) + multiset{x}
    decreases |s|
  {
    if s == [] || key(x) <= key(s[0]) then [x] + s
    else
      assert s == [s[0]] + s[1..];
      [s[0]] + Insert(x, s[1..], key)
  }

  /** A bound below `x` and every element of `s` stays below every element after the insertion. */
  lemma {:induction false} InsertKeepsLowerBound<T>(x: T, s: seq<T>, key: T -> int, b: int)
    requires b <= key(x)
    requires forall k :: 0 <= k < |s| ==> b <= key(s[k])
    ensures forall k :: 0 <= k < |Insert(x, s, key)| ==> b <= key(Insert(x, s, key)[k])
    decreases |s|
  {
    if s != [] && key(x) > key(s[0]) {
      InsertKeepsLowerBound(x, s[1..], key, b);
      assert Insert(x, s, key) == [s[0]] + Insert(x, s[1..], key);
    }
  }

  lemma {:induction false} InsertKeepsSorted<T>(x: T, s: seq<T>, key: T -> int)
    requires SortedBy(s, key)
    ensures SortedBy(Insert(x, s, key), key)
    decreases |s|
  {
    if s != [] && key(x) > key(s[0]) {
      var tail := s[1..];
      var t := Insert(x, tail, key);
      assert SortedBy(tail, key) by {
        forall i, j | 0 <= i < j < |tail|
          ensures key(tail[i]) <= key(tail[j])
        {
          assert tail[i] == s[i + 1] && tail[j] == s[j + 1];
        }
      }
      InsertKeepsSorted(x, tail, key);
      assert forall k :: 0 <= k < |tail| ==> key(s[0]) <= key(tail[k]) by {
        forall k | 0 <= k < |tail|
          ensures key(s[0]) <= key(tail[k])
        {
          assert tail[k] == s[k + 1];
        }
      }
      InsertKeepsLowerBound(x, tail, key, key(s[0]));
      var r := [s[0]] + t;
      assert Insert(x, s, key) == r;
      forall i, j | 0 <= i < j < |r|
        ensures key(r[i]) <= key(r[j])
      {
        if i == 0 {
          assert r[j] == t[j - 1];
        } else {
          assert r[i] == t[i - 1] && r[j] == t[j - 1];
        }
      }
    }
  }

  /** Insertion sort from the back: the head is inserted into the sorted tail. */
  function SortBy<T>(s: seq<T>, key: T -> int): (r: seq<T>)
    ensures multiset(r) == multiset(s)
    ensures SortedBy(r, key)
    decreases |s|
  {
    if s == [] then []
    else
      assert s == [s[0]] + s[1..];
      InsertKeepsSorted(s[0], SortBy(s[1..], key), key);
      Insert(s[0], SortBy(s[1..], key), key)
  }

  /** The elements whose key is `k`. */
  function KeyEquals<T>(key: T -> int, k: int): T -> bool
  {
    y => key(y) == k
  }

  lemma {:induction false} FilterInsert<T(!new)>(x: T, s: seq<T>, key: T -> int, k: int)
    requires SortedBy(s, key)
    ensures Filter(Insert(x, s, key), KeyEquals(key, k))
         == (if key(x) == k then [x] else []) + Filter(s, KeyEquals(key, k))
    decreases |s|
  {
    var p := KeyEquals(key, k);
    if s == [] || key(x) <= key(s[0]) {
      FilterCons(x, s, p);
    } else {
      FilterInsert(x, s[1..], key, k);
      FilterCons(s[0], Insert(x, s[1..], key), p);
      assert s == [s[0]] + s[1..];
      FilterCons(s[0], s[1..], p);
    }
  }

  /** Stability: among the elements with any one key, the sort keeps the input order. */
  lemma {:induction false} SortByIsStable<T(!new)>(s: seq<T>, key: T -> int, k: int)
    ensures Filter(SortBy(s, key), KeyEquals(key, k)) == Filter(s, KeyEquals(key, k))
    decreases |s|
  {
    if s != [] {
      SortByIsStable(s[1..], key, k);
      FilterInsert(s[0], SortBy(s[1..], key), key, k);
    }
  }

  /** A sequence sorted by a key that only takes the values 0 and 1 is its 0-part followed by its 1-part. */
  lemma {:induction false} SortedSplitsInTwo<T(!new)>(s: seq<T>, key: T -> int)
    requires SortedBy(s, key)
    requires forall x :: x in s ==> key(x) == 0 || key(x) == 1
    ensures s == Filter(s, KeyEquals(key, 0)) + Filter(s, KeyEquals(key, 1))
    decreases |s|
  {
    if s != [] {
      assert s == [s[0]] + s[1..];
      if key(s[0]) == 0 {
        var rest := s[1..];
        assert SortedBy(rest, key) by {
          forall i, j | 0 <= i < j < |rest| ensures key(rest[i]) <= key(rest[j]) {
            assert rest[i] == s[i + 1] && rest[j] == s[j + 1];
          }
        }
        assert forall x :: x in rest ==> x in s;
        SortedSplitsInTwo(rest, key);
        var p0, p1 := KeyEquals(key, 0), KeyEquals(key, 1);
        FilterCons(s[0], rest, p0);
        FilterCons(s[0], rest, p1);
        assert p0(s[0]) && !p1(s[0]);
        ConsOfSplit(s, s[0], rest, Filter(rest, p0), Filter(rest, p1), Filter(s, p0), Filter(s, p1));
      } else {
        forall x | x in s
          ensures key(x) == 1
        {
          var j :| 0 <= j < |s| && s[j] == x;
          assert key(s[0]) <= key(s[j]);
        }
        FilterKeepsNone(s, KeyEquals(key, 0));
        FilterKeepsAll(s, KeyEquals(key, 1));
      }
    }
  }

  lemma ConsOfSplit<T>(s: seq<T>, x: T, rest: seq<T>, a: seq<T>, b: seq<T>, a': seq<T>, b': seq<T>)
    requires s == [x] + rest && rest == a + b && a' == [x] + a && b' == b
    ensures s == a' + b'
  {
  }

  /** A stable sort by a two-valued key is a partition: the 0-keyed elements in input order, then the 1-keyed ones. */
  lemma SortByTwoKeysPartitions<T(!new)>(s: seq<T>, key: T -> int)
    requires forall x :: x in s ==> key(x) == 0 || key(x) == 1
    ensures SortBy(s, key) == Filter(s, KeyEquals(key, 0)) + Filter(s, KeyEquals(key, 1))
  {
    var r := SortBy(s, key);
    assert forall x :: x in r ==> x in multiset(s);
    SortedSplitsInTwo(r, key);
    SortByIsStable(s, key, 0);
    SortByIsStable(s, key, 1);
  }
}
