/**
 * A stable insertion sort by an integer key. It stands for SQL `ORDER BY`
 * (ties kept in insertion order) and for Python's `sorted(..., key=...)`,
 * which is stable too; a descending sort is a sort on the negated key.
 */
module Sorting {
  import opened Seqs

  ghost predicate SortedBy<T>(s: seq<T>, key: T -> int) {
    forall i, j :: 0 <= i < j < |s| ==> key(s[i]) <= key(s[j])
  }

  /** `x` placed before the first element of `s` whose key is not below its own. */
  function InsertBy<T>(x: T, s: seq<T>, key: T -> int): (r: seq<T>)
    ensures |r| == |s| + 1
    ensures multiset(r) == multiset(s) + multiset{x}
    ensures r[0] == x || (s != [] && r[0] == s[0])
  {
    if s == [] || key(x) <= key(s[0]) then [x] + s
    else
      var rest := InsertBy(x, s[1..], key);
      assert s == [s[0]] + s[1..];
      [s[0]] + rest
  }

  /** Inserting into a sorted sequence keeps it sorted. */
  lemma {:induction false} InsertSorted<T>(x: T, s: seq<T>, key: T -> int)
    requires SortedBy(s, key)
    ensures SortedBy(InsertBy(x, s, key), key)
  {
    if s == [] || key(x) <= key(s[0]) {
      ConsSorted(x, s, key);
    } else {
      var rest := InsertBy(x, s[1..], key);
      InsertSorted(x, s[1..], key);
      forall k | 0 <= k < |rest| ensures key(s[0]) <= key(rest[k]) {
        assert key(rest[0]) <= key(rest[k]) || k == 0;
        assert rest[0] == x || rest[0] == s[1];
      }
      ConsSorted(s[0], rest, key);
    }
  }

  /** The elements of `s`, reordered so that keys ascend. */
  function SortBy<T>(s: seq<T>, key: T -> int): (r: seq<T>)
    ensures |r| == |s|
    ensures multiset(r) == multiset(s)
    ensures SortedBy(r, key)
  {
    if s == [] then []
    else
      assert s == [s[0]] + s[1..];
      var sorted := SortBy(s[1..], key);
      InsertSorted(s[0], sorted, key);
      InsertBy(s[0], sorted, key)
  }

  /** Sorting a sequence whose keys already ascend returns it unchanged (the sort is stable). */
  lemma {:induction false} SortSortedIdentity<T>(s: seq<T>, key: T -> int)
    requires SortedBy(s, key)
    ensures SortBy(s, key) == s
  {
    if s != [] {
      SortSortedIdentity(s[1..], key);
      assert s == [s[0]] + s[1..];
    }
  }

  /** An element belongs to the sorted sequence exactly when it belongs to the input. */
  lemma SortByMembers<T>(s: seq<T>, key: T -> int, x: T)
    ensures x in SortBy(s, key) <==> x in s
  {
    assert x in SortBy(s, key) <==> x in multiset(SortBy(s, key));
    assert x in s <==> x in multiset(s);
  }

  /** Every prefix of a sorted sequence is sorted. */
  lemma SortedPrefix<T>(s: seq<T>, key: T -> int, n: nat)
    requires SortedBy(s, key) && n <= |s|
    ensures SortedBy(s[..n], key)
  {
  }

  /** Filtering keeps the order, so a filtered sorted sequence is sorted. */
  lemma {:induction false} FilterSorted<T>(s: seq<T>, p: T -> bool, key: T -> int)
    requires SortedBy(s, key)
    ensures SortedBy(Filter(s, p), key)
  {
    if s != [] {
      var tail := s[1..];
      FilterSorted(tail, p, key);
      FilterBounded(tail, p, key, key(s[0]));
      if p(s[0]) {
        ConsSorted(s[0], Filter(tail, p), key);
      }
    }
  }

  /** A key bound that holds for every element holds for every element kept by a filter. */
  lemma FilterBounded<T>(s: seq<T>, p: T -> bool, key: T -> int, b: int)
    requires forall i :: 0 <= i < |s| ==> b <= key(s[i])
    ensures forall i :: 0 <= i < |Filter(s, p)| ==> b <= key(Filter(s, p)[i])
  {
    var ft := Filter(s, p);
    forall i | 0 <= i < |ft| ensures b <= key(ft[i]) {
      var j :| 0 <= j < |s| && s[j] == ft[i];
    }
  }

  /** A sorted sequence stays sorted with an element in front whose key is no greater than any of its own. */
  lemma ConsSorted<T>(x: T, t: seq<T>, key: T -> int)
    requires SortedBy(t, key)
    requires forall i :: 0 <= i < |t| ==> key(x) <= key(t[i])
    ensures SortedBy([x] + t, key)
  {
    var r := [x] + t;
    forall i, j | 0 <= i < j < |r| ensures key(r[i]) <= key(r[j]) {
      assert r[j] == t[j - 1];
      if i > 0 {
        assert r[i] == t[i - 1];
      }
    }
  }

  lemma {:induction false} InsertBeforeGreatest<T>(y: T, t: seq<T>, x: T, key: T -> int)
    requires key(y) <= key(x)
    ensures InsertBy(y, t + [x], key) == InsertBy(y, t, key) + [x]
  {
    if t == [] {
      assert t + [x] == [x];
    } else if key(y) <= key(t[0]) {
      assert (t + [x])[0] == t[0];
      assert [y] + (t + [x]) == ([y] + t) + [x];
    } else {
      assert (t + [x])[0] == t[0] && (t + [x])[1..] == t[1..] + [x];
      InsertBeforeGreatest(y, t[1..], x, key);
      var rest := InsertBy(y, t[1..], key);
      assert [t[0]] + (rest + [x]) == ([t[0]] + rest) + [x];
    }
  }

  /** An element appended with a key no smaller than any other stays last after sorting (the sort is stable). */
  lemma {:induction false} SortAppendGreatest<T>(s: seq<T>, x: T, key: T -> int)
    requires forall i :: 0 <= i < |s| ==> key(s[i]) <= key(x)
    ensures SortBy(s + [x], key) == SortBy(s, key) + [x]
  {
    if s == [] {
      assert s + [x] == [x];
      assert [x][1..] == [];
    } else {
      assert (s + [x])[0] == s[0] && (s + [x])[1..] == s[1..] + [x];
      SortAppendGreatest(s[1..], x, key);
      InsertBeforeGreatest(s[0], SortBy(s[1..], key), x, key);
    }
  }
}
