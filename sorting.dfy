/**
 * A stable insertion sort by an integer key, used to order price rows by
 * their timestamp and statement columns by their date.
 */
module Sorting {

  predicate SortedBy<T>(s: seq<T>, key: T -> int)
  {
    forall i, j :: 0 <= i < j < |s| ==> key(s[i]) <= key(s[j])
  }

  /** Inserts x after the last element whose key is at most x's (scanning from the end). */
  function Insert<T>(s: seq<T>, x: T, key: T -> int): (r: seq<T>)
    ensures |r| == |s| + 1
    decreases |s|
  {
    if |s| == 0 then [x]
    else if key(s[|s| - 1]) <= key(x) then s + [x]
    else Insert(s[..|s| - 1], x, key) + [s[|s| - 1]]
  }

  lemma {:induction false} InsertMultiset<T>(s: seq<T>, x: T, key: T -> int)
    ensures multiset(Insert(s, x, key)) == multiset(s) + multiset{x}
    decreases |s|
  {
    if |s| > 0 && key(s[|s| - 1]) > key(x) {
      var n := |s| - 1;
      InsertMultiset(s[..n], x, key);
      assert s == s[..n] + [s[n]];
    }
  }

  lemma {:induction false} InsertSorted<T>(s: seq<T>, x: T, key: T -> int)
    requires SortedBy(s, key)
    ensures SortedBy(Insert(s, x, key), key)
    decreases |s|
  {
    if |s| > 0 && key(s[|s| - 1]) > key(x) {
      var n := |s| - 1;
      InsertSorted(s[..n], x, key);
      var t := Insert(s[..n], x, key);
      InsertMultiset(s[..n], x, key);
      forall i | 0 <= i < |t|
        ensures key(t[i]) <= key(s[n])
      {
        assert t[i] in multiset(t);
        if t[i] != x {
          assert t[i] in multiset(s[..n]);
          var j :| 0 <= j < n && s[..n][j] == t[i];
        }
      }
    }
  }

  /** `sort_index` by an integer key, ascending. */
  function SortBy<T>(s: seq<T>, key: T -> int): (r: seq<T>)
    ensures multiset(r) == multiset(s)
    ensures |r| == |s|
  {
    if |s| == 0 then []
    else
      var n := |s| - 1;
      var t := SortBy(s[..n], key);
      InsertMultiset(t, s[n], key);
      assert s == s[..n] + [s[n]];
      Insert(t, s[n], key)
  }

  /** The sorted sequence is in key order. */
  lemma {:induction false} SortBySorted<T>(s: seq<T>, key: T -> int)
    ensures SortedBy(SortBy(s, key), key)
  {
    if |s| > 0 {
      var n := |s| - 1;
      SortBySorted(s[..n], key);
      InsertSorted(SortBy(s[..n], key), s[n], key);
    }
  }

  /** Sorting a sorted sequence changes nothing. */
  lemma {:induction false} SortSorted<T>(s: seq<T>, key: T -> int)
    requires SortedBy(s, key)
    ensures SortBy(s, key) == s
  {
    if |s| > 0 {
      var n := |s| - 1;
      var init := s[..n];
      SortedInit(s, key);
      SortSorted(init, key);
      InsertLast(init, s[n], key);
      assert SortBy(s, key) == Insert(SortBy(init, key), s[n], key);
    }
  }

  /** x goes to the end when no key exceeds its own, which puts the last element back in place. */
  lemma InsertLast<T>(s: seq<T>, x: T, key: T -> int)
    requires |s| > 0 ==> key(s[|s| - 1]) <= key(x)
    ensures Insert(s, x, key) == s + [x]
  {
  }

  /** Dropping the last element keeps a sequence sorted, and the last key is the largest. */
  lemma SortedInit<T>(s: seq<T>, key: T -> int)
    requires SortedBy(s, key) && |s| > 0
    ensures SortedBy(s[..|s| - 1], key)
    ensures |s| > 1 ==> key(s[..|s| - 1][|s| - 2]) <= key(s[|s| - 1])
    ensures s[..|s| - 1] + [s[|s| - 1]] == s
  {
    var init := s[..|s| - 1];
    assert forall k :: 0 <= k < |init| ==> init[k] == s[k];
  }
}
