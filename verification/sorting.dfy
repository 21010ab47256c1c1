/**
 * Python's `list.sort(key=...)` for a numeric key: a stable sort. Stability and
 * permutation are stated together: for every key value, the elements carrying that key
 * appear in the output in the same order as in the input.
 */
module Sorting {

  /** The elements of `s` whose key is `k`, in their original order. */
  function Filter<T>(s: seq<T>, key: T -> real, k: real): (r: seq<T>)
    ensures |r| <= |s|
  {
    if s == [] then []
    else Filter(s[..|s| - 1], key, k) + (if key(s[|s| - 1]) == k then [s[|s| - 1]] else [])
  }

  predicate SortedBy<T>(s: seq<T>, key: T -> real)
  {
    forall i, j :: 0 <= i < j < |s| ==> key(s[i]) <= key(s[j])
  }

  lemma {:induction false} FilterAppend<T>(s: seq<T>, x: T, key: T -> real, k: real)
    ensures Filter(s + [x], key, k) == Filter(s, key, k) + (if key(x) == k then [x] else [])
  {
    assert (s + [x])[..|s + [x]| - 1] == s;
  }

  /** `x` is an element of `s` exactly when it is among the elements of its own key. */
  lemma {:induction false} InFilter<T>(s: seq<T>, key: T -> real, x: T)
    ensures x in s <==> x in Filter(s, key, key(x))
  {
    if s != [] {
      var init := s[..|s| - 1];
      InFilter(init, key, x);
      assert s == init + [s[|s| - 1]];
      assert x in s <==> x in init || x == s[|s| - 1];
    }
  }

  /** The elements kept for key `k` are the elements of `s` whose key is `k`. */
  lemma {:induction false} FilterMembers<T>(s: seq<T>, key: T -> real, k: real, x: T)
    ensures x in Filter(s, key, k) <==> x in s && key(x) == k
  {
    if s != [] {
      var init := s[..|s| - 1];
      FilterMembers(init, key, k, x);
      assert s == init + [s[|s| - 1]];
    }
  }

  lemma FiltersAppend<T>(s: seq<T>, x: T, key: T -> real)
    ensures forall k :: Filter(s + [x], key, k) == Filter(s, key, k) + (if key(x) == k then [x] else [])
  {
    forall k ensures Filter(s + [x], key, k) == Filter(s, key, k) + (if key(x) == k then [x] else []) {
      FilterAppend(s, x, key, k);
    }
  }

  /** Insert `x` into a sorted list after every element whose key is at most its own. */
  function Insert<T>(t: seq<T>, x: T, key: T -> real): (r: seq<T>)
    requires SortedBy(t, key)
    ensures |r| == |t| + 1
    ensures SortedBy(r, key)
    ensures forall i :: 0 <= i < |r| ==> r[i] == x || r[i] in t
    ensures forall k :: Filter(r, key, k) == Filter(t, key, k) + (if key(x) == k then [x] else [])
  {
    if t == [] || key(t[|t| - 1]) <= key(x) then
      FiltersAppend(t, x, key);
      t + [x]
    else
      var mid := Insert(t[..|t| - 1], x, key);
      InsertBeforeLast(t, x, mid, key);
      mid + [t[|t| - 1]]
  }

  /** When `x` goes before the last element, inserting it into the rest and appending that element. */
  lemma InsertBeforeLast<T>(t: seq<T>, x: T, mid: seq<T>, key: T -> real)
    requires t != [] && SortedBy(t, key) && key(x) < key(t[|t| - 1])
    requires SortedBy(mid, key)
    requires forall i :: 0 <= i < |mid| ==> mid[i] == x || mid[i] in t[..|t| - 1]
    requires forall k :: Filter(mid, key, k) == Filter(t[..|t| - 1], key, k) + (if key(x) == k then [x] else [])
    ensures var r := mid + [t[|t| - 1]];
      && SortedBy(r, key)
      && (forall i :: 0 <= i < |r| ==> r[i] == x || r[i] in t)
      && (forall k :: Filter(r, key, k) == Filter(t, key, k) + (if key(x) == k then [x] else []))
  {
    var init, last := t[..|t| - 1], t[|t| - 1];
    assert t == init + [last];
    FiltersAppend(mid, last, key);
    FiltersAppend(init, last, key);
    forall i | 0 <= i < |mid| ensures key(mid[i]) <= key(last) {
      if mid[i] != x {
        var j :| 0 <= j < |init| && init[j] == mid[i];
        assert init[j] == t[j];
      }
    }
    SortedSnoc(mid, last, key);
  }

  /** An element whose key is at least every key of a sorted list may follow it. */
  lemma SortedSnoc<T>(s: seq<T>, x: T, key: T -> real)
    requires SortedBy(s, key) && forall i :: 0 <= i < |s| ==> key(s[i]) <= key(x)
    ensures SortedBy(s + [x], key)
  {
    var r := s + [x];
    forall i, j | 0 <= i < j < |r| ensures key(r[i]) <= key(r[j]) {
      if j < |s| {
        assert r[i] == s[i] && r[j] == s[j];
      } else {
        assert r[i] == s[i] && r[j] == x;
      }
    }
  }

  /** The stable sort of `s` by `key`. */
  function SortBy<T>(s: seq<T>, key: T -> real): (r: seq<T>)
    ensures |r| == |s|
    ensures SortedBy(r, key)
    ensures forall k :: Filter(r, key, k) == Filter(s, key, k)
  {
    if s == [] then []
    else
      var init, last := s[..|s| - 1], s[|s| - 1];
      var r := Insert(SortBy(init, key), last, key);
      assert forall k :: Filter(r, key, k) == Filter(s, key, k) by {
        forall k ensures Filter(r, key, k) == Filter(s, key, k) {
          assert s == init + [last];
          FilterAppend(init, last, key, k);
        }
      }
      r
  }

  /** Sorting neither adds nor loses elements. */
  lemma SortByMembers<T>(s: seq<T>, key: T -> real, x: T)
    ensures x in SortBy(s, key) <==> x in s
  {
    InFilter(s, key, x);
    InFilter(SortBy(s, key), key, x);
  }

  /**
   * The head of the sorted list has the smallest key, and it is the earliest element
   * of the input with that key: ties keep their input order.
   */
  lemma {:induction false} SortByHead<T>(s: seq<T>, key: T -> real)
    requires |s| > 0
    ensures forall x :: x in s ==> key(SortBy(s, key)[0]) <= key(x)
    ensures |Filter(s, key, key(SortBy(s, key)[0]))| > 0
    ensures SortBy(s, key)[0] == Filter(s, key, key(SortBy(s, key)[0]))[0]
  {
    var r := SortBy(s, key);
    forall x | x in s ensures key(r[0]) <= key(x) {
      SortByMembers(s, key, x);
    }
    var k := key(r[0]);
    FilterHead(r, key);
  }

  /** In a sorted list, the first element is the first of its own key. */
  lemma {:induction false} FilterHead<T>(r: seq<T>, key: T -> real)
    requires |r| > 0 && SortedBy(r, key)
    ensures |Filter(r, key, key(r[0]))| > 0 && Filter(r, key, key(r[0]))[0] == r[0]
    decreases |r|
  {
    var k := key(r[0]);
    if |r| == 1 {
      assert r == [] + [r[0]];
      FilterAppend([], r[0], key, k);
    } else {
      var init := r[..|r| - 1];
      assert init[0] == r[0];
      assert SortedBy(init, key);
      FilterHead(init, key);
      assert r == init + [r[|r| - 1]];
      FilterAppend(init, r[|r| - 1], key, k);
    }
  }
}
