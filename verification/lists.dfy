/** List comprehensions and counting, as the agents use them on Python lists. */
module Lists {

  /** `[x for x in s if p(x)]`. */
  function Where<T>(s: seq<T>, p: T -> bool): (r: seq<T>)
    ensures |r| <= |s|
    ensures forall i :: 0 <= i < |r| ==> r[i] in s && p(r[i])
    ensures forall i :: 0 <= i < |s| && p(s[i]) ==> s[i] in r
  {
    if s == [] then []
    else Where(s[..|s| - 1], p) + (if p(s[|s| - 1]) then [s[|s| - 1]] else [])
  }

  /** Nothing is kept when no element satisfies the condition. */
  lemma {:induction false} WhereNone<T>(s: seq<T>, p: T -> bool)
    requires forall i :: 0 <= i < |s| ==> !p(s[i])
    ensures Where(s, p) == []
  {
    if s != [] {
      WhereNone(s[..|s| - 1], p);
    }
  }

  /** The index of the last element satisfying the condition, or -1. */
  function LastWhere<T>(s: seq<T>, p: T -> bool): (r: int)
    ensures -1 <= r < |s|
    ensures r >= 0 ==> p(s[r])
    ensures forall j :: r < j < |s| ==> !p(s[j])
  {
    if s == [] then -1
    else if p(s[|s| - 1]) then |s| - 1
    else LastWhere(s[..|s| - 1], p)
  }

  /** `s.insert(p, x)` on a Python list, for a position within the list. */
  function InsertAt<T>(s: seq<T>, p: nat, x: T): (r: seq<T>)
    requires p <= |s|
    ensures |r| == |s| + 1 && r[p] == x && r[..p] == s[..p] && r[p + 1..] == s[p..]
  {
    s[..p] + [x] + s[p..]
  }

  /** `sum(1 for x in s if p(x))`. */
  function Count<T>(s: seq<T>, p: T -> bool): (n: nat)
    ensures n <= |s|
  {
    if s == [] then 0
    else Count(s[..|s| - 1], p) + (if p(s[|s| - 1]) then 1 else 0)
  }

  lemma {:induction false} CountIsWhereLength<T>(s: seq<T>, p: T -> bool)
    ensures Count(s, p) == |Where(s, p)|
  {
    if s != [] {
      CountIsWhereLength(s[..|s| - 1], p);
    }
  }

  /** Counting under two disjoint conditions adds up. */
  lemma {:induction false} CountDisjointUnion<T>(s: seq<T>, p: T -> bool, q: T -> bool, pq: T -> bool)
    requires forall x :: pq(x) <==> p(x) || q(x)
    requires forall x :: !(p(x) && q(x))
    ensures Count(s, pq) == Count(s, p) + Count(s, q)
  {
    if s != [] {
      CountDisjointUnion(s[..|s| - 1], p, q, pq);
    }
  }

  predicate NoDuplicates<T(==)>(s: seq<T>)
  {
    forall i, j :: 0 <= i < j < |s| ==> s[i] != s[j]
  }

  /** A list without repetitions has as many elements as the set of its elements. */
  lemma {:induction false} NoDuplicatesCardinality<T>(s: seq<T>)
    requires NoDuplicates(s)
    ensures |set x | x in s| == |s|
  {
    if s != [] {
      var init, last := s[..|s| - 1], s[|s| - 1];
      NoDuplicatesCardinality(init);
      assert (set x | x in s) == (set x | x in init) + {last};
      assert forall i :: 0 <= i < |init| ==> init[i] == s[i] != s[|s| - 1];
    }
  }

  /** `s[:n]`. */
  function Take<T>(s: seq<T>, n: int): (r: seq<T>)
    ensures |r| == if n < 0 then 0 else if n < |s| then n else |s|
    ensures forall i :: 0 <= i < |r| ==> r[i] == s[i]
  {
    if n <= 0 then [] else if n < |s| then s[..n] else s
  }

  /** `s[-n:]`, the last `n` elements (all of them when there are fewer). */
  function Last<T>(s: seq<T>, n: nat): (r: seq<T>)
    ensures |r| == if n < |s| then n else |s|
    ensures forall i :: 0 <= i < |r| ==> r[i] == s[|s| - |r| + i]
  {
    if n < |s| then s[|s| - n..] else s
  }

  /** Some element of `init + [last]` satisfies `p` exactly when one of `init` does or `last` does. */
  lemma ExistsSnoc<T>(s: seq<T>, init: seq<T>, last: T, p: T -> bool)
    requires s == init + [last]
    ensures (exists i :: 0 <= i < |s| && p(s[i])) <==> (exists i :: 0 <= i < |init| && p(init[i])) || p(last)
  {
    assert s[|init|] == last;
    forall i | 0 <= i < |init| ensures s[i] == init[i] { }
  }

  /** One more element: it is the last one satisfying `p` if it does. */
  lemma LastWhereSnoc<T>(s: seq<T>, i: nat, p: T -> bool)
    requires i < |s|
    ensures LastWhere(s[..i + 1], p) == if p(s[i]) then i else LastWhere(s[..i], p)
  {
    var t := s[..i + 1];
    assert t[..|t| - 1] == s[..i] && t[|t| - 1] == s[i];
  }

  /** The list without its last element agrees with the list below its length. */
  lemma InitPrefix<T>(s: seq<T>, init: seq<T>, i: int)
    requires s != [] && init == s[..|s| - 1] && 0 <= i < |init|
    ensures init[..i] == s[..i] && init[i] == s[i]
  {
    assert s == init + [s[|s| - 1]];
    assert init[..i] == (init + [s[|s| - 1]])[..i];
  }

  /** A list without repetitions, split before its last element. */
  lemma NoDuplicatesSnoc<T>(s: seq<T>, init: seq<T>, last: T)
    requires s == init + [last] && NoDuplicates(s)
    ensures NoDuplicates(init) && last !in init
  {
    forall i, j | 0 <= i < j < |init| ensures init[i] != init[j] {
      assert init[i] == s[i] && init[j] == s[j];
    }
    forall k | 0 <= k < |init| ensures init[k] != last {
      assert init[k] == s[k] && last == s[|init|];
    }
  }
}
