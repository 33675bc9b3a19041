/**
 * What a relational query computes over an ordered table: a WHERE clause
 * keeps the rows a predicate accepts, an ORDER BY reorders them by a key.
 * Both are stated by multiplicities, so a result is pinned down as a
 * permutation of the accepted rows and not merely a set of them.
 */
module Query {

  /** The rows of s that p accepts, in table order. */
  function Filter<T(!new)>(s: seq<T>, p: T -> bool): (r: seq<T>)
    ensures forall x :: multiset(r)[x] == if p(x) then multiset(s)[x] else 0
    ensures |r| <= |s|
  {
    if s == [] then []
    else
      var rest := Filter(s[1..], p);
      assert s == [s[0]] + s[1..];
      if p(s[0]) then [s[0]] + rest else rest
  }

  /** s is in non-decreasing order of key. */
  predicate SortedBy<T>(s: seq<T>, key: T -> int) {
    forall i, j :: 0 <= i < j < |s| ==> key(s[i]) <= key(s[j])
  }

  /** Every element of t is bounded below by b when t holds exactly s and x. */
  lemma BoundedBelow<T>(t: seq<T>, s: seq<T>, x: T, key: T -> int, b: int)
    requires multiset(t) == multiset(s) + multiset{x}
    requires b <= key(x)
    requires forall y :: y in s ==> b <= key(y)
    ensures forall k :: 0 <= k < |t| ==> b <= key(t[k])
  {
    forall k | 0 <= k < |t|
      ensures b <= key(t[k])
    {
      assert t[k] in multiset(t);
    }
  }

  /** Inserts x into sorted s ahead of every element with an equal key. */
  function Insert<T>(x: T, s: seq<T>, key: T -> int): (r: seq<T>)
    requires SortedBy(s, key)
    ensures SortedBy(r, key)
    ensures multiset(r) == multiset(s) + multiset{x}
    decreases |s|
  {
    if s == [] then [x]
    else if key(x) <= key(s[0]) then [x] + s
    else
      assert s == [s[0]] + s[1..];
      var t := Insert(x, s[1..], key);
      BoundedBelow(t, s[1..], x, key, key(s[0]));
      [s[0]] + t
  }

  /** A stable sort of s by key: the ORDER BY of a query. */
  function SortBy<T>(s: seq<T>, key: T -> int): (r: seq<T>)
    ensures SortedBy(r, key)
    ensures multiset(r) == multiset(s)
  {
    if s == [] then []
    else
      assert s == [s[0]] + s[1..];
      Insert(s[0], SortBy(s[1..], key), key)
  }
}
