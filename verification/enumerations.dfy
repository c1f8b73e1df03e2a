/**
 * Iteration orders of hash maps: the source walks `HashMap` keys and values in
 * an unspecified order that visits every key exactly once. The model takes that
 * order as a sequence and states results for every such order.
 */
module Enumerations {

  predicate NoDuplicates<T(==)>(s: seq<T>) {
    forall i, j :: 0 <= i < j < |s| ==> s[i] != s[j]
  }

  /** `order` lists every element of `keys` exactly once, and nothing else. */
  predicate IsEnumeration<T(==)>(order: seq<T>, keys: set<T>) {
    && NoDuplicates(order)
    && (forall i :: 0 <= i < |order| ==> order[i] in keys)
    && (forall k :: k in keys ==> k in order)
  }

  /** The elements of `s` satisfying `p`, in order. */
  function Filter<T>(s: seq<T>, p: T -> bool): (r: seq<T>)
    ensures |r| <= |s|
    ensures forall x :: x in r ==> x in s && p(x)
  {
    if s == [] then [] else (if p(s[0]) then [s[0]] else []) + Filter(s[1..], p)
  }

  /** Filtering a duplicate-free sequence keeps each chosen element exactly once. */
  lemma {:induction false} FilterCount<T>(s: seq<T>, p: T -> bool, x: T)
    requires NoDuplicates(s)
    ensures multiset(Filter(s, p))[x] == if x in s && p(x) then 1 else 0
    decreases |s|
  {
    if s != [] {
      FilterCount(s[1..], p, x);
      if x == s[0] {
        assert x !in s[1..] by {
          forall i | 0 <= i < |s[1..]|
            ensures s[1..][i] != x
          {
            assert s[1..][i] == s[i + 1];
          }
        }
      }
      assert x in s <==> x == s[0] || x in s[1..];
    }
  }
}
