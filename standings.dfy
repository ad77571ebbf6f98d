/**
 * What both leaderboards share: a list sorted by an integer score, highest
 * first, with Python's stable sort, and Python's prefix slice s[:n].
 */
module Standings {
  import opened ExtReals
  import Sorting

  /** f applied to every element, in order. */
  function Map<A, B>(s: seq<A>, f: A -> B): (r: seq<B>)
    ensures |r| == |s| && forall i :: 0 <= i < |s| ==> r[i] == f(s[i])
  {
    seq(|s|, i requires 0 <= i < |s| => f(s[i]))
  }

  lemma MapAppend<A, B>(a: seq<A>, b: seq<A>, f: A -> B)
    ensures Map(a + b, f) == Map(a, f) + Map(b, f)
  {
  }

  /** Applying the same function to two permutations of each other gives two permutations of each other. */
  lemma {:induction false} MapPermutes<A, B>(a: seq<A>, b: seq<A>, f: A -> B)
    requires multiset(a) == multiset(b)
    ensures multiset(Map(a, f)) == multiset(Map(b, f))
    decreases |a|
  {
    if a == [] {
      assert |b| == |multiset(b)| == 0;
    } else {
      var x := a[0];
      assert x in multiset(b);
      var k :| 0 <= k < |b| && b[k] == x;
      var rest := b[..k] + b[k + 1..];
      assert b == b[..k] + [x] + b[k + 1..];
      assert a == [x] + a[1..];
      assert multiset(b) == multiset(b[..k]) + multiset{x} + multiset(b[k + 1..]);
      assert multiset(a) == multiset{x} + multiset(a[1..]);
      assert multiset(rest) == multiset(b[..k]) + multiset(b[k + 1..]);
      calc {
        multiset(a[1..]);
        multiset(a) - multiset{x};
        multiset(b) - multiset{x};
        multiset(rest);
      }
      MapPermutes(a[1..], rest, f);
      MapAppend([x], a[1..], f);
      MapAppend(b[..k] + [x], b[k + 1..], f);
      MapAppend(b[..k], [x], f);
      MapAppend(b[..k], b[k + 1..], f);
    }
  }

  /** Each element paired with its score, as Python computes the sort key once per element. */
  function Keyed<T>(s: seq<T>, key: T -> int): (r: seq<(XReal, T)>)
    ensures |r| == |s| && forall i :: 0 <= i < |s| ==> r[i] == (Fin(key(s[i]) as real), s[i])
  {
    seq(|s|, i requires 0 <= i < |s| => (Fin(key(s[i]) as real), s[i]))
  }

  /** list.sort(key=key, reverse=True). */
  function SortDesc<T>(s: seq<T>, key: T -> int): seq<T>
  {
    Sorting.Items(Sorting.SortBy(Keyed(s, key), true))
  }

  /** The sorted list holds the same elements, highest score first. */
  lemma SortDescSpec<T>(s: seq<T>, key: T -> int)
    ensures |SortDesc(s, key)| == |s|
    ensures multiset(SortDesc(s, key)) == multiset(s)
    ensures forall i, j :: 0 <= i < j < |SortDesc(s, key)| ==> key(SortDesc(s, key)[i]) >= key(SortDesc(s, key)[j])
  {
    SortDescPermutes(s, key);
    var ks := Keyed(s, key);
    var sorted := Sorting.SortBy(ks, true);
    Sorting.SortBySpec(ks, true);
    forall i | 0 <= i < |sorted| ensures sorted[i].0 == Fin(key(sorted[i].1) as real) {
      assert sorted[i] in multiset(ks);
    }
  }

  /** The sorted list holds the same elements. */
  lemma SortDescPermutes<T>(s: seq<T>, key: T -> int)
    ensures multiset(SortDesc(s, key)) == multiset(s)
  {
    var ks := Keyed(s, key);
    var sorted := Sorting.SortBy(ks, true);
    Sorting.SortBySpec(ks, true);
    var second := (pr: (XReal, T)) => pr.1;
    MapPermutes(sorted, ks, second);
    assert Map(sorted, second) == Sorting.Items(sorted);
    assert Map(ks, second) == s;
  }

  /** Python's s[:n]: the first n elements, or all but the last -n when n is negative. */
  function Prefix<T>(s: seq<T>, n: int): (r: seq<T>)
    ensures |r| == if n >= 0 then (if n < |s| then n else |s|) else (if |s| + n > 0 then |s| + n else 0)
    ensures r == s[..|r|]
  {
    if n >= |s| then s
    else if n >= 0 then s[..n]
    else if |s| + n > 0 then s[..|s| + n]
    else []
  }
}
