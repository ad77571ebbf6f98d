/**
 * Python's list.sort(key=..., reverse=...) on keyed items: a stable sort,
 * ascending or descending.  With reverse=True equal keys still keep their
 * original order.  The items are given with their keys already computed,
 * as Python computes each key once before sorting.
 */
module Sorting {
  import opened ExtReals

  /** In the wanted order, key a goes strictly before key b. */
  predicate Precedes(a: XReal, b: XReal, desc: bool)
  {
    if desc then Less(b, a) else Less(a, b)
  }

  /** No item is strictly out of order with a later one. */
  predicate SortedBy<T>(s: seq<(XReal, T)>, desc: bool)
  {
    forall i, j :: 0 <= i < j < |s| ==> !Precedes(s[j].0, s[i].0, desc)
  }

  /** The items carrying key k, in their order. */
  function WithKey<T>(s: seq<(XReal, T)>, k: XReal): (r: seq<(XReal, T)>)
    ensures |r| <= |s|
  {
    if |s| == 0 then []
    else (if s[0].0 == k then [s[0]] else []) + WithKey(s[1..], k)
  }

  /** x placed before the first item that does not strictly precede it. */
  function Insert<T>(x: (XReal, T), s: seq<(XReal, T)>, desc: bool): (r: seq<(XReal, T)>)
    ensures |r| == |s| + 1
  {
    if |s| == 0 || !Precedes(s[0].0, x.0, desc) then [x] + s
    else [s[0]] + Insert(x, s[1..], desc)
  }

  /** The stable sort of s. */
  function SortBy<T>(s: seq<(XReal, T)>, desc: bool): (r: seq<(XReal, T)>)
    ensures |r| == |s|
  {
    if |s| == 0 then [] else Insert(s[0], SortBy(s[1..], desc), desc)
  }

  lemma {:induction false} InsertElems<T>(x: (XReal, T), s: seq<(XReal, T)>, desc: bool)
    ensures multiset(Insert(x, s, desc)) == multiset{x} + multiset(s)
  {
    if |s| > 0 && Precedes(s[0].0, x.0, desc) {
      InsertElems(x, s[1..], desc);
      assert s == [s[0]] + s[1..];
    }
  }

  lemma {:induction false} InsertSorted<T>(x: (XReal, T), s: seq<(XReal, T)>, desc: bool)
    requires SortedBy(s, desc)
    ensures SortedBy(Insert(x, s, desc), desc)
  {
    var r := Insert(x, s, desc);
    if |s| == 0 {
    } else if !Precedes(s[0].0, x.0, desc) {
      forall i, j | 0 <= i < j < |r| ensures !Precedes(r[j].0, r[i].0, desc) {
        if i == 0 {
          LessIsStrictTotal(s[0].0, x.0, s[j - 1].0);
          LessIsStrictTotal(x.0, s[0].0, s[j - 1].0);
          LessIsStrictTotal(s[j - 1].0, s[0].0, x.0);
          LessIsStrictTotal(s[j - 1].0, x.0, s[0].0);
        }
      }
    } else {
      var t := Insert(x, s[1..], desc);
      InsertSorted(x, s[1..], desc);
      InsertElems(x, s[1..], desc);
      forall j | 0 <= j < |t| ensures !Precedes(t[j].0, s[0].0, desc) {
        assert t[j] in multiset(t);
        assert t[j] == x || t[j] in multiset(s[1..]);
        if t[j] != x {
          var k :| 0 <= k < |s[1..]| && s[1..][k] == t[j];
          assert s[k + 1] == t[j];
        } else {
          LessIsStrictTotal(x.0, s[0].0, x.0);
        }
      }
    }
  }

  /** The keys of a stable insertion: x goes in front of every item carrying its key. */
  lemma {:induction false} InsertWithKey<T>(x: (XReal, T), s: seq<(XReal, T)>, desc: bool, k: XReal)
    requires SortedBy(s, desc)
    ensures WithKey(Insert(x, s, desc), k) == (if x.0 == k then [x] else []) + WithKey(s, k)
  {
    if |s| == 0 {
      assert WithKey([x], k) == (if x.0 == k then [x] else []) + WithKey([x][1..], k);
    } else if !Precedes(s[0].0, x.0, desc) {
      assert ([x] + s)[1..] == s;
    } else {
      assert SortedBy(s[1..], desc) by {
        forall i, j | 0 <= i < j < |s[1..]| ensures !Precedes(s[1..][j].0, s[1..][i].0, desc) {
          assert s[1..][j] == s[j + 1] && s[1..][i] == s[i + 1];
        }
      }
      InsertWithKey(x, s[1..], desc, k);
      assert ([s[0]] + Insert(x, s[1..], desc))[1..] == Insert(x, s[1..], desc);
      if x.0 == k {
        assert s[0].0 != k by { LessIsStrictTotal(x.0, s[0].0, x.0); }
      }
    }
  }

  /**
   * The sorted list is in order, holds the same items, and keeps the
   * original order among items with equal keys (for every key, the items
   * carrying it appear in the same order as before).
   */
  lemma {:induction false} SortBySpec<T>(s: seq<(XReal, T)>, desc: bool)
    ensures SortedBy(SortBy(s, desc), desc)
    ensures multiset(SortBy(s, desc)) == multiset(s)
    ensures forall k :: WithKey(SortBy(s, desc), k) == WithKey(s, k)
  {
    if |s| > 0 {
      SortBySpec(s[1..], desc);
      InsertSorted(s[0], SortBy(s[1..], desc), desc);
      InsertElems(s[0], SortBy(s[1..], desc), desc);
      assert s == [s[0]] + s[1..];
      forall k ensures WithKey(SortBy(s, desc), k) == WithKey(s, k) {
        InsertWithKey(s[0], SortBy(s[1..], desc), desc, k);
      }
    }
  }

  /** The first m items, or all of them when there are fewer: Python's s[:m]. */
  function Take<T>(s: seq<T>, m: nat): (r: seq<T>)
    ensures |r| == if |s| < m then |s| else m
    ensures forall i :: 0 <= i < |r| ==> r[i] == s[i]
  {
    if |s| <= m then s else s[..m]
  }

  /** The items without their keys. */
  function Items<T>(s: seq<(XReal, T)>): (r: seq<T>)
    ensures |r| == |s| && forall i :: 0 <= i < |s| ==> r[i] == s[i].1
  {
    seq(|s|, i requires 0 <= i < |s| => s[i].1)
  }
}
