/** Sequence helpers shared by the scorers: the first maximum of a score list. */
module Seqs {
  /** The index of the first greatest element: a later one replaces it only when strictly greater. */
  function FirstMaxIndex(s: seq<real>): (i: nat)
    requires |s| > 0
    ensures i < |s|
  {
    if |s| == 1 then 0
    else
      var j := FirstMaxIndex(s[..|s| - 1]);
      if s[|s| - 1] > s[j] then |s| - 1 else j
  }

  /** The chosen element is a maximum, and every element before it is strictly smaller. */
  lemma {:induction false} FirstMaxIndexSpec(s: seq<real>)
    requires |s| > 0
    ensures forall k :: 0 <= k < |s| ==> s[k] <= s[FirstMaxIndex(s)]
    ensures forall k :: 0 <= k < FirstMaxIndex(s) ==> s[k] < s[FirstMaxIndex(s)]
  {
    if |s| > 1 {
      var t := s[..|s| - 1];
      FirstMaxIndexSpec(t);
      assert forall k :: 0 <= k < |t| ==> t[k] == s[k];
    }
  }

  /** When every element is equal the first one is chosen. */
  lemma FirstMaxOfConstant(s: seq<real>, v: real)
    requires |s| > 0 && forall k :: 0 <= k < |s| ==> s[k] == v
    ensures FirstMaxIndex(s) == 0
  {
    FirstMaxIndexSpec(s);
  }

  /** Extending the list by one element moves the choice only to a strictly greater element. */
  lemma FirstMaxIndexStep(s: seq<real>, i: nat)
    requires 0 < i < |s|
    ensures FirstMaxIndex(s[..i + 1]) == if s[i] > s[FirstMaxIndex(s[..i])] then i else FirstMaxIndex(s[..i])
  {
    assert s[..i + 1][..i] == s[..i];
  }

  lemma FirstMaxIndexSingle(s: seq<real>)
    requires |s| > 0
    ensures FirstMaxIndex(s[..1]) == 0
  {
  }

  /**
   * A running maximum that starts at floor: the index of the element that
   * last raised it (each raise needs a strictly greater element), or -1
   * when no element rose above floor.
   */
  function FirstAbove(s: seq<real>, floor: real): (i: int)
    ensures -1 <= i < |s|
  {
    if |s| == 0 then -1
    else
      var j := FirstAbove(s[..|s| - 1], floor);
      if s[|s| - 1] > ValueAt(s[..|s| - 1], floor, j) then |s| - 1 else j
  }

  /** The running maximum itself: floor, or the element at the chosen index. */
  function ValueAt(s: seq<real>, floor: real, i: int): real
    requires -1 <= i < |s|
  {
    if i < 0 then floor else s[i]
  }

  /**
   * The running maximum is at least floor and every element; an element
   * was chosen exactly when one exceeds floor, and then it is the first
   * element of greatest value.
   */
  lemma {:induction false} FirstAboveSpec(s: seq<real>, floor: real)
    ensures floor <= ValueAt(s, floor, FirstAbove(s, floor))
    ensures forall k :: 0 <= k < |s| ==> s[k] <= ValueAt(s, floor, FirstAbove(s, floor))
    ensures FirstAbove(s, floor) < 0 <==> forall k :: 0 <= k < |s| ==> s[k] <= floor
    ensures FirstAbove(s, floor) >= 0 ==>
      floor < s[FirstAbove(s, floor)] && forall k :: 0 <= k < FirstAbove(s, floor) ==> s[k] < s[FirstAbove(s, floor)]
  {
    if |s| > 0 {
      var t := s[..|s| - 1];
      FirstAboveSpec(t, floor);
      assert forall k :: 0 <= k < |t| ==> t[k] == s[k];
    }
  }

  /** One more element moves the running maximum only to a strictly greater element. */
  lemma FirstAboveStep(s: seq<real>, floor: real, i: nat)
    requires i < |s|
    ensures FirstAbove(s[..i + 1], floor) ==
      if s[i] > ValueAt(s[..i], floor, FirstAbove(s[..i], floor)) then i else FirstAbove(s[..i], floor)
    ensures ValueAt(s[..i + 1], floor, FirstAbove(s[..i + 1], floor)) ==
      if s[i] > ValueAt(s[..i], floor, FirstAbove(s[..i], floor)) then s[i] else ValueAt(s[..i], floor, FirstAbove(s[..i], floor))
  {
    assert s[..i + 1][..i] == s[..i];
  }

  /** The concatenation of a list of lists, in order. */
  function Flatten<T>(ss: seq<seq<T>>): seq<T>
  {
    if |ss| == 0 then [] else ss[0] + Flatten(ss[1..])
  }

  lemma {:induction false} FlattenAppend<T>(xs: seq<seq<T>>, ys: seq<seq<T>>)
    ensures Flatten(xs + ys) == Flatten(xs) + Flatten(ys)
  {
    if |xs| > 0 {
      assert (xs + ys)[1..] == xs[1..] + ys;
      FlattenAppend(xs[1..], ys);
    } else {
      assert xs + ys == ys;
    }
  }

  lemma ConcatAssoc<T>(x: seq<T>, y: seq<T>, z: seq<T>)
    ensures (x + y) + z == x + (y + z)
  {
  }
}
