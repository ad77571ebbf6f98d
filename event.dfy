/**
 * The publish-subscribe registry: per event type, the listeners in the
 * order they registered. Listeners are compared by identity, so they are
 * any type with equality; calling one is modelled by a caller-supplied
 * function saying whether the call raised.
 */
module Events {

  /** The listeners of one type, or none when the type is unknown. */
  function ListenersOf<L>(m: map<string, seq<L>>, t: string): seq<L>
  {
    if t in m then m[t] else []
  }

  /** Every registered type has at least one listener: unregister deletes a type whose list runs empty. */
  ghost predicate NoEmptyLists<L>(m: map<string, seq<L>>)
  {
    forall t :: t in m ==> m[t] != []
  }

  /** register: append the listener to its type's list, creating the list for a new type; duplicates are kept. */
  function Added<L>(m: map<string, seq<L>>, t: string, l: L): (r: map<string, seq<L>>)
    ensures NoEmptyLists(m) ==> NoEmptyLists(r)
    ensures r.Keys == m.Keys + {t}
    ensures forall u :: u in m && u != t ==> r[u] == m[u]
  {
    m[t := ListenersOf(m, t) + [l]]
  }

  /** list.remove: the list without its first occurrence of l, or unchanged when l is absent. */
  function RemoveFirst<L(==)>(s: seq<L>, l: L): (r: seq<L>)
    ensures l !in s ==> r == s
    ensures l in s ==> |r| == |s| - 1 && multiset(r) == multiset(s) - multiset{l}
  {
    if s == [] then []
    else
      assert s == [s[0]] + s[1..];
      if s[0] == l then s[1..] else [s[0]] + RemoveFirst(s[1..], l)
  }

  /**
   * unregister: for a known type, remove one occurrence of the listener if
   * present, then delete the type when its list is empty; an unknown type
   * is left alone.
   */
  function Removed<L(==)>(m: map<string, seq<L>>, t: string, l: L): (r: map<string, seq<L>>)
    ensures NoEmptyLists(r)  <== NoEmptyLists(m)
    ensures forall u :: u != t ==> (u in r <==> u in m) && (u in m ==> r[u] == m[u])
  {
    if t !in m then m
    else
      var rest := RemoveFirst(m[t], l);
      if rest == [] then m - {t} else m[t := rest]
  }

  /** get_listener_count: the length of the type's list, 0 for an unknown type. */
  function Count<L>(m: map<string, seq<L>>, t: string): nat
  {
    |ListenersOf(m, t)|
  }

  /** Registering adds one listener to its type and changes no other type's count. */
  lemma RegisterCount<L>(m: map<string, seq<L>>, t: string, l: L, u: string)
    ensures Count(Added(m, t, l), u) == Count(m, u) + (if u == t then 1 else 0)
  {
  }

  /**
   * Unregistering removes exactly one listener when it is registered for the
   * type and none otherwise, leaving every other type's count alone, and the
   * number of times l is registered drops by one.
   */
  lemma UnregisterCount<L>(m: map<string, seq<L>>, t: string, l: L, u: string)
    ensures Count(Removed(m, t, l), u) == Count(m, u) - (if u == t && l in ListenersOf(m, t) then 1 else 0)
    ensures multiset(ListenersOf(Removed(m, t, l), t)) == multiset(ListenersOf(m, t)) - multiset{l}
  {
    if t in m {
      var rest := RemoveFirst(m[t], l);
      if rest == [] {
        assert multiset(rest) == multiset{};
      }
    }
  }

  /** Unregistering a listener right after its first registration for a type restores the registry. */
  lemma RegisterThenUnregister<L>(m: map<string, seq<L>>, t: string, l: L)
    requires (t in m ==> m[t] != []) && l !in ListenersOf(m, t)
    ensures Removed(Added(m, t, l), t, l) == m
  {
    if t in m {
      RemoveAgain(m, t, l);
    } else {
      RemoveOnly(m, t, l);
    }
  }

  lemma RemoveOnly<L>(m: map<string, seq<L>>, t: string, l: L)
    requires t !in m
    ensures Removed(m[t := [l]], t, l) == m
  {
    assert m[t := [l]] - {t} == m;
  }

  lemma RemoveAgain<L>(m: map<string, seq<L>>, t: string, l: L)
    requires t in m && m[t] != [] && l !in m[t]
    ensures Removed(m[t := m[t] + [l]], t, l) == m
  {
    RemoveLast(m[t], l);
    assert m[t := m[t] + [l]][t := m[t]] == m;
  }

  /** Removing an element that occurs only at the end gives the rest back. */
  lemma {:induction false} RemoveLast<L>(s: seq<L>, l: L)
    requires l !in s
    ensures RemoveFirst(s + [l], l) == s
  {
    if s != [] {
      assert (s + [l])[1..] == s[1..] + [l];
      RemoveLast(s[1..], l);
      assert s == [s[0]] + s[1..];
    }
  }

  /** One listener call: who was called and whether the call raised. */
  datatype Call<L> = Call(listener: L, raised: bool)

  /** Who was called, in order. */
  function Callees<L>(calls: seq<Call<L>>): (r: seq<L>)
    ensures |r| == |calls|
  {
    seq(|calls|, i requires 0 <= i < |calls| => calls[i].listener)
  }

  /** The calls emit makes: every listener of the type, in registration order, whatever the earlier ones did. */
  function Deliveries<L, E>(ls: seq<L>, e: E, raises: (L, E) -> bool): (r: seq<Call<L>>)
    ensures Callees(r) == ls
    ensures forall i :: 0 <= i < |r| ==> r[i].raised == raises(ls[i], e)
  {
    seq(|ls|, i requires 0 <= i < |ls| => Call(ls[i], raises(ls[i], e)))
  }

  class EventManager<L(==)> {
    var eventListeners: map<string, seq<L>>

    ghost predicate Valid()
      reads this
    {
      NoEmptyLists(eventListeners)
    }

    constructor ()
      ensures Valid() && eventListeners == map[]
    {
      eventListeners := map[];
    }

    method Register(t: string, l: L)
      requires Valid()
      modifies this
      ensures Valid() && eventListeners == Added(old(eventListeners), t, l)
    {
      if t !in eventListeners {
        eventListeners := eventListeners[t := []];
      }
      eventListeners := eventListeners[t := eventListeners[t] + [l]];
    }

    method Unregister(t: string, l: L)
      requires Valid()
      modifies this
      ensures Valid() && eventListeners == Removed(old(eventListeners), t, l)
    {
      if t in eventListeners {
        var ls := eventListeners[t];
        if l in ls {
          ls := RemoveFirst(ls, l);
          eventListeners := eventListeners[t := ls];
        }
        if ls == [] {
          eventListeners := eventListeners - {t};
        }
      }
    }

    /**
     * emit: call each listener of the event's type in turn; a listener that
     * raises is logged and the loop goes on. The calls made are returned.
     */
    method Emit<E>(t: string, e: E, raises: (L, E) -> bool) returns (calls: seq<Call<L>>)
      ensures calls == Deliveries(ListenersOf(eventListeners, t), e, raises)
      ensures t !in eventListeners ==> calls == []
    {
      calls := [];
      if t !in eventListeners {
        return;
      }
      var ls := eventListeners[t];
      var i := 0;
      while i < |ls|
        invariant 0 <= i <= |ls|
        invariant calls == Deliveries(ls[..i], e, raises)
      {
        calls := calls + [Call(ls[i], raises(ls[i], e))];
        i := i + 1;
        assert ls[..i] == ls[..i - 1] + [ls[i - 1]];
      }
      assert ls[..i] == ls;
    }

    method Clear()
      modifies this
      ensures Valid() && eventListeners == map[]
    {
      eventListeners := map[];
    }

    method GetListenerCount(t: string) returns (n: nat)
      ensures n == Count(eventListeners, t)
    {
      n := if t in eventListeners then |eventListeners[t]| else 0;
    }
  }
}
