/**
 * The listener table of the event emitter (src/event-emitter.ts and
 * src/event-emitter.js, identical in behaviour).
 *
 * Listeners are opaque functions compared by identity; the model compares
 * them as `Function` values.  `emit` is modelled by the sequence of
 * listeners it invokes, in invocation order.
 */
module Events {
  import opened Js

  type Listener = Function

  /** The list stored under `name`, or the empty list a first access creates. */
  function ListOf(events: map<string, seq<Listener>>, name: string): seq<Listener>
  {
    if name in events then events[name] else []
  }

  /** `list.indexOf(x)`: the first position holding `x`, or -1. */
  function IndexOf(list: seq<Listener>, x: Listener): (i: int)
    ensures -1 <= i < |list|
    ensures i == -1 <==> x !in list
    ensures i >= 0 ==> list[i] == x && x !in list[..i]
  {
    if list == [] then -1
    else if list[0] == x then 0
    else
      var j := IndexOf(list[1..], x);
      assert list[1..][..if j < 0 then 0 else j] == list[1..if j < 0 then 1 else j + 1];
      if j == -1 then -1 else j + 1
  }

  /** The list after `off`: the first occurrence of `x` spliced out. */
  function RemoveFirst(list: seq<Listener>, x: Listener): seq<Listener>
  {
    var i := IndexOf(list, x);
    if i == -1 then list else list[..i] + list[i + 1..]
  }

  /**
   * `off` removes exactly one occurrence, the first one, and keeps the
   * order of the others; with the listener absent the list is unchanged.
   */
  lemma RemoveFirstSpec(list: seq<Listener>, x: Listener)
    ensures x !in list ==> RemoveFirst(list, x) == list
    ensures x in list ==> exists i :: 0 <= i < |list| && list[i] == x && x !in list[..i] &&
                                      RemoveFirst(list, x) == list[..i] + list[i + 1..]
    ensures multiset(RemoveFirst(list, x)) == multiset(list) - multiset{x}
  {
    var i := IndexOf(list, x);
    if i != -1 {
      assert list == list[..i] + [x] + list[i + 1..];
      calc {
        multiset(list);
        multiset(list[..i]) + multiset{x} + multiset(list[i + 1..]);
      }
    } else {
      assert multiset(list)[x] == 0;
    }
  }

  /** `on` then `off` of the same listener restores a list that did not hold it. */
  lemma OnThenOff(list: seq<Listener>, x: Listener)
    requires x !in list
    ensures RemoveFirst(list + [x], x) == list
  {
    assert (list + [x])[..|list|] == list;
  }

  class EventEmitter {
    var events: map<string, seq<Listener>>

    constructor()
      ensures events == map[]
    {
      events := map[];
    }

    /**
     * `listeners(name)`: creates the empty list on first access and returns
     * the stored list; a second call returns the same list.
     */
    method Listeners(name: string) returns (list: seq<Listener>)
      modifies this
      ensures name in events && list == events[name]
      ensures list == ListOf(old(events), name)
      ensures events == old(events)[name := list]
    {
      if name !in events {
        events := events[name := []];
      }
      list := events[name];
    }

    /** `on`: appends at the end of `name`'s list; other names are untouched. */
    method On(name: string, listener: Listener)
      modifies this
      ensures events == old(events)[name := ListOf(old(events), name) + [listener]]
    {
      var list := Listeners(name);
      events := events[name := list + [listener]];
    }

    /** `off`: splices out the first occurrence, if any; other names are untouched. */
    method Off(name: string, listener: Listener)
      modifies this
      ensures events == old(events)[name := RemoveFirst(ListOf(old(events), name), listener)]
    {
      var list := Listeners(name);
      var index := IndexOf(list, listener);
      if index != -1 {
        events := events[name := list[..index] + list[index + 1..]];
      }
    }

    /** `emit`: invokes the listeners of `name` one by one, in list order. */
    method Emit(name: string) returns (invoked: seq<Listener>)
      modifies this
      ensures invoked == ListOf(old(events), name)
      ensures events == old(events)[name := invoked]
    {
      var list := Listeners(name);
      invoked := [];
      for i := 0 to |list|
        invariant invoked == list[..i]
      {
        invoked := invoked + [list[i]];
      }
    }
  }
}
