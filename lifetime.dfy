/**
 * Lifetimes decide whether a resolved instance is reused.
 *
 * `MemoryLifetime` is a one-slot cache whose slot starts out `null`;
 * `TransientLifetime` never caches anything.  The two classes model the
 * objects of src/lifetime.ts and src/lifetime.js (identical in behaviour).
 *
 * The resolution engine keeps the slots of all its memory lifetimes in one
 * map from cell number to value (the JavaScript heap seen through the
 * lifetimes); `Lifetime`, `Fetch` and `Store` below are that view, and
 * `FetchAgrees`/`StoreAgrees` tie it to the classes.
 */
module Lifetimes {
  import opened Js

  class MemoryLifetime {
    var value: Value

    constructor()
      ensures value == Null
    {
      value := Null;
    }

    method Fetch() returns (v: Value)
      ensures v == value
    {
      v := value;
    }

    method Store(v: Value)
      modifies this
      ensures value == v
    {
      value := v;
    }
  }

  class TransientLifetime {
    constructor()
    {
    }

    /** Always `null`, whatever was stored. */
    method Fetch() returns (v: Value)
      ensures v == Null
    {
      v := Null;
    }

    /** Stores nothing: the method may modify no object at all. */
    method Store(v: Value)
    {
    }
  }

  /** A lifetime as the engine sees it: transient, or a memory slot held in a cell. */
  datatype Lifetime = Transient | Memory(cell: nat)

  /**
   * `lifetime.fetch()`: a transient lifetime yields `null`; a memory
   * lifetime yields what its cell holds, and a cell never written (a freshly
   * constructed `MemoryLifetime`) yields `null`.
   */
  function Fetch(l: Lifetime, cells: map<nat, Value>): (v: Value)
    ensures l.Transient? ==> v == Null
    ensures l.Memory? && l.cell !in cells ==> v == Null
    ensures l.Memory? && l.cell in cells ==> v == cells[l.cell]
  {
    match l
    case Transient => Null
    case Memory(c) => if c in cells then cells[c] else Null
  }

  /** `lifetime.store(v)`: only a memory lifetime's own cell changes. */
  function Store(l: Lifetime, cells: map<nat, Value>, v: Value): (r: map<nat, Value>)
    ensures l.Transient? ==> r == cells
    ensures l.Memory? ==> r.Keys == cells.Keys + {l.cell}
    ensures forall c :: c in cells && !(l.Memory? && l.cell == c) ==> c in r && r[c] == cells[c]
  {
    match l
    case Transient => cells
    case Memory(c) => cells[c := v]
  }

  /** Fetching right after a store gives the stored value (memory) or `null` (transient). */
  lemma FetchAfterStore(l: Lifetime, cells: map<nat, Value>, v: Value)
    ensures Fetch(l, Store(l, cells, v)) == if l.Memory? then v else Null
  {
  }

  /** A store into one lifetime is invisible to every lifetime with another cell. */
  lemma StoreIsolated(l: Lifetime, other: Lifetime, cells: map<nat, Value>, v: Value)
    requires !(l.Memory? && other.Memory? && l.cell == other.cell)
    ensures Fetch(other, Store(l, cells, v)) == Fetch(other, cells)
  {
  }

  /** The value-level view reads exactly what the class's `fetch` returns. */
  method FetchAgrees(m: MemoryLifetime, c: nat, cells: map<nat, Value>) returns (v: Value)
    requires c in cells && cells[c] == m.value
    ensures v == Fetch(Memory(c), cells)
  {
    v := m.Fetch();
  }

  /** ... and a class `store` followed by `fetch` agrees with `Store` then `Fetch`. */
  method StoreAgrees(m: MemoryLifetime, c: nat, cells: map<nat, Value>, x: Value) returns (v: Value)
    modifies m
    ensures v == Fetch(Memory(c), Store(Memory(c), cells, x))
  {
    m.Store(x);
    v := m.Fetch();
  }
}
