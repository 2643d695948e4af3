/**
 * `ObjectManager` (src/object-manager.js): a collection of named objects
 * that remembers which keys it added, so that `purge` deletes exactly those.
 *
 * The class `ObjectManager` below is the manager as evidently intended.
 * As written, src/object-manager.js inherits from `EventEmitter` the
 * pre-class way (`EventEmitter.call(this)` and `merge` of its prototype),
 * but src/event-emitter.js declares `EventEmitter` with `class`; the
 * functions at the end of this module model that.
 */
module ObjectManagement {
  import opened Js
  import opened Merging

  /** The collection after deleting every key in `added`. */
  function Purged(items: map<string, Value>, added: seq<string>): (r: map<string, Value>)
    ensures forall k :: k in r <==> k in items && k !in added
    ensures forall k :: k in r ==> r[k] == items[k]
  {
    items - set k | k in added
  }

  class ObjectManager {
    var items: map<string, Value>
    var keys: seq<string>

    /** `collection || {}`: `None` stands for a falsy collection argument. */
    constructor(collection: Option<map<string, Value>>)
      ensures items == (if collection.Some? then collection.value else map[])
      ensures keys == []
    {
      items := if collection.Some? then collection.value else map[];
      keys := [];
    }

    /** `items[key]`, `undefined` when absent; nothing changes. */
    method Get(key: string) returns (v: Value)
      ensures key in items ==> v == items[key]
      ensures key !in items ==> v == Undefined
    {
      v := if key in items then items[key] else Undefined;
    }

    /** Sets `items[key]` and records `key` as added. */
    method Add(key: string, obj: Value)
      modifies this
      ensures items == old(items)[key := obj]
      ensures keys == old(keys) + [key]
    {
      items := items[key := obj];
      keys := keys + [key];
    }

    /** Deletes every recorded key, one after another, then forgets them. */
    method Purge()
      modifies this
      ensures items == Purged(old(items), old(keys))
      ensures keys == []
    {
      var i := 0;
      while i < |keys|
        invariant 0 <= i <= |keys|
        invariant keys == old(keys)
        invariant items == Purged(old(items), keys[..i])
      {
        assert keys[..i + 1] == keys[..i] + [keys[i]];
        items := items - {keys[i]};
        i := i + 1;
      }
      assert keys[..i] == keys;
      keys := [];
    }
  }

  /**
   * Entries of the initial collection that were never added survive a purge
   * unchanged, and every added key is gone afterwards.
   */
  lemma PurgeKeepsInitial(initial: map<string, Value>, added: seq<(string, Value)>)
    ensures var items := AddAll(initial, added);
            var purged := Purged(items, Keys(added));
            (forall k :: k in initial && k !in Keys(added) ==> k in purged && purged[k] == initial[k]) &&
            (forall i :: 0 <= i < |added| ==> added[i].0 !in purged)
  {
    AddAllKeeps(initial, added);
    forall i | 0 <= i < |added|
      ensures added[i].0 in Keys(added)
    {
      KeysHas(added, i);
    }
  }

  /** The collection after a series of `add` calls. */
  function AddAll(items: map<string, Value>, added: seq<(string, Value)>): map<string, Value>
  {
    if added == [] then items
    else AddAll(items, added[..|added| - 1])[added[|added| - 1].0 := added[|added| - 1].1]
  }

  /** The keys a series of `add` calls records. */
  function Keys(added: seq<(string, Value)>): (r: seq<string>)
    ensures |r| == |added|
  {
    if added == [] then [] else Keys(added[..|added| - 1]) + [added[|added| - 1].0]
  }

  lemma {:induction false} KeysHas(added: seq<(string, Value)>, i: nat)
    requires i < |added|
    ensures added[i].0 in Keys(added)
  {
    if i < |added| - 1 {
      KeysHas(added[..|added| - 1], i);
    }
  }

  lemma {:induction false} AddAllKeeps(items: map<string, Value>, added: seq<(string, Value)>)
    ensures forall k :: k in items && k !in Keys(added) ==> k in AddAll(items, added) && AddAll(items, added)[k] == items[k]
  {
    if added != [] {
      AddAllKeeps(items, added[..|added| - 1]);
    }
  }

  /** A manager that adds a series of entries ends up with `AddAll`/`Keys` of them. */
  method AddSeries(m: ObjectManager, added: seq<(string, Value)>)
    requires m.keys == []
    modifies m
    ensures m.items == AddAll(old(m.items), added)
    ensures m.keys == Keys(added)
  {
    for i := 0 to |added|
      invariant m.items == AddAll(old(m.items), added[..i])
      invariant m.keys == Keys(added[..i])
    {
      assert added[..i + 1][..i] == added[..i];
      m.Add(added[i].0, added[i].1);
    }
    assert added[..|added|] == added;
  }

  // ---------------------------------------------------------------------
  // As written

  /** How a constructor is declared: calling a `class` without `new` throws. */
  datatype Declaration = ClassDeclaration | FunctionDeclaration

  /** src/event-emitter.js:1 declares `EventEmitter` with `class`. */
  const EmitterDeclaration := ClassDeclaration

  function ClassCallMessage(name: string): string
  {
    "Class constructor " + name + " cannot be invoked without 'new'"
  }

  /** `Ctor.call(this)`: a function runs; a class constructor refuses to be called. */
  function CallWithoutNew(d: Declaration, name: string): (r: Result<()>)
    ensures r.Failure? <==> d == ClassDeclaration
    ensures r.Failure? ==> r.error.TypeError?
  {
    if d == ClassDeclaration then Failure(TypeError(ClassCallMessage(name)))
    else Success(())
  }

  /** A manager's state as plain values: its items and the keys it added. */
  datatype ManagerState = ManagerState(items: map<string, Value>, keys: seq<string>)

  /**
   * `new ObjectManager(collection)` as written, with `EventEmitter`
   * declared as `emitter`: `EventEmitter.call(this)` comes first.
   */
  function NewManagerAsWritten(emitter: Declaration, collection: Option<map<string, Value>>): (r: Result<ManagerState>)
  {
    match CallWithoutNew(emitter, "EventEmitter")
    case Failure(err) => Failure(err)
    case Success(_) => Success(ManagerState(if collection.Some? then collection.value else map[], []))
  }

  /**
   * With src/event-emitter.js's `class`, no manager is ever constructed:
   * every collection gives the same `TypeError`.  Declared as a function,
   * the emitter would give the intended initial state.
   */
  lemma NoManagerAsWritten(collection: Option<map<string, Value>>)
    ensures NewManagerAsWritten(EmitterDeclaration, collection)
            == Failure(TypeError(ClassCallMessage("EventEmitter")))
    ensures NewManagerAsWritten(FunctionDeclaration, collection)
            == Success(ManagerState(if collection.Some? then collection.value else map[], []))
  {
  }

  /**
   * `EventEmitter.prototype` as `for…in` sees it: the methods of a class
   * are not enumerable, so it offers nothing to copy.
   */
  const EmitterPrototype := Source(map[], map[])

  /**
   * `ObjectManager.prototype` after
   * `merge(ObjectManager.prototype, EventEmitter.prototype, methods)`.
   */
  function ManagerPrototype(methods: map<string, Value>): map<string, Value>
  {
    Merged(map[], [EmitterPrototype, Source(methods, map[])])
  }

  /** The merge copies none of the emitter's methods: `emit` is missing unless the manager defines it. */
  lemma ManagerPrototypeLacksEmit(methods: map<string, Value>)
    requires "emit" !in methods
    ensures "emit" !in ManagerPrototype(methods)
  {
    MergedSpec(map[], [EmitterPrototype, Source(methods, map[])], "emit");
  }

  /**
   * `add(key, object)` as written on a manager whose prototype is `proto`:
   * the item is set and the key recorded, then `this.emit('add', ...)`
   * throws when there is no `emit` to call, leaving the new state behind.
   */
  function AddAsWritten(m: ManagerState, proto: map<string, Value>, key: string, obj: Value): (r: (Result<()>, ManagerState))
  {
    var m' := ManagerState(m.items[key := obj], m.keys + [key]);
    if "emit" in proto && proto["emit"].Fn? then (Success(()), m')
    else (Failure(TypeError("this.emit is not a function")), m')
  }

  /**
   * Even past the constructor, `add` on the manager's own methods throws
   * after doing what the intended `Add` does.
   */
  lemma AddThrowsAfterUpdate(m: ManagerState, methods: map<string, Value>, key: string, obj: Value)
    requires "emit" !in methods
    ensures var (r, m') := AddAsWritten(m, ManagerPrototype(methods), key, obj);
            && r == Failure(TypeError("this.emit is not a function"))
            && m'.items == m.items[key := obj] && m'.keys == m.keys + [key]
  {
    ManagerPrototypeLacksEmit(methods);
  }
}
