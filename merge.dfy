/**
 * `merge(obj, ...others)` (src/merge.js): copies the own enumerable
 * properties of each later argument onto the first, in argument order, and
 * returns the first argument (a fresh `{}` when it is falsy).
 */
module Merging {
  import opened Js

  /** A mutable JavaScript object, reduced to its own properties. */
  class JsObject {
    var props: map<string, Value>

    constructor()
      ensures props == map[]
    {
      props := map[];
    }
  }

  /**
   * A later argument as `for…in` sees it: its own enumerable properties and
   * the enumerable properties it inherits.  `null`/`undefined` arguments are
   * sources with neither.
   */
  datatype Source = Source(own: map<string, Value>, inherited: map<string, Value>)

  /** The properties after copying from `others` in order: later sources overwrite earlier ones. */
  function Merged(base: map<string, Value>, others: seq<Source>): map<string, Value>
  {
    if others == [] then base
    else Merged(base, others[..|others| - 1]) + others[|others| - 1].own
  }

  /** The index of the last source owning `k`, if any. */
  function LastOwner(others: seq<Source>, k: string): (r: Option<nat>)
    ensures r.Some? ==> r.value < |others| && k in others[r.value].own &&
                        forall j :: r.value < j < |others| ==> k !in others[j].own
    ensures r.None? ==> forall j :: 0 <= j < |others| ==> k !in others[j].own
  {
    if others == [] then None
    else if k in others[|others| - 1].own then Some(|others| - 1)
    else LastOwner(others[..|others| - 1], k)
  }

  /**
   * Last writer wins: a key owned by some later argument gets the value of
   * the last one owning it; every other key keeps its original value, and
   * inherited properties never appear.
   */
  lemma {:induction false} MergedSpec(base: map<string, Value>, others: seq<Source>, k: string)
    ensures var r := Merged(base, others);
            match LastOwner(others, k)
            case Some(j) => k in r && r[k] == others[j].own[k]
            case None => (k in r <==> k in base) && (k in base ==> r[k] == base[k])
  {
    if others != [] {
      MergedSpec(base, others[..|others| - 1], k);
    }
  }

  /** `merge` as written: nested loops writing each own key of each later argument. */
  method Merge(obj: JsObject?, others: seq<Source>) returns (original: JsObject)
    modifies obj
    ensures obj != null ==> original == obj
    ensures obj == null ==> fresh(original)
    ensures original.props == Merged(if obj != null then old(obj.props) else map[], others)
  {
    if obj != null {
      original := obj;
    } else {
      original := new JsObject();
    }
    ghost var base := original.props;
    for i := 0 to |others|
      invariant original.props == Merged(base, others[..i])
    {
      assert others[..i + 1][..i] == others[..i];
      CopyOwn(original, others[i]);
    }
    assert others[..|others|] == others;
  }

  /** The inner loop: every key `for…in` yields, copied when it is the source's own. */
  method CopyOwn(target: JsObject, other: Source)
    modifies target
    ensures target.props == old(target.props) + other.own
  {
    var pending := other.own.Keys + other.inherited.Keys;
    while pending != {}
      invariant pending <= other.own.Keys + other.inherited.Keys
      invariant target.props == old(target.props) + map k | k in other.own && k !in pending :: other.own[k]
      decreases pending
    {
      var key :| key in pending;
      if key in other.own {
        target.props := target.props[key := other.own[key]];
      }
      pending := pending - {key};
    }
    assert (map k | k in other.own && k !in pending :: other.own[k]) == other.own;
  }
}
