/**
 * `getParams` (src/object-builder.ts, src/object-builder.js, src/builder.js):
 * the constructor parameters sorted in place by ascending `position`, with a
 * comparator that reports equal positions as equal.
 *
 * `Array.prototype.sort` is stable, and a stable sort under a consistent
 * comparator has exactly one possible outcome, so the outcome is specified by
 * the stable insertion sort `SortArgs`; the in-place method `GetParams` is an
 * insertion sort over the array and is proved to produce it.
 */
module ObjectBuilding {
  import opened Js
  import opened Signatures

  predicate SortedByPosition(s: seq<Argument>)
  {
    forall i, j :: 0 <= i < j < |s| ==> s[i].position <= s[j].position
  }

  /** `x` placed after every element whose position is not greater than its own. */
  function Insert(s: seq<Argument>, x: Argument): (r: seq<Argument>)
    ensures |r| == |s| + 1
  {
    if s == [] || s[|s| - 1].position <= x.position then s + [x]
    else Insert(s[..|s| - 1], x) + [s[|s| - 1]]
  }

  /** The stable sort by ascending position. */
  function SortArgs(s: seq<Argument>): (r: seq<Argument>)
    ensures |r| == |s|
  {
    if s == [] then [] else Insert(SortArgs(s[..|s| - 1]), s[|s| - 1])
  }

  lemma {:induction false} InsertPermutes(s: seq<Argument>, x: Argument)
    ensures multiset(Insert(s, x)) == multiset(s) + multiset{x}
  {
    if !(s == [] || s[|s| - 1].position <= x.position) {
      var n := |s| - 1;
      InsertPermutes(s[..n], x);
      assert Insert(s, x) == Insert(s[..n], x) + [s[n]];
      assert s == s[..n] + [s[n]];
    }
  }

  /** A bound on every position survives an insertion of an element within it. */
  lemma {:induction false} InsertBounded(s: seq<Argument>, x: Argument, b: int)
    requires forall k :: 0 <= k < |s| ==> s[k].position <= b
    requires x.position <= b
    ensures forall k :: 0 <= k < |Insert(s, x)| ==> Insert(s, x)[k].position <= b
  {
    if !(s == [] || s[|s| - 1].position <= x.position) {
      var n := |s| - 1;
      InsertBounded(s[..n], x, b);
      assert Insert(s, x) == Insert(s[..n], x) + [s[n]];
    }
  }

  lemma {:induction false} InsertSorted(s: seq<Argument>, x: Argument)
    requires SortedByPosition(s)
    ensures SortedByPosition(Insert(s, x))
  {
    if !(s == [] || s[|s| - 1].position <= x.position) {
      var n := |s| - 1;
      assert SortedByPosition(s[..n]);
      InsertSorted(s[..n], x);
      InsertBounded(s[..n], x, s[n].position);
      assert Insert(s, x) == Insert(s[..n], x) + [s[n]];
    }
  }

  /** The sort yields its input's elements, ordered by position. */
  lemma {:induction false} SortArgsSpec(s: seq<Argument>)
    ensures SortedByPosition(SortArgs(s))
    ensures multiset(SortArgs(s)) == multiset(s)
  {
    if s != [] {
      var n := |s| - 1;
      SortArgsSpec(s[..n]);
      assert SortArgs(s) == Insert(SortArgs(s[..n]), s[n]);
      InsertSorted(SortArgs(s[..n]), s[n]);
      InsertPermutes(SortArgs(s[..n]), s[n]);
      assert s == s[..n] + [s[n]];
    }
  }

  /** Already sorted parameters are left exactly as they are. */
  lemma {:induction false} SortedUnchanged(s: seq<Argument>)
    requires SortedByPosition(s)
    ensures SortArgs(s) == s
  {
    if s != [] {
      var n := |s| - 1;
      assert SortedByPosition(s[..n]);
      SortedUnchanged(s[..n]);
      assert s[..n] + [s[n]] == s;
    }
  }

  /**
   * Parameters parsed from a signature come in increasing position order,
   * so sorting them changes nothing.
   */
  lemma ParsedArgsUnchanged(signature: string)
    ensures SortArgs(Args(signature)) == Args(signature)
  {
    if signature != "" {
      ParsedAtOwnIndex(Split(signature, ','));
      CollectIncreasing(Parsed(Split(signature, ',')));
    }
    SortedUnchanged(Args(signature));
  }

  /** Inserting `x` where the elements before are no greater and the elements after are greater. */
  lemma {:induction false} InsertAt(s: seq<Argument>, x: Argument, j: nat)
    requires j <= |s|
    requires j == 0 || s[j - 1].position <= x.position
    requires forall k :: j <= k < |s| ==> s[k].position > x.position
    ensures Insert(s, x) == s[..j] + [x] + s[j..]
  {
    if j == |s| {
      assert s[..j] == s && s[j..] == [];
    } else {
      var n := |s| - 1;
      InsertAt(s[..n], x, j);
      assert s[..n][..j] == s[..j];
      assert s[..n][j..] + [s[n]] == s[j..];
    }
  }

  /** One step of the sort: `a[i]` moved down into the sorted prefix `a[..i]`. */
  method InsertInto(a: array<Argument>, i: nat)
    requires i < a.Length
    modifies a
    ensures a[..i + 1] == Insert(old(a[..i]), old(a[i]))
    ensures a[i + 1..] == old(a[i + 1..])
  {
    ghost var prefix := a[..i];
    var x := a[i];
    var j := i;
    while j > 0 && a[j - 1].position > x.position
      invariant 0 <= j <= i
      invariant forall k :: 0 <= k < j ==> a[k] == prefix[k]
      invariant forall k :: j < k <= i ==> a[k] == prefix[k - 1]
      invariant forall k :: i < k < a.Length ==> a[k] == old(a[k])
      invariant forall k :: j <= k < i ==> prefix[k].position > x.position
    {
      a[j] := a[j - 1];
      j := j - 1;
    }
    a[j] := x;
    InsertAt(prefix, x, j);
    Shifted(a[..i + 1], prefix, x, j);
  }

  /** The array after the shifting loop: the prefix with `x` placed at `j`. */
  lemma Shifted(s: seq<Argument>, prefix: seq<Argument>, x: Argument, j: nat)
    requires |s| == |prefix| + 1 && j <= |prefix|
    requires forall k :: 0 <= k < j ==> s[k] == prefix[k]
    requires s[j] == x
    requires forall k :: j < k < |s| ==> s[k] == prefix[k - 1]
    ensures s == prefix[..j] + [x] + prefix[j..]
  {
  }

  /** `getParams`: an insertion sort of the array, in place. */
  method GetParams(a: array<Argument>)
    modifies a
    ensures a[..] == SortArgs(old(a[..]))
  {
    ghost var input := a[..];
    for i := 0 to a.Length
      invariant a[..i] == SortArgs(input[..i])
      invariant a[i..] == input[i..]
    {
      assert a[i] == input[i];
      InsertInto(a, i);
      assert input[..i + 1][..i] == input[..i];
      assert SortArgs(input[..i + 1]) == Insert(SortArgs(input[..i]), input[i]);
    }
    assert input[..a.Length] == input;
  }
}
