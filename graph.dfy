/**
 * The dependency graph the container keeps to refuse cyclic registrations:
 * a directed graph of named vertices, Tarjan's strongly connected components,
 * cycle detection with its error message, a depth-first listing of
 * descendants and cloning.
 *
 * A vertex object of the source is a position in `names`; its `successors`
 * array is the list of positions `succ[i]`, in the order the source stores
 * them.  The per-vertex traversal marks (`index`, `lowLink`, `onStack`,
 * `visited`) are reset at the start of every traversal, so they are arrays
 * local to the traversal here.
 */
module DependencyGraph {
  import opened Js

  /** The value of a graph: vertex names in insertion order, successor positions per vertex. */
  datatype Digraph = Digraph(names: seq<string>, succ: seq<seq<nat>>)

  /** The second argument of `add`: a list of keys, or one key standing alone. */
  datatype Dependencies = List(keys: seq<string>) | Single(key: string)

  function AsList(d: Dependencies): (r: seq<string>)
    ensures d.Single? ==> r == [d.key]
  {
    match d
    case List(keys) => keys
    case Single(key) => [key]
  }

  predicate Distinct<T(==)>(s: seq<T>)
  {
    forall i, j :: 0 <= i < j < |s| ==> s[i] != s[j]
  }

  /** Every successor position is below `n`. */
  predicate Bounded(succ: seq<seq<nat>>, n: nat)
  {
    forall i, j :: 0 <= i < |succ| && 0 <= j < |succ[i]| ==> succ[i][j] < n
  }

  predicate WellFormed(g: Digraph)
  {
    && |g.names| == |g.succ|
    && Distinct(g.names)
    && Bounded(g.succ, |g.names|)
  }

  /** The position of the vertex named `key`. */
  function IndexOf(names: seq<string>, key: string): (i: nat)
    requires key in names
    ensures i < |names| && names[i] == key
  {
    if names[0] == key then 0
    else
      1 + IndexOf(names[1..], key)
  }

  /** `IndexOf` finds the first occurrence of the key. */
  lemma {:induction false} IndexOfFirst(names: seq<string>, key: string)
    requires key in names
    ensures key !in names[..IndexOf(names, key)]
  {
    if names[0] != key {
      IndexOfFirst(names[1..], key);
      assert names[..IndexOf(names, key)] == [names[0]] + names[1..][..IndexOf(names[1..], key)];
    }
  }

  /** In a list of distinct names a name sits at one position only. */
  lemma IndexOfDistinct(names: seq<string>, i: nat)
    requires Distinct(names) && i < |names|
    ensures IndexOf(names, names[i]) == i
  {
  }

  /** The names of the successors of the vertex at position `i`, in stored order. */
  function Targets(g: Digraph, i: nat): (r: seq<string>)
    requires WellFormed(g) && i < |g.names|
    ensures |r| == |g.succ[i]|
  {
    seq(|g.succ[i]|, j requires 0 <= j < |g.succ[i]| => g.names[g.succ[i][j]])
  }

  /** The names of the successors of the vertex named `key`. */
  function SuccessorNames(g: Digraph, key: string): seq<string>
    requires WellFormed(g) && key in g.names
  {
    Targets(g, IndexOf(g.names, key))
  }

  // ---------------------------------------------------------------- add

  /** `add` creates a vertex with no successors for a name it does not know yet. */
  function WithVertex(names: seq<string>, key: string): seq<string>
  {
    if key in names then names else names + [key]
  }

  /** The vertex list once `add` has created a placeholder for each dependency, in order. */
  function WithPlaceholders(names: seq<string>, deps: seq<string>): seq<string>
  {
    if deps == [] then names
    else WithVertex(WithPlaceholders(names, deps[..|deps| - 1]), deps[|deps| - 1])
  }

  /**
   * Creating placeholders keeps the existing vertices where they are, makes
   * every dependency a vertex, adds nothing else, and never duplicates a name.
   */
  lemma {:induction false} WithPlaceholdersSpec(names: seq<string>, deps: seq<string>)
    ensures var r := WithPlaceholders(names, deps);
      && |names| <= |r| && r[..|names|] == names
      && (forall d :: d in deps ==> d in r)
      && (forall x :: x in r ==> x in names || x in deps)
      && (Distinct(names) ==> Distinct(r))
  {
    if deps != [] {
      WithPlaceholdersSpec(names, deps[..|deps| - 1]);
      assert forall d :: d in deps ==> d in deps[..|deps| - 1] || d == deps[|deps| - 1];
    }
  }

  /** The successor lists of `n` fresh placeholder vertices. */
  function Empties(n: nat): (r: seq<seq<nat>>)
    ensures |r| == n && forall i :: 0 <= i < n ==> r[i] == []
  {
    seq(n, _ => [])
  }

  /** The vertex list after `add(key, deps)`. */
  function AddedNames(names: seq<string>, key: string, deps: seq<string>): (r: seq<string>)
    ensures |names| <= |r|
    ensures key in r && forall d :: d in deps ==> d in r
  {
    WithPlaceholdersSpec(names, deps);
    WithVertex(WithPlaceholders(names, deps), key)
  }

  /** `add` keeps the existing vertices where they are, adds only the key and dependencies, and never a name twice. */
  lemma AddedNamesSpec(names: seq<string>, key: string, deps: seq<string>)
    ensures var r := AddedNames(names, key, deps);
      && r[..|names|] == names
      && (forall x :: x in r ==> x in names || x == key || x in deps)
      && (Distinct(names) ==> Distinct(r))
  {
    WithPlaceholdersSpec(names, deps);
  }

  /** The positions, in `names`, of the dependencies. */
  function Positions(names: seq<string>, deps: seq<string>): (r: seq<nat>)
    requires forall d :: d in deps ==> d in names
    ensures |r| == |deps|
    ensures forall j :: 0 <= j < |deps| ==> r[j] < |names| && names[r[j]] == deps[j]
  {
    seq(|deps|, j requires 0 <= j < |deps| => IndexOf(names, deps[j]))
  }

  /**
   * The graph after `add(key, deps)`: a placeholder vertex for every
   * dependency not yet known, then the vertex `key` if it is not known, and
   * the successors of `key` replaced by the dependencies in reverse order.
   */
  function Added(g: Digraph, key: string, deps: seq<string>): Digraph
    requires WellFormed(g)
  {
    var names := AddedNames(g.names, key, deps);
    var succ := g.succ + Empties(|names| - |g.names|);
    var k := IndexOf(names, key);
    Digraph(names, succ[k := Reverse(Positions(names, deps))])
  }

  /** Positions in a list of distinct names are determined by the names. */
  lemma PositionsUnique(names: seq<string>, deps: seq<string>, positions: seq<nat>)
    requires Distinct(names)
    requires |positions| == |deps|
    requires forall j :: 0 <= j < |deps| ==> positions[j] < |names| && names[positions[j]] == deps[j]
    ensures forall d :: d in deps ==> d in names
    ensures Positions(names, deps) == positions
  {
    forall j | 0 <= j < |deps|
      ensures Positions(names, deps)[j] == positions[j]
    {
      IndexOfDistinct(names, positions[j]);
    }
  }

  /** The steps `add` takes arrive at `Added`. */
  lemma AddedFromSteps(g: Digraph, key: string, deps: seq<string>,
                       names: seq<string>, succ: seq<seq<nat>>, positions: seq<nat>, k: nat)
    requires WellFormed(g)
    requires names == AddedNames(g.names, key, deps)
    requires succ == g.succ + Empties(|names| - |g.names|)
    requires k < |names| && names[k] == key
    requires |positions| == |deps|
    requires forall j :: 0 <= j < |deps| ==> positions[j] < |names| && names[positions[j]] == deps[j]
    ensures Added(g, key, deps) == Digraph(names, succ[k := Reverse(positions)])
  {
    AddedIndex(g.names, key, deps, k);
    AddedPositions(g.names, key, deps, positions);
    AddedAt(g, key, deps, k, positions);
  }

  /** Positions among the names after `add` that name the dependencies are theirs. */
  lemma AddedPositions(names: seq<string>, key: string, deps: seq<string>, positions: seq<nat>)
    requires Distinct(names) && |positions| == |deps|
    requires forall j :: 0 <= j < |deps| ==> positions[j] < |AddedNames(names, key, deps)| &&
                                             AddedNames(names, key, deps)[positions[j]] == deps[j]
    ensures Positions(AddedNames(names, key, deps), deps) == positions
  {
    AddedNamesSpec(names, key, deps);
    PositionsUnique(AddedNames(names, key, deps), deps, positions);
  }

  /** `Added` with the index of the key and the positions of the dependencies already known. */
  lemma AddedAt(g: Digraph, key: string, deps: seq<string>, k: nat, positions: seq<nat>)
    requires WellFormed(g)
    requires IndexOf(AddedNames(g.names, key, deps), key) == k
    requires Positions(AddedNames(g.names, key, deps), deps) == positions
    ensures Added(g, key, deps) ==
            Digraph(AddedNames(g.names, key, deps),
                    (g.succ + Empties(|AddedNames(g.names, key, deps)| - |g.names|))[k := Reverse(positions)])
  {
  }

  lemma AddedIndex(names: seq<string>, key: string, deps: seq<string>, k: nat)
    requires Distinct(names)
    requires k < |AddedNames(names, key, deps)| && AddedNames(names, key, deps)[k] == key
    ensures IndexOf(AddedNames(names, key, deps), key) == k
  {
    AddedNamesSpec(names, key, deps);
    IndexOfDistinct(AddedNames(names, key, deps), k);
  }

  lemma AddedWellFormed(g: Digraph, key: string, deps: seq<string>)
    requires WellFormed(g)
    ensures WellFormed(Added(g, key, deps))
  {
    AddedLengths(g, key, deps);
    AddedDistinct(g, key, deps);
    AddedBounded(g, key, deps);
  }

  lemma AddedLengths(g: Digraph, key: string, deps: seq<string>)
    requires WellFormed(g)
    ensures |Added(g, key, deps).names| == |Added(g, key, deps).succ|
  {
  }

  lemma AddedDistinct(g: Digraph, key: string, deps: seq<string>)
    requires WellFormed(g)
    ensures Distinct(Added(g, key, deps).names)
  {
    AddedNamesSpec(g.names, key, deps);
  }

  lemma AddedBounded(g: Digraph, key: string, deps: seq<string>)
    requires WellFormed(g)
    ensures Bounded(Added(g, key, deps).succ, |Added(g, key, deps).names|)
  {
    var names := AddedNames(g.names, key, deps);
    var positions := Positions(names, deps);
    var base := g.succ + Empties(|names| - |g.names|);
    BoundedReverse(positions, |names|);
    BoundedPlaceholders(g.succ, |names| - |g.names|, |names|);
    BoundedUpdate(base, IndexOf(names, key), Reverse(positions), |names|);
  }

  lemma BoundedReverse(s: seq<nat>, n: nat)
    requires forall j :: 0 <= j < |s| ==> s[j] < n
    ensures forall j :: 0 <= j < |s| ==> Reverse(s)[j] < n
  {
  }

  lemma BoundedPlaceholders(succ: seq<seq<nat>>, m: nat, n: nat)
    requires Bounded(succ, n)
    ensures Bounded(succ + Empties(m), n)
  {
    var r := succ + Empties(m);
    forall i, j | 0 <= i < |r| && 0 <= j < |r[i]|
      ensures r[i][j] < n
    {
      if i < |succ| {
        assert r[i] == succ[i];
      }
    }
  }

  lemma BoundedUpdate(succ: seq<seq<nat>>, k: nat, s: seq<nat>, n: nat)
    requires Bounded(succ, n) && k < |succ|
    requires forall j :: 0 <= j < |s| ==> s[j] < n
    ensures Bounded(succ[k := s], n)
  {
  }

  /** After `add(key, deps)` the key's successors are the dependencies, last one first. */
  lemma AddedKeySuccessors(g: Digraph, key: string, deps: seq<string>)
    requires WellFormed(g)
    ensures WellFormed(Added(g, key, deps))
    ensures SuccessorNames(Added(g, key, deps), key) == Reverse(deps)
  {
    AddedWellFormed(g, key, deps);
    var r := Added(g, key, deps);
    var k := IndexOf(r.names, key);
    assert r.succ[k] == Reverse(Positions(r.names, deps));
    assert Targets(r, k) == Reverse(deps);
  }

  /** After `add(key, deps)` any other existing vertex keeps its successors. */
  lemma AddedOtherSuccessors(g: Digraph, key: string, deps: seq<string>, x: string)
    requires WellFormed(g) && x in g.names && x != key
    ensures WellFormed(Added(g, key, deps))
    ensures x in Added(g, key, deps).names
    ensures SuccessorNames(Added(g, key, deps), x) == SuccessorNames(g, x)
  {
    AddedWellFormed(g, key, deps);
    var r := Added(g, key, deps);
    var i := IndexOf(g.names, x);
    AddedNamesSpec(g.names, key, deps);
    assert r.names[i] == g.names[i];
    IndexOfDistinct(r.names, i);
    assert r.succ[i] == g.succ[i];
  }

  /**
   * `add(key, deps)` makes every dependency and the key a vertex, adds no
   * other vertex and keeps the existing ones where they are; the key's
   * successors become the dependencies, last one first; every other vertex
   * keeps its successors, and the new ones have none.
   */
  lemma AddSpec(g: Digraph, key: string, deps: seq<string>)
    requires WellFormed(g)
    ensures WellFormed(Added(g, key, deps))
    ensures var r := Added(g, key, deps);
      && |g.names| <= |r.names| && r.names[..|g.names|] == g.names
      && key in r.names && (forall d :: d in deps ==> d in r.names)
      && (forall x :: x in r.names ==> x in g.names || x == key || x in deps)
      && SuccessorNames(r, key) == Reverse(deps)
      && (forall x :: x in g.names && x != key ==> SuccessorNames(r, x) == SuccessorNames(g, x))
      && (forall i :: |g.names| <= i < |r.names| && r.names[i] != key ==> r.succ[i] == [])
  {
    AddedNamesSpec(g.names, key, deps);
    AddedKeySuccessors(g, key, deps);
    forall x | x in g.names && x != key
      ensures SuccessorNames(Added(g, key, deps), x) == SuccessorNames(g, x)
    {
      AddedOtherSuccessors(g, key, deps, x);
    }
  }

  // ---------------------------------------------------------------- components

  /** The components, concatenated. */
  function Flatten(comps: seq<seq<nat>>): seq<nat>
  {
    if comps == [] then [] else Flatten(comps[..|comps| - 1]) + comps[|comps| - 1]
  }

  /** Every vertex of an `n`-vertex graph lies in exactly one component, once. */
  ghost predicate IsPartition(comps: seq<seq<nat>>, n: nat)
  {
    && (forall x: nat :: multiset(Flatten(comps))[x] == if x < n then 1 else 0)
    && (forall c :: c in comps ==> c != [])
  }

  /** The components of more than one vertex: the cycles `getCycles` reports. */
  function Cycles(comps: seq<seq<nat>>): (r: seq<seq<nat>>)
    ensures forall c :: c in r <==> c in comps && |c| > 1
    ensures |r| <= |comps|
  {
    if comps == [] then []
    else
      var rest := Cycles(comps[..|comps| - 1]);
      var last := comps[|comps| - 1];
      assert forall c :: c in comps <==> c in comps[..|comps| - 1] || c == last;
      if |last| > 1 then rest + [last] else rest
  }

  /** Every component holds positions below `n`. */
  predicate Within(comps: seq<seq<nat>>, n: nat)
  {
    forall i, j :: 0 <= i < |comps| && 0 <= j < |comps[i]| ==> comps[i][j] < n
  }

  lemma {:induction false} FlattenHolds(comps: seq<seq<nat>>, i: nat, j: nat)
    requires i < |comps| && j < |comps[i]|
    ensures comps[i][j] in Flatten(comps)
  {
    if i < |comps| - 1 {
      FlattenHolds(comps[..|comps| - 1], i, j);
    }
  }

  /** The components of a partition of `n` vertices, and its cycles, hold positions below `n`. */
  lemma PartitionWithin(comps: seq<seq<nat>>, n: nat)
    requires IsPartition(comps, n)
    ensures Within(comps, n) && Within(Cycles(comps), n)
  {
    forall i, j | 0 <= i < |comps| && 0 <= j < |comps[i]|
      ensures comps[i][j] < n
    {
      FlattenHolds(comps, i, j);
      assert multiset(Flatten(comps))[comps[i][j]] > 0;
    }
    var cycles := Cycles(comps);
    forall i, j | 0 <= i < |cycles| && 0 <= j < |cycles[i]|
      ensures cycles[i][j] < n
    {
      assert cycles[i] in comps;
      var k :| 0 <= k < |comps| && comps[k] == cycles[i];
    }
  }

  /** The names of the vertices of each component. */
  function ComponentNames(g: Digraph, comps: seq<seq<nat>>): (r: seq<seq<string>>)
    requires Within(comps, |g.names|)
    ensures |r| == |comps|
    ensures forall i :: 0 <= i < |comps| ==> |r[i]| == |comps[i]|
  {
    seq(|comps|, i requires 0 <= i < |comps| =>
      seq(|comps[i]|, j requires 0 <= j < |comps[i]| => g.names[comps[i][j]]))
  }

  /** One line of the cycle report: the cycle's names, closed by its first name again. */
  function CycleLine(names: seq<string>): string
    requires names != []
  {
    "  " + Join(names, " -> ") + " -> " + names[0]
  }

  /** The message of the error `addAndVerify` throws for the given cycles. */
  function CycleMessage(cycles: seq<seq<string>>): string
    requires forall i :: 0 <= i < |cycles| ==> cycles[i] != []
  {
    "Detected " + NatToString(|cycles|) + " cycle" + (if |cycles| == 1 then "" else "s") + ":"
    + "\n" + Join(seq(|cycles|, i requires 0 <= i < |cycles| => CycleLine(cycles[i])), "\n")
  }

  /** The report for a single two-vertex cycle, as the container's tests expect it. */
  lemma TwoVertexCycleMessage(a: string, b: string)
    ensures CycleMessage([[a, b]]) == "Detected 1 cycle:\n  " + a + " -> " + b + " -> " + a
  {
    var lines := seq(1, i requires 0 <= i < 1 => CycleLine([[a, b]][i]));
    assert lines == [CycleLine([a, b])];
    assert Join([a, b], " -> ") == Join([a], " -> ") + " -> " + b;
    assert NatToString(1) == "1";
  }

  /** The report for a single cycle through the vertices at `a` and `b`. */
  lemma TwoVertexCycleReport(g: Digraph, a: nat, b: nat)
    requires a < |g.names| && b < |g.names|
    ensures Cycles([[a, b]]) == [[a, b]]
    ensures CycleMessage(ComponentNames(g, [[a, b]])) ==
            "Detected 1 cycle:\n  " + g.names[a] + " -> " + g.names[b] + " -> " + g.names[a]
  {
    assert Cycles([[a, b]][..0]) == [];
    var r := ComponentNames(g, [[a, b]]);
    assert r[0] == [g.names[a], g.names[b]];
    assert r == [[g.names[a], g.names[b]]];
    TwoVertexCycleMessage(g.names[a], g.names[b]);
  }

  /** The outcome of `addAndVerify`. */
  datatype Verdict = Acyclic | Cyclic(message: string, cycles: seq<seq<nat>>)

  // ---------------------------------------------------------------- Tarjan's invariant

  /**
   * What holds between the steps of Tarjan's traversal of an `n`-vertex
   * graph: numbered vertices have an index below the counter and a low link
   * no larger than their index; the on-stack marks agree with the stack;
   * every numbered vertex lies exactly once in the found components or on
   * the stack; and no component is empty.
   */
  ghost predicate TarjanState(n: nat, index: seq<int>, low: seq<int>, onStack: seq<bool>,
                              counter: nat, stack: seq<nat>, comps: seq<seq<nat>>)
  {
    && |index| == n && |low| == n && |onStack| == n
    && (forall x :: 0 <= x < n ==> -1 <= index[x] < counter)
    && (forall x :: 0 <= x < n && 0 <= index[x] ==> low[x] <= index[x])
    && (forall x :: x in stack ==> x < n && 0 <= index[x])
    && (forall x :: 0 <= x < n ==> (onStack[x] <==> x in stack))
    && (forall x: nat {:trigger (multiset(Flatten(comps)) + multiset(stack))[x]} ::
          (multiset(Flatten(comps)) + multiset(stack))[x] == if x < n && 0 <= index[x] then 1 else 0)
    && (forall c :: c in comps ==> c != [])
  }

  /**
   * Within the traversal started at the vertex numbered `floor`: vertices on
   * the stack, and the low links of vertices numbered since, never fall
   * below `floor`.
   */
  ghost predicate AboveFloor(n: nat, index: seq<int>, low: seq<int>, onStack: seq<bool>, floor: int)
    requires |index| == n && |low| == n && |onStack| == n
  {
    && (forall x :: 0 <= x < n && onStack[x] ==> floor <= index[x])
    && (forall x :: 0 <= x < n && floor <= index[x] ==> floor <= low[x])
  }

  /** The vertices not yet numbered by the traversal. */
  ghost function Unnumbered(index: seq<int>): set<nat>
  {
    set x: nat | x < |index| && index[x] < 0
  }

  /** From `index`, `low` to `index'`, `low'`: vertices already numbered keep their index and low link. */
  ghost predicate KeepsNumbered(index: seq<int>, low: seq<int>, index': seq<int>, low': seq<int>)
  {
    && |index| == |low| == |index'| == |low'|
    && forall x :: 0 <= x < |index| && 0 <= index[x] ==> index'[x] == index[x] && low'[x] == low[x]
  }

  lemma KeepsNumberedTrans(index: seq<int>, low: seq<int>, index': seq<int>, low': seq<int>,
                           index'': seq<int>, low'': seq<int>)
    requires KeepsNumbered(index, low, index', low') && KeepsNumbered(index', low', index'', low'')
    ensures KeepsNumbered(index, low, index'', low'')
  {
  }

  /** Changing the low link of a vertex that was not numbered at the start keeps the numbered ones. */
  lemma KeepsNumberedLow(index: seq<int>, low: seq<int>, index': seq<int>, low': seq<int>, low'': seq<int>, v: nat)
    requires KeepsNumbered(index, low, index', low') && v < |index| && index[v] < 0
    requires |low''| == |low'| && forall x :: 0 <= x < |low'| && x != v ==> low''[x] == low'[x]
    ensures KeepsNumbered(index, low, index', low'')
  {
  }

  lemma KeepsNumberedPush(index: seq<int>, low: seq<int>, v: nat, counter: nat)
    requires |index| == |low| && v < |index| && index[v] < 0
    ensures KeepsNumbered(index, low, index[v := counter], low[v := counter])
  {
  }

  lemma KeepsNumberedFewer(index: seq<int>, low: seq<int>, index': seq<int>, low': seq<int>)
    requires KeepsNumbered(index, low, index', low')
    ensures Unnumbered(index') <= Unnumbered(index)
  {
  }

  /** Before the traversal nothing is numbered, on the stack or in a component. */
  lemma TarjanStart(n: nat, index: seq<int>, low: seq<int>, onStack: seq<bool>)
    requires |index| == n && |low| == n && |onStack| == n
    requires forall x :: 0 <= x < n ==> index[x] == -1 && !onStack[x]
    ensures TarjanState(n, index, low, onStack, 0, [], [])
  {
    var empty: seq<nat> := [];
    forall x: nat
      ensures (multiset(Flatten([])) + multiset(empty))[x] == if x < n && 0 <= index[x] then 1 else 0
    {
    }
  }

  /** The vertices before `v` are numbered. */
  ghost predicate NumberedBelow(index: seq<int>, v: nat)
  {
    forall x :: 0 <= x < v && x < |index| ==> index[x] >= 0
  }

  lemma NumberedMore(index: seq<int>, low: seq<int>, index': seq<int>, low': seq<int>, v: nat)
    requires NumberedBelow(index, v) && KeepsNumbered(index, low, index', low')
    requires v < |index'| && index'[v] >= 0
    ensures NumberedBelow(index', v + 1)
  {
  }

  /** Once every vertex is numbered and the stack is empty, the components partition the vertices. */
  lemma TarjanDone(n: nat, index: seq<int>, low: seq<int>, onStack: seq<bool>, counter: nat, comps: seq<seq<nat>>)
    requires TarjanState(n, index, low, onStack, counter, [], comps)
    requires NumberedBelow(index, n)
    ensures IsPartition(comps, n)
  {
    var empty: seq<nat> := [];
    forall x: nat
      ensures multiset(Flatten(comps))[x] == if x < n then 1 else 0
    {
      assert (multiset(Flatten(comps)) + multiset(empty))[x] == if x < n && 0 <= index[x] then 1 else 0;
    }
  }

  /** Between two top-level traversals the stack is empty and nothing is numbered at or above the counter. */
  lemma NoFloorYet(n: nat, index: seq<int>, low: seq<int>, onStack: seq<bool>, counter: nat, comps: seq<seq<nat>>)
    requires TarjanState(n, index, low, onStack, counter, [], comps)
    ensures AboveFloor(n, index, low, onStack, counter)
  {
  }

  /** Numbering `v` and pushing it keeps the invariant. */
  lemma Push(n: nat, index: seq<int>, low: seq<int>, onStack: seq<bool>, counter: nat,
             stack: seq<nat>, comps: seq<seq<nat>>, v: nat, floor: int)
    requires TarjanState(n, index, low, onStack, counter, stack, comps)
    requires AboveFloor(n, index, low, onStack, floor) && floor <= counter
    requires v < n && index[v] < 0
    ensures TarjanState(n, index[v := counter], low[v := counter], onStack[v := true], counter + 1, stack + [v], comps)
    ensures AboveFloor(n, index[v := counter], low[v := counter], onStack[v := true], floor)
  {
    var index': seq<int> := index[v := counter];
    var stack': seq<nat> := stack + [v];
    assert v !in stack;
    forall x: nat
      ensures (multiset(Flatten(comps)) + multiset(stack'))[x] == if x < n && 0 <= index'[x] then 1 else 0
    {
      assert (multiset(Flatten(comps)) + multiset(stack))[x] == if x < n && 0 <= index[x] then 1 else 0;
      assert multiset(stack') == multiset(stack) + multiset{v};
    }
  }

  /** Lowering the low link of a numbered vertex to a value not below the floor keeps the invariant. */
  lemma LowerLink(n: nat, index: seq<int>, low: seq<int>, onStack: seq<bool>, counter: nat,
                  stack: seq<nat>, comps: seq<seq<nat>>, v: nat, value: int, floor: int, low': seq<int>)
    requires TarjanState(n, index, low, onStack, counter, stack, comps)
    requires AboveFloor(n, index, low, onStack, floor)
    requires v < n && 0 <= index[v] && floor <= value
    requires low' == low[v := if low[v] < value then low[v] else value]
    ensures TarjanState(n, index, low', onStack, counter, stack, comps)
    ensures AboveFloor(n, index, low', onStack, floor)
  {
  }

  /** The numbered vertices are counted once, so none is on the stack twice. */
  lemma StackOnce(n: nat, index: seq<int>, low: seq<int>, onStack: seq<bool>, counter: nat,
                  stack: seq<nat>, comps: seq<seq<nat>>)
    requires TarjanState(n, index, low, onStack, counter, stack, comps)
    ensures forall x: nat :: multiset(stack)[x] <= 1
  {
    forall x: nat
      ensures multiset(stack)[x] <= 1
    {
      assert (multiset(Flatten(comps)) + multiset(stack))[x] <= 1;
    }
  }

  /** Moving the top of the stack down to `v` into a new component keeps the invariant. */
  lemma PopKeepsState(n: nat, index: seq<int>, low: seq<int>, onStack: seq<bool>, onStack': seq<bool>,
                      counter: nat, stack: seq<nat>, rest: seq<nat>, scc: seq<nat>, comps: seq<seq<nat>>, floor: int)
    requires TarjanState(n, index, low, onStack, counter, stack, comps)
    requires AboveFloor(n, index, low, onStack, floor)
    requires scc != [] && multiset(scc) + multiset(rest) == multiset(stack)
    requires |onStack'| == n && forall x :: 0 <= x < n ==> (onStack'[x] <==> x in rest)
    ensures TarjanState(n, index, low, onStack', counter, rest, comps + [scc])
    ensures AboveFloor(n, index, low, onStack', floor)
  {
    assert Flatten(comps + [scc]) == Flatten(comps) + scc by {
      assert (comps + [scc])[..|comps|] == comps;
    }
    forall x | x in rest
      ensures x in stack
    {
      assert multiset(rest)[x] > 0;
      assert (multiset(scc) + multiset(rest))[x] == multiset(stack)[x];
      assert x in multiset(stack);
    }
    assert multiset(Flatten(comps + [scc])) + multiset(rest) == multiset(Flatten(comps)) + multiset(stack);
    forall x: nat
      ensures (multiset(Flatten(comps + [scc])) + multiset(rest))[x] == if x < n && 0 <= index[x] then 1 else 0
    {
      assert (multiset(Flatten(comps)) + multiset(stack))[x] == if x < n && 0 <= index[x] then 1 else 0;
    }
  }

  // ---------------------------------------------------------------- reachability

  /** `p` is a walk along successor edges. */
  ghost predicate IsPath(g: Digraph, p: seq<nat>)
  {
    && |p| > 0
    && (forall i :: 0 <= i < |p| ==> p[i] < |g.names| && p[i] < |g.succ|)
    && (forall i, j :: 0 <= i && j == i + 1 && j < |p| ==> p[i] < |g.succ| && p[j] in g.succ[p[i]])
  }

  /** Vertex `to` can be reached from vertex `from` in zero or more steps. */
  ghost predicate Reaches(g: Digraph, from: nat, to: nat)
  {
    exists p :: IsPath(g, p) && p[0] == from && p[|p| - 1] == to
  }

  lemma ReachesSelf(g: Digraph, v: nat)
    requires v < |g.names| && v < |g.succ|
    ensures Reaches(g, v, v)
  {
    assert IsPath(g, [v]);
  }

  lemma ReachesStep(g: Digraph, from: nat, x: nat, j: nat)
    requires WellFormed(g) && Reaches(g, from, x) && x < |g.succ| && j < |g.succ[x]|
    ensures Reaches(g, from, g.succ[x][j])
  {
    var p :| IsPath(g, p) && p[0] == from && p[|p| - 1] == x;
    var q := p + [g.succ[x][j]];
    assert IsPath(g, q);
  }

  lemma ReachesTrans(g: Digraph, a: nat, b: nat, c: nat)
    requires Reaches(g, a, b) && Reaches(g, b, c)
    ensures Reaches(g, a, c)
  {
    var p :| IsPath(g, p) && p[0] == a && p[|p| - 1] == b;
    var q :| IsPath(g, q) && q[0] == b && q[|q| - 1] == c;
    var r := p + q[1..];
    forall i | 0 <= i < |r| - 1
      ensures r[i] < |g.succ| && r[i + 1] in g.succ[r[i]]
    {
      if i < |p| - 1 {
        assert r[i] == p[i] && r[i + 1] == p[i + 1];
      } else {
        assert r[i] == q[i - |p| + 1] && r[i + 1] == q[i - |p| + 2];
      }
    }
    assert IsPath(g, r);
  }

  /** A vertex reaches each of its successors. */
  lemma ReachesEdge(g: Digraph, u: nat, w: nat)
    requires WellFormed(g) && u < |g.names| && w in g.succ[u]
    ensures Reaches(g, u, w)
  {
    var j :| 0 <= j < |g.succ[u]| && g.succ[u][j] == w;
    ReachesSelf(g, u);
    ReachesStep(g, u, u, j);
  }

  lemma ReachesBounded(g: Digraph, a: nat, b: nat)
    requires Reaches(g, a, b)
    ensures a < |g.names| && b < |g.names|
  {
    var p :| IsPath(g, p) && p[0] == a && p[|p| - 1] == b;
  }

  // ---------------------------------------------------------------- what the components mean

  /**
   * Every component is a strongly connected component of `g`: its vertices
   * reach each other, and a vertex that reaches one of them and is reached
   * from it belongs to it.
   */
  ghost predicate AreComponents(g: Digraph, comps: seq<seq<nat>>)
  {
    && (forall c, x: nat, y: nat {:trigger Reaches(g, x, y), c in comps} :: c in comps && x in c && y in c ==> Reaches(g, x, y))
    && (forall c, x: nat, z: nat {:trigger Reaches(g, x, z), Reaches(g, z, x), c in comps} ::
          c in comps && x in c && Reaches(g, x, z) && Reaches(g, z, x) ==> z in c)
  }

  /** Two different vertices reach each other: the graph has a cycle through at least two vertices. */
  ghost predicate HasMutualPair(g: Digraph)
  {
    exists x, y :: x != y && Reaches(g, x, y) && Reaches(g, y, x)
  }

  /**
   * `m` is the message `addAndVerify` gives for `g`: the report of the
   * components of more than one vertex, of which there is at least one, in
   * the order Tarjan's traversal completes them.
   */
  ghost predicate CycleReport(g: Digraph, m: string)
  {
    && WellFormed(g)
    && var comps := ComponentOrder(g);
       && IsPartition(comps, |g.names|) && AreComponents(g, comps)
       && Within(Cycles(comps), |g.names|) && Cycles(comps) != []
       && m == CycleMessage(ComponentNames(g, Cycles(comps)))
  }

  /** A cycle report is only ever given for a graph in which two different vertices reach each other. */
  lemma CycleReportMutual(g: Digraph, m: string)
    requires CycleReport(g, m)
    ensures HasMutualPair(g)
  {
    var comps := ComponentOrder(g);
    assert Cycles(comps)[0] in Cycles(comps);
    ComponentCycles(g, comps);
  }

  /**
   * `add` with a key the graph does not hold yet never closes a cycle:
   * no vertex has the new key as a successor, and the placeholder vertices
   * it brings have no successors, so the walks that return to where they
   * start are those of the graph before.
   */
  lemma AddFreshKeepsAcyclic(g: Digraph, key: string, deps: seq<string>)
    requires WellFormed(g) && key !in g.names && !HasMutualPair(g)
    ensures !HasMutualPair(Added(g, key, deps))
  {
    var r := Added(g, key, deps);
    var n := |g.names|;
    AddedWellFormed(g, key, deps);
    AddedNamesSpec(g.names, key, deps);
    var k := IndexOf(r.names, key);
    assert k >= n;
    assert forall i :: 0 <= i < n ==> r.succ[i] == g.succ[i];
    if x: nat, y: nat :| x != y && Reaches(r, x, y) && Reaches(r, y, x) {
      var p :| IsPath(r, p) && p[0] == x && p[|p| - 1] == y;
      var q :| IsPath(r, q) && q[0] == y && q[|q| - 1] == x;
      if x < n || y < n {
        if x < n {
          OldWalkStaysOld(g, r, p);
          OldWalkStaysOld(g, r, q);
        } else {
          OldWalkStaysOld(g, r, q);
          OldWalkStaysOld(g, r, p);
        }
        assert Reaches(g, x, y) && Reaches(g, y, x);
        assert false;
      } else if x != k {
        assert r.succ[x] == [];
        SinkWalk(r, p);
      } else {
        assert r.succ[y] == [];
        SinkWalk(r, q);
      }
    }
  }

  /** A walk that starts at a vertex without successors stays there. */
  lemma SinkWalk(r: Digraph, p: seq<nat>)
    requires IsPath(r, p) && r.succ[p[0]] == []
    ensures |p| == 1
  {
    if |p| > 1 {
      PathStep(r, p);
    }
  }

  /** The second vertex of a walk is a successor of the first. */
  lemma PathStep(r: Digraph, p: seq<nat>)
    requires IsPath(r, p) && |p| > 1
    ensures p[0] < |r.succ| && p[1] in r.succ[p[0]]
  {
  }

  /** A walk of `r` that starts at one of the first `|g.names|` vertices, whose successors are as in `g`, is a walk of `g`. */
  lemma OldWalkStaysOld(g: Digraph, r: Digraph, p: seq<nat>)
    requires WellFormed(g) && IsPath(r, p) && p[0] < |g.names|
    requires |g.names| <= |r.succ| && forall k :: 0 <= k < |g.names| ==> r.succ[k] == g.succ[k]
    ensures IsPath(g, p)
  {
    forall j | 0 <= j < |p|
      ensures p[j] < |g.names|
    {
      OldWalkPrefix(g, r, p, j);
    }
  }

  lemma {:induction false} OldWalkPrefix(g: Digraph, r: Digraph, p: seq<nat>, i: nat)
    requires WellFormed(g) && IsPath(r, p) && p[0] < |g.names| && i < |p|
    requires |g.names| <= |r.succ| && forall k :: 0 <= k < |g.names| ==> r.succ[k] == g.succ[k]
    ensures p[i] < |g.names|
  {
    if i > 0 {
      OldWalkPrefix(g, r, p, i - 1);
      assert p[i] in g.succ[p[i - 1]];
    }
  }

  lemma {:induction false} FlattenCounts(comps: seq<seq<nat>>, c: seq<nat>)
    requires c in comps
    ensures multiset(c) <= multiset(Flatten(comps))
  {
    var init := comps[..|comps| - 1];
    if c != comps[|comps| - 1] {
      assert c in init;
      FlattenCounts(init, c);
    }
  }

  lemma {:induction false} FlattenMember(comps: seq<seq<nat>>, x: nat)
    requires x in Flatten(comps)
    ensures exists c :: c in comps && x in c
  {
    var init := comps[..|comps| - 1];
    if x !in comps[|comps| - 1] {
      FlattenMember(init, x);
      var c :| c in init && x in c;
      assert c in comps;
    }
  }

  /**
   * When the components partition the vertices and are strongly connected
   * components, some component has more than one vertex exactly when two
   * different vertices reach each other.
   */
  lemma ComponentCycles(g: Digraph, comps: seq<seq<nat>>)
    requires IsPartition(comps, |g.names|) && AreComponents(g, comps)
    ensures (exists c :: c in comps && |c| > 1) <==> HasMutualPair(g)
  {
    if c :| c in comps && |c| > 1 {
      FlattenCounts(comps, c);
      assert c == [c[0]] + [c[1]] + c[2..];
      assert multiset(c) == multiset{c[0]} + multiset{c[1]} + multiset(c[2..]);
      assert multiset(Flatten(comps))[c[0]] <= 1;
      assert multiset(c)[c[0]] <= 1;
      assert c[0] != c[1];
      assert c[0] in c && c[1] in c;
      assert Reaches(g, c[0], c[1]) && Reaches(g, c[1], c[0]);
    }
    if HasMutualPair(g) {
      var x, y :| x != y && Reaches(g, x, y) && Reaches(g, y, x);
      ReachesBounded(g, x, y);
      assert multiset(Flatten(comps))[x] == 1;
      FlattenMember(comps, x);
      var c :| c in comps && x in c;
      assert y in c;
      var i :| 0 <= i < |c| && c[i] == x;
      var j :| 0 <= j < |c| && c[j] == y;
      assert i != j;
    }
  }

  // ---------------------------------------------------------------- what Tarjan's traversal knows about reachability

  /** `s` lists vertices in the order they were numbered. */
  ghost predicate InIndexOrder(index: seq<int>, s: seq<nat>)
  {
    forall i, j :: 0 <= i < j < |s| ==> s[i] < |index| && s[j] < |index| && index[s[i]] < index[s[j]]
  }

  /** The vertex of a running call reaches every vertex numbered after it. */
  ghost predicate RunningReach(g: Digraph, index: seq<int>, path: seq<nat>)
  {
    forall a: nat, x: nat {:trigger Reaches(g, a, x)} ::
      a in path && a < |index| && x < |index| && index[a] <= index[x] ==> Reaches(g, a, x)
  }

  /** The low link of `y` is the index of a stacked vertex that `y` reaches. */
  ghost predicate LowSource(g: Digraph, index: seq<int>, low: seq<int>, stack: seq<nat>, y: nat)
  {
    y < |low| && exists z: nat :: z in stack && z < |index| && index[z] == low[y] && Reaches(g, y, z)
  }

  /**
   * The low link of every stacked vertex has a source.  (The trigger keeps the
   * witness `z`, itself stacked, from calling for a witness of its own.)
   */
  ghost predicate LowWitnessed(g: Digraph, index: seq<int>, low: seq<int>, stack: seq<nat>)
  {
    forall y: nat {:trigger LowSource(g, index, low, stack, y)} ::
      y in stack && y < |low| ==> LowSource(g, index, low, stack, y)
  }

  /** A stacked vertex whose call has returned was not a root: its low link is below its index. */
  ghost predicate Unrooted(index: seq<int>, low: seq<int>, stack: seq<nat>, path: seq<nat>)
  {
    forall y: nat :: y in stack && y !in path && y < |index| && y < |low| ==> low[y] < index[y]
  }

  /** The first `k` successors of `p` are numbered, and `p`'s low link is at most the index of those on the stack. */
  ghost predicate EdgesDone(g: Digraph, index: seq<int>, low: seq<int>, onStack: seq<bool>, p: nat, k: nat)
    requires WellFormed(g) && |index| == |low| == |onStack| == |g.names|
    requires p < |g.names| && k <= |g.succ[p]|
  {
    forall j :: 0 <= j < k ==>
      0 <= index[g.succ[p][j]] && (onStack[g.succ[p][j]] ==> low[p] <= index[g.succ[p][j]])
  }

  /** Every numbered vertex whose call has returned has had all its successors seen. */
  ghost predicate Finished(g: Digraph, index: seq<int>, low: seq<int>, onStack: seq<bool>, path: seq<nat>)
    requires WellFormed(g) && |index| == |low| == |onStack| == |g.names|
  {
    forall p: nat :: p < |g.names| && 0 <= index[p] && p !in path ==>
      EdgesDone(g, index, low, onStack, p, |g.succ[p]|)
  }

  /**
   * What Tarjan's traversal knows about reachability, `path` being the
   * vertices whose `stronglyConnect` call is running, outermost first.
   */
  ghost predicate TarjanReach(g: Digraph, index: seq<int>, low: seq<int>, onStack: seq<bool>,
                              stack: seq<nat>, comps: seq<seq<nat>>, path: seq<nat>)
    requires WellFormed(g) && |index| == |low| == |onStack| == |g.names|
  {
    && InIndexOrder(index, stack) && InIndexOrder(index, path)
    && (forall a :: a in path ==> a < |index| && 0 <= index[a])
    && RunningReach(g, index, path)
    && LowWitnessed(g, index, low, stack)
    && Unrooted(index, low, stack, path)
    && Finished(g, index, low, onStack, path)
    && AreComponents(g, comps)
  }

  /** The vertices stacked after `u` have low links no smaller than `u`'s. */
  ghost predicate LowAbove(index: seq<int>, low: seq<int>, stack: seq<nat>, u: nat)
    requires |index| == |low| && u < |index|
  {
    forall y: nat :: y in stack && y < |index| && index[y] > index[u] ==> low[y] >= low[u]
  }

  lemma ReachStart(g: Digraph, index: seq<int>, low: seq<int>, onStack: seq<bool>)
    requires WellFormed(g) && |index| == |low| == |onStack| == |g.names|
    requires forall x :: 0 <= x < |index| ==> index[x] < 0
    ensures TarjanReach(g, index, low, onStack, [], [], [])
  {
  }

  lemma PushOrder(index: seq<int>, counter: nat, s: seq<nat>, v: nat)
    requires InIndexOrder(index, s) && v < |index| && v !in s
    requires forall x :: x in s ==> x < |index| && index[x] < counter
    ensures InIndexOrder(index[v := counter], s + [v])
  {
    var index', s' := index[v := counter], s + [v];
    forall i, j | 0 <= i < j < |s'|
      ensures s'[i] < |index'| && s'[j] < |index'| && index'[s'[i]] < index'[s'[j]]
    {
      assert s'[i] == s[i] && s[i] in s;
      if j < |s| {
        assert s'[j] == s[j] && s[j] in s;
      }
    }
  }

  lemma PushRunning(g: Digraph, index: seq<int>, counter: nat, path: seq<nat>, v: nat)
    requires WellFormed(g) && |index| == |g.names| && v < |index| && index[v] < 0
    requires forall x :: 0 <= x < |index| ==> index[x] < counter
    requires forall a :: a in path ==> a < |index| && 0 <= index[a]
    requires InIndexOrder(index, path) && RunningReach(g, index, path)
    requires path == [] || (path[|path| - 1] < |g.names| && v in g.succ[path[|path| - 1]])
    ensures RunningReach(g, index[v := counter], path + [v])
  {
    var index' := index[v := counter];
    forall a: nat, x: nat | a in path + [v] && a < |index'| && x < |index'| && index'[a] <= index'[x]
      ensures Reaches(g, a, x)
    {
      if a == v {
        assert x == v;
        ReachesSelf(g, v);
      } else if x == v {
        var u := path[|path| - 1];
        assert u in path;
        if a != u {
          var i :| 0 <= i < |path| && path[i] == a;
          assert index[a] < index[u];
        }
        assert Reaches(g, a, u);
        ReachesEdge(g, u, v);
        ReachesTrans(g, a, u, v);
      } else {
        assert a in path && index[a] <= index[x];
      }
    }
  }

  lemma PushWitness(g: Digraph, index: seq<int>, low: seq<int>, counter: nat, stack: seq<nat>, v: nat)
    requires |index| == |low| == |g.names| && |g.succ| == |g.names| && v < |index| && index[v] < 0
    requires forall x :: x in stack ==> x < |index| && 0 <= index[x]
    requires LowWitnessed(g, index, low, stack)
    ensures LowWitnessed(g, index[v := counter], low[v := counter], stack + [v])
  {
    var index', low', stack' := index[v := counter], low[v := counter], stack + [v];
    forall y: nat | y in stack' && y < |low'|
      ensures exists z: nat :: z in stack' && z < |index'| && index'[z] == low'[y] && Reaches(g, y, z)
    {
      if y == v {
        ReachesSelf(g, v);
        assert v in stack' && index'[v] == low'[v];
      } else {
        assert y in stack;
        assert LowSource(g, index, low, stack, y);
        var z: nat :| z in stack && z < |index| && index[z] == low[y] && Reaches(g, y, z);
        assert z != v;
        assert z in stack';
        assert index'[z] == low'[y];
      }
    }
  }

  lemma PushFinished(g: Digraph, index: seq<int>, low: seq<int>, onStack: seq<bool>, counter: nat,
                     path: seq<nat>, v: nat)
    requires WellFormed(g) && |index| == |low| == |onStack| == |g.names|
    requires v < |index| && index[v] < 0
    requires forall x :: 0 <= x < |index| ==> index[x] < counter
    requires forall x :: 0 <= x < |index| && 0 <= index[x] ==> low[x] <= index[x]
    requires Finished(g, index, low, onStack, path)
    ensures Finished(g, index[v := counter], low[v := counter], onStack[v := true], path + [v])
  {
    var index', low', onStack' := index[v := counter], low[v := counter], onStack[v := true];
    forall p: nat | p < |g.names| && 0 <= index'[p] && p !in path + [v]
      ensures EdgesDone(g, index', low', onStack', p, |g.succ[p]|)
    {
      assert EdgesDone(g, index, low, onStack, p, |g.succ[p]|);
    }
  }

  /** Numbering `v`, a successor of the innermost running vertex, and pushing it keeps what is known. */
  lemma ReachPush(g: Digraph, index: seq<int>, low: seq<int>, onStack: seq<bool>, counter: nat,
                  stack: seq<nat>, comps: seq<seq<nat>>, path: seq<nat>, v: nat)
    requires WellFormed(g) && TarjanState(|g.names|, index, low, onStack, counter, stack, comps)
    requires TarjanReach(g, index, low, onStack, stack, comps, path)
    requires v < |g.names| && index[v] < 0
    requires path == [] || (path[|path| - 1] < |g.names| && v in g.succ[path[|path| - 1]])
    ensures TarjanReach(g, index[v := counter], low[v := counter], onStack[v := true], stack + [v], comps, path + [v])
  {
    assert v !in stack && v !in path;
    PushOrder(index, counter, stack, v);
    PushOrder(index, counter, path, v);
    PushRunning(g, index, counter, path, v);
    PushWitness(g, index, low, counter, stack, v);
    PushFinished(g, index, low, onStack, counter, path, v);
  }

  /** Lowering the low link of a running vertex `u` to the index of a stacked vertex it reaches. */
  lemma LowerWitness(g: Digraph, index: seq<int>, low: seq<int>, stack: seq<nat>, u: nat, z: nat, m: int)
    requires |index| == |low| && u < |low|
    requires LowWitnessed(g, index, low, stack)
    requires m == low[u] || (z in stack && z < |index| && index[z] == m && Reaches(g, u, z))
    ensures LowWitnessed(g, index, low[u := m], stack)
  {
    var low' := low[u := m];
    forall y: nat | y in stack && y < |low'|
      ensures exists z': nat :: z' in stack && z' < |index| && index[z'] == low'[y] && Reaches(g, y, z')
    {
      if y == u && m != low[u] {
        assert index[z] == low'[y];
      } else {
        assert LowSource(g, index, low, stack, y);
        var z': nat :| z' in stack && z' < |index| && index[z'] == low[y] && Reaches(g, y, z');
        assert index[z'] == low'[y];
      }
    }
  }

  lemma LowerFinished(g: Digraph, index: seq<int>, low: seq<int>, onStack: seq<bool>, path: seq<nat>, u: nat, m: int)
    requires WellFormed(g) && |index| == |low| == |onStack| == |g.names|
    requires u in path && u < |low|
    requires Finished(g, index, low, onStack, path)
    ensures Finished(g, index, low[u := m], onStack, path)
  {
    forall p: nat | p < |g.names| && 0 <= index[p] && p !in path
      ensures EdgesDone(g, index, low[u := m], onStack, p, |g.succ[p]|)
    {
      assert EdgesDone(g, index, low, onStack, p, |g.succ[p]|);
    }
  }

  lemma LowerEdges(g: Digraph, index: seq<int>, low: seq<int>, onStack: seq<bool>, u: nat, i: nat, m: int)
    requires WellFormed(g) && |index| == |low| == |onStack| == |g.names|
    requires u < |g.names| && i < |g.succ[u]| && EdgesDone(g, index, low, onStack, u, i)
    requires m <= low[u] && 0 <= index[g.succ[u][i]]
    requires onStack[g.succ[u][i]] ==> m <= index[g.succ[u][i]]
    ensures EdgesDone(g, index, low[u := m], onStack, u, i + 1)
  {
  }

  /** A successor numbered and off the stack needs nothing more of the low link. */
  lemma SkipEdge(g: Digraph, index: seq<int>, low: seq<int>, onStack: seq<bool>, u: nat, i: nat)
    requires WellFormed(g) && |index| == |low| == |onStack| == |g.names|
    requires u < |g.names| && i < |g.succ[u]| && EdgesDone(g, index, low, onStack, u, i)
    requires 0 <= index[g.succ[u][i]] && !onStack[g.succ[u][i]]
    ensures EdgesDone(g, index, low, onStack, u, i + 1)
  {
  }

  lemma LowerUnrooted(index: seq<int>, low: seq<int>, stack: seq<nat>, path: seq<nat>, u: nat, m: int)
    requires |index| == |low| && u < |index| && u in path && Unrooted(index, low, stack, path)
    ensures Unrooted(index, low[u := m], stack, path)
  {
  }

  lemma LowerLowAbove(index: seq<int>, low: seq<int>, stack: seq<nat>, u: nat, m: int)
    requires |index| == |low| && u < |index| && LowAbove(index, low, stack, u) && m <= low[u]
    ensures LowAbove(index, low[u := m], stack, u)
  {
    forall y: nat | y in stack && y < |index| && index[y] > index[u]
      ensures low[u := m][y] >= m
    {
      assert y != u;
    }
  }

  /** Lowering the innermost running vertex's low link to the index of a stacked successor. */
  lemma ReachLowerToStacked(g: Digraph, index: seq<int>, low: seq<int>, onStack: seq<bool>, counter: nat,
                            stack: seq<nat>, comps: seq<seq<nat>>, path: seq<nat>, u: nat, i: nat,
                            low': seq<int>)
    requires WellFormed(g) && TarjanState(|g.names|, index, low, onStack, counter, stack, comps)
    requires TarjanReach(g, index, low, onStack, stack, comps, path)
    requires path != [] && path[|path| - 1] == u && u < |g.names| && i < |g.succ[u]|
    requires onStack[g.succ[u][i]]
    requires EdgesDone(g, index, low, onStack, u, i) && LowAbove(index, low, stack, u)
    requires var w := g.succ[u][i]; low' == low[u := if low[u] < index[w] then low[u] else index[w]]
    ensures TarjanReach(g, index, low', onStack, stack, comps, path)
    ensures EdgesDone(g, index, low', onStack, u, i + 1)
    ensures LowAbove(index, low', stack, u)
  {
    var w := g.succ[u][i];
    var m := if low[u] < index[w] then low[u] else index[w];
    assert u in path && w in stack;
    ReachesEdge(g, u, w);
    LowerWitness(g, index, low, stack, u, w, m);
    LowerFinished(g, index, low, onStack, path, u, m);
    LowerLowAbove(index, low, stack, u, m);
    LowerUnrooted(index, low, stack, path, u, m);
    LowerEdges(g, index, low, onStack, u, i, m);
  }

  /**
   * Across the recursive call for `w`: a vertex numbered before it and stacked
   * after it was stacked before it, and one numbered during it sits at or
   * above `w`.
   */
  lemma ChildStacked(index1: seq<int>, counter1: nat, stack1: seq<nat>, index2: seq<int>, stack2: seq<nat>, w: nat)
    requires |index1| == |index2| && w < |index1| && index1[w] < 0
    requires forall x :: x in stack1 ==> x < |index1| && 0 <= index1[x]
    requires forall x :: 0 <= x < |index1| ==> index1[x] < counter1
    requires forall x :: 0 <= x < |index1| && 0 <= index1[x] ==> index2[x] == index1[x]
    requires InIndexOrder(index2, stack2) && index2[w] == counter1
    requires |stack1| <= |stack2| && stack2[..|stack1|] == stack1
    requires stack2 == stack1 || stack2[|stack1|] == w
    ensures forall x :: x in stack2 && x < |index1| && 0 <= index1[x] ==> x in stack1
    ensures forall y :: y in stack2 && y < |index1| && index1[y] < 0 ==> y == w || index2[y] > index2[w]
  {
    forall x | x in stack2 && x < |index1| && 0 <= index1[x]
      ensures x in stack1
    {
      var k :| 0 <= k < |stack2| && stack2[k] == x;
      if k < |stack1| {
        assert stack1[k] == x;
      }
    }
    forall y | y in stack2 && y < |index1| && index1[y] < 0
      ensures y == w || index2[y] > index2[w]
    {
      var k :| 0 <= k < |stack2| && stack2[k] == y;
      assert stack2 != stack1;
      if k > |stack1| {
        assert stack2[|stack1|] == w;
      }
    }
  }

  lemma ChildEdges(g: Digraph, index1: seq<int>, low1: seq<int>, onStack1: seq<bool>, stack1: seq<nat>,
                   index2: seq<int>, low2: seq<int>, onStack2: seq<bool>, stack2: seq<nat>, u: nat, i: nat, m: int)
    requires WellFormed(g) && |index1| == |low1| == |onStack1| == |g.names|
    requires |index2| == |low2| == |onStack2| == |g.names|
    requires u < |g.names| && i < |g.succ[u]| && 0 <= index1[u]
    requires EdgesDone(g, index1, low1, onStack1, u, i) && KeepsNumbered(index1, low1, index2, low2)
    requires forall x :: 0 <= x < |g.names| ==> (onStack1[x] <==> x in stack1)
    requires forall x :: 0 <= x < |g.names| ==> (onStack2[x] <==> x in stack2)
    requires forall x :: x in stack2 && x < |index1| && 0 <= index1[x] ==> x in stack1
    requires 0 <= index2[g.succ[u][i]] && m <= low2[u]
    requires onStack2[g.succ[u][i]] ==> m <= index2[g.succ[u][i]]
    ensures EdgesDone(g, index2, low2[u := m], onStack2, u, i + 1)
  {
    forall j | 0 <= j < i + 1
      ensures 0 <= index2[g.succ[u][j]]
      ensures onStack2[g.succ[u][j]] ==> low2[u := m][u] <= index2[g.succ[u][j]]
    {
      var q := g.succ[u][j];
      if j < i && onStack2[q] {
        assert q in stack2 && q in stack1;
      }
    }
  }

  lemma ChildLowAbove(index1: seq<int>, low1: seq<int>, stack1: seq<nat>,
                      index2: seq<int>, low2: seq<int>, stack2: seq<nat>, u: nat, w: nat, m: int)
    requires |index1| == |low1| == |index2| == |low2| && u < |index1| && w < |index1|
    requires 0 <= index1[u] && LowAbove(index1, low1, stack1, u) && KeepsNumbered(index1, low1, index2, low2)
    requires LowAbove(index2, low2, stack2, w)
    requires forall x :: x in stack2 && x < |index1| && 0 <= index1[x] ==> x in stack1
    requires forall y :: y in stack2 && y < |index1| && index1[y] < 0 ==> y == w || index2[y] > index2[w]
    requires m <= low2[u] && m <= low2[w]
    ensures LowAbove(index2, low2[u := m], stack2, u)
  {
    forall y: nat | y in stack2 && y < |index2| && index2[y] > index2[u]
      ensures low2[u := m][y] >= m
    {
      if 0 <= index1[y] {
        assert y in stack1;
      }
    }
  }

  /**
   * What the parent's call knows once the recursive call for its `i`-th
   * successor `w` has returned and lowered the parent's low link to `w`'s.
   */
  lemma ReachAfterChild(g: Digraph, index1: seq<int>, low1: seq<int>, onStack1: seq<bool>, counter1: nat,
                        stack1: seq<nat>, comps1: seq<seq<nat>>,
                        index2: seq<int>, low2: seq<int>, onStack2: seq<bool>, counter2: nat,
                        stack2: seq<nat>, comps2: seq<seq<nat>>, path: seq<nat>, u: nat, i: nat,
                        low3: seq<int>)
    requires WellFormed(g)
    requires TarjanState(|g.names|, index1, low1, onStack1, counter1, stack1, comps1)
    requires TarjanState(|g.names|, index2, low2, onStack2, counter2, stack2, comps2)
    requires path != [] && path[|path| - 1] == u && u < |g.names| && i < |g.succ[u]|
    requires 0 <= index1[u] && index1[g.succ[u][i]] < 0
    requires EdgesDone(g, index1, low1, onStack1, u, i) && LowAbove(index1, low1, stack1, u)
    requires TarjanReach(g, index2, low2, onStack2, stack2, comps2, path)
    requires KeepsNumbered(index1, low1, index2, low2)
    requires |stack1| <= |stack2| && stack2[..|stack1|] == stack1
    requires stack2 == stack1 || stack2[|stack1|] == g.succ[u][i]
    requires index2[g.succ[u][i]] == counter1
    requires LowAbove(index2, low2, stack2, g.succ[u][i])
    requires low2[g.succ[u][i]] != index2[g.succ[u][i]] ==> g.succ[u][i] in stack2
    requires var w := g.succ[u][i]; low3 == low2[u := if low2[u] < low2[w] then low2[u] else low2[w]]
    ensures TarjanReach(g, index2, low3, onStack2, stack2, comps2, path)
    ensures EdgesDone(g, index2, low3, onStack2, u, i + 1)
    ensures LowAbove(index2, low3, stack2, u)
  {
    var w := g.succ[u][i];
    var m := if low2[u] < low2[w] then low2[u] else low2[w];
    assert u in path;
    ChildStacked(index1, counter1, stack1, index2, stack2, w);
    ChildEdges(g, index1, low1, onStack1, stack1, index2, low2, onStack2, stack2, u, i, m);
    ChildLowAbove(index1, low1, stack1, index2, low2, stack2, u, w, m);
    if m != low2[u] {
      assert w in stack2 && LowSource(g, index2, low2, stack2, w);
      var z: nat :| z in stack2 && z < |index2| && index2[z] == low2[w] && Reaches(g, w, z);
      ReachesEdge(g, u, w);
      ReachesTrans(g, u, w, z);
      LowerWitness(g, index2, low2, stack2, u, z, m);
    } else {
      LowerWitness(g, index2, low2, stack2, u, u, m);
    }
    LowerFinished(g, index2, low2, onStack2, path, u, m);
    LowerUnrooted(index2, low2, stack2, path, u, m);
  }

  /** Returning from the call for `v` when `v` is not a root: `v` stays stacked with a smaller low link. */
  lemma ReachNoRoot(g: Digraph, index: seq<int>, low: seq<int>, onStack: seq<bool>, counter: nat,
                    stack: seq<nat>, comps: seq<seq<nat>>, path: seq<nat>, v: nat)
    requires WellFormed(g) && TarjanState(|g.names|, index, low, onStack, counter, stack, comps)
    requires TarjanReach(g, index, low, onStack, stack, comps, path + [v])
    requires v < |g.names| && low[v] != index[v]
    requires EdgesDone(g, index, low, onStack, v, |g.succ[v]|)
    ensures TarjanReach(g, index, low, onStack, stack, comps, path)
  {
    assert InIndexOrder(index, path) by {
      forall i, j | 0 <= i < j < |path|
        ensures path[i] < |index| && path[j] < |index| && index[path[i]] < index[path[j]]
      {
        assert (path + [v])[i] == path[i] && (path + [v])[j] == path[j];
      }
    }
    assert v in path + [v];
  }

  lemma ReachesAlong(g: Digraph, p: seq<nat>, i: nat, j: nat)
    requires IsPath(g, p) && i <= j < |p|
    ensures Reaches(g, p[i], p[j])
  {
    var q := p[i..j + 1];
    assert q[0] == p[i] && q[|q| - 1] == p[j];
    forall k | 0 <= k < |q| - 1
      ensures q[k] < |g.succ| && q[k + 1] in g.succ[q[k]]
    {
      assert q[k] == p[i + k] && q[k + 1] == p[i + k + 1];
    }
    assert IsPath(g, q);
  }

  /** In a sequence in numbering order, positions and indices are ordered alike. */
  lemma OrderedAt(index: seq<int>, s: seq<nat>, i: nat, j: nat)
    requires InIndexOrder(index, s) && i < |s| && j < |s| && s[i] < |index| && s[j] < |index|
    ensures i < j <==> index[s[i]] < index[s[j]]
    ensures i == j <==> index[s[i]] == index[s[j]]
  {
  }

  /** The last vertex of a sequence in numbering order has the largest index. */
  lemma LastHighest(index: seq<int>, s: seq<nat>, y: nat)
    requires InIndexOrder(index, s) && |s| > 0 && s[|s| - 1] < |index| && y < |index|
    requires index[y] > index[s[|s| - 1]]
    ensures y !in s
  {
    if y in s {
      var k :| 0 <= k < |s| && s[k] == y;
      OrderedAt(index, s, k, |s| - 1);
    }
  }

  lemma OrderPrefix(index: seq<int>, s: seq<nat>, k: nat)
    requires InIndexOrder(index, s) && k <= |s|
    ensures InIndexOrder(index, s[..k])
  {
    var t := s[..k];
    forall i, j | 0 <= i < j < |t|
      ensures t[i] < |index| && t[j] < |index| && index[t[i]] < index[t[j]]
    {
      assert t[i] == s[i] && t[j] == s[j];
    }
  }

  /**
   * Popping down to `v`: the popped vertices are the stacked ones numbered at
   * or after `v`, the ones left are those numbered before it.
   */
  lemma PoppedAbove(index: seq<int>, stack: seq<nat>, below: seq<nat>, scc: seq<nat>, v: nat)
    requires InIndexOrder(index, stack) && forall x :: x in stack ==> x < |index|
    requires |below| < |stack| && stack[..|below| + 1] == below + [v]
    requires multiset(scc) + multiset(below) == multiset(stack)
    requires forall x: nat :: multiset(stack)[x] <= 1
    ensures v < |index| && v in stack
    ensures forall x :: x in scc <==> x in stack && index[x] >= index[v]
    ensures forall x :: x in below <==> x in stack && index[x] < index[v]
  {
    assert stack[|below|] == v;
    assert v in stack;
    forall x | x in below
      ensures x in stack && index[x] < index[v]
    {
      var k :| 0 <= k < |below| && below[k] == x;
      assert stack[k] == x;
    }
    forall x | x in stack && index[x] >= index[v]
      ensures x in scc && x !in below
    {
      assert multiset(stack)[x] > 0;
      assert (multiset(scc) + multiset(below))[x] > 0;
    }
    forall x | x in scc
      ensures x in stack && index[x] >= index[v]
    {
      assert (multiset(scc) + multiset(below))[x] > 0;
      assert x in multiset(stack);
      var k :| 0 <= k < |stack| && stack[k] == x;
      if k > |below| {
        assert index[stack[|below|]] < index[stack[k]];
      }
    }
    forall x | x in stack && index[x] < index[v]
      ensures x in below
    {
      assert x !in scc;
      assert multiset(stack)[x] > 0;
      assert (multiset(scc) + multiset(below))[x] > 0;
    }
  }

  /** A vertex popped with root `v` reaches `v`, by a chain of low-link witnesses. */
  lemma {:induction false} ReachesRoot(g: Digraph, index: seq<int>, low: seq<int>, stack: seq<nat>,
                                       path: seq<nat>, v: nat, y: nat)
    requires |index| == |low| == |g.names| == |g.succ| && v < |index| && v in stack
    requires forall x :: x in stack ==> x < |index|
    requires InIndexOrder(index, stack) && InIndexOrder(index, path + [v])
    requires LowWitnessed(g, index, low, stack) && Unrooted(index, low, stack, path + [v])
    requires LowAbove(index, low, stack, v) && low[v] == index[v]
    requires y in stack && index[y] >= index[v]
    ensures Reaches(g, y, v)
    decreases index[y] - index[v]
  {
    if y == v {
      ReachesSelf(g, v);
    } else {
      var ky :| 0 <= ky < |stack| && stack[ky] == y;
      var kv :| 0 <= kv < |stack| && stack[kv] == v;
      OrderedAt(index, stack, ky, kv);
      LastHighest(index, path + [v], y);
      assert LowSource(g, index, low, stack, y);
      var z: nat :| z in stack && z < |index| && index[z] == low[y] && Reaches(g, y, z);
      ReachesRoot(g, index, low, stack, path, v, z);
      ReachesTrans(g, y, z, v);
    }
  }

  /**
   * A numbered vertex that reaches the stacked vertex `v` and is reached from
   * it is on the stack: otherwise it would share a finished component with `v`.
   */
  lemma BackOnStack(g: Digraph, index: seq<int>, low: seq<int>, onStack: seq<bool>, counter: nat,
                    stack: seq<nat>, comps: seq<seq<nat>>, v: nat, q: nat)
    requires TarjanState(|g.names|, index, low, onStack, counter, stack, comps) && AreComponents(g, comps)
    requires v in stack && q < |g.names| && 0 <= index[q]
    requires Reaches(g, q, v) && Reaches(g, v, q)
    ensures q in stack
  {
    if q !in stack {
      assert (multiset(Flatten(comps)) + multiset(stack))[q] == 1;
      assert (multiset(Flatten(comps)) + multiset(stack))[v] == 1;
      assert q in Flatten(comps);
      FlattenMember(comps, q);
      var c :| c in comps && q in c;
      assert v in c;
      FlattenCounts(comps, c);
    }
  }

  /** One edge of a walk that leaves the root `v` and returns to it stays among the vertices popped with `v`. */
  lemma StepAbove(g: Digraph, index: seq<int>, low: seq<int>, onStack: seq<bool>, counter: nat,
                  stack: seq<nat>, comps: seq<seq<nat>>, path: seq<nat>, v: nat, u: nat, q: nat)
    requires WellFormed(g) && TarjanState(|g.names|, index, low, onStack, counter, stack, comps)
    requires InIndexOrder(index, stack) && InIndexOrder(index, path + [v])
    requires Finished(g, index, low, onStack, path + [v]) && AreComponents(g, comps)
    requires v < |g.names| && v in stack && low[v] == index[v]
    requires EdgesDone(g, index, low, onStack, v, |g.succ[v]|) && LowAbove(index, low, stack, v)
    requires u in stack && index[u] >= index[v] && q in g.succ[u]
    requires Reaches(g, q, v) && Reaches(g, v, q)
    ensures q in stack && index[q] >= index[v]
  {
    var j :| 0 <= j < |g.succ[u]| && g.succ[u][j] == q;
    if u != v {
      var ku :| 0 <= ku < |stack| && stack[ku] == u;
      var kv :| 0 <= kv < |stack| && stack[kv] == v;
      OrderedAt(index, stack, ku, kv);
      LastHighest(index, path + [v], u);
    }
    assert EdgesDone(g, index, low, onStack, u, |g.succ[u]|);
    assert 0 <= index[q] && (onStack[q] ==> low[u] <= index[q]);
    BackOnStack(g, index, low, onStack, counter, stack, comps, v, q);
  }

  /**
   * Every vertex on a walk from the root `v` back to `v` is among the
   * vertices popped with it.
   */
  lemma {:induction false} StaysAbove(g: Digraph, index: seq<int>, low: seq<int>, onStack: seq<bool>, counter: nat,
                                      stack: seq<nat>, comps: seq<seq<nat>>, path: seq<nat>, v: nat,
                                      p: seq<nat>, k: nat)
    requires WellFormed(g) && TarjanState(|g.names|, index, low, onStack, counter, stack, comps)
    requires InIndexOrder(index, stack) && InIndexOrder(index, path + [v])
    requires Finished(g, index, low, onStack, path + [v]) && AreComponents(g, comps)
    requires v < |g.names| && v in stack && low[v] == index[v]
    requires EdgesDone(g, index, low, onStack, v, |g.succ[v]|) && LowAbove(index, low, stack, v)
    requires IsPath(g, p) && p[0] == v && Reaches(g, p[|p| - 1], v) && k < |p|
    ensures p[k] in stack && index[p[k]] >= index[v]
    decreases k
  {
    if k > 0 {
      StaysAbove(g, index, low, onStack, counter, stack, comps, path, v, p, k - 1);
      ReachesAlong(g, p, k, |p| - 1);
      ReachesTrans(g, p[k], p[|p| - 1], v);
      ReachesAlong(g, p, 0, k);
      StepAbove(g, index, low, onStack, counter, stack, comps, path, v, p[k - 1], p[k]);
    }
  }

  /** The vertices popped with root `v` form a strongly connected component. */
  lemma PopIsComponent(g: Digraph, index: seq<int>, low: seq<int>, onStack: seq<bool>, counter: nat,
                       stack: seq<nat>, comps: seq<seq<nat>>, path: seq<nat>, v: nat, scc: seq<nat>)
    requires WellFormed(g) && TarjanState(|g.names|, index, low, onStack, counter, stack, comps)
    requires InIndexOrder(index, stack) && InIndexOrder(index, path + [v])
    requires LowWitnessed(g, index, low, stack) && Unrooted(index, low, stack, path + [v])
    requires RunningReach(g, index, path + [v])
    requires Finished(g, index, low, onStack, path + [v]) && AreComponents(g, comps)
    requires v < |g.names| && v in stack && low[v] == index[v]
    requires EdgesDone(g, index, low, onStack, v, |g.succ[v]|) && LowAbove(index, low, stack, v)
    requires forall x :: x in scc <==> x in stack && index[x] >= index[v]
    ensures AreComponents(g, comps + [scc])
  {
    assert v in path + [v];
    forall x: nat | x in scc
      ensures Reaches(g, x, v) && Reaches(g, v, x)
    {
      ReachesRoot(g, index, low, stack, path, v, x);
    }
    forall c, x: nat, y: nat | c in comps + [scc] && x in c && y in c
      ensures Reaches(g, x, y)
    {
      if c == scc {
        ReachesTrans(g, x, v, y);
      } else {
        assert c in comps;
      }
    }
    forall c, x: nat, z: nat | c in comps + [scc] && x in c && Reaches(g, x, z) && Reaches(g, z, x)
      ensures z in c
    {
      if c == scc {
        ReachesTrans(g, v, x, z);
        ReachesTrans(g, z, x, v);
        var p :| IsPath(g, p) && p[0] == v && p[|p| - 1] == z;
        StaysAbove(g, index, low, onStack, counter, stack, comps, path, v, p, |p| - 1);
      } else {
        assert c in comps;
      }
    }
  }

  lemma PopFinished(g: Digraph, index: seq<int>, low: seq<int>, onStack: seq<bool>, onStack': seq<bool>,
                    path: seq<nat>, v: nat)
    requires WellFormed(g) && |index| == |low| == |onStack| == |onStack'| == |g.names| && v < |g.names|
    requires Finished(g, index, low, onStack, path + [v]) && EdgesDone(g, index, low, onStack, v, |g.succ[v]|)
    requires forall x :: 0 <= x < |g.names| && onStack'[x] ==> onStack[x]
    ensures Finished(g, index, low, onStack', path)
  {
    forall p: nat | p < |g.names| && 0 <= index[p] && p !in path
      ensures EdgesDone(g, index, low, onStack', p, |g.succ[p]|)
    {
      assert EdgesDone(g, index, low, onStack, p, |g.succ[p]|);
    }
  }

  lemma PopWitness(g: Digraph, index: seq<int>, low: seq<int>, stack: seq<nat>, below: seq<nat>, v: nat)
    requires |index| == |low| && v < |index| && forall x :: x in stack ==> x < |index|
    requires LowWitnessed(g, index, low, stack)
    requires forall x :: x in below ==> x < |index| && 0 <= index[x] && low[x] <= index[x]
    requires forall x :: x in below <==> x in stack && index[x] < index[v]
    ensures LowWitnessed(g, index, low, below)
  {
    forall y: nat | y in below && y < |low|
      ensures exists z: nat :: z in below && z < |index| && index[z] == low[y] && Reaches(g, y, z)
    {
      assert LowSource(g, index, low, stack, y);
      var z: nat :| z in stack && z < |index| && index[z] == low[y] && Reaches(g, y, z);
      assert z in below;
    }
  }

  lemma PopUnrooted(index: seq<int>, low: seq<int>, stack: seq<nat>, below: seq<nat>, path: seq<nat>, v: nat)
    requires |index| == |low| && v < |index| && Unrooted(index, low, stack, path + [v])
    requires forall x :: x in below ==> x in stack && x < |index| && index[x] < index[v]
    ensures Unrooted(index, low, below, path)
  {
    forall y: nat | y in below && y !in path && y < |index|
      ensures low[y] < index[y]
    {
      assert y != v;
    }
  }

  lemma ShorterPrefix(s: seq<nat>, below: seq<nat>, v: nat)
    requires |below| < |s| && s[..|below| + 1] == below + [v]
    ensures s[..|below|] == below && s[|below|] == v
  {
    assert s[..|below|] == s[..|below| + 1][..|below|];
    assert s[|below|] == s[..|below| + 1][|below|];
  }

  lemma LongerPrefix(a: seq<nat>, b: seq<nat>, c: seq<nat>)
    requires |a| <= |b| <= |c| && b[..|a|] == a && c[..|b|] == b
    ensures c[..|a|] == a
  {
    assert c[..|b|][..|a|] == c[..|a|];
  }

  /** Returning from the call for a root `v` after popping its component. */
  lemma ReachRoot(g: Digraph, index: seq<int>, low: seq<int>, onStack: seq<bool>, onStack': seq<bool>,
                  counter: nat, stack: seq<nat>, below: seq<nat>, scc: seq<nat>, comps: seq<seq<nat>>,
                  path: seq<nat>, v: nat)
    requires WellFormed(g) && TarjanState(|g.names|, index, low, onStack, counter, stack, comps)
    requires TarjanReach(g, index, low, onStack, stack, comps, path + [v])
    requires v < |g.names| && low[v] == index[v]
    requires EdgesDone(g, index, low, onStack, v, |g.succ[v]|) && LowAbove(index, low, stack, v)
    requires |below| < |stack| && stack[..|below| + 1] == below + [v]
    requires multiset(scc) + multiset(below) == multiset(stack)
    requires |onStack'| == |g.names| && forall x :: 0 <= x < |g.names| ==> (onStack'[x] <==> x in below)
    ensures TarjanReach(g, index, low, onStack', below, comps + [scc], path)
    ensures forall x :: x in below ==> x < |index| && index[x] < index[v]
  {
    StackOnce(|g.names|, index, low, onStack, counter, stack, comps);
    PoppedAbove(index, stack, below, scc, v);
    OrderPrefix(index, stack, |below|);
    ShorterPrefix(stack, below, v);
    OrderPrefix(index, path + [v], |path|);
    assert (path + [v])[..|path|] == path;
    PopWitness(g, index, low, stack, below, v);
    PopFinished(g, index, low, onStack, onStack', path, v);
    PopIsComponent(g, index, low, onStack, counter, stack, comps, path, v, scc);
    PopUnrooted(index, low, stack, below, path, v);
    assert RunningReach(g, index, path) by {
      forall a: nat, x: nat | a in path && a < |index| && x < |index| && index[a] <= index[x]
        ensures Reaches(g, a, x)
      {
        assert a in path + [v];
      }
    }
  }

  /**
   * The state of `dfs` from `start`: every vertex on the stack or visited is
   * reachable; `visited` marks exactly the vertices listed in `order`, each
   * listed once, `start` first; and every successor of a visited vertex is
   * visited or still on the stack.
   */
  ghost predicate DfsState(g: Digraph, start: nat, visited: seq<bool>, stack: seq<nat>, order: seq<nat>)
    requires WellFormed(g)
  {
    && |visited| == |g.names| && start < |g.names|
    && (forall i :: 0 <= i < |stack| ==> stack[i] < |g.names|)
    && (forall x :: x in stack ==> x < |g.names| && Reaches(g, start, x))
    && (forall x :: x in order ==> x < |g.names| && Reaches(g, start, x))
    && (forall x :: 0 <= x < |visited| ==> (visited[x] <==> x in order))
    && Distinct(order)
    && (order == [] ==> stack == [start])
    && (order != [] ==> order[0] == start)
    && (forall x, j :: x in order && 0 <= j < |g.succ[x]| ==> visited[g.succ[x][j]] || g.succ[x][j] in stack)
  }

  /** The vertices `dfs` has not visited yet. */
  ghost function Unvisited(visited: seq<bool>): set<nat>
  {
    set x: nat | x < |visited| && !visited[x]
  }

  /**
   * The order in which the traversal of `dfs` meets vertices: it pops the
   * top of the stack, skips it when already visited, and otherwise lists it,
   * marks it and pushes its successors in their stored order, so the last
   * one pushed is met first.
   */
  function DfsOrder(g: Digraph, visited: seq<bool>, stack: seq<nat>, order: seq<nat>): (r: seq<nat>)
    requires WellFormed(g) && |visited| == |g.names|
    requires forall i :: 0 <= i < |stack| ==> stack[i] < |g.names|
    requires forall x :: x in order ==> x < |g.names|
    ensures |order| <= |r| && r[..|order|] == order
    ensures forall i :: 0 <= i < |r| ==> r[i] < |g.names|
    decreases Unvisited(visited), |stack|
  {
    if stack == [] then
      assert forall i :: 0 <= i < |order| ==> order[i] in order;
      order
    else
      var v := stack[|stack| - 1];
      if visited[v] then DfsOrder(g, visited, stack[..|stack| - 1], order)
      else
        assert v in Unvisited(visited) && v !in Unvisited(visited[v := true]);
        assert Unvisited(visited[v := true]) <= Unvisited(visited);
        var r := DfsOrder(g, visited[v := true], stack[..|stack| - 1] + g.succ[v], order + [v]);
        assert r[..|order|] == r[..|order| + 1][..|order|];
        r
  }

  lemma DfsStart(g: Digraph, start: nat, visited: seq<bool>)
    requires WellFormed(g) && start < |g.names|
    requires |visited| == |g.names| && forall x :: 0 <= x < |visited| ==> !visited[x]
    ensures DfsState(g, start, visited, [start], [])
  {
    ReachesSelf(g, start);
  }

  /** Visiting the unvisited top of the stack: it is listed and its successors are pushed. */
  lemma DfsVisit(g: Digraph, start: nat, visited: seq<bool>, stack: seq<nat>, order: seq<nat>)
    requires WellFormed(g) && DfsState(g, start, visited, stack, order)
    requires |stack| > 0 && !visited[stack[|stack| - 1]]
    ensures var v := stack[|stack| - 1];
      && DfsState(g, start, visited[v := true], stack[..|stack| - 1] + g.succ[v], order + [v])
      && Unvisited(visited[v := true]) < Unvisited(visited)
  {
    var v := stack[|stack| - 1];
    var stack' := stack[..|stack| - 1] + g.succ[v];
    assert v in stack;
    assert forall x :: x in stack[..|stack| - 1] ==> x in stack;
    forall x | x in stack'
      ensures x < |g.names| && Reaches(g, start, x)
    {
      if x !in stack[..|stack| - 1] {
        var j :| 0 <= j < |g.succ[v]| && g.succ[v][j] == x;
        ReachesStep(g, start, v, j);
      }
    }
    forall x, j | x in order + [v] && 0 <= j < |g.succ[x]|
      ensures visited[v := true][g.succ[x][j]] || g.succ[x][j] in stack'
    {
      if x == v {
        assert g.succ[v][j] in stack';
      } else if g.succ[x][j] in stack && g.succ[x][j] != v {
        assert g.succ[x][j] in stack[..|stack| - 1] by {
          assert stack == stack[..|stack| - 1] + [v];
        }
      }
    }
    assert v in Unvisited(visited);
  }

  /** Popping a visited vertex changes nothing else. */
  lemma DfsSkip(g: Digraph, start: nat, visited: seq<bool>, stack: seq<nat>, order: seq<nat>)
    requires WellFormed(g) && DfsState(g, start, visited, stack, order)
    requires |stack| > 0 && visited[stack[|stack| - 1]]
    ensures DfsState(g, start, visited, stack[..|stack| - 1], order)
  {
    var v := stack[|stack| - 1];
    assert v in stack;
    assert stack == stack[..|stack| - 1] + [v];
    assert forall x :: x in stack[..|stack| - 1] ==> x in stack;
  }

  /** When the stack is empty the visited vertices are closed under successors, hence all the reachable ones. */
  lemma DfsDone(g: Digraph, start: nat, visited: seq<bool>, order: seq<nat>)
    requires WellFormed(g) && DfsState(g, start, visited, [], order)
    ensures |order| > 0 && order[0] == start
    ensures forall x :: 0 <= x < |g.names| && Reaches(g, start, x) ==> x in order
  {
    var reached := set x | x in order;
    forall x | 0 <= x < |g.names| && Reaches(g, start, x)
      ensures x in order
    {
      var p :| IsPath(g, p) && p[0] == start && p[|p| - 1] == x;
      ClosedHoldsReachable(g, reached, start, p);
    }
  }

  /** The names of the vertices at `positions`, in that order. */
  function NamesAt(names: seq<string>, positions: seq<nat>): seq<string>
    requires forall i :: 0 <= i < |positions| ==> positions[i] < |names|
  {
    seq(|positions|, i requires 0 <= i < |positions| => names[positions[i]])
  }

  /** What `dfs` from `start` promises: each vertex once, `start` first, exactly the reachable ones. */
  ghost predicate Traversal(g: Digraph, start: nat, order: seq<nat>)
    requires WellFormed(g)
  {
    && |order| > 0 && order[0] == start && Distinct(order)
    && (forall x :: x in order ==> x < |g.names| && Reaches(g, start, x))
    && (forall x :: 0 <= x < |g.names| && Reaches(g, start, x) ==> x in order)
  }

  /**
   * The names a traversal from `start` lists after `start` itself are each
   * listed once, never `start`'s, and are the names of exactly the vertices
   * reachable from `start`, other than `start`.
   */
  lemma DescendantsOf(g: Digraph, start: nat, order: seq<nat>)
    requires WellFormed(g) && start < |g.names| && Traversal(g, start, order)
    ensures forall i :: 0 <= i < |order[1..]| ==> order[1..][i] < |g.names|
    ensures var r := NamesAt(g.names, order[1..]);
      && g.names[start] !in r
      && Distinct(r)
      && forall x :: x in r <==> x in g.names && x != g.names[start] && Reaches(g, start, IndexOf(g.names, x))
  {
    assert forall i :: 0 <= i < |order[1..]| ==> order[1..][i] == order[i + 1] && order[i + 1] in order;
    DescendantsSound(g, start, order);
    DescendantsDistinct(g, start, order);
    DescendantsComplete(g, start, order);
  }

  lemma DescendantsSound(g: Digraph, start: nat, order: seq<nat>)
    requires WellFormed(g) && start < |g.names| && Traversal(g, start, order)
    requires forall i :: 0 <= i < |order[1..]| ==> order[1..][i] < |g.names|
    ensures var r := NamesAt(g.names, order[1..]);
      forall i :: 0 <= i < |r| ==> r[i] != g.names[start] && Reaches(g, start, IndexOf(g.names, r[i]))
  {
    var rest := order[1..];
    var r := NamesAt(g.names, rest);
    forall i | 0 <= i < |r|
      ensures r[i] != g.names[start] && Reaches(g, start, IndexOf(g.names, r[i]))
    {
      assert rest[i] == order[i + 1] && rest[i] in order;
      IndexOfDistinct(g.names, rest[i]);
    }
  }

  lemma DescendantsDistinct(g: Digraph, start: nat, order: seq<nat>)
    requires WellFormed(g) && start < |g.names| && Traversal(g, start, order)
    requires forall i :: 0 <= i < |order[1..]| ==> order[1..][i] < |g.names|
    ensures Distinct(NamesAt(g.names, order[1..]))
  {
    var r := NamesAt(g.names, order[1..]);
    forall i, j | 0 <= i < j < |r|
      ensures r[i] != r[j]
    {
      assert order[i + 1] != order[j + 1];
    }
  }

  lemma DescendantsComplete(g: Digraph, start: nat, order: seq<nat>)
    requires WellFormed(g) && start < |g.names| && Traversal(g, start, order)
    requires forall i :: 0 <= i < |order[1..]| ==> order[1..][i] < |g.names|
    ensures forall x :: x in g.names && x != g.names[start] && Reaches(g, start, IndexOf(g.names, x)) ==>
              x in NamesAt(g.names, order[1..])
  {
    var r := NamesAt(g.names, order[1..]);
    forall x | x in g.names && x != g.names[start] && Reaches(g, start, IndexOf(g.names, x))
      ensures x in r
    {
      var i :| 0 <= i < |order| && order[i] == IndexOf(g.names, x);
      assert i != 0;
      assert r[i - 1] == x;
    }
  }

  /** A set of vertices that holds `from` and is closed under successors holds all it reaches. */
  lemma {:induction false} ClosedHoldsReachable(g: Digraph, s: set<nat>, from: nat, p: seq<nat>)
    requires WellFormed(g) && from in s
    requires forall x, j :: x in s && x < |g.succ| && 0 <= j < |g.succ[x]| ==> g.succ[x][j] in s
    requires IsPath(g, p) && p[0] == from
    ensures p[|p| - 1] in s
    decreases |p|
  {
    if |p| > 1 {
      var q := p[..|p| - 1];
      assert IsPath(g, q);
      ClosedHoldsReachable(g, s, from, q);
      var x := q[|q| - 1];
      assert p[|p| - 1] in g.succ[x];
      var j :| 0 <= j < |g.succ[x]| && g.succ[x][j] == p[|p| - 1];
    }
  }

  // ---------------------------------------------------------------- Tarjan's traversal as functions

  /**
   * The marks of Tarjan's traversal: index, low link and on-stack flag per
   * vertex, the next index, the stack, and the components found so far in the
   * order they were completed.
   */
  datatype Marks = Marks(index: seq<int>, low: seq<int>, onStack: seq<bool>, counter: nat,
                         stack: seq<nat>, comps: seq<seq<nat>>)

  /** Marks that fit the vertices of `g`. */
  ghost predicate Shaped(g: Digraph, s: Marks)
  {
    && |g.succ| == |g.names| && Bounded(g.succ, |g.names|)
    && |s.index| == |g.names| && |s.low| == |g.names| && |s.onStack| == |g.names|
    && (forall x :: x in s.stack ==> x < |g.names|)
  }

  /** The start of `stronglyConnect(v)`: `v` takes the next index as index and low link and is pushed. */
  ghost function Opened(g: Digraph, s: Marks, v: nat): (r: Marks)
    requires Shaped(g, s) && v < |g.names| && s.index[v] < 0
    ensures Shaped(g, r) && Unnumbered(r.index) == Unnumbered(s.index) - {v}
  {
    Marks(s.index[v := s.counter], s.low[v := s.counter], s.onStack[v := true], s.counter + 1,
          s.stack + [v], s.comps)
  }

  /**
   * The `do ... while (w !== v)` loop: pops the stack down to and including
   * `v`, clearing each popped vertex's on-stack flag and appending it to
   * `scc`.  Yields the flags, the rest of the stack and the component.
   */
  ghost function Popped(v: nat, onStack: seq<bool>, stack: seq<nat>, scc: seq<nat>): (r: (seq<bool>, seq<nat>, seq<nat>))
    requires forall x :: x in stack ==> x < |onStack|
    ensures |r.0| == |onStack| && forall x :: x in r.1 ==> x in stack
    decreases |stack|
  {
    if stack == [] then (onStack, stack, scc)
    else
      var w, rest := stack[|stack| - 1], stack[..|stack| - 1];
      assert stack == rest + [w] && w in stack;
      assert forall x :: x in rest ==> x in stack;
      if w == v then (onStack[w := false], rest, scc + [w])
      else Popped(v, onStack[w := false], rest, scc + [w])
  }

  /** The end of `stronglyConnect(v)`: a root pops its component, which is appended to the components. */
  ghost function Closed(g: Digraph, s: Marks, v: nat): (r: Marks)
    requires Shaped(g, s) && v < |g.names|
    ensures Shaped(g, r) && r.index == s.index
  {
    if s.low[v] == s.index[v] then
      var p := Popped(v, s.onStack, s.stack, []);
      s.(onStack := p.0, stack := p.1, comps := s.comps + [p.2])
    else s
  }

  /** `stronglyConnect(v)` on the marks `s`. */
  ghost function Connected(g: Digraph, v: nat, s: Marks): (r: Marks)
    requires Shaped(g, s) && v < |g.names| && s.index[v] < 0
    ensures Shaped(g, r) && Unnumbered(r.index) <= Unnumbered(s.index) - {v}
    decreases Unnumbered(s.index), 2
  {
    Closed(g, VisitedFrom(g, v, 0, Opened(g, s, v), Unnumbered(s.index)), v)
  }

  /** The `forEach` over the successors of `v`, from the `i`-th on. */
  ghost function VisitedFrom(g: Digraph, v: nat, i: nat, s: Marks, entry: set<nat>): (r: Marks)
    requires Shaped(g, s) && v < |g.names| && i <= |g.succ[v]|
    requires v in entry && Unnumbered(s.index) <= entry - {v}
    ensures Shaped(g, r) && Unnumbered(r.index) <= Unnumbered(s.index)
    decreases entry, 1, |g.succ[v]| - i
  {
    if i == |g.succ[v]| then s else VisitedFrom(g, v, i + 1, Visited(g, v, i, s, entry), entry)
  }

  /**
   * One round of the `forEach`: an unnumbered successor is visited and
   * lowers the low link of `v` to its own; one on the stack lowers it to its
   * index; any other is skipped.
   */
  ghost function Visited(g: Digraph, v: nat, i: nat, s: Marks, entry: set<nat>): (r: Marks)
    requires Shaped(g, s) && v < |g.names| && i < |g.succ[v]|
    requires v in entry && Unnumbered(s.index) <= entry - {v}
    ensures Shaped(g, r) && Unnumbered(r.index) <= Unnumbered(s.index)
    decreases entry, 0
  {
    var w := g.succ[v][i];
    if s.index[w] < 0 then
      var c := Connected(g, w, s);
      c.(low := c.low[v := if c.low[v] < c.low[w] then c.low[v] else c.low[w]])
    else if s.onStack[w] then
      s.(low := s.low[v := if s.low[v] < s.index[w] then s.low[v] else s.index[w]])
    else s
  }

  /** The outer loop of `getStronglyConnectedComponents`, from the `v`-th vertex on. */
  ghost function Swept(g: Digraph, v: nat, s: Marks): (r: Marks)
    requires Shaped(g, s) && v <= |g.names|
    ensures Shaped(g, r)
    decreases |g.names| - v
  {
    if v == |g.names| then s
    else Swept(g, v + 1, if s.index[v] < 0 then Connected(g, v, s) else s)
  }

  /** Unvisited marks for `n` vertices. */
  function Unmarked(n: nat): Marks
  {
    Marks(seq(n, _ => -1), seq(n, _ => -1), seq(n, _ => false), 0, [], [])
  }

  /**
   * The components in the order Tarjan's traversal completes them, starting
   * from the vertices in insertion order, each listed in the order it is
   * popped: the order `getCycles` and the cycle message use.
   */
  ghost function ComponentOrder(g: Digraph): seq<seq<nat>>
    requires WellFormed(g)
  {
    Swept(g, 0, Unmarked(|g.names|)).comps
  }

  /**
   * The graph of `foo` and the alias `alias1` pointing at each other, `foo`
   * added first: the traversal starts at `foo`, reaches `alias1`, sees `foo`
   * still on the stack, and closes at `foo`, popping `alias1` before `foo`.
   * So the report names `alias1` first: by `TwoVertexCycleReport` its one
   * line is `alias1 -> foo -> alias1`.
   */
  lemma AliasCycleOrder()
    ensures var g := Digraph(["foo", "alias1"], [[1], [0]]);
      WellFormed(g) && ComponentOrder(g) == [[1, 0]]
  {
    var g := Digraph(["foo", "alias1"], [[1], [0]]);
    assert WellFormed(g);
    var s4 := Marks([0, 1], [0, 0], [false, false], 2, [], [[1, 0]]);
    AliasFromFoo();
    assert Swept(g, 0, Unmarked(2)) == Swept(g, 1, s4);
    assert Swept(g, 1, s4) == s4;
  }

  /** The traversal from `foo` numbers both vertices and completes the one component, `alias1` popped first. */
  lemma AliasFromFoo()
    ensures Connected(Digraph(["foo", "alias1"], [[1], [0]]), 0, Unmarked(2)) ==
            Marks([0, 1], [0, 0], [false, false], 2, [], [[1, 0]])
  {
    var g := Digraph(["foo", "alias1"], [[1], [0]]);
    var s0 := Unmarked(2);
    var s1 := Marks([0, -1], [0, -1], [true, false], 1, [0], []);
    var s3 := Marks([0, 1], [0, 0], [true, true], 2, [0, 1], []);
    assert Unnumbered(s0.index) == {0, 1};
    assert Opened(g, s0, 0) == s1;
    AliasFromAlias();
    assert Visited(g, 0, 0, s1, {0, 1}) == s3;
    assert VisitedFrom(g, 0, 1, s3, {0, 1}) == s3;
    assert VisitedFrom(g, 0, 0, s1, {0, 1}) == s3;
    AliasPopped();
    ConnectedParts(g, 0, s0);
  }

  /** From `alias1`, `foo` is found on the stack: the low link of `alias1` drops to 0 and nothing is popped. */
  lemma AliasFromAlias()
    ensures Connected(Digraph(["foo", "alias1"], [[1], [0]]), 1, Marks([0, -1], [0, -1], [true, false], 1, [0], [])) ==
            Marks([0, 1], [0, 0], [true, true], 2, [0, 1], [])
  {
    var g := Digraph(["foo", "alias1"], [[1], [0]]);
    var s1 := Marks([0, -1], [0, -1], [true, false], 1, [0], []);
    var s2 := Marks([0, 1], [0, 1], [true, true], 2, [0, 1], []);
    var s3 := Marks([0, 1], [0, 0], [true, true], 2, [0, 1], []);
    assert Unnumbered(s1.index) == {1};
    assert Opened(g, s1, 1) == s2;
    assert Visited(g, 1, 0, s2, {1}) == s3;
    assert VisitedFrom(g, 1, 0, s2, {1}) == s3;
    ConnectedParts(g, 1, s1);
  }

  /** Closing at `foo` pops `alias1`, then `foo`. */
  lemma AliasPopped()
    ensures Popped(0, [true, true], [0, 1], []) == ([false, false], [], [1, 0])
  {
    assert [0, 1][..1] == [0] && [true, true][1 := false] == [true, false] && [] + [1] == [1];
    assert Popped(0, [true, true], [0, 1], []) == Popped(0, [true, false], [0], [1]);
    assert [0][..0] == [] && [true, false][0 := false] == [false, false] && [1] + [0] == [1, 0];
  }

  /** A root closes by popping its component off the stack and appending it. */
  lemma ClosedRoot(g: Digraph, s: Marks, v: nat, onStack: seq<bool>, rest: seq<nat>, scc: seq<nat>)
    requires Shaped(g, s) && v < |g.names| && s.low[v] == s.index[v]
    requires (onStack, rest, scc) == Popped(v, s.onStack, s.stack, [])
    ensures Closed(g, s, v) == Marks(s.index, s.low, onStack, s.counter, rest, s.comps + [scc])
  {
  }

  /** A vertex that is not a root leaves the marks as they are. */
  lemma ClosedNoRoot(g: Digraph, s: Marks, v: nat)
    requires Shaped(g, s) && v < |g.names| && s.low[v] != s.index[v]
    ensures Closed(g, s, v) == s
  {
  }

  /** The round of an unnumbered successor: its traversal, then the low link of `v` lowered to the successor's. */
  lemma VisitedChild(g: Digraph, v: nat, i: nat, s: Marks, entry: set<nat>, c: Marks)
    requires Shaped(g, s) && v < |g.names| && i < |g.succ[v]|
    requires v in entry && Unnumbered(s.index) <= entry - {v}
    requires s.index[g.succ[v][i]] < 0 && c == Connected(g, g.succ[v][i], s)
    ensures Visited(g, v, i, s, entry) ==
            c.(low := c.low[v := if c.low[v] < c.low[g.succ[v][i]] then c.low[v] else c.low[g.succ[v][i]]])
  {
  }

  /** One vertex of the outer loop: traversed from if still unnumbered, skipped otherwise. */
  lemma SweptStep(g: Digraph, v: nat, s: Marks, t: Marks)
    requires Shaped(g, s) && v < |g.names|
    requires t == if s.index[v] < 0 then Connected(g, v, s) else s
    ensures Swept(g, v, s) == Swept(g, v + 1, t)
  {
  }

  /** `stronglyConnect(v)` is its three parts in sequence: open, visit the successors, close. */
  lemma ConnectedParts(g: Digraph, v: nat, s: Marks)
    requires Shaped(g, s) && v < |g.names| && s.index[v] < 0
    ensures Connected(g, v, s) == Closed(g, VisitedFrom(g, v, 0, Opened(g, s, v), Unnumbered(s.index)), v)
  {
  }

  // ---------------------------------------------------------------- the graph object

  class Graph {
    var names: seq<string>
    var succ: seq<seq<nat>>

    ghost predicate Valid()
      reads this
    {
      WellFormed(Digraph(names, succ))
    }

    function Value(): Digraph
      reads this
    {
      Digraph(names, succ)
    }

    /** `new Graph()`: no vertices. */
    constructor ()
      ensures Valid() && names == [] && succ == []
    {
      names := [];
      succ := [];
    }

    /** The lookup-or-create step `add` performs for each name: `vertices[d] || new Vertex(d, [])`. */
    method EnsureVertex(d: string) returns (p: nat)
      requires Valid()
      modifies this
      ensures Valid()
      ensures names == WithVertex(old(names), d)
      ensures succ == old(succ) + Empties(|names| - |old(names)|)
      ensures p < |names| && names[p] == d
    {
      if d !in names {
        names := names + [d];
        succ := succ + [[]];
      }
      p := IndexOf(names, d);
    }

    /** The `descendants.map(...)` step of `add`: a vertex for each dependency, and their positions. */
    method EnsureVertices(list: seq<string>) returns (positions: seq<nat>)
      requires Valid()
      modifies this
      ensures Valid()
      ensures names == WithPlaceholders(old(names), list) && |old(names)| <= |names|
      ensures succ == old(succ) + Empties(|names| - |old(names)|)
      ensures |positions| == |list|
      ensures forall j :: 0 <= j < |list| ==> positions[j] < |names| && names[positions[j]] == list[j]
    {
      positions := [];
      var i := 0;
      while i < |list|
        invariant 0 <= i <= |list|
        invariant Valid()
        invariant names == WithPlaceholders(old(names), list[..i])
        invariant |old(names)| <= |names|
        invariant succ == old(succ) + Empties(|names| - |old(names)|)
        invariant |positions| == i
        invariant forall j :: 0 <= j < i ==> positions[j] < |names| && names[positions[j]] == list[j]
      {
        ghost var before := names;
        var p := EnsureVertex(list[i]);
        assert list[..i + 1][..i] == list[..i];
        assert names == WithPlaceholders(old(names), list[..i + 1]);
        assert forall j :: 0 <= j < |before| ==> names[j] == before[j];
        positions := positions + [p];
        i := i + 1;
      }
      assert list[..i] == list;
    }

    /** `add(key, descendants)`. */
    method Add(key: string, deps: Dependencies)
      requires Valid()
      modifies this
      ensures Valid()
      ensures Value() == Added(old(Value()), key, AsList(deps))
    {
      var list := AsList(deps);
      ghost var g0 := Value();
      var positions := EnsureVertices(list);
      ghost var placeholders := succ;
      var k := EnsureVertex(key);
      assert succ == g0.succ + Empties(|names| - |g0.names|) by {
        assert succ == placeholders + Empties(|names| - |placeholders|);
      }
      AddedFromSteps(g0, key, list, names, succ, positions, k);
      AddedWellFormed(g0, key, list);
      succ := succ[k := Reverse(positions)];
    }

    /**
     * `getStronglyConnectedComponents()`: Tarjan's algorithm, starting from
     * the vertices in insertion order.  The components, as vertex positions,
     * partition the vertex set, and each is a strongly connected component:
     * two vertices share one exactly when each reaches the other.
     */
    method StronglyConnectedComponents() returns (comps: seq<seq<nat>>)
      requires Valid()
      ensures IsPartition(comps, |names|) && AreComponents(Value(), comps)
      ensures comps == ComponentOrder(Value())
    {
      var n := |names|;
      var index := new int[n](_ => -1);
      var low := new int[n](_ => -1);
      var onStack := new bool[n](_ => false);
      var counter := 0;
      var stack: seq<nat> := [];
      comps := [];
      TarjanStart(n, index[..], low[..], onStack[..]);
      ReachStart(Value(), index[..], low[..], onStack[..]);
      ghost var g := Value();
      assert Marks(index[..], low[..], onStack[..], counter, [], comps) == Unmarked(n);
      for v := 0 to n
        invariant TarjanState(n, index[..], low[..], onStack[..], counter, [], comps)
        invariant TarjanReach(Value(), index[..], low[..], onStack[..], [], comps, [])
        invariant NumberedBelow(index[..], v)
        invariant Swept(g, 0, Unmarked(n)) == Swept(g, v, Marks(index[..], low[..], onStack[..], counter, [], comps))
      {
        counter, comps := SweepVertex(v, index, low, onStack, counter, comps);
      }
      TarjanDone(n, index[..], low[..], onStack[..], counter, comps);
    }

    /** One round of the outer loop: `stronglyConnect(v)` unless `v` is already numbered. */
    method SweepVertex(v: nat, index: array<int>, low: array<int>, onStack: array<bool>,
                       counter: nat, comps: seq<seq<nat>>)
      returns (counter': nat, comps': seq<seq<nat>>)
      requires Valid() && index != low && v < |names|
      requires TarjanState(|names|, index[..], low[..], onStack[..], counter, [], comps)
      requires TarjanReach(Value(), index[..], low[..], onStack[..], [], comps, [])
      requires NumberedBelow(index[..], v)
      modifies index, low, onStack
      ensures TarjanState(|names|, index[..], low[..], onStack[..], counter', [], comps')
      ensures TarjanReach(Value(), index[..], low[..], onStack[..], [], comps', [])
      ensures NumberedBelow(index[..], v + 1)
      ensures Swept(Value(), v, Marks(old(index[..]), old(low[..]), old(onStack[..]), counter, [], comps)) ==
              Swept(Value(), v + 1, Marks(index[..], low[..], onStack[..], counter', [], comps'))
    {
      ghost var s := Marks(index[..], low[..], onStack[..], counter, [], comps);
      counter', comps' := counter, comps;
      if index[v] < 0 {
        ghost var index0, low0 := index[..], low[..];
        NoFloorYet(|names|, index[..], low[..], onStack[..], counter, comps);
        var stack;
        counter', stack, comps' := StrongConnect(v, index, low, onStack, counter, [], comps, counter, []);
        NumberedMore(index0, low0, index[..], low[..], v);
      } else {
        NumberedMore(index[..], low[..], index[..], low[..], v);
      }
      SweptStep(Value(), v, s, Marks(index[..], low[..], onStack[..], counter', [], comps'));
    }

    /** `stronglyConnect(v)`. */
    method StrongConnect(v: nat, index: array<int>, low: array<int>, onStack: array<bool>,
                         counter: nat, stack: seq<nat>, comps: seq<seq<nat>>, ghost floor: int,
                         ghost path: seq<nat>)
      returns (counter': nat, stack': seq<nat>, comps': seq<seq<nat>>)
      requires Valid() && index != low
      requires TarjanState(|names|, index[..], low[..], onStack[..], counter, stack, comps)
      requires AboveFloor(|names|, index[..], low[..], onStack[..], floor) && floor <= counter
      requires TarjanReach(Value(), index[..], low[..], onStack[..], stack, comps, path)
      requires v < |names| && index[v] < 0
      requires path == [] || (path[|path| - 1] < |names| && v in succ[path[|path| - 1]])
      modifies index, low, onStack
      ensures TarjanState(|names|, index[..], low[..], onStack[..], counter', stack', comps')
      ensures AboveFloor(|names|, index[..], low[..], onStack[..], floor)
      ensures TarjanReach(Value(), index[..], low[..], onStack[..], stack', comps', path)
      ensures counter < counter' && index[v] == counter
      ensures KeepsNumbered(old(index[..]), old(low[..]), index[..], low[..])
      ensures |stack| <= |stack'| && stack'[..|stack|] == stack
      ensures stack' == stack || stack'[|stack|] == v
      ensures LowAbove(index[..], low[..], stack', v)
      ensures low[v] == index[v] ==> stack' == stack
      ensures low[v] != index[v] ==> v in stack'
      ensures counter == floor ==> stack' == stack
      ensures Marks(index[..], low[..], onStack[..], counter', stack', comps') ==
              Connected(Value(), v, Marks(old(index[..]), old(low[..]), old(onStack[..]), counter, stack, comps))
      decreases Unnumbered(index[..]), 4
    {
      ghost var index0, low0 := index[..], low[..];
      ghost var g, s0 := Value(), Marks(index[..], low[..], onStack[..], counter, stack, comps);
      OpenVertex(v, index, low, onStack, counter, stack, comps, floor, path);
      assert Marks(index[..], low[..], onStack[..], counter + 1, stack + [v], comps) == Opened(g, s0, v);
      counter', stack', comps' := VisitAndClose(v, index, low, onStack, counter + 1, stack + [v], comps, stack, floor,
                                                Unnumbered(index0), index0, low0, path, s0);
    }

    /** The rest of `stronglyConnect(v)` once `v` is open: its successors, then its component if it is a root. */
    method VisitAndClose(v: nat, index: array<int>, low: array<int>, onStack: array<bool>,
                         counter: nat, stack: seq<nat>, comps: seq<seq<nat>>, ghost below: seq<nat>, ghost floor: int,
                         ghost entry: set<nat>, ghost index0: seq<int>, ghost low0: seq<int>, ghost path: seq<nat>,
                         ghost before: Marks)
      returns (counter': nat, stack': seq<nat>, comps': seq<seq<nat>>)
      requires Valid() && index != low
      requires KeepsNumbered(index0, low0, index[..], low[..]) && v < |index0| && index0[v] < 0
      requires TarjanState(|names|, index[..], low[..], onStack[..], counter, stack, comps)
      requires AboveFloor(|names|, index[..], low[..], onStack[..], floor)
      requires TarjanReach(Value(), index[..], low[..], onStack[..], stack, comps, path + [v])
      requires v < |names| && floor <= index[v] && stack == below + [v] && LowAbove(index[..], low[..], stack, v)
      requires v in entry && Unnumbered(index[..]) <= entry - {v}
      requires Shaped(Value(), before) && before.index[v] < 0 && entry == Unnumbered(before.index)
      requires Marks(index[..], low[..], onStack[..], counter, stack, comps) == Opened(Value(), before, v)
      modifies index, low, onStack
      ensures TarjanState(|names|, index[..], low[..], onStack[..], counter', stack', comps')
      ensures AboveFloor(|names|, index[..], low[..], onStack[..], floor)
      ensures TarjanReach(Value(), index[..], low[..], onStack[..], stack', comps', path)
      ensures counter <= counter' && index[v] == old(index[v])
      ensures KeepsNumbered(index0, low0, index[..], low[..])
      ensures |below| <= |stack'| && stack'[..|below|] == below
      ensures stack' == below || stack'[|below|] == v
      ensures LowAbove(index[..], low[..], stack', v)
      ensures low[v] == index[v] ==> stack' == below
      ensures low[v] != index[v] ==> v in stack'
      ensures index[v] == floor ==> stack' == below
      ensures Marks(index[..], low[..], onStack[..], counter', stack', comps') == Connected(Value(), v, before)
      decreases entry, 3
    {
      ConnectedParts(Value(), v, before);
      counter', stack', comps' := VisitSuccessors(v, index, low, onStack, counter, stack, comps, floor,
                                                  entry, index0, low0, path + [v]);
      stack', comps' := CloseVertex(v, index, low, onStack, counter', stack', comps', below, floor, path);
    }

    /** The start of `stronglyConnect(v)`: `v` takes the next index as index and low link, and is pushed. */
    method OpenVertex(v: nat, index: array<int>, low: array<int>, onStack: array<bool>,
                      counter: nat, stack: seq<nat>, comps: seq<seq<nat>>, ghost floor: int, ghost path: seq<nat>)
      requires Valid() && index != low
      requires TarjanState(|names|, index[..], low[..], onStack[..], counter, stack, comps)
      requires AboveFloor(|names|, index[..], low[..], onStack[..], floor) && floor <= counter
      requires TarjanReach(Value(), index[..], low[..], onStack[..], stack, comps, path)
      requires v < |names| && index[v] < 0
      requires path == [] || (path[|path| - 1] < |names| && v in succ[path[|path| - 1]])
      modifies index, low, onStack
      ensures index[..] == old(index[..])[v := counter] && low[..] == old(low[..])[v := counter]
      ensures onStack[..] == old(onStack[..])[v := true]
      ensures TarjanState(|names|, index[..], low[..], onStack[..], counter + 1, stack + [v], comps)
      ensures AboveFloor(|names|, index[..], low[..], onStack[..], floor)
      ensures TarjanReach(Value(), index[..], low[..], onStack[..], stack + [v], comps, path + [v])
      ensures LowAbove(index[..], low[..], stack + [v], v)
      ensures KeepsNumbered(old(index[..]), old(low[..]), index[..], low[..])
      ensures v in Unnumbered(old(index[..])) && Unnumbered(index[..]) <= Unnumbered(old(index[..])) - {v}
    {
      ghost var n, g := |names|, Value();
      ghost var index0, low0, onStack0 := index[..], low[..], onStack[..];
      index[v] := counter;
      low[v] := counter;
      onStack[v] := true;
      assert index[..] == index0[v := counter] && low[..] == low0[v := counter] && onStack[..] == onStack0[v := true];
      Push(n, index0, low0, onStack0, counter, stack, comps, v, floor);
      ReachPush(g, index0, low0, onStack0, counter, stack, comps, path, v);
      KeepsNumberedPush(index0, low0, v, counter);
    }

    /** The end of `stronglyConnect(v)`: when `v` is a root, its component leaves the stack. */
    method CloseVertex(v: nat, index: array<int>, low: array<int>, onStack: array<bool>, counter: nat,
                       stack: seq<nat>, comps: seq<seq<nat>>, ghost below: seq<nat>, ghost floor: int,
                       ghost path: seq<nat>)
      returns (stack': seq<nat>, comps': seq<seq<nat>>)
      requires Valid() && index != low
      requires TarjanState(|names|, index[..], low[..], onStack[..], counter, stack, comps)
      requires AboveFloor(|names|, index[..], low[..], onStack[..], floor)
      requires TarjanReach(Value(), index[..], low[..], onStack[..], stack, comps, path + [v])
      requires v < |names| && EdgesDone(Value(), index[..], low[..], onStack[..], v, |succ[v]|)
      requires LowAbove(index[..], low[..], stack, v)
      requires |below| < |stack| && stack[..|below| + 1] == below + [v]
      modifies onStack
      ensures index[..] == old(index[..]) && low[..] == old(low[..])
      ensures TarjanState(|names|, index[..], low[..], onStack[..], counter, stack', comps')
      ensures AboveFloor(|names|, index[..], low[..], onStack[..], floor)
      ensures TarjanReach(Value(), index[..], low[..], onStack[..], stack', comps', path)
      ensures |below| <= |stack'| && stack'[..|below|] == below
      ensures stack' == below || stack'[|below|] == v
      ensures LowAbove(index[..], low[..], stack', v)
      ensures low[v] == index[v] ==> stack' == below
      ensures low[v] != index[v] ==> v in stack'
      ensures index[v] == floor ==> stack' == below
      ensures Marks(index[..], low[..], onStack[..], counter, stack', comps') ==
              Closed(Value(), Marks(old(index[..]), old(low[..]), old(onStack[..]), counter, stack, comps), v)
    {
      ghost var n, g := |names|, Value();
      assert v in path + [v];
      ShorterPrefix(stack, below, v);
      if low[v] == index[v] {
        ghost var onStack1 := onStack[..];
        assert onStack1 == old(onStack[..]);
        StackOnce(n, index[..], low[..], onStack1, counter, stack, comps);
        var rest, scc := PopComponent(v, onStack, stack, below);
        PopKeepsState(n, index[..], low[..], onStack1, onStack[..], counter, stack, rest, scc, comps, floor);
        ReachRoot(g, index[..], low[..], onStack1, onStack[..], counter, stack, below, scc, comps, path, v);
        ClosedRoot(g, Marks(index[..], low[..], onStack1, counter, stack, comps), v, onStack[..], rest, scc);
        stack', comps' := rest, comps + [scc];
      } else {
        ReachNoRoot(g, index[..], low[..], onStack[..], counter, stack, comps, path, v);
        ClosedNoRoot(g, Marks(index[..], low[..], onStack[..], counter, stack, comps), v);
        stack', comps' := stack, comps;
      }
    }

    /** The `v.successors.forEach(...)` loop of `stronglyConnect(v)`. */
    method VisitSuccessors(v: nat, index: array<int>, low: array<int>, onStack: array<bool>,
                           counter: nat, stack: seq<nat>, comps: seq<seq<nat>>, ghost floor: int,
                           ghost entry: set<nat>, ghost index0: seq<int>, ghost low0: seq<int>,
                           ghost path: seq<nat>)
      returns (counter': nat, stack': seq<nat>, comps': seq<seq<nat>>)
      requires Valid() && index != low
      requires KeepsNumbered(index0, low0, index[..], low[..]) && v < |index0| && index0[v] < 0
      requires TarjanState(|names|, index[..], low[..], onStack[..], counter, stack, comps)
      requires AboveFloor(|names|, index[..], low[..], onStack[..], floor)
      requires TarjanReach(Value(), index[..], low[..], onStack[..], stack, comps, path)
      requires v < |names| && floor <= index[v]
      requires path != [] && path[|path| - 1] == v && LowAbove(index[..], low[..], stack, v)
      requires v in entry && Unnumbered(index[..]) <= entry - {v}
      modifies index, low, onStack
      ensures TarjanState(|names|, index[..], low[..], onStack[..], counter', stack', comps')
      ensures AboveFloor(|names|, index[..], low[..], onStack[..], floor)
      ensures TarjanReach(Value(), index[..], low[..], onStack[..], stack', comps', path)
      ensures EdgesDone(Value(), index[..], low[..], onStack[..], v, |succ[v]|)
      ensures LowAbove(index[..], low[..], stack', v)
      ensures counter <= counter' && index[v] == old(index[v])
      ensures KeepsNumbered(index0, low0, index[..], low[..])
      ensures |stack| <= |stack'| && stack'[..|stack|] == stack
      ensures Marks(index[..], low[..], onStack[..], counter', stack', comps') ==
              VisitedFrom(Value(), v, 0, Marks(old(index[..]), old(low[..]), old(onStack[..]), counter, stack, comps), entry)
      decreases entry, 2
    {
      ghost var n, g := |names|, Value();
      ghost var indexV := index[v];
      ghost var goal := VisitedFrom(g, v, 0, Marks(index[..], low[..], onStack[..], counter, stack, comps), entry);
      counter', stack', comps' := counter, stack, comps;
      var i := 0;
      while i < |succ[v]|
        invariant 0 <= i <= |succ[v]|
        invariant TarjanState(n, index[..], low[..], onStack[..], counter', stack', comps')
        invariant AboveFloor(n, index[..], low[..], onStack[..], floor)
        invariant TarjanReach(g, index[..], low[..], onStack[..], stack', comps', path)
        invariant EdgesDone(g, index[..], low[..], onStack[..], v, i)
        invariant LowAbove(index[..], low[..], stack', v)
        invariant counter <= counter' && index[v] == indexV
        invariant KeepsNumbered(index0, low0, index[..], low[..])
        invariant |stack| <= |stack'| && stack'[..|stack|] == stack
        invariant Unnumbered(index[..]) <= entry - {v}
        invariant goal == VisitedFrom(g, v, i, Marks(index[..], low[..], onStack[..], counter', stack', comps'), entry)
      {
        ghost var stack1 := stack';
        counter', stack', comps' := VisitSuccessor(v, i, index, low, onStack, counter', stack', comps', floor,
                                                   entry, index0, low0, path, goal);
        LongerPrefix(stack, stack1, stack');
        i := i + 1;
      }
    }

    /** One round of the `forEach`: the `i`-th successor `w` of `v`. */
    method VisitSuccessor(v: nat, i: nat, index: array<int>, low: array<int>, onStack: array<bool>,
                          counter: nat, stack: seq<nat>, comps: seq<seq<nat>>, ghost floor: int,
                          ghost entry: set<nat>, ghost index0: seq<int>, ghost low0: seq<int>,
                          ghost path: seq<nat>, ghost goal: Marks)
      returns (counter': nat, stack': seq<nat>, comps': seq<seq<nat>>)
      requires Valid() && index != low && v < |names| && i < |succ[v]|
      requires KeepsNumbered(index0, low0, index[..], low[..]) && v < |index0| && index0[v] < 0
      requires TarjanState(|names|, index[..], low[..], onStack[..], counter, stack, comps)
      requires AboveFloor(|names|, index[..], low[..], onStack[..], floor)
      requires TarjanReach(Value(), index[..], low[..], onStack[..], stack, comps, path)
      requires floor <= index[v] && path != [] && path[|path| - 1] == v
      requires EdgesDone(Value(), index[..], low[..], onStack[..], v, i) && LowAbove(index[..], low[..], stack, v)
      requires v in entry && Unnumbered(index[..]) <= entry - {v}
      requires goal == VisitedFrom(Value(), v, i, Marks(index[..], low[..], onStack[..], counter, stack, comps), entry)
      modifies index, low, onStack
      ensures TarjanState(|names|, index[..], low[..], onStack[..], counter', stack', comps')
      ensures AboveFloor(|names|, index[..], low[..], onStack[..], floor)
      ensures TarjanReach(Value(), index[..], low[..], onStack[..], stack', comps', path)
      ensures EdgesDone(Value(), index[..], low[..], onStack[..], v, i + 1)
      ensures LowAbove(index[..], low[..], stack', v)
      ensures counter <= counter' && index[v] == old(index[v])
      ensures KeepsNumbered(index0, low0, index[..], low[..])
      ensures |stack| <= |stack'| && stack'[..|stack|] == stack
      ensures Unnumbered(index[..]) <= entry - {v}
      ensures goal == VisitedFrom(Value(), v, i + 1, Marks(index[..], low[..], onStack[..], counter', stack', comps'), entry)
      decreases entry, 1
    {
      ghost var n, g := |names|, Value();
      counter', stack', comps' := counter, stack, comps;
      var w := succ[v][i];
      if index[w] < 0 {
        ghost var s := Marks(index[..], low[..], onStack[..], counter, stack, comps);
        counter', stack', comps' := VisitChild(v, i, index, low, onStack, counter, stack, comps, floor,
                                               entry, index0, low0, path);
        VisitedChild(g, v, i, s, entry, Connected(g, w, s));
      } else if onStack[w] {
        counter', stack', comps' := VisitStacked(v, i, index, low, onStack, counter, stack, comps, floor,
                                                 entry, index0, low0, path);
      } else {
        SkipEdge(g, index[..], low[..], onStack[..], v, i);
      }
    }

    /** A successor `w` still on the stack: `v.lowlink` takes `w.index` if smaller. */
    method VisitStacked(v: nat, i: nat, index: array<int>, low: array<int>, onStack: array<bool>,
                        counter: nat, stack: seq<nat>, comps: seq<seq<nat>>, ghost floor: int,
                          ghost entry: set<nat>, ghost index0: seq<int>, ghost low0: seq<int>,
                          ghost path: seq<nat>)
      returns (counter': nat, stack': seq<nat>, comps': seq<seq<nat>>)
      requires Valid() && index != low && v < |names| && i < |succ[v]|
      requires KeepsNumbered(index0, low0, index[..], low[..]) && v < |index0| && index0[v] < 0
      requires TarjanState(|names|, index[..], low[..], onStack[..], counter, stack, comps)
      requires AboveFloor(|names|, index[..], low[..], onStack[..], floor)
      requires TarjanReach(Value(), index[..], low[..], onStack[..], stack, comps, path)
      requires floor <= index[v] && path != [] && path[|path| - 1] == v
      requires EdgesDone(Value(), index[..], low[..], onStack[..], v, i) && LowAbove(index[..], low[..], stack, v)
      requires v in entry && Unnumbered(index[..]) <= entry - {v}
      requires 0 <= index[succ[v][i]] && onStack[succ[v][i]]
      modifies index, low, onStack
      ensures TarjanState(|names|, index[..], low[..], onStack[..], counter', stack', comps')
      ensures AboveFloor(|names|, index[..], low[..], onStack[..], floor)
      ensures TarjanReach(Value(), index[..], low[..], onStack[..], stack', comps', path)
      ensures EdgesDone(Value(), index[..], low[..], onStack[..], v, i + 1)
      ensures LowAbove(index[..], low[..], stack', v)
      ensures counter <= counter' && index[v] == old(index[v])
      ensures KeepsNumbered(index0, low0, index[..], low[..])
      ensures |stack| <= |stack'| && stack'[..|stack|] == stack
      ensures Unnumbered(index[..]) <= entry - {v}
      ensures Marks(index[..], low[..], onStack[..], counter', stack', comps') ==
              Visited(Value(), v, i, Marks(old(index[..]), old(low[..]), old(onStack[..]), counter, stack, comps), entry)
      decreases entry, 0
    {
      ghost var n, g := |names|, Value();
      var w := succ[v][i];
      ghost var index1, low1, onStack1 := index[..], low[..], onStack[..];
      counter', stack', comps' := counter, stack, comps;
      low[v] := if low[v] < index[w] then low[v] else index[w];
      ghost var low2 := low[..];
      assert index[..] == index1 && onStack[..] == onStack1 && low2 == low1[v := low[v]] && Value() == g;
      ReachLowerToStacked(g, index1, low1, onStack1, counter, stack, comps, path, v, i, low2);
      LowerLink(n, index1, low1, onStack1, counter, stack, comps, v, index1[w], floor, low2);
      KeepsNumberedLow(index0, low0, index1, low1, low2, v);
    }

    /** A successor `w` not yet numbered: `stronglyConnect(w)`, then `v.lowlink` takes `w.lowlink` if smaller. */
    method VisitChild(v: nat, i: nat, index: array<int>, low: array<int>, onStack: array<bool>,
                      counter: nat, stack: seq<nat>, comps: seq<seq<nat>>, ghost floor: int,
                          ghost entry: set<nat>, ghost index0: seq<int>, ghost low0: seq<int>,
                          ghost path: seq<nat>)
      returns (counter': nat, stack': seq<nat>, comps': seq<seq<nat>>)
      requires Valid() && index != low && v < |names| && i < |succ[v]|
      requires KeepsNumbered(index0, low0, index[..], low[..]) && v < |index0| && index0[v] < 0
      requires TarjanState(|names|, index[..], low[..], onStack[..], counter, stack, comps)
      requires AboveFloor(|names|, index[..], low[..], onStack[..], floor)
      requires TarjanReach(Value(), index[..], low[..], onStack[..], stack, comps, path)
      requires floor <= index[v] && path != [] && path[|path| - 1] == v
      requires EdgesDone(Value(), index[..], low[..], onStack[..], v, i) && LowAbove(index[..], low[..], stack, v)
      requires v in entry && Unnumbered(index[..]) <= entry - {v}
      requires index[succ[v][i]] < 0
      modifies index, low, onStack
      ensures TarjanState(|names|, index[..], low[..], onStack[..], counter', stack', comps')
      ensures AboveFloor(|names|, index[..], low[..], onStack[..], floor)
      ensures TarjanReach(Value(), index[..], low[..], onStack[..], stack', comps', path)
      ensures EdgesDone(Value(), index[..], low[..], onStack[..], v, i + 1)
      ensures LowAbove(index[..], low[..], stack', v)
      ensures counter <= counter' && index[v] == old(index[v])
      ensures KeepsNumbered(index0, low0, index[..], low[..])
      ensures |stack| <= |stack'| && stack'[..|stack|] == stack
      ensures Unnumbered(index[..]) <= entry - {v}
      ensures var w, c := succ[v][i], Connected(Value(), succ[v][i],
                                                 Marks(old(index[..]), old(low[..]), old(onStack[..]), counter, stack, comps));
              Marks(index[..], low[..], onStack[..], counter', stack', comps') ==
              c.(low := c.low[v := if c.low[v] < c.low[w] then c.low[v] else c.low[w]])
      decreases entry, 0
    {
      ghost var n, g := |names|, Value();
      var w := succ[v][i];
      ghost var index1, low1, onStack1 := index[..], low[..], onStack[..];
      assert w in Unnumbered(index1);
      assert Unnumbered(index1) < entry;
      assert v in path;
      counter', stack', comps' := StrongConnect(w, index, low, onStack, counter, stack, comps, floor, path);
      ghost var index2, low2, onStack2 := index[..], low[..], onStack[..];
      KeepsNumberedFewer(index1, low1, index2, low2);
      KeepsNumberedTrans(index0, low0, index1, low1, index2, low2);
      low[v] := if low[v] < low[w] then low[v] else low[w];
      ghost var low3 := low[..];
      assert index[..] == index2 && onStack[..] == onStack2 && low3 == low2[v := low[v]] && Value() == g;
      ReachAfterChild(g, index1, low1, onStack1, counter, stack, comps,
                      index2, low2, onStack2, counter', stack', comps', path, v, i, low3);
      LowerLink(n, index2, low2, onStack2, counter', stack', comps', v, low2[w], floor, low3);
      KeepsNumberedLow(index0, low0, index2, low2, low3, v);
    }

    /**
     * The `do ... while (w !== v)` loop: pops the stack down to and including
     * `v` into a new component.
     */
    method PopComponent(v: nat, onStack: array<bool>, stack: seq<nat>, ghost below: seq<nat>)
      returns (rest: seq<nat>, scc: seq<nat>)
      requires onStack.Length == |names|
      requires |below| < |stack| && stack[..|below| + 1] == below + [v]
      requires forall x :: x in stack ==> x < |names|
      requires forall x :: 0 <= x < |names| ==> (onStack[x] <==> x in stack)
      requires forall x: nat :: multiset(stack)[x] <= 1
      modifies onStack
      ensures rest == below && v in scc
      ensures multiset(scc) + multiset(rest) == multiset(stack)
      ensures forall x :: 0 <= x < |names| ==> (onStack[x] <==> x in rest)
      ensures (onStack[..], rest, scc) == Popped(v, old(onStack[..]), stack, [])
    {
      rest := stack;
      scc := [];
      var popping := true;
      while popping
        invariant popping ==> |below| < |rest| && rest[..|below| + 1] == below + [v]
        invariant !popping ==> rest == below && v in scc
        invariant multiset(scc) + multiset(rest) == multiset(stack)
        invariant forall x :: x in rest ==> x in stack
        invariant forall x :: 0 <= x < |names| ==> (onStack[x] <==> x in rest)
        invariant Popped(v, old(onStack[..]), stack, []) ==
                  if popping then Popped(v, onStack[..], rest, scc) else (onStack[..], rest, scc)
        decreases |rest|
      {
        var w := rest[|rest| - 1];
        assert w in rest;
        PopTop(scc, rest, stack, below, v);
        rest := rest[..|rest| - 1];
        onStack[w] := false;
        scc := scc + [w];
        popping := w != v;
      }
    }

    /** One step of the pop loop: the top leaves the stack, and the stack below it still holds `below`. */
    static lemma PopTop(scc: seq<nat>, rest: seq<nat>, stack: seq<nat>, below: seq<nat>, v: nat)
      requires |below| < |rest| && rest[..|below| + 1] == below + [v]
      requires multiset(scc) + multiset(rest) == multiset(stack)
      requires forall x: nat :: multiset(stack)[x] <= 1
      ensures var w, rest' := rest[|rest| - 1], rest[..|rest| - 1];
        && multiset(scc + [w]) + multiset(rest') == multiset(stack)
        && (forall x :: x in rest' <==> x in rest && x != w)
        && (w == v ==> rest' == below)
        && (w != v ==> |below| < |rest'| && rest'[..|below| + 1] == below + [v])
    {
      var w, rest' := rest[|rest| - 1], rest[..|rest| - 1];
      assert rest == rest' + [w];
      forall x: nat
        ensures multiset(rest)[x] <= 1
      {
        assert (multiset(scc) + multiset(rest))[x] == multiset(stack)[x];
      }
      PopDistinct(rest);
      if w == v {
        OnlyPosition(rest, |below|, |rest| - 1);
      }
    }

    /** The top of a stack that holds no element twice does not occur below the top. */
    static lemma PopDistinct(s: seq<nat>)
      requires |s| > 0
      requires forall x: nat :: multiset(s)[x] <= 1
      ensures s[|s| - 1] !in s[..|s| - 1]
    {
      var w := s[|s| - 1];
      assert s == s[..|s| - 1] + [w];
      assert multiset(s) == multiset(s[..|s| - 1]) + multiset{w};
      assert multiset(s)[w] <= 1;
    }

    /** An element at two positions is counted at least twice. */
    static lemma SameTwice(s: seq<nat>, i: nat, j: nat)
      requires i < j < |s| && s[i] == s[j]
      ensures multiset(s)[s[i]] >= 2
    {
      assert s == s[..j] + [s[j]] + s[j + 1..];
      assert s[i] in s[..j];
    }

    /** In a sequence that holds no element twice, an element sits at one position. */
    static lemma OnlyPosition(s: seq<nat>, i: nat, j: nat)
      requires i < |s| && j < |s| && s[i] == s[j]
      requires forall x: nat :: multiset(s)[x] <= 1
      ensures i == j
    {
      if i < j {
        SameTwice(s, i, j);
      } else if j < i {
        SameTwice(s, j, i);
      }
    }

    /** `getCycles()`: the components of more than one vertex. */
    method GetCycles() returns (cycles: seq<seq<nat>>, ghost comps: seq<seq<nat>>)
      requires Valid()
      ensures IsPartition(comps, |names|) && AreComponents(Value(), comps)
      ensures comps == ComponentOrder(Value())
      ensures cycles == Cycles(comps)
    {
      var all := StronglyConnectedComponents();
      comps := all;
      cycles := [];
      for i := 0 to |all|
        invariant cycles == Cycles(all[..i])
      {
        assert all[..i + 1][..i] == all[..i];
        if |all[i]| > 1 {
          cycles := cycles + [all[i]];
        }
      }
      assert all[..|all|] == all;
    }

    /** `hasCycle()`. */
    method HasCycle() returns (b: bool, ghost comps: seq<seq<nat>>)
      requires Valid()
      ensures IsPartition(comps, |names|) && AreComponents(Value(), comps)
      ensures comps == ComponentOrder(Value())
      ensures b <==> exists c :: c in comps && |c| > 1
      ensures b <==> HasMutualPair(Value())
    {
      var cycles;
      cycles, comps := GetCycles();
      b := |cycles| > 0;
      assert b ==> cycles[0] in cycles;
      ComponentCycles(Value(), comps);
    }

    /**
     * `addAndVerify(key, dependencies)`: adds the edges, then reports the
     * cycles of the resulting graph.  The edges stay even when a cycle is
     * reported.
     */
    method AddAndVerify(key: string, deps: Dependencies) returns (r: Verdict, ghost comps: seq<seq<nat>>)
      requires Valid()
      modifies this
      ensures Valid()
      ensures Value() == Added(old(Value()), key, AsList(deps))
      ensures IsPartition(comps, |names|) && AreComponents(Value(), comps)
      ensures comps == ComponentOrder(Value())
      ensures r.Acyclic? <==> forall c :: c in comps ==> |c| <= 1
      ensures r.Acyclic? <==> !HasMutualPair(Value())
      ensures r.Cyclic? ==> r.cycles == Cycles(comps) && Within(r.cycles, |names|)
                            && r.message == CycleMessage(ComponentNames(Value(), r.cycles))
      ensures r.Cyclic? ==> CycleReport(Value(), r.message)
    {
      Add(key, deps);
      r, comps := CycleVerdict();
    }

    /** The verdict `addAndVerify` gives on the graph as it stands. */
    method CycleVerdict() returns (r: Verdict, ghost comps: seq<seq<nat>>)
      requires Valid()
      ensures IsPartition(comps, |names|) && AreComponents(Value(), comps)
      ensures comps == ComponentOrder(Value())
      ensures r.Acyclic? <==> forall c :: c in comps ==> |c| <= 1
      ensures r.Acyclic? <==> !HasMutualPair(Value())
      ensures r.Cyclic? ==> r.cycles == Cycles(comps) && Within(r.cycles, |names|)
                            && r.message == CycleMessage(ComponentNames(Value(), r.cycles))
      ensures r.Cyclic? ==> CycleReport(Value(), r.message)
    {
      var cycles;
      cycles, comps := GetCycles();
      if |cycles| > 0 {
        assert cycles[0] in cycles;
        PartitionWithin(comps, |names|);
        r := Cyclic(CycleMessage(ComponentNames(Value(), cycles)), cycles);
      } else {
        r := Acyclic;
      }
      ComponentCycles(Value(), comps);
    }

    /**
     * `dfs(key, visitor)`: the vertices in the order the visitor sees them,
     * each once, starting with `start`; exactly the vertices reachable from
     * `start`.
     */
    method Dfs(start: nat) returns (order: seq<nat>)
      requires Valid() && start < |names|
      ensures order == DfsOrder(Value(), seq(|names|, _ => false), [start], [])
      ensures |order| > 0 && order[0] == start && Distinct(order)
      ensures forall x :: x in order ==> x < |names| && Reaches(Value(), start, x)
      ensures forall x :: 0 <= x < |names| && Reaches(Value(), start, x) ==> x in order
    {
      var visited := new bool[|names|](_ => false);
      var stack: seq<nat> := [start];
      order := [];
      ghost var g := Value();
      assert visited[..] == seq(|names|, _ => false);
      DfsStart(g, start, visited[..]);
      while |stack| > 0
        invariant DfsState(g, start, visited[..], stack, order)
        invariant DfsOrder(g, visited[..], stack, order) == DfsOrder(g, seq(|names|, _ => false), [start], [])
        decreases Unvisited(visited[..]), |stack|
      {
        var v := stack[|stack| - 1];
        if !visited[v] {
          DfsVisit(g, start, visited[..], stack, order);
          stack := stack[..|stack| - 1] + succ[v];
          order := order + [v];
          visited[v] := true;
        } else {
          DfsSkip(g, start, visited[..], stack, order);
          stack := stack[..|stack| - 1];
        }
      }
      DfsDone(g, start, visited[..], order);
    }

    /**
     * `getDescendants(key)`: the vertices reachable from `key`, each once,
     * in the depth-first pre-order of `dfs`, without `key` itself; nothing
     * for an unknown key.
     */
    method Descendants(key: string) returns (result: seq<string>)
      requires Valid()
      ensures key !in names ==> result == []
      ensures key !in result
      ensures Distinct(result)
      ensures key in names ==> forall x :: x in result <==>
                x in names && x != key && Reaches(Value(), IndexOf(names, key), IndexOf(names, x))
      ensures key in names ==>
                [key] + result == NamesAt(names, DfsOrder(Value(), seq(|names|, _ => false), [IndexOf(names, key)], []))
    {
      if key !in names {
        return [];
      }
      var start := IndexOf(names, key);
      var order := Dfs(start);
      DescendantsOf(Value(), start, order);
      result := NamesAt(names, order[1..]);
    }

    /**
     * `clone()`: a new graph built by re-adding every vertex with the names
     * of its stored successors, in insertion order.  The copy has exactly the
     * vertices of the original, and each vertex's successors in reverse order,
     * since `add` stores dependencies last one first.
     */
    method Clone() returns (copy: Graph)
      requires Valid()
      ensures fresh(copy) && copy.Valid()
      ensures copy.Value() == CloneOf(Value(), |names|)
      ensures forall x :: x in copy.names <==> x in names
      ensures forall x :: x in names ==>
                SuccessorNames(copy.Value(), x) == Reverse(SuccessorNames(Value(), x))
    {
      var g := Value();
      copy := new Graph();
      for i := 0 to |g.names|
        invariant copy.Valid() && fresh(copy)
        invariant copy.Value() == CloneOf(g, i)
        invariant ClonedUpTo(g, copy.Value(), i)
      {
        ghost var before := copy.Value();
        copy.Add(g.names[i], List(Targets(g, i)));
        CloneOfStep(g, i, before, copy.Value());
        ClonedStep(g, before, i);
      }
      ClonedAll(g, copy.Value());
    }
  }

  /**
   * The graph `clone` has built after re-adding the first `k` vertices of
   * `g`, in vertex order, each with the keys of its stored successors.  Since
   * `add` creates missing dependencies before the key, the copy's vertex
   * order need not be `g`'s (see `CloneReorders`).
   */
  ghost function CloneOf(g: Digraph, k: nat): (c: Digraph)
    requires WellFormed(g) && k <= |g.names|
    ensures WellFormed(c)
  {
    if k == 0 then Digraph([], [])
    else
      var c := CloneOf(g, k - 1);
      AddedWellFormed(c, g.names[k - 1], Targets(g, k - 1));
      Added(c, g.names[k - 1], Targets(g, k - 1))
  }

  /** One more re-add extends the copy by the next vertex. */
  lemma CloneOfStep(g: Digraph, k: nat, c: Digraph, c': Digraph)
    requires WellFormed(g) && k < |g.names| && c == CloneOf(g, k)
    requires c' == Added(c, g.names[k], AsList(List(Targets(g, k))))
    ensures c' == CloneOf(g, k + 1)
  {
  }

  /**
   * A graph with vertices `x`, `y` and the edge `x -> y` clones to the vertex
   * order `y`, `x`: re-adding `x` creates its dependency `y` first.
   */
  lemma CloneReorders()
    ensures var g := Digraph(["x", "y"], [[1], []]);
      WellFormed(g) && CloneOf(g, 2).names == ["y", "x"]
  {
    var g := Digraph(["x", "y"], [[1], []]);
    assert WellFormed(g);
    assert Targets(g, 0) == ["y"];
    assert Targets(g, 1) == [];
    var c1 := CloneOf(g, 1);
    assert c1.names == ["y", "x"] by {
      assert c1 == Added(Digraph([], []), "x", ["y"]);
      assert WithPlaceholders([], ["y"]) == ["y"];
      assert AddedNames([], "x", ["y"]) == ["y", "x"];
    }
    assert CloneOf(g, 2).names == AddedNames(c1.names, "y", []);
    assert WithVertex(["y", "x"], "y") == ["y", "x"];
  }

  /**
   * `c` is what `clone` has built after re-adding the first `k` vertices of
   * `g`: it holds only vertices of `g`, it holds those `k`, and each of them
   * has its successors in `g`, last one first.
   */
  ghost predicate ClonedUpTo(g: Digraph, c: Digraph, k: nat)
    requires WellFormed(g) && k <= |g.names|
  {
    && WellFormed(c)
    && (forall x :: x in c.names ==> x in g.names)
    && (forall j :: 0 <= j < k ==>
          g.names[j] in c.names && SuccessorNames(c, g.names[j]) == Reverse(Targets(g, j)))
  }

  /** Re-adding the next vertex with its successor names extends what the copy holds by that vertex. */
  lemma ClonedStep(g: Digraph, c: Digraph, k: nat)
    requires WellFormed(g) && k < |g.names|
    requires ClonedUpTo(g, c, k)
    ensures ClonedUpTo(g, Added(c, g.names[k], Targets(g, k)), k + 1)
  {
    var key, t := g.names[k], Targets(g, k);
    var r := Added(c, key, t);
    assert WellFormed(r) && SuccessorNames(r, key) == Reverse(t) by {
      AddedKeySuccessors(c, key, t);
    }
    assert key in r.names && forall x :: x in r.names ==> x in g.names by {
      forall x | x in t
        ensures x in g.names
      {
        var j :| 0 <= j < |t| && t[j] == x;
      }
      assert r.names == AddedNames(c.names, key, t);
      AddedNamesSpec(c.names, key, t);
    }
    forall j | 0 <= j < k
      ensures g.names[j] in r.names && SuccessorNames(r, g.names[j]) == Reverse(Targets(g, j))
    {
      assert g.names[j] != key;
      AddedOtherSuccessors(c, key, t, g.names[j]);
    }
  }

  /** Once every vertex is re-added the copy has exactly the original's vertices, with successors reversed. */
  lemma ClonedAll(g: Digraph, c: Digraph)
    requires WellFormed(g) && ClonedUpTo(g, c, |g.names|)
    ensures forall x :: x in c.names <==> x in g.names
    ensures forall x :: x in g.names ==> SuccessorNames(c, x) == Reverse(SuccessorNames(g, x))
  {
    forall x | x in g.names
      ensures x in c.names && SuccessorNames(c, x) == Reverse(SuccessorNames(g, x))
    {
      var j := IndexOf(g.names, x);
    }
  }
}
