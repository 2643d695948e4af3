# sahara, modelled in Dafny

sahara is an inversion-of-control container for JavaScript and TypeScript.

**Registering and resolving.** A container maps resolution keys to registrations. Each registration is one of four kinds:

- a type, built by calling its constructor;
- an instance, returned as it is;
- a factory, called with the container;
- a delegate, an alias for another key.

Each registration also carries a lifetime and a list of injections. A memory lifetime caches the first value it is given; a transient lifetime caches nothing. Injections run on every instance the registration produces: they set properties, resolve properties and call methods.

**Resolution.** Resolving a key first returns a truthy cached value if there is one. Otherwise it produces the instance, runs the injections and stores the result in the lifetime. Building an instance of a type resolves the constructor's parameters in position order. A parameter's key comes from a `/** Key */ name` doc comment in the constructor's source. Without one, the key is `$arg:name`.

**The dependency graph.** Every registration adds edges to a graph. Tarjan's algorithm on that graph finds its strongly connected components, and a registration fails exactly when two different keys then depend on each other. Its message lists the components of more than one key in the order the traversal completes them, each starting with the key popped first.

**Interception.** A container can wrap the methods of the objects it builds in chains of call handlers. The chains run synchronously or asynchronously.

**Older parts of the repository.** The model also covers an older container (`src/sahara.js`), an older object builder (`src/builder.js`) and an older interceptor (`src/interception.js`).

The project has one module per part of the system:

| file | module | models |
|---|---|---|
| js.dfy | `Js` | JavaScript values, truthiness, `typeof`, number-to-string, `trim`, `split`, `join` |
| graph.dfy | `DependencyGraph` | the `tarjan-graph` copy in dist/sahara.js: `add`, Tarjan's components, cycles and their message, `dfs`, `getDescendants`, `clone` |
| doccomment.dfy | `DocComments` | the `/** T */ name` parameter pattern, as a scanner |
| typeinfo.dfy | `Signatures` | `getTypeInfo` of src/util.ts and src/util.js after the header match: constructor check, key selection, constructable flag, parameter parsing |
| lifetime.dfy | `Lifetimes` | `MemoryLifetime`, `TransientLifetime` |
| builder.dfy | `ObjectBuilding` | `getParams`, the in-place sort by position |
| containers.dfy | `Containers` | the registration and resolution engine of src/container.ts and src/container.js with the object builder and the injections |
| interception.dfy | `Interception` | the synchronous and asynchronous handler chains of both interceptors |
| wrapping.dfy | `MethodWrapping` | selecting configurations and wrapping methods (`invokeCtor`), matcher normalisation and `sync()`/`async()` |
| events.dfy | `Events` | the event emitter's listener table |
| objectmanager.dfy | `ObjectManagement` | `ObjectManager` |
| merge.dfy | `Merging` | `merge` |
| legacy.dfy | `Legacy` | src/sahara.js and the legacy `newInstanceSync` of src/builder.js |

**How the two dialects are modelled.** The TypeScript and JavaScript versions of the container share one model. A `Dialect` value selects the branch wherever the two files behave differently.

**How mutable state is modelled.** Resolution is stated twice:

- as pure functions (`Containers.Resolve` and its helpers) from a `World` to an outcome and a new `World`. A `World` holds the objects' own properties, the memory-lifetime cells, the next free reference and a log of calls into opaque code;
- as classes (`Realm`, `Context`, `Container`) whose methods update that state step by step and are proved equal to the pure functions.

**How recursion is bounded.** A JavaScript call stack is finite, so `fuel` stands for it. Each nested resolution uses one unit. With none left, resolution fails with a `RangeError`. This is how a cyclic registration that `registerType` kept behaves.

**How opaque code is modelled.** Constructors, factories, injected methods, matchers and handlers are user code. Each is modelled as data: a `Function` value with a fixed behaviour (returns a value, returns a fresh object, or throws), or a `Handler` record stating what it does to the call context.

**Where the regular-expression matching happens.** The header of a function's source text is matched by JavaScript regular expressions. The result of that match is part of the `Function` value; everything after the match is modelled.

## Model

| member | source | states |
|---|---|---|
| Js.NatToString | src/sahara.js:34 | the decimal digits of a position number, never empty |
| Js.Reverse | dist/sahara.js:38 | element i of the result is element n-1-i of the input |
| Js.TrimStart | src/util.ts:72 | no leading white space remains and the result is a suffix of the input |
| Js.TrimEnd | src/util.ts:72 | no trailing white space remains and the result is a prefix of the input |
| Js.Trim | src/util.ts:102 | neither end of the result is white space, and the result is no longer than the input |
| Js.TrimSpec | src/util.ts:102 | the trimmed string is a slice of the input with only white space cut from either side |
| Js.TrimStartSpec | src/util.ts:72 | `trimStart` removes exactly a leading run of white space |
| Js.TrimEndSpec | src/util.ts:72 | `trimEnd` removes exactly a trailing run of white space |
| Js.Split | src/util.ts:101 | at least one piece, and no piece contains the separator |
| Js.SplitJoin | src/util.ts:101 | joining the pieces of `split(sep)` with `sep` gives back the input |
| DependencyGraph.AsList | dist/sahara.js:25 | a non-array dependency becomes the one-element list |
| DependencyGraph.IndexOf | dist/sahara.js:28 | the position of a key among the vertex keys |
| DependencyGraph.IndexOfFirst | dist/sahara.js:28 | that position is the key's first occurrence |
| DependencyGraph.WithPlaceholdersSpec | dist/sahara.js:27-32 | every dependency gets a vertex, existing vertices keep their places, nothing else is added, and no key appears twice |
| DependencyGraph.AddedNamesSpec | dist/sahara.js:22-36 | after `add`, the vertices are the old ones, in place, plus the key and the dependencies, without duplicates |
| DependencyGraph.Positions | dist/sahara.js:27-32 | each dependency is mapped to the vertex that holds its key |
| DependencyGraph.AddedKeySuccessors | dist/sahara.js:38 | after `add`, the key's successors are the dependencies in reverse order |
| DependencyGraph.AddedOtherSuccessors | dist/sahara.js:22-39 | after `add`, every other existing vertex keeps its successors |
| DependencyGraph.AddSpec | dist/sahara.js:22-39 | `add` keeps the graph well formed, creates empty placeholder vertices, replaces the key's successors by the reversed dependencies, and leaves every other vertex unchanged |
| DependencyGraph.Graph.constructor | dist/sahara.js:17-19 | a new graph has no vertices |
| DependencyGraph.Graph.EnsureVertex | dist/sahara.js:28-31 | a missing key gets a new vertex with no successors; an existing one is found in place |
| DependencyGraph.Graph.EnsureVertices | dist/sahara.js:27-32 | every dependency gets a vertex, and the result gives the vertex of each dependency in order |
| DependencyGraph.Graph.Add | dist/sahara.js:22-39 | the graph after `add(key, deps)` is exactly `Added` of the graph before |
| DependencyGraph.Cycles | dist/sahara.js:153-157 | exactly the components with more than one vertex |
| DependencyGraph.PartitionWithin | dist/sahara.js:104-157 | every component and every cycle names only vertices of the graph |
| DependencyGraph.ComponentNames | dist/sahara.js:55 | each component mapped to its vertices' keys, one key per vertex |
| DependencyGraph.TwoVertexCycleMessage | dist/sahara.js:53-57 | one cycle of two vertices is reported as `Detected 1 cycle:` then a line `  a -> b -> a` |
| DependencyGraph.TarjanStart | dist/sahara.js:107-114 | with every vertex unnumbered and off the stack, the algorithm's invariant holds initially |
| DependencyGraph.Push | dist/sahara.js:117-121 | numbering a vertex and pushing it keeps the invariant |
| DependencyGraph.LowerLink | dist/sahara.js:126-128 | lowering a low link to the minimum with a successor's value keeps the invariant |
| DependencyGraph.StackOnce | dist/sahara.js:120 | no vertex is on the stack twice |
| DependencyGraph.PopKeepsState | dist/sahara.js:132-141 | popping a component down to its root and recording it keeps the invariant |
| DependencyGraph.TarjanDone | dist/sahara.js:144-150 | when every vertex is numbered and the stack is empty, the components partition the vertices |
| DependencyGraph.Opened | dist/sahara.js:117-121 | numbering a vertex takes it out of the unnumbered set and keeps the marks shaped for the graph |
| DependencyGraph.Popped | dist/sahara.js:133-138 | the `do ... while` pop leaves only vertices that were on the stack and keeps one on-stack flag per vertex |
| DependencyGraph.Closed | dist/sahara.js:132-141 | closing a vertex leaves every index as it was |
| DependencyGraph.Connected | dist/sahara.js:116-142 | the marks after `stronglyConnect(v)` have `v` numbered and no vertex unnumbered, and stay shaped for the graph |
| DependencyGraph.VisitedFrom | dist/sahara.js:123-130 | the `forEach` over the successors from the `i`-th on, numbering no fewer vertices |
| DependencyGraph.Visited | dist/sahara.js:124-129 | one successor: recurse into an unnumbered one and take its low link, or take the index of one on the stack, or skip it |
| DependencyGraph.Swept | dist/sahara.js:144-148 | the outer `forEach` from the `v`-th vertex on, calling `stronglyConnect` on each vertex still unnumbered |
| DependencyGraph.AliasCycleOrder | tests/es5/container-tests.js:982-991 | for `foo` and `alias1` pointing at each other, `foo` added first, the traversal completes one component, `alias1` then `foo`; with `TwoVertexCycleReport` the message line is `alias1 -> foo -> alias1` |
| DependencyGraph.TwoVertexCycleReport | dist/sahara.js:53-57 | a single cycle through two vertices is reported as `Detected 1 cycle:` then `  <first> -> <second> -> <first>` with their keys |
| DependencyGraph.Graph.StronglyConnectedComponents | dist/sahara.js:104-151 | the components are exactly `ComponentOrder` (Tarjan's traversal from the vertices in insertion order, each component in pop order); they partition the vertices, and two vertices share a component exactly when each reaches the other |
| DependencyGraph.Graph.SweepVertex | dist/sahara.js:144-148 | one round of the outer loop moves the marks one step along `Swept`, keeps the invariant, and leaves every vertex up to `v` numbered |
| DependencyGraph.Graph.StrongConnect | dist/sahara.js:116-142 | the marks after the call are exactly `Connected` of the marks before; numbers the vertex, keeps the invariant, leaves the stack below it as it was, and empties it down to the entry level when the vertex is a root |
| DependencyGraph.Graph.VisitAndClose | dist/sahara.js:123-141 | after the vertex is opened, visiting its successors and closing it completes `Connected` of the marks before the opening, keeping the invariant |
| DependencyGraph.Graph.VisitSuccessors | dist/sahara.js:123-130 | the marks after the loop are `VisitedFrom` the first successor; recurses into unnumbered successors and lowers the low link, keeping the invariant |
| DependencyGraph.Graph.PopComponent | dist/sahara.js:132-141 | pops the stack down to and including the vertex, exactly as `Popped`; the popped vertices form the component and leave the stack |
| DependencyGraph.Graph.OpenVertex | dist/sahara.js:117-121 | the vertex takes the next number as index and low link and is pushed, keeping the invariant and the reachability facts |
| DependencyGraph.Graph.VisitSuccessor | dist/sahara.js:123-130 | one successor handled as the `forEach` body does: the rest of the loop from the next successor reaches the same `VisitedFrom` marks; keeps the invariant |
| DependencyGraph.Graph.VisitChild | dist/sahara.js:124-126 | an unnumbered successor is visited recursively (its marks are `Connected`) and the low link lowered to its low link |
| DependencyGraph.Graph.VisitStacked | dist/sahara.js:127-129 | a successor on the stack lowers the low link to its index; the marks after are exactly `Visited` |
| DependencyGraph.Graph.CloseVertex | dist/sahara.js:132-141 | the marks after are exactly `Closed`: a root pops its component off the stack, leaving the stack below it as it was, and the components recorded stay strongly connected components |
| DependencyGraph.PopIsComponent | dist/sahara.js:132-141 | the vertices popped with a root form a strongly connected component |
| DependencyGraph.ComponentCycles | dist/sahara.js:153-157 | for a partition into strongly connected components, some component has more than one vertex exactly when two different vertices reach each other |
| DependencyGraph.Graph.CycleVerdict | dist/sahara.js:50-62 | acyclic exactly when no two different vertices reach each other; otherwise the message reports the multi-vertex components of `ComponentOrder`, in that order |
| DependencyGraph.CycleReportMutual | dist/sahara.js:52-62 | a cycle report is only given for a graph in which two different vertices reach each other |
| DependencyGraph.AddFreshKeepsAcyclic | dist/sahara.js:22-39 | adding a key the graph does not hold yet to a graph without cycles leaves it without cycles |
| DependencyGraph.SinkWalk | dist/sahara.js:26-32 | a walk from a vertex without successors, such as a new placeholder, goes nowhere |
| DependencyGraph.Graph.GetCycles | dist/sahara.js:153-157 | the cycles are exactly the components with more than one vertex, in the order of `ComponentOrder`, a partition into strongly connected components |
| DependencyGraph.Graph.HasCycle | dist/sahara.js:100-102 | true exactly when two different vertices reach each other |
| DependencyGraph.Graph.AddAndVerify | dist/sahara.js:49-65 | the edges are added whatever the verdict; the verdict is cyclic exactly when, after the add, two different vertices reach each other, and then its message is the report of exactly the multi-vertex strongly connected components, in the order of `ComponentOrder` |
| DependencyGraph.ReachesStep | dist/sahara.js:80-82 | a successor of a reachable vertex is reachable |
| DependencyGraph.DfsStart | dist/sahara.js:68-69 | with nothing visited and the start vertex on the stack, the traversal invariant holds |
| DependencyGraph.DfsVisit | dist/sahara.js:76-82 | visiting the unvisited top lists it, marks it and pushes its successors, keeping the invariant and shrinking the unvisited set |
| DependencyGraph.DfsSkip | dist/sahara.js:72-74 | popping a visited vertex keeps the invariant |
| DependencyGraph.DfsDone | dist/sahara.js:71 | with the stack empty, the order starts at the start vertex and lists every reachable vertex |
| DependencyGraph.DfsOrder | dist/sahara.js:67-84 | the order of the traversal extends the order met so far and names only vertices of the graph |
| DependencyGraph.Graph.Dfs | dist/sahara.js:67-84 | the order is exactly `DfsOrder` (pre-order, popping the stack and pushing successors in stored order), starts at the start vertex, lists each vertex at most once, only reachable vertices, and all of them |
| DependencyGraph.DescendantsOf | dist/sahara.js:86-98 | the traversal after its first vertex names exactly the vertices reachable from the start, each once, never the start |
| DependencyGraph.DescendantsSound | dist/sahara.js:86-98 | every descendant is reachable from the start and is not the start |
| DependencyGraph.DescendantsDistinct | dist/sahara.js:86-98 | no descendant is listed twice |
| DependencyGraph.DescendantsComplete | dist/sahara.js:86-98 | every vertex other than the start that is reachable from it is listed |
| DependencyGraph.Graph.Descendants | dist/sahara.js:86-98 | `getDescendants(key)` is the `DfsOrder` traversal from the key without its first vertex; it never contains the key, has no duplicates, holds exactly the vertices reachable from the key, and is empty for an unknown key |
| DependencyGraph.ClonedStep | dist/sahara.js:163-168 | re-adding one more vertex with its successors' keys extends the partial copy |
| DependencyGraph.ClonedAll | dist/sahara.js:159-171 | the copy has the same vertices, each with its successors in reverse order |
| DependencyGraph.CloneOf | dist/sahara.js:163-168 | the well-formed graph left by re-adding the first `k` vertices, in vertex order, each with its successors' keys |
| DependencyGraph.CloneReorders | dist/sahara.js:24-36 | the copy's vertex order can differ from the original's: `[x, y]` with `x -> y` clones to `[y, x]`, because `add` creates a missing dependency before the key |
| DependencyGraph.Graph.Clone | dist/sahara.js:159-171 | a fresh graph equal to `CloneOf` over all vertices, so with its vertex order fixed, and with the same vertex keys and each vertex's successors reversed |
| DocComments.Scan | src/util.ts:109 | any type and name it yields have the shape the pattern demands |
| DocComments.DocCommentParam | src/util.ts:109 | a match yields a type without `*` or white space and a name of word characters |
| DocComments.ScanSpaces | src/util.ts:109 | white space where the pattern allows it is skipped |
| DocComments.ScanType | src/util.ts:109 | the type group takes a maximal run of type characters |
| DocComments.ScanName | src/util.ts:109 | the name group takes a run of word characters |
| DocComments.ScanStars | src/util.ts:109 | one or more `*` before the closing `/` are accepted |
| DocComments.DocCommentRoundTrip | src/util.ts:109 | every piece written as `/**` type `*…*/` name, with any white space the pattern allows, is recognised with exactly that type and name (one `*` only in src/sahara.js) |
| Signatures.Describe | src/util.ts:12-19 | how the error describes a non-function: `null` for falsy values, `instance of` the constructor for objects, else its `typeof` (src/util.js: any value with a constructor) |
| Signatures.VerifyCtorType | src/util.ts:12-19 | succeeds exactly for functions, and otherwise fails with `Constructor must be a function, got` and the description |
| Signatures.TypeName | src/util.ts:67-75 | the key, else the captured name, else (src/util.ts only, for function and class headers) the constructor's name; empty or `function` fails with the resolution-key message |
| Signatures.ConstructableKinds | src/util.ts:84-98 | constructable exactly for named and anonymous functions and both class forms; not for methods and arrow functions |
| Signatures.ConstructableFlag | src/object-builder.js:23-25 | src/util.ts flags the named and anonymous function and class headers; src/util.js has no flag, and `new` decides by the function itself |
| Signatures.ParsePiece | src/util.ts:100-126 | a blank piece is skipped; any other piece becomes an argument at its split index |
| Signatures.ParsePieceForm | src/util.ts:109-126 | a doc-comment piece gives its type and name as `doc-comment`; any other gives `$arg:` plus the trimmed piece, as `arg` |
| Signatures.ParsedAtOwnIndex | src/util.ts:101 | each parsed piece carries its own split index |
| Signatures.CollectSound | src/util.ts:101-127 | every argument comes from a non-blank piece at its position |
| Signatures.CollectIncreasing | src/util.ts:101-127 | the arguments' positions strictly increase |
| Signatures.CollectComplete | src/util.ts:101-127 | every non-blank piece yields an argument |
| Signatures.ParseArguments | src/util.ts:100-128 | the loop over the pieces produces exactly `Args` of the signature |
| Signatures.AsWrittenAgrees | src/util.ts:67-72 | outside the anonymous-function pattern of src/util.ts, the capture groups as written and as intended agree |
| Signatures.AnonymousParametersDropped | src/util.ts:30 | as written, `function(/** Foo */ foo) {}` under key `Bar` gets no parameters, and without a key its parameter text becomes its key |
| Signatures.AnonymousParametersParsed | src/util.ts:67-72 | with the intended groups the same function gets the parameter `Foo foo` |
| Signatures.AnonymousNeedsKey | src/util.ts:73-75 | with the intended groups an anonymous function without a key is refused |
| Signatures.TypeInfoArgs | src/util.ts:72-128 | a successful `getTypeInfo` holds the parsed, trimmed parameter text, in strictly increasing position order |
| Signatures.GetTypeInfo | src/util.ts:21-131 | the imperative `getTypeInfo` gives exactly `TypeInfoOf`, with the intended capture groups (see Findings) |
| Lifetimes.MemoryLifetime.constructor | src/lifetime.ts:9-11 | a new memory lifetime holds `null` |
| Lifetimes.MemoryLifetime.Fetch | src/lifetime.ts:13-15 | gives the value held and changes nothing |
| Lifetimes.MemoryLifetime.Store | src/lifetime.ts:17-19 | the value held becomes the stored value |
| Lifetimes.TransientLifetime.Fetch | src/lifetime.ts:23-25 | always `null` |
| Lifetimes.Fetch | src/lifetime.js:6-18 | a transient lifetime fetches `null`; a memory lifetime fetches its cell, or `null` if it has none |
| Lifetimes.Store | src/lifetime.js:10-20 | a transient lifetime changes nothing; a memory lifetime writes its own cell and no other |
| Lifetimes.FetchAfterStore | src/lifetime.ts:13-27 | after a store, a memory lifetime fetches the stored value and a transient one `null` |
| Lifetimes.StoreIsolated | src/lifetime.ts:17-19 | a store leaves every other lifetime's fetch as it was |
| Lifetimes.FetchAgrees | src/lifetime.ts:13-15 | the class's fetch agrees with the cell-based function |
| Lifetimes.StoreAgrees | src/lifetime.ts:17-19 | a store and then a fetch through the class agree with the cell-based functions |
| ObjectBuilding.InsertPermutes | src/object-builder.ts:7-13 | one insertion step neither loses nor adds parameters |
| ObjectBuilding.InsertSorted | src/object-builder.ts:7-13 | inserting into a sorted list keeps it sorted |
| ObjectBuilding.InsertAt | src/object-builder.ts:7-13 | an insertion places the element after every element of equal or smaller position and before the larger ones |
| ObjectBuilding.SortArgsSpec | src/object-builder.ts:5-16 | the stable sort orders the parameters by ascending position and is a permutation of them |
| ObjectBuilding.SortedUnchanged | src/object-builder.ts:8-10 | parameters already in order are left exactly as they are, since equal positions compare equal |
| ObjectBuilding.ParsedArgsUnchanged | src/object-builder.ts:5-16 | parameters as `getTypeInfo` produces them are already sorted, so `getParams` keeps them |
| ObjectBuilding.InsertInto | src/object-builder.js:5-11 | one pass moves `a[i]` down into the sorted prefix and leaves the rest of the array alone |
| ObjectBuilding.GetParams | src/object-builder.js:3-14 | sorts the array in place into exactly the stable sort of its old contents |
| Containers.NewRegistration | src/container.ts:91-95 | a missing lifetime defaults to transient and missing injections to none |
| Containers.ResolveSignatureToOptions | src/container.ts:55-68 | a string gives only the key; an options object gives its truthy key, lifetime, injections and arg alias, with injections defaulting to none |
| Containers.InjectionsOf | src/container.js:55 | the arguments from index 2 on, as injections, in order |
| Containers.PositionalOptions | src/container.js:36-58 | no arguments give no options; an object first argument is used as it is; otherwise a string first argument is the key, a truthy second the lifetime, and the rest the injections |
| Containers.AndArgAliasOptions | src/container.js:141-153 | with two arguments the second is the alias and the key is null; with three, key and alias as given |
| Containers.QuoteAll | src/container.js:13 | each history name wrapped in double quotes, in order |
| Containers.UnregisteredParts | src/container.ts:28-40 | the message starts with `Nothing with key "K" is registered in the container`, adds the resolution chain when the history is non-empty, and adds the alias hint for `$arg:` keys |
| Containers.HistoryChain | src/container.ts:19-26 | the history `Foo`, `Bar` with current key `Bat` renders as `"Foo" -> "Bar" -> "Bat"` |
| Containers.ChainMessage | tests/es5/container-tests.js:13-26 | the full message for `Bat` missing while resolving `Foo` then `Bar` |
| Containers.HintHistory | tests/es5/container-tests.js:386-394 | the history `Foo` with current key `$arg:bar` renders as `"Foo" -> "$arg:bar"` |
| Containers.ArgHintMessage | tests/es5/container-tests.js:386-394 | the full message for an undocumented parameter `bar` of `Foo`, hint included |
| Containers.Allocate | src/object-builder.js:24 | a new object gets the next free reference, which no existing object has |
| Containers.ConstructF | src/object-builder.ts:33 | `new ctor(...args)` is logged with its arguments and only extends the world |
| Containers.CallF | src/container.ts:341 | a factory call is logged with its arguments and only extends the world |
| Containers.CallMethodF | src/injection.ts:96 | a method call is logged with its receiver and arguments, and fails exactly when the method throws |
| Containers.SetPropertyF | src/injection.ts:32 | an object gets exactly that property set; assigning to undefined or null fails with a `TypeError` and changes nothing |
| Containers.GetPropertyF | src/injection.ts:84 | an object's own property or `undefined`; reading from undefined or null fails |
| Containers.ContextName | src/injection.ts:7 | the owner's constructor name, or `?` when it has none |
| Containers.KeyFromInstance | src/container.ts:73-78 | src/container.ts: an object gives its constructor's name, failing without a constructor, and anything else null; src/container.js: a falsy value gives itself, a truthy one its constructor's name or `undefined` |
| Containers.InjectionKey | src/container.ts:437-440 | a given key is used as it is; src/container.ts refuses a falsy key taken from the instance |
| Containers.Types | src/object-builder.ts:41-43 | the parameters' keys, in order |
| Containers.Resolve | src/container.ts:297-354 | resolution only extends the world; its steps are stated by the lemmas below |
| Containers.Produce | src/container.ts:336-346 | producing an instance only extends the world |
| Containers.NewInstance | src/object-builder.ts:39-48 | building an instance only extends the world |
| Containers.BuildObject | src/object-builder.ts:30-37 | src/object-builder.ts refuses a type not flagged constructable; a function `new` does not accept fails with a `TypeError`; otherwise the type is built with `new` on the arguments |
| Containers.JsAnonymousFunctionBuilt | src/object-builder.js:23-25 | in src/container.js, `function(a) {}` registered under a key is read with that key and built with `new` |
| Containers.ResolveEach | src/object-builder.ts:41-43 | a successful resolution of the parameters yields one value per key |
| Containers.InjectInto | src/container.ts:436-448 | injection only extends the world; its order and failures are stated by `InjectAllAppend` and `JsInjectUnregistered` |
| Containers.InjectAll | src/container.ts:447 | running the injections in order only extends the world |
| Containers.InjectOne | src/injection.ts:21-97 | one injection only extends the world; what each kind does is stated by the lemmas below |
| Containers.ResolveStores | src/container.ts:351 | after a successful resolution a memory lifetime holds the resolved value |
| Containers.MemorySingleton | src/container.ts:310-314 | once a memory-lifetime key has resolved to a truthy value, resolving it again returns that value and changes nothing |
| Containers.TransientFresh | src/container.ts:338-339 | a transient type resolves to an object allocated during that resolution |
| Containers.TransientDistinct | src/container.ts:338-339 | two successive resolutions of a transient type give two different objects |
| Containers.DelegateFollows | src/container.ts:342-343 | an alias resolves exactly as its target does at resolution time, with the alias on the history |
| Containers.CycleExhaustsStack | src/container.ts:166-171 | two types that each need the other first can never be resolved: whatever the stack depth, resolution fails with stack exhaustion |
| Containers.FirstParamUnregistered | src/container.ts:304-308 | a type whose first parameter is unregistered fails with the unregistered message naming the type on the chain |
| Containers.LeafResolves | src/object-builder.ts:39-48 | a transient, constructable type without parameters or injections always resolves |
| Containers.ChainInner | tests/es5/container-tests.js:13-26 | resolving `Bar` under `Foo` fails because `Bat` is missing, with the chain `Foo`, `Bar` |
| Containers.ChainError | tests/es5/container-tests.js:13-26 | resolving `Foo` with `Bar` needing an unregistered `Bat` fails with the pretty chain message |
| Containers.MethodMissing | src/injection.ts:83-87 | a method injection on an object without that method fails with the missing-method message and changes nothing |
| Containers.UnregisteredFails | src/container.ts:304-308 | an unregistered key fails with the unregistered message for the current history and changes nothing |
| Containers.PropertyValueSetsOnly | src/injection.ts:21-34 | a property-value injection on an object sets exactly that property to that value and changes nothing else |
| Containers.PropertyInjectionChain | src/injection.ts:36-51 | a property injection resolves with the history `<constructor>.<property>` in src/injection.ts (none in src/injection.js); an unregistered key fails with that chain |
| Containers.MethodArgsVerbatim | src/injection.ts:91-96 | explicit method arguments are passed as they are, with the instance as receiver; the injection fails exactly when the method throws |
| Containers.MethodParamsResolved | src/injection.ts:74-96 | without explicit arguments the parameters are resolved in declaration order with the history `<constructor>.<method>()`, and the method is called with the results |
| Containers.ResolveEachInOrder | src/object-builder.ts:41-43 | the i-th value is what the i-th key resolves to in the world left by resolving the keys before it |
| Containers.InjectAllAppend | src/container.ts:447 | injections run in list order: a list runs as its first part, then the rest unless the first part failed |
| Containers.JsInjectUnregistered | src/container.js:401-411 | src/container.js: injecting under an unregistered key fails with the plain message, without a chain, and changes nothing |
| Containers.AndArgAliasSignature | src/container.ts:176-188 | the options passed on carry the alias when one is given |
| Containers.FreshAliasStored | src/container.ts:190-202 | an alias the graph does not hold yet, in a graph without cycles, always succeeds and stores the delegate |
| Containers.FreshTypeRegistered | src/container.ts:159-174 | a type registered without an arg alias under a name the graph does not hold yet, in a graph without cycles, succeeds and stores exactly its registration |
| Containers.TypeStoredOnFailure | src/container.ts:166-171 | a type that gets past `getTypeInfo` stays registered whatever fails after it |
| Containers.FalsyInstanceArgAlias | src/container.js:177-195 | src/container.js: a falsy non-string instance with no key option is stored under its string form, and then an arg alias fails with `key must be a string` |
| Containers.InstanceKey | src/container.ts:211-218 | a truthy key option wins; src/container.ts refuses a falsy key taken from the instance; src/container.js goes on with the key it took, string or not |
| Containers.Realm.constructor | src/container.ts:142-149 | an empty heap with no cells and no calls |
| Containers.Realm.AllocateObject | src/object-builder.js:24 | the heap after allocating is exactly `Allocate` of the heap before |
| Containers.Realm.NewMemoryLifetime | src/lifetime.ts:9-11 | a new cell holding `null` |
| Containers.Realm.New | src/object-builder.ts:33 | the heap after `new` is exactly `ConstructF` of the heap before |
| Containers.Realm.CallFunction | src/container.ts:341 | the heap after a call is exactly `CallF` of the heap before |
| Containers.Realm.CallAsMethod | src/injection.ts:96 | the heap after a method call is exactly `CallMethodF` of the heap before |
| Containers.Realm.SetProperty | src/injection.ts:32 | the heap after an assignment is exactly `SetPropertyF` of the heap before |
| Containers.Context.constructor | src/container.ts:42-46 | a resolution context with the given history |
| Containers.Container.constructor | src/container.ts:142-149 | a new container holds only itself, registered as an instance under its class name, with an empty graph |
| Containers.Container.ResolveWith | src/container.ts:324-354 | pushes and pops the history around producing, and its result and heap are exactly `Resolve`; on success the history is back at its entry length |
| Containers.Container.ProduceWith | src/container.ts:336-346 | result and heap exactly `Produce` |
| Containers.Container.NewInstanceWith | src/object-builder.ts:39-48 | result and heap exactly `NewInstance` |
| Containers.Container.ResolveEachWith | src/object-builder.ts:41-43 | resolves the keys one after another; result and heap exactly `ResolveEach` |
| Containers.Container.InjectWith | src/container.ts:436-448 | result and heap exactly `InjectInto` |
| Containers.Container.InjectOneWith | src/injection.ts:21-97 | result and heap exactly `InjectOne` |
| Containers.Container.ResolveSync | src/container.js:266-303 | resolution from an empty history; a constructor key stands for its name |
| Containers.Container.TryResolveSync | src/container.js:370-376 | the resolved value, or `undefined` when resolution fails |
| Containers.Container.RegisterAlias | src/container.ts:190-202 | a non-string key or alias fails with its message and changes nothing; otherwise the edge alias→key is added and stays, and the call succeeds, storing the delegate, exactly when the graph then has no cycle, failing with the graph's cycle report otherwise (`AliasEffect`) |
| Containers.Container.RegisterArgAlias | src/container.ts:204-206 | `AliasEffect` for the alias `$arg:` plus its name, the key passed as it is |
| Containers.Container.MaybeArgAlias | src/container.ts:167-169 | a truthy arg alias has the effect of `registerArgAlias`; otherwise nothing changes and the step succeeds |
| Containers.Container.RegisterType | src/container.ts:159-174 | `TypeRegistered`: a bad constructor fails before anything changes; otherwise the registration is stored, then the arg alias (its cycle ends the call), then the parameter edges, failing with `<key>'s dependencies create a cycle: <report>` exactly when the graph then has a cycle; every edge and the registration stay |
| Containers.Container.RegisterTypeAndArgAlias | src/container.ts:176-188 | `TypeRegistered` for the options `{ key, argAlias }`, the key becoming the alias when the alias is left out |
| Containers.Container.RegisterInstance | src/container.ts:211-234 | `InstanceRegistered`: stored under the key option or the key taken from the instance (src/container.ts refuses a falsy one), then the arg alias with the key as it is |
| Containers.Container.RegisterInstanceAndArgAlias | src/container.ts:236-248 | `InstanceRegistered` for the options `{ key, argAlias }`, the key becoming the alias when the alias is left out |
| Containers.Container.RegisterFactory | src/container.ts:254-274 | `FactoryRegistered`: without a truthy key fails with `"options.key" must be passed to registerFactory()` and changes nothing; otherwise stored, then the arg alias |
| Containers.Container.RegisterFactoryAndArgAlias | src/container.ts:276-287 | `FactoryRegistered` for the options `{ key, argAlias }` as given; an empty key is refused |
| Containers.Container.CreateChildContainer | src/container.ts:453-461 | the child has the parent's registrations plus itself, and a fresh graph object, separate from the parent's, equal to `CloneOf` the parent's graph (vertex order included, which fixes the order of the child's cycle messages) |
| Containers.Container.NewChild | src/container.ts:454-459 | a fresh container with the parent's registrations plus itself under the class name |
| Containers.Container.InjectSync | src/container.js:401-411 | result and heap exactly `InjectInto` |
| Interception.RunSync | src/interception/interception.js:16-36 | the wrapped method is called at most once |
| Interception.SyncResult | src/interception/interception.js:38-42 | a truthy error is thrown; otherwise the return value is returned |
| Interception.MethodCalled | src/interception/interception.js:19-29 | the method is called exactly when every handler calls `next` and no error is set by then, with the context's arguments at that point |
| Interception.Onion | src/interception/interception.js:16-36 | outer handlers' code before `next` runs first, in order, then the inner handlers, then the outer code after `next` in reverse order |
| Interception.ChainStops | src/interception/interception.js:32 | a handler that does not call `next` ends the chain; nothing after it runs and the method is not called |
| Interception.NoHandlers | src/interception/interception.js:8-42 | with no handlers the call is the plain call, except that a falsy thrown value is swallowed |
| Interception.HandlerClearsError | tests/interception-tests.js:103-125 | a handler that clears the error after `next` turns a throwing method into one returning `undefined` |
| Interception.SplitCallback | src/interception/interception.js:80-87 | a trailing function is removed as the caller's callback; the older interceptor only takes it when there are at least as many arguments as the method declares |
| Interception.Complete | src/interception/interception.js:104-111 | the completion sets the error and the return value only to truthy values, and changes nothing else |
| Interception.Callbacks | src/interception/interception.js:119 | the handlers' callbacks, in order |
| Interception.RunAsync | src/interception/interception.js:73-123 | the wrapped method is called at most once |
| Interception.AsyncOnion | src/interception/interception.js:73-123 | when every handler calls `next`, the terminal step sees the context their code produced and all their callbacks; their later code runs innermost first |
| Interception.AsyncChainStops | src/interception/interception.js:119 | a handler that does not call `next` means no method call and no report to the caller |
| Interception.PresetErrorSkipsMethod | src/interception/interception.js:98-102 | an error already set skips the method, still runs the callbacks, and reports to the caller exactly when a callback was given |
| Interception.MethodGetsArguments | src/interception/interception.js:104-115 | the method receives the arguments without the caller's callback, followed by the completion callback |
| Interception.CallerSeesTruthyResults | src/interception/interception.js:89-112 | the caller receives the completion's error and result where truthy, the earlier values where not, then the extra values |
| Interception.LegacyTooFewArguments | src/interception.js:75-82 | with fewer arguments than declared, the older interceptor passes a trailing function to the method and reports to nobody |
| Interception.OuterCallbackEdits | src/interception.js:60-70 | an error set by the outer handler's callback reaches the caller in the current interceptor but not in the older one |
| Interception.CallContext.constructor | src/interception/interception.js:8-14 | the context starts with the call's arguments, error `null` and return value `undefined` |
| Interception.CallContext.Apply | src/interception/interception.js:25-27 | the context after a handler's step is exactly that step applied to it |
| Interception.Interceptor.constructor | src/interception/interception.js:2-4 | keeps its handlers |
| Interception.Interceptor.Next | src/interception/interception.js:16-34 | running from handler `index` gives exactly `RunSync` of the remaining handlers |
| Interception.Interceptor.HandleCallSync | src/interception/interception.js:6-43 | result and method calls exactly those of the chain specification |
| Interception.Interceptor.RunCallbacksOn | src/interception/interception.js:55-71 | runs the callbacks in list order, outermost handler's first, as `RunCallbacks` |
| Interception.Interceptor.DeliverOn | src/interception/interception.js:89-96 | runs the callbacks and reports to the caller, as `Deliver` |
| Interception.Interceptor.TerminalAsync | src/interception/interception.js:76-116 | the terminal step exactly as `AsyncTerminal` |
| Interception.Interceptor.NextAsync | src/interception/interception.js:73-121 | running from handler `index` gives exactly `RunAsync` of the remaining handlers |
| Interception.Interceptor.HandleCall | src/interception/interception.js:45-124 | method calls and report exactly those of the asynchronous specification |
| MethodWrapping.ModeFirst | src/interception/object-builder.js:31-39 | the mode is that of the first accepting configuration, and there is none when no configuration accepts |
| MethodWrapping.ModeExtend | src/interception/object-builder.js:34-36 | a later configuration only fixes the mode while no earlier one has |
| MethodWrapping.FilterNone | src/interception/object-builder.js:41-44 | no accepting configuration means nothing is selected |
| MethodWrapping.FilterAppend | src/interception/object-builder.js:32-39 | selection distributes over concatenation of configuration lists |
| MethodWrapping.FilterOne | src/interception/object-builder.js:32-38 | a single configuration is selected exactly when its matcher accepts and its mode is the chosen one |
| MethodWrapping.ConcatAppend | src/interception/object-builder.js:46-49 | handler concatenation distributes over concatenation of configuration lists |
| MethodWrapping.ModeSelectsSome | src/interception/object-builder.js:31-44 | once a mode is fixed, at least the configuration that fixed it is selected |
| MethodWrapping.SelectConfigs | src/interception/object-builder.js:31-39 | the loop's mode and selection are exactly `Mode` and `Filter` |
| MethodWrapping.CollectHandlers | src/interception/object-builder.js:46-49 | the handlers of the selected configurations, concatenated in order |
| MethodWrapping.Intercepted | src/interception/object-builder.js:16-67 | a property is only replaced when it is configurable, holds a function and some configuration accepts it; the replacement is a non-writable delegate around the old function |
| MethodWrapping.OverwriteStep | src/interception/object-builder.js:16 | one more key changes the properties at that key alone |
| MethodWrapping.OverwriteUntouched | src/interception/object-builder.js:16 | a key not enumerated keeps its property or its absence |
| MethodWrapping.NoConfigsUntouched | src/interception/object-builder.js:9-11 | with no configurations the object is returned untouched |
| MethodWrapping.WrappedMethods | src/interception/object-builder.js:16-67 | each enumerated, configurable method some configuration accepts becomes a delegate around exactly the selected handlers in the first mode; every other property is unchanged |
| MethodWrapping.Instance.constructor | src/builder.js:5-6 | a constructed object with the given own and inherited properties |
| MethodWrapping.WrapMethods | src/builder.js:15-58 | the own properties after the loop are exactly `InterceptAll` of those before |
| MethodWrapping.WrapStep | src/builder.js:15-58 | one more iteration of the loop extends the overwrite by one key |
| MethodWrapping.InterceptedLocal | src/interception/object-builder.js:18-22 | the decision for a key depends only on that key's own property |
| MethodWrapping.WrapOne | src/interception/object-builder.js:17-67 | one iteration replaces the property exactly as `Intercepted` decides, and changes nothing else |
| MethodWrapping.MatcherMeaning | src/interception/container.js:22-31 | a string accepts that method name; an array accepts instances of its first item, and only the named method unless the name is falsy; a predicate is used as it is; any other value accepts all or nothing by its truthiness |
| MethodWrapping.ConfigObject.constructor | src/interception/container.js:33-36 | a configuration holding the handlers and the normalised matcher |
| MethodWrapping.Snapshot | src/interception/object-builder.js:32 | the configurations as the builder reads them, one per object |
| MethodWrapping.InterceptableContainer.constructor | src/interception/container.js:5-11 | no configurations yet |
| MethodWrapping.InterceptableContainer.Intercept | src/interception/container.js:21-37 | a new configuration with the handlers and the normalised matcher |
| MethodWrapping.InterceptableContainer.Sync | src/interception/container.js:39-43 | the configuration becomes synchronous and is appended; the container is returned |
| MethodWrapping.InterceptableContainer.Async | src/interception/container.js:44-48 | the configuration becomes asynchronous and is appended; the container is returned |
| Events.IndexOf | src/event-emitter.ts:28 | the first position of the listener, or -1 exactly when it is absent |
| Events.RemoveFirstSpec | src/event-emitter.ts:26-32 | only the first occurrence is removed, nothing when absent, and the list loses exactly that one listener |
| Events.OnThenOff | src/event-emitter.ts:22-32 | adding a listener that was absent and then removing it restores the list |
| Events.EventEmitter.constructor | src/event-emitter.ts:10-12 | no listener lists |
| Events.EventEmitter.Listeners | src/event-emitter.ts:14-20 | creates an empty list on first access and returns the same list later; other names are untouched |
| Events.EventEmitter.On | src/event-emitter.ts:22-24 | appends the listener to that name's list alone |
| Events.EventEmitter.Off | src/event-emitter.ts:26-32 | removes the first occurrence from that name's list alone |
| Events.EventEmitter.Emit | src/event-emitter.ts:34-38 | invokes that name's listeners in list order |
| ObjectManagement.Purged | src/object-manager.js:21-29 | exactly the entries whose keys were not added |
| ObjectManagement.ObjectManager.constructor | src/object-manager.js:4-8 | as intended: items are the given collection or empty, and no keys are recorded (see Findings) |
| ObjectManagement.ObjectManager.Get | src/object-manager.js:11-13 | the item under the key, or `undefined` |
| ObjectManagement.ObjectManager.Add | src/object-manager.js:15-19 | sets the item and records the key |
| ObjectManagement.ObjectManager.Purge | src/object-manager.js:21-29 | deletes exactly the recorded keys and forgets them |
| ObjectManagement.PurgeKeepsInitial | src/object-manager.js:21-29 | after any additions, a purge leaves exactly the initial entries that were never added over |
| ObjectManagement.KeysHas | src/object-manager.js:17 | every added key is recorded |
| ObjectManagement.AddAllKeeps | src/object-manager.js:15-19 | additions leave other keys' items alone |
| ObjectManagement.AddSeries | src/object-manager.js:15-19 | a series of `add` calls gives exactly `AddAll` and records the keys in order |
| ObjectManagement.CallWithoutNew | src/object-manager.js:5 | calling a constructor without `new` fails with a `TypeError` exactly when it is a class |
| ObjectManagement.NoManagerAsWritten | src/object-manager.js:4-8 | as written every `new ObjectManager(collection)` throws the class-call `TypeError`; with a function `EventEmitter` it would give the intended initial state |
| ObjectManagement.ManagerPrototypeLacksEmit | src/object-manager.js:10-30 | the prototype merge copies none of the class's methods, so `emit` is missing |
| ObjectManagement.AddThrowsAfterUpdate | src/object-manager.js:15-19 | as written `add` sets the item and records the key, then throws `this.emit is not a function` |
| Merging.JsObject.constructor | src/merge.js:2 | a fresh object with no properties |
| Merging.LastOwner | src/merge.js:5-14 | the last later argument that owns the key, or none if none does |
| Merging.MergedSpec | src/merge.js:5-14 | each key takes the value of the last argument that owns it, and keys no argument owns keep their original values |
| Merging.Merge | src/merge.js:1-18 | the first argument is updated in place (or a fresh object is used) into exactly `Merged` |
| Merging.CopyOwn | src/merge.js:7-14 | the own properties of one argument are copied over the target's |
| Legacy.PieceArg | src/sahara.js:31 | a recognised piece gives a doc-comment argument at its index |
| Legacy.PieceArgs | src/sahara.js:28 | each piece parsed at its own index |
| Legacy.CollectSuccess | src/sahara.js:28-44 | parsing succeeds exactly when every piece is recognised, and then yields each piece's argument in order |
| Legacy.CollectStopsAt | src/sahara.js:32-37 | the first unrecognised piece fails the whole parse with its position |
| Legacy.ParseParamsSuccess | src/sahara.js:28-44 | the signature parses exactly when every piece matches `/** Word */ word` |
| Legacy.FirstBadPiece | src/sahara.js:33-36 | the error names position i+1 of the first unrecognised piece and the type |
| Legacy.ParsedSorted | src/sahara.js:39-43 | the parsed parameters are in position order |
| Legacy.ParseSignature | src/sahara.js:27-45 | the loop's outcome is exactly `SignatureParams` |
| Legacy.RegistrationName | src/sahara.js:16-20 | a named function's own name wins, the given name is used otherwise, and with neither registration fails |
| Legacy.RegistrationSorted | src/sahara.js:22-45 | what a registration stores is in position order |
| Legacy.UntypedParameter | tests/container-tests.js:79-87 | `function Foo(bar)` is refused: position 1 of `Foo` has no type |
| Legacy.ResolveF | src/sahara.js:69-99 | resolution only extends the world |
| Legacy.ResolveAllF | src/sahara.js:93 | a successful resolution gives one value per type |
| Legacy.InstanceFirst | src/sahara.js:69-73 | a truthy instance is returned before any type registration is consulted |
| Legacy.UnknownName | src/sahara.js:75-77 | a name with neither fails with `The type "X" is not registered in the container` |
| Legacy.Lookup | src/sahara.js:70 | the instances registered for each type |
| Legacy.AllInstances | src/sahara.js:93 | parameters that are all registered instances resolve to those instances, changing nothing |
| Legacy.BuildsWithInstances | tests/container-tests.js:62-77 | a type whose parameters are instances is built by one constructor call, on a fresh object, with those instances in order |
| Legacy.Container.constructor | src/sahara.js:3-7 | no registrations and no instances |
| Legacy.Container.RegisterType | src/sahara.js:10-58 | a failed registration stores nothing; otherwise the parsed type is stored under its name |
| Legacy.Container.RegisterInstance | src/sahara.js:60-67 | `undefined` fails with `TypeError('No instance given')` and stores nothing; otherwise the instance is stored |
| Legacy.Container.Resolve | src/sahara.js:69-99 | result and heap exactly `ResolveF`; registrations and instances unchanged |
| Legacy.Container.SortParams | src/sahara.js:80-90 | sorts the stored parameters in place, which leaves them as they were |
| Legacy.Container.ResolveAll | src/sahara.js:92-93 | resolves the types in order; result and heap exactly `ResolveAllF` |
| Legacy.ResolveArgsSuccess | src/builder.js:83-85 | the arguments resolve exactly when every parameter's type does, giving those values in order |
| Legacy.ResolveStopsAt | src/builder.js:83-85 | the first failing parameter fails the whole resolution with its error |
| Legacy.FirstUnresolved | src/builder.js:83-85 | the error is that of the first parameter that fails |
| Legacy.NewInstanceSync | src/builder.js:82-88 | sorts the parameters in place, resolves them in order, then builds; a failure stops before the constructor; a throwing constructor leaves the object unwrapped; otherwise the methods are wrapped as `InterceptAll` |

## Left out

- Asynchronous resolution (`resolve`, `tryResolve`, `inject`, `newInstance` in src/container.ts, src/container.js, src/object-builder.ts and src/object-builder.js) runs the same steps as the synchronous path through `await`. It is modelled once, as the synchronous path. The order in which `Promise.all` settles the async injections is not modelled.
- Event emission by the container and the builder (`registering`, `resolving`, `resolved`, `building`, `built`) and the copying of listeners in `createChildContainer(withEvents)` are observability only and not modelled. The emitter itself is modelled in `Events`.
- `toDot` in dist/sahara.js and the rest of that bundle (the older container, builder and injection built into it) are not part of this model.
- The call stack is modelled as `fuel`. A resolution that JavaScript would finish with a deeper stack fails here once the fuel runs out.
- Keys are strings. Symbol and number keys (`String(key)` in src/container.ts) are not modelled. Property names that collide with `Object.prototype` members are not modelled either.
- Opaque code (constructors, factories, injected methods, matchers) has a fixed behaviour that does not depend on its arguments. The arguments are recorded in the call log instead.
- Interception handlers that throw, or that call `next` more than once, are not modelled. Each handler calls `next` at most once.
- An asynchronous wrapped method is assumed to complete before `handleCall` returns, or never.
- Handler callbacks that withhold `done` are not modelled. In src/interception/interception.js:55-70 such a callback stops the outer callbacks and the report; in the model every handler callback passes the chain on.
- `instanceof` with a right operand that is not a function, and matchers that throw, are not modelled. `instanceof` is a parameter of `Normalize`.
- Accessor properties, enumerability and the prototype chain are reduced to own properties plus a map of inherited enumerable members.
- The wiring of interception into src/container.js is inconsistent: `handlerConfigs` is never initialised, and the base `invokeCtor(ctor, args)` does not match the subclass's call. So `InterceptableObjectBuilder.invokeCtor` and the legacy `invokeCtor` are modelled standalone, as `MethodWrapping.WrapMethods`.
- MethodWrapping.InterceptableContainer.constructor: sets `handlerConfigs` to the empty list. As written, neither src/interception/container.js:5-11 nor the base `Container` initialises it, so it is `undefined`.
- MethodWrapping.InterceptableContainer.Sync: appends to the list the constructor initialised. As written, `this.handlerConfigs.push` (src/interception/container.js:41) throws a `TypeError`, because the list was never created.
- MethodWrapping.InterceptableContainer.Async: the same as `Sync`. As written, `this.handlerConfigs.push` throws a `TypeError` at src/interception/container.js:46.
- The cycle check of src/sahara.js is delegated to the external `dep-graph` package, which is not part of this model.
  - Legacy.Container.RegisterType: because of this, the model stores the registration and makes no cycle check.
- The legacy builder's asynchronous `newInstance` (src/builder.js:90-106) uses the external `async` library and `process.nextTick`, and is not modelled.
- Legacy.NewInstanceSync: the object the constructor runs on is an input (an `Instance` with its own properties). `Object.create` and the constructor's effect on that object are not modelled.
- Matching a function's source text against the header regular expressions (src/util.ts:26-58, src/util.js:11-31, src/sahara.js:11) is not modelled. Its result is part of the `Function` value.
- src/async.js is callback scheduling and is not part of this model.
- The order of the graph's vertices is the order keys were added. dist/sahara.js:107 and :163 enumerate `vertices` with `Object.keys`, which lists integer-like keys (such as `"2"`, `"1"`) first, in numeric order. With such keys, Tarjan's start order, and so the order and rotation of the cycles in the message, and the clone's vertex order differ from the model's, which follows insertion order.
- Signatures.GetTypeInfo: uses the intended capture groups of the anonymous-function pattern, so every container operation does too. The groups as written are modelled separately (see Findings).
- Events.EventEmitter.Emit: a listener that throws, which ends the emission in src/event-emitter.ts:34-38, is not modelled. Nor is a listener that calls `on` or `off` during the emission and so changes what `forEach` visits. The model returns the listeners invoked, which is always the whole list, and does not run their code.
- Containers.PositionalOptions: requires well-typed arguments (an options object, or a key, a lifetime or falsy value, then injections). src/container.js:51-55 accepts any truthy second argument as the lifetime and any values from index 2 as injections, and fails only later, when they are used. Those later failures are not modelled.
- `new ObjectManager(collection)` keeps the caller's object as its collection (`collection || {}`), so `add` and `purge` also change the caller's object. The model copies the collection into the manager. The `add` and `purge` events of the intended manager are not modelled either.

## Findings

| source | as written | input that shows it | evidently intended | confidence | as-written member | corrected member |
|---|---|---|---|---|---|---|
| src/util.ts:30 | The anonymous-function pattern `/^function\s*\(([^)]*)\)\s*{/` has a single capture group. `getTypeInfo` reads the parameter text from `data[2]` (line 72), which is undefined here. The text lands in `data[1]`, which line 67 takes as the type name. | `function(/** Foo */ foo) {}` registered with key `Bar` gets no parameters. Without a key it is registered under the key `/** Foo */ foo`. | The parameter text should be parsed as parameters, as for every other pattern, giving the parameter `Foo foo`. Without a key, the function should be refused. | not executed | Signatures.AnonymousParametersDropped | Signatures.AnonymousParametersParsed |
| src/object-manager.js:5 | `EventEmitter.call(this)` calls `EventEmitter`, which src/event-emitter.js:1 declares with `class`. A class constructor called without `new` throws a `TypeError`. Beyond that, `merge` (src/merge.js:7-14) copies only enumerable properties, and class methods are not enumerable, so the manager's prototype has no `emit`. | `new ObjectManager({})` throws `Class constructor EventEmitter cannot be invoked without 'new'`. Past that, `add('a', 1)` sets the item and records the key, then throws `this.emit is not a function`. | A manager that holds the collection, records added keys, purges exactly them, and inherits the emitter's methods. | not executed | ObjectManagement.NoManagerAsWritten | ObjectManagement.PurgeKeepsInitial |
