/** The dependency closure behind the software bill of materials, from parsed
    `cargo metadata`, one document per target. */
module CargoGraph {
  import opened Options

  /** `identity` is absent when a path dependency lies outside the repository; `registry`
      packages come with a source and need a checksum in the lock file. */
  datatype Package = Package(name: string, version: string, identity: Option<string>, inRepository: bool,
      registry: bool)

  datatype Kind = Normal | Build | Dev
  datatype Dependency = Dependency(pkg: string, kinds: seq<Kind>)
  datatype Metadata = Metadata(target: string, packages: map<string, Package>, nodes: map<string, seq<Dependency>>)

  datatype Error = Targets | Roots | Incomplete | UnknownDependency | OutsideRepository | RootsDisagree
    | NoChecksum | DuplicateId | Unreachable
  datatype Result<+T> = Ok(value: T) | Err(error: Error)

  /** The collected graph with the SPDX identifier of every package and the relationships
      between identifiers. */
  datatype Bill = Bill(graph: Graph, ids: map<string, string>, relationships: set<(string, string)>)

  datatype Graph = Graph(packages: map<string, Package>, edges: set<(string, string)>,
                         targets: map<string, set<string>>, roots: set<string>)

  /** Only a dependency listed for nothing but `dev` is skipped. */
  predicate Follows(d: Dependency) {
    d.kinds == [] || exists k | k in d.kinds :: k != Dev
  }

  function Key(p: Package): string
    requires p.identity.Some?
  {
    p.name + "@" + p.version + "|" + p.identity.value
  }

  // ---------------------------------------------------------------- reachability

  predicate Edge(m: Metadata, a: string, b: string) {
    a in m.nodes && exists d | d in m.nodes[a] :: Follows(d) && d.pkg == b
  }

  ghost predicate IsPath(m: Metadata, path: seq<string>) {
    |path| > 0 && forall i | 0 <= i < |path| - 1 :: Edge(m, path[i], path[i + 1])
  }

  ghost predicate Reachable(m: Metadata, root: string, id: string) {
    exists path :: IsPath(m, path) && path[0] == root && path[|path| - 1] == id
  }

  lemma ReachableRoot(m: Metadata, root: string)
    ensures Reachable(m, root, root)
  {
    assert IsPath(m, [root]);
  }

  lemma ReachableStep(m: Metadata, root: string, a: string, b: string)
    requires Reachable(m, root, a) && Edge(m, a, b)
    ensures Reachable(m, root, b)
  {
    var path :| IsPath(m, path) && path[0] == root && path[|path| - 1] == a;
    var longer := path + [b];
    assert IsPath(m, longer) && longer[0] == root && longer[|longer| - 1] == b;
  }

  ghost predicate Closed(m: Metadata, ids: set<string>) {
    forall a, b | a in ids && Edge(m, a, b) :: b in ids
  }

  lemma {:induction false} ClosedHoldsPath(m: Metadata, ids: set<string>, path: seq<string>)
    requires Closed(m, ids) && IsPath(m, path) && path[0] in ids
    ensures path[|path| - 1] in ids
    decreases |path|
  {
    if |path| > 1 {
      assert Edge(m, path[0], path[1]);
      ClosedHoldsPath(m, ids, path[1..]);
    }
  }

  lemma ClosedHoldsReachable(m: Metadata, ids: set<string>, root: string, id: string)
    requires Closed(m, ids) && root in ids && Reachable(m, root, id)
    ensures id in ids
  {
    var path :| IsPath(m, path) && path[0] == root && path[|path| - 1] == id;
    ClosedHoldsPath(m, ids, path);
  }

  // ---------------------------------------------------------------- what one target contributes

  /** Every reachable package is described, resolved and inside the repository or a registry. */
  ghost predicate WellFormed(m: Metadata, root: string) {
    forall id | Reachable(m, root, id) :: Described(m, id)
  }

  predicate Described(m: Metadata, id: string) {
    id in m.packages && id in m.nodes && m.packages[id].identity.Some?
  }

  predicate AllDescribed(m: Metadata, ids: set<string>) {
    forall id | id in ids :: Described(m, id)
  }

  ghost function KeysOf(m: Metadata, ids: set<string>): set<string>
    requires AllDescribed(m, ids)
  {
    set id | id in ids :: Key(m.packages[id])
  }

  predicate Named(m: Metadata, id: string) {
    id in m.packages && m.packages[id].identity.Some?
  }

  /** `e` belongs to a followed dependency of package `a`. */
  predicate IsEdgeFrom(m: Metadata, a: string, deps: seq<Dependency>, e: (string, string)) {
    Named(m, a) && exists d | d in deps ::
      Follows(d) && Named(m, d.pkg) && e == (Key(m.packages[a]), Key(m.packages[d.pkg]))
  }

  predicate IsEdgeOf(m: Metadata, ids: set<string>, e: (string, string)) {
    exists a | a in ids && a in m.nodes :: IsEdgeFrom(m, a, m.nodes[a], e)
  }

  function RootIds(m: Metadata, rootName: string): set<string> {
    set id | id in m.packages && m.packages[id].name == rootName && m.packages[id].inRepository
  }

  function TargetsOf(g: Graph, key: string): set<string> {
    if key in g.targets then g.targets[key] else {}
  }

  predicate KeyedBy(packages: map<string, Package>) {
    forall k | k in packages :: packages[k].identity.Some? && Key(packages[k]) == k
  }

  /** `g'` is `g` plus exactly the packages `ids` of one target and their edges. */
  ghost predicate Adds(g: Graph, g': Graph, m: Metadata, ids: set<string>) {
    && AllDescribed(m, ids) && KeyedBy(g'.packages)
    && g'.packages.Keys == g.packages.Keys + KeysOf(m, ids)
    && (forall e :: e in g'.edges <==> e in g.edges || IsEdgeOf(m, ids, e))
    && (forall k :: TargetsOf(g', k) == TargetsOf(g, k) + (if k in KeysOf(m, ids) then {m.target} else {}))
  }

  ghost predicate HasKey(m: Metadata, root: string, key: string) {
    exists id :: Reachable(m, root, id) && Named(m, id) && Key(m.packages[id]) == key
  }

  ghost predicate HasEdge(m: Metadata, root: string, e: (string, string)) {
    exists a :: Reachable(m, root, a) && a in m.nodes && IsEdgeFrom(m, a, m.nodes[a], e)
  }

  /** `g'` is `g` plus exactly what is reachable from the root of `m`. */
  ghost predicate AddsReachable(g: Graph, g': Graph, m: Metadata, root: string) {
    && KeyedBy(g'.packages)
    && (forall k :: k in g'.packages <==> k in g.packages || HasKey(m, root, k))
    && (forall e :: e in g'.edges <==> e in g.edges || HasEdge(m, root, e))
    && (forall k :: TargetsOf(g', k) == TargetsOf(g, k) + (if HasKey(m, root, k) then {m.target} else {}))
  }

  /** The dependency ends up in what is built: it is listed for the package itself or its
      build script, or without any kind. */
  predicate Ships(d: Dependency) {
    d.kinds == [] || Normal in d.kinds || Build in d.kinds
  }

  predicate IsDependency(m: Metadata, a: string, d: Dependency) {
    a in m.nodes && d in m.nodes[a] && Named(m, a) && Named(m, d.pkg)
  }

  /** Every shipped dependency of a reachable package is in `g'` with its edge, and every
      edge that is new in `g'` is that of a shipped dependency. */
  ghost predicate AddsShipped(g: Graph, g': Graph, m: Metadata, root: string) {
    && (forall a, d | Reachable(m, root, a) && IsDependency(m, a, d) && Ships(d) ::
          Key(m.packages[d.pkg]) in g'.packages && (Key(m.packages[a]), Key(m.packages[d.pkg])) in g'.edges)
    && (forall e | e in g'.edges && e !in g.edges ::
          exists a, d :: IsDependency(m, a, d) && Ships(d) && e == (Key(m.packages[a]), Key(m.packages[d.pkg])))
  }

  lemma ReachableShips(g: Graph, g': Graph, m: Metadata, root: string)
    requires AddsReachable(g, g', m, root)
    ensures AddsShipped(g, g', m, root)
  {
    hide Key, Reachable;
    forall a, d | Reachable(m, root, a) && IsDependency(m, a, d) && Ships(d)
      ensures Key(m.packages[d.pkg]) in g'.packages && (Key(m.packages[a]), Key(m.packages[d.pkg])) in g'.edges
    {
      assert Follows(d) && Edge(m, a, d.pkg);
      ReachableStep(m, root, a, d.pkg);
      assert HasKey(m, root, Key(m.packages[d.pkg]));
      assert HasEdge(m, root, (Key(m.packages[a]), Key(m.packages[d.pkg])));
    }
    forall e | e in g'.edges && e !in g.edges
      ensures exists a, d :: IsDependency(m, a, d) && Ships(d) && e == (Key(m.packages[a]), Key(m.packages[d.pkg]))
    {
      var a :| Reachable(m, root, a) && a in m.nodes && IsEdgeFrom(m, a, m.nodes[a], e);
      var d :| d in m.nodes[a] && Follows(d) && Named(m, d.pkg) && e == (Key(m.packages[a]), Key(m.packages[d.pkg]));
      assert IsDependency(m, a, d) && Ships(d);
    }
  }

  // ---------------------------------------------------------------- the traversal

  /** Appends the followed dependencies of one package to the stack and their edges
      to the graph, unless one of them is not described. */
  method VisitDependencies(m: Metadata, a: string, stack: seq<string>, edges: set<(string, string)>)
    returns (failed: Option<Error>, stack': seq<string>, edges': set<(string, string)>)
    requires Named(m, a) && a in m.nodes
    ensures failed.None? <==> forall d | d in m.nodes[a] && Follows(d) :: Named(m, d.pkg)
    ensures failed.Some? ==> failed.value == UnknownDependency || failed.value == OutsideRepository
    ensures failed.None? ==> forall b :: b in stack' <==> b in stack || Edge(m, a, b)
    ensures failed.None? ==> forall e :: e in edges' <==> e in edges || IsEdgeFrom(m, a, m.nodes[a], e)
  {
    var deps := m.nodes[a];
    failed, stack', edges' := None, stack, edges;
    for i := 0 to |deps|
      invariant failed.None?
      invariant forall d | d in deps[..i] && Follows(d) :: Named(m, d.pkg)
      invariant forall b :: b in stack' <==> b in stack || exists d | d in deps[..i] :: Follows(d) && d.pkg == b
      invariant forall e :: e in edges' <==> e in edges || IsEdgeFrom(m, a, deps[..i], e)
    {
      var d := deps[i];
      assert deps[..i + 1] == deps[..i] + [d];
      if Follows(d) {
        if d.pkg !in m.packages { failed := Some(UnknownDependency); return; }
        if m.packages[d.pkg].identity.None? { failed := Some(OutsideRepository); return; }
        edges' := edges' + {(Key(m.packages[a]), Key(m.packages[d.pkg]))};
        stack' := stack' + [d.pkg];
      }
    }
    assert deps[..|deps|] == deps;
  }

  function Recorded(g: Graph, m: Metadata, id: string): Graph
    requires Described(m, id)
  {
    var key := Key(m.packages[id]);
    g.(packages := g.packages[key := m.packages[id]],
       targets := g.targets[key := TargetsOf(g, key) + {m.target}])
  }

  /** What has been collected once the packages `seen` are done. */
  ghost predicate Frontier(m: Metadata, root: string, seen: set<string>, stack: seq<string>) {
    && (forall id | id in seen || id in stack :: Reachable(m, root, id))
    && (root in seen || root in stack)
    && (forall a, b | a in seen && Edge(m, a, b) :: b in seen || b in stack)
  }

  lemma RecordedAdds(g0: Graph, g: Graph, m: Metadata, seen: set<string>, id: string, edges: set<(string, string)>)
    requires Adds(g0, g, m, seen) && Described(m, id)
    requires forall e :: e in edges <==> e in g.edges || IsEdgeFrom(m, id, m.nodes[id], e)
    ensures Adds(g0, Recorded(g, m, id).(edges := edges), m, seen + {id})
  {
    hide Key, IsEdgeFrom, IsEdgeOf, KeysOf, TargetsOf;
    var key, g' := Key(m.packages[id]), Recorded(g, m, id).(edges := edges);
    KeysAdd(m, seen, id);
    TargetsAdd(g, g', m, key);
    EdgesAdd(g0.edges, g.edges, m, seen, id, edges);
  }

  lemma KeysAdd(m: Metadata, seen: set<string>, id: string)
    requires AllDescribed(m, seen) && Described(m, id)
    ensures KeysOf(m, seen + {id}) == KeysOf(m, seen) + {Key(m.packages[id])}
  {
    hide Key;
  }

  lemma TargetsAdd(g: Graph, g': Graph, m: Metadata, key: string)
    requires g'.targets == g.targets[key := TargetsOf(g, key) + {m.target}]
    ensures forall k :: TargetsOf(g', k) == TargetsOf(g, k) + (if k == key then {m.target} else {})
  {
  }

  lemma EdgesAdd(es0: set<(string, string)>, es: set<(string, string)>, m: Metadata, seen: set<string>, id: string,
                 edges: set<(string, string)>)
    requires forall e :: e in es <==> e in es0 || IsEdgeOf(m, seen, e)
    requires id in m.nodes && forall e :: e in edges <==> e in es || IsEdgeFrom(m, id, m.nodes[id], e)
    ensures forall e :: e in edges <==> e in es0 || IsEdgeOf(m, seen + {id}, e)
  {
    hide IsEdgeFrom;
  }

  lemma AddsAll(g0: Graph, g: Graph, m: Metadata, seen: set<string>, root: string)
    requires Adds(g0, g, m, seen) && forall id :: id in seen <==> Reachable(m, root, id)
    ensures AddsReachable(g0, g, m, root)
  {
    hide IsEdgeFrom, Reachable, TargetsOf;
    assert forall k :: k in KeysOf(m, seen) <==> HasKey(m, root, k);
    assert forall e :: IsEdgeOf(m, seen, e) <==> HasEdge(m, root, e);
  }

  lemma FrontierGrows(m: Metadata, root: string, seen: set<string>, stack: seq<string>, id: string, stack': seq<string>)
    requires Frontier(m, root, seen, stack + [id])
    requires forall b :: b in stack' <==> b in stack || Edge(m, id, b)
    ensures Frontier(m, root, seen + {id}, stack')
    ensures Reachable(m, root, id) && forall b | Edge(m, id, b) :: Reachable(m, root, b)
  {
    hide Reachable, Edge;
    assert id in stack + [id];
    forall b | Edge(m, id, b) ensures Reachable(m, root, b) {
      ReachableStep(m, root, id, b);
    }
  }

  lemma FrontierDone(m: Metadata, root: string, seen: set<string>)
    requires Frontier(m, root, seen, [])
    ensures forall id :: id in seen <==> Reachable(m, root, id)
  {
    hide Reachable, Edge;
    forall id | Reachable(m, root, id) ensures id in seen {
      ClosedHoldsReachable(m, seen, root, id);
    }
  }

  /** Collects everything reachable from `root`, and succeeds exactly when all of it
      is described. */
  method Traverse(m: Metadata, root: string, g0: Graph) returns (r: Result<Graph>)
    requires KeyedBy(g0.packages)
    ensures r.Ok? <==> WellFormed(m, root)
    ensures r.Err? ==> r.error == Incomplete || r.error == UnknownDependency || r.error == OutsideRepository
    ensures r.Ok? ==> AddsReachable(g0, r.value, m, root) && r.value.roots == g0.roots
    ensures r.Ok? ==> AddsShipped(g0, r.value, m, root)
  {
    var g, stack := g0, [root];
    var seen: set<string> := {};
    ReachableRoot(m, root);
    assert Adds(g0, g, m, seen);
    hide Adds, Reachable, IsEdgeFrom, Key, AddsReachable;
    while stack != []
      invariant Frontier(m, root, seen, stack) && Adds(g0, g, m, seen) && g.roots == g0.roots
      invariant AllDescribed(m, seen)
      decreases m.packages.Keys - seen, |stack|
    {
      var id := stack[|stack| - 1];
      assert id in stack && stack == stack[..|stack| - 1] + [id];
      stack := stack[..|stack| - 1];
      if id in seen { continue; }
      if id !in m.packages || id !in m.nodes { return Err(Incomplete); }
      if m.packages[id].identity.None? { return Err(OutsideRepository); }
      hide Frontier;
      var failed, stack', edges := VisitDependencies(m, id, stack, g.edges);
      if failed.Some? {
        NotWellFormed(m, root, seen, stack, id);
        return Err(failed.value);
      }
      FrontierGrows(m, root, seen, stack, id, stack');
      RecordedAdds(g0, g, m, seen, id, edges);
      g := Recorded(g, m, id).(edges := edges);
      seen, stack := seen + {id}, stack';
    }
    FrontierDone(m, root, seen);
    AddsAll(g0, g, m, seen, root);
    ReachableShips(g0, g, m, root);
    r := Ok(g);
  }

  lemma NotWellFormed(m: Metadata, root: string, seen: set<string>, stack: seq<string>, id: string)
    requires Frontier(m, root, seen, stack + [id]) && id in m.nodes
    requires exists d | d in m.nodes[id] :: Follows(d) && !Named(m, d.pkg)
    ensures !WellFormed(m, root)
  {
    hide Reachable;
    var d :| d in m.nodes[id] && Follows(d) && !Named(m, d.pkg);
    assert id in stack + [id] && Edge(m, id, d.pkg);
    ReachableStep(m, root, id, d.pkg);
  }

  // ---------------------------------------------------------------- every target

  ghost predicate Rooted(m: Metadata, rootName: string, root: string) {
    RootIds(m, rootName) == {root} && WellFormed(m, root)
  }

  /** The package is the only one in the repository that has the root's name. */
  predicate OnlyRoot(m: Metadata, rootName: string, root: string) {
    root in m.packages &&
    forall id | id in m.packages :: id == root <==> m.packages[id].name == rootName && m.packages[id].inRepository
  }

  lemma OnlyRootIff(m: Metadata, rootName: string, root: string)
    ensures OnlyRoot(m, rootName, root) <==> RootIds(m, rootName) == {root}
  {
    if OnlyRoot(m, rootName, root) {
      assert forall id :: id in RootIds(m, rootName) <==> id in {root};
    } else if RootIds(m, rootName) == {root} {
      assert root in RootIds(m, rootName);
      assert forall id | id in m.packages && m.packages[id].name == rootName && m.packages[id].inRepository ::
        id in RootIds(m, rootName);
    }
  }

  ghost predicate HasRoot(m: Metadata, rootName: string) {
    exists root :: Rooted(m, rootName, root)
  }

  predicate DistinctTargets(ms: seq<Metadata>) {
    forall i, k | 0 <= i < k < |ms| :: ms[i].target != ms[k].target
  }

  ghost predicate AllRooted(ms: seq<Metadata>, rootName: string, roots: seq<string>) {
    |roots| == |ms| && forall i | 0 <= i < |ms| :: Rooted(ms[i], rootName, roots[i])
  }

  /** `g` holds exactly what the targets reach from their roots, together. */
  ghost predicate IsUnion(ms: seq<Metadata>, roots: seq<string>, g: Graph)
    requires |roots| == |ms|
  {
    && KeyedBy(g.packages)
    && (forall k :: k in g.packages <==> exists i | 0 <= i < |ms| :: HasKey(ms[i], roots[i], k))
    && (forall e :: e in g.edges <==> exists i | 0 <= i < |ms| :: HasEdge(ms[i], roots[i], e))
    && (forall k, t :: t in TargetsOf(g, k) <==>
          exists i | 0 <= i < |ms| :: HasKey(ms[i], roots[i], k) && ms[i].target == t)
  }

  lemma UnionGrows(ms: seq<Metadata>, roots: seq<string>, i: nat, root: string, g: Graph, g': Graph)
    requires i < |ms| && |roots| == i && IsUnion(ms[..i], roots, g) && AddsReachable(g, g', ms[i], root)
    ensures IsUnion(ms[..i + 1], roots + [root], g')
  {
    hide HasKey, HasEdge, TargetsOf, KeyedBy;
    var ms', roots' := ms[..i + 1], roots + [root];
    assert forall n | 0 <= n < i :: ms'[n] == ms[..i][n] && roots'[n] == roots[n];
    assert ms'[i] == ms[i] && roots'[i] == root;
  }

  /** Both ends of every collected edge are collected packages. */
  lemma EndpointsCollected(ms: seq<Metadata>, rootName: string, roots: seq<string>, g: Graph, e: (string, string))
    requires AllRooted(ms, rootName, roots) && IsUnion(ms, roots, g) && e in g.edges
    ensures e.0 in g.packages && e.1 in g.packages
  {
    hide TargetsOf, KeyedBy, Key, Follows;
    var i :| 0 <= i < |ms| && HasEdge(ms[i], roots[i], e);
    var m, root := ms[i], roots[i];
    var a :| Reachable(m, root, a) && a in m.nodes && IsEdgeFrom(m, a, m.nodes[a], e);
    var d :| d in m.nodes[a] && Follows(d) && Named(m, d.pkg) && e == (Key(m.packages[a]), Key(m.packages[d.pkg]));
    assert Edge(m, a, d.pkg);
    ReachableStep(m, root, a, d.pkg);
    assert HasKey(m, root, e.0) && HasKey(m, root, e.1);
  }

  /** One target: its only root, and what is reachable from it. */
  method LoadTarget(m: Metadata, rootName: string, g: Graph) returns (r: Result<Graph>, root: string)
    requires KeyedBy(g.packages)
    ensures r.Ok? <==> HasRoot(m, rootName)
    ensures r.Err? ==>
      r.error == Roots || r.error == Incomplete || r.error == UnknownDependency || r.error == OutsideRepository
    ensures r.Ok? ==> Rooted(m, rootName, root) && AddsReachable(g, r.value, m, root)
    ensures r.Ok? ==> r.value.roots == g.roots + {RootKey(m, root)}
    ensures r.Ok? ==> OnlyRoot(m, rootName, root)
    ensures r == Err(Roots) ==> forall id :: !OnlyRoot(m, rootName, id)
  {
    hide Reachable, AddsReachable, Key;
    root := "";
    var roots := RootIds(m, rootName);
    if |roots| != 1 {
      assert forall x | roots == {x} :: |roots| == 1;
      forall id ensures !OnlyRoot(m, rootName, id) { OnlyRootIff(m, rootName, id); }
      return Err(Roots), root;
    }
    root :| root in roots;
    assert |roots - {root}| == 0;
    assert roots == {root};
    OnlyRootIff(m, rootName, root);
    hide OnlyRoot;
    assert forall x | roots == {x} :: x == root by {
      forall x | roots == {x} ensures x == root { assert root in {x}; }
    }
    r := Traverse(m, root, g);
    if r.Ok? {
      ReachableRoot(m, root);
      assert AddsReachable(g, r.value.(roots := g.roots + {Key(m.packages[root])}), m, root) by {
        RootsAreApart(g, r.value, m, root, g.roots + {Key(m.packages[root])});
      }
      r := Ok(r.value.(roots := g.roots + {Key(m.packages[root])}));
      assert Rooted(m, rootName, root);
    }
  }

  lemma RootsAreApart(g: Graph, g': Graph, m: Metadata, root: string, roots: set<string>)
    requires AddsReachable(g, g', m, root)
    ensures AddsReachable(g, g'.(roots := roots), m, root)
  {
    hide HasKey, HasEdge;
    assert forall k :: TargetsOf(g'.(roots := roots), k) == TargetsOf(g', k);
  }

  function RootKey(m: Metadata, root: string): string {
    if Named(m, root) then Key(m.packages[root]) else ""
  }

  predicate SameRoot(ms: seq<Metadata>, roots: seq<string>)
    requires |roots| == |ms|
  {
    forall i, k | 0 <= i < |ms| && 0 <= k < |ms| :: RootKey(ms[i], roots[i]) == RootKey(ms[k], roots[k])
  }

  predicate AreRootKeys(keys: set<string>, ms: seq<Metadata>, roots: seq<string>)
    requires |roots| <= |ms|
  {
    && (forall i | 0 <= i < |roots| :: RootKey(ms[i], roots[i]) in keys)
    && (forall k | k in keys :: exists i | 0 <= i < |roots| :: RootKey(ms[i], roots[i]) == k)
  }

  lemma OneRootKey(keys: set<string>, ms: seq<Metadata>, roots: seq<string>)
    requires |roots| == |ms| > 0 && AreRootKeys(keys, ms, roots)
    ensures |keys| == 1 <==> SameRoot(ms, roots)
  {
    hide RootKey;
    var first := RootKey(ms[0], roots[0]);
    if SameRoot(ms, roots) {
      assert keys == {first};
    }
    if |keys| == 1 {
      assert |keys - {first}| == 0;
      assert keys == {first};
    }
  }

  ghost predicate Loadable(ms: seq<Metadata>, rootName: string) {
    && ms != [] && DistinctTargets(ms)
    && (forall i | 0 <= i < |ms| :: HasRoot(ms[i], rootName))
  }

  // ---------------------------------------------------------------- identifiers

  predicate Locked(packages: map<string, Package>, locked: set<string>) {
    forall k | k in packages && packages[k].registry :: k in locked
  }

  /** No two packages get the same identifier. */
  predicate DistinctIds(keys: set<string>, spdxId: string -> string) {
    forall a, b | a in keys && b in keys && spdxId(a) == spdxId(b) :: a == b
  }

  /** Gives every package its identifier; `locked` are the keys with a checksum in the lock
      file. Succeeds exactly when every registry package is locked and no identifier is
      given twice. */
  method NamePackages(packages: map<string, Package>, locked: set<string>, spdxId: string -> string)
    returns (r: Result<map<string, string>>)
    ensures r.Ok? <==> Locked(packages, locked) && DistinctIds(packages.Keys, spdxId)
    ensures r.Ok? ==> r.value == map k | k in packages :: spdxId(k)
    ensures r == Err(NoChecksum) ==> !Locked(packages, locked)
    ensures r == Err(DuplicateId) ==> !DistinctIds(packages.Keys, spdxId)
    ensures r.Err? ==> r.error == NoChecksum || r.error == DuplicateId
  {
    var left, ids, given := packages.Keys, map[], {};
    while left != {}
      invariant left <= packages.Keys && ids == map k | k in packages && k !in left :: spdxId(k)
      invariant given == ids.Values
      invariant forall k | k in ids && packages[k].registry :: k in locked
      invariant DistinctIds(ids.Keys, spdxId)
    {
      var k :| k in left;
      if packages[k].registry && k !in locked { return Err(NoChecksum); }
      var id := spdxId(k);
      if id in given {
        var other :| other in ids && ids[other] == id;
        assert other != k && spdxId(other) == spdxId(k);
        return Err(DuplicateId);
      }
      ghost var before := ids;
      ids, given, left := ids[k := id], given + {id}, left - {k};
      OneMoreId(before, k, id);
    }
    assert ids.Keys == packages.Keys;
    r := Ok(ids);
  }

  lemma OneMoreId(ids: map<string, string>, k: string, id: string)
    requires k !in ids
    ensures ids[k := id].Values == ids.Values + {id}
  {
    assert ids[k := id][k] == id;
    forall v | v in ids.Values ensures v in ids[k := id].Values {
      var j :| j in ids && ids[j] == v;
      assert ids[k := id][j] == v;
    }
  }

  predicate EndpointsKnown(g: Graph) {
    forall e | e in g.edges :: e.0 in g.packages && e.1 in g.packages
  }

  /** The bill of a graph whose edges join collected packages. */
  ghost predicate IsBill(g: Graph, spdxId: string -> string, bill: Bill) {
    && bill.graph == g && bill.ids == (map k | k in g.packages :: spdxId(k))
    && bill.relationships == set e | e in g.edges :: (spdxId(e.0), spdxId(e.1))
  }

  /** Names the packages and checks the endpoints of every edge, which never fails. */
  method Describe(g: Graph, locked: set<string>, spdxId: string -> string) returns (r: Result<Bill>)
    requires EndpointsKnown(g)
    ensures r.Ok? <==> Locked(g.packages, locked) && DistinctIds(g.packages.Keys, spdxId)
    ensures r.Ok? ==> IsBill(g, spdxId, r.value)
    ensures r.Err? ==> r.error == NoChecksum || r.error == DuplicateId
    ensures r == Err(NoChecksum) ==> !Locked(g.packages, locked)
    ensures r == Err(DuplicateId) ==> !DistinctIds(g.packages.Keys, spdxId)
  {
    var named := NamePackages(g.packages, locked, spdxId);
    hide Locked, DistinctIds;
    if named.Err? { return Err(named.error); }
    var ids := named.value;
    var complete := forall e | e in g.edges :: e.0 in ids && e.1 in ids;
    r := if complete then Ok(Bill(g, ids, set e | e in g.edges :: (ids[e.0], ids[e.1]))) else Err(Unreachable);
  }

  /** Succeeds with the union of what every target reaches. The only errors are an empty
      or repeated target list, a target without exactly one root, something reachable that
      is not described, targets that disagree about the root, a registry package without a
      checksum and an identifier given twice; the final check of the edges' endpoints
      never fails. */
  method LoadGraph(ms: seq<Metadata>, rootName: string, locked: set<string>, spdxId: string -> string)
    returns (r: Result<Bill>, ghost roots: seq<string>, ghost g: Graph)
    ensures r.Ok? || r.error == NoChecksum || r.error == DuplicateId || r.error == RootsDisagree ==>
      AllRooted(ms, rootName, roots)
    ensures r.Ok? || r.error == NoChecksum || r.error == DuplicateId ==> SameRoot(ms, roots) && IsUnion(ms, roots, g)
    ensures r.Ok? ==> Loadable(ms, rootName) && IsBill(g, spdxId, r.value)
    ensures r.Ok? ==> Locked(g.packages, locked) && DistinctIds(g.packages.Keys, spdxId)
    ensures r.Err? ==> r.error != Unreachable
    ensures r.Err? && Loadable(ms, rootName) ==>
      r.error == RootsDisagree || r.error == NoChecksum || r.error == DuplicateId
    ensures r == Err(RootsDisagree) ==> !SameRoot(ms, roots)
    ensures r == Err(NoChecksum) ==> !Locked(g.packages, locked)
    ensures r == Err(DuplicateId) ==> !DistinctIds(g.packages.Keys, spdxId)
  {
    hide IsUnion, Loadable, AllRooted, SameRoot, IsBill, Locked, DistinctIds, EndpointsKnown;
    g := Graph(map[], {}, map[], {});
    var union;
    union, roots := LoadUnion(ms, rootName);
    if union.Err? { return Err(union.error), roots, g; }
    g := union.value;
    AllEndpointsKnown(ms, rootName, roots, g);
    r := Describe(union.value, locked, spdxId);
  }

  lemma AllEndpointsKnown(ms: seq<Metadata>, rootName: string, roots: seq<string>, g: Graph)
    requires AllRooted(ms, rootName, roots) && IsUnion(ms, roots, g)
    ensures EndpointsKnown(g)
  {
    forall e | e in g.edges ensures e.0 in g.packages && e.1 in g.packages {
      EndpointsCollected(ms, rootName, roots, g, e);
    }
  }

  /** The union over all targets. */
  method LoadUnion(ms: seq<Metadata>, rootName: string) returns (r: Result<Graph>, ghost roots: seq<string>)
    ensures r.Ok? ==> Loadable(ms, rootName) && AllRooted(ms, rootName, roots) && IsUnion(ms, roots, r.value)
    ensures r.Ok? ==> SameRoot(ms, roots)
    ensures r.Err? ==> r.error != Unreachable && r.error != NoChecksum && r.error != DuplicateId
    ensures r.Err? && Loadable(ms, rootName) ==> r.error == RootsDisagree
    ensures r == Err(RootsDisagree) ==> AllRooted(ms, rootName, roots) && !SameRoot(ms, roots)
  {
    hide Reachable, WellFormed, HasKey, HasEdge, Key, KeyedBy, RootIds, RootKey, TargetsOf, AddsReachable,
      OnlyRoot;
    roots := [];
    if ms == [] || exists i, k | 0 <= i < k < |ms| :: ms[i].target == ms[k].target {
      return Err(Targets), roots;
    }
    var g := Graph(map[], {}, map[], {});
    EmptyUnion(ms, g);
    for i := 0 to |ms|
      invariant AllRooted(ms[..i], rootName, roots) && IsUnion(ms[..i], roots, g) && AreRootKeys(g.roots, ms, roots)
    {
      var t, root := LoadTarget(ms[i], rootName, g);
      if t.Err? {
        return t, roots;
      }
      UnionGrows(ms, roots, i, root, g, t.value);
      g, roots := t.value, roots + [root];
    }
    assert ms[..|ms|] == ms;
    OneRootKey(g.roots, ms, roots);
    if |g.roots| != 1 { return Err(RootsDisagree), roots; }
    forall i | 0 <= i < |ms| ensures HasRoot(ms[i], rootName) {
      assert Rooted(ms[i], rootName, roots[i]);
    }
    r := Ok(g);
  }

  lemma EmptyUnion(ms: seq<Metadata>, g: Graph)
    requires g == Graph(map[], {}, map[], {})
    ensures ms[..0] == [] && IsUnion(ms[..0], [], g)
  {
  }
}
