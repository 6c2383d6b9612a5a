/**
 * The dependency-graph factory: seeding the graph with the requested packages and
 * expanding it layer by layer, linking each dependency to an existing node, skipping it
 * when installed, making a node for a repository package, or deferring it to one batched
 * AUR lookup per layer.
 */
module GraphFactory {
  import opened Wrappers
  import opened Pacman
  import opened DepGraph

  /** The default dependency function: installation dependencies, then make dependencies. */
  function DefaultDeps(p: Package): (r: seq<string>)
    ensures |r| == |p.depends| + |p.makeDepends|
    ensures r[..|p.depends|] == p.depends && r[|p.depends|..] == p.makeDepends
  {
    p.depends + p.makeDepends
  }

  /** The default dependency function lists what the node's AllDepends lists. */
  lemma DefaultDepsAreAllDepends(n: Node)
    ensures DefaultDeps(n.pkg) == AllDepends(n)
  {
  }

  /** The enabled repositories that NewFactory reads when some repositories are ignored: those not ignored, in order. */
  function KeptRepositories(enabled: seq<string>, ignore: seq<string>): seq<string>
  {
    if enabled == [] then []
    else
      var repo := enabled[|enabled| - 1];
      KeptRepositories(enabled[..|enabled| - 1], ignore) + (if repo in ignore then [] else [repo])
  }

  /** A repository is kept exactly when it is enabled and not ignored. */
  lemma {:induction false} KeptRepositoriesMembers(enabled: seq<string>, ignore: seq<string>, r: string)
    ensures r in KeptRepositories(enabled, ignore) <==> r in enabled && r !in ignore
  {
    if enabled != [] {
      var a := enabled[..|enabled| - 1];
      KeptRepositoriesMembers(a, ignore, r);
      assert enabled == a + [enabled[|enabled| - 1]];
    }
  }

  /** Filtering distributes over concatenation, so the kept repositories stay in their enabled order. */
  lemma {:induction false} KeptRepositoriesAppend(a: seq<string>, b: seq<string>, ignore: seq<string>)
    ensures KeptRepositories(a + b, ignore) == KeptRepositories(a, ignore) + KeptRepositories(b, ignore)
  {
    if b == [] {
      assert a + b == a;
    } else {
      var c := b[..|b| - 1];
      KeptRepositoriesAppend(a, c, ignore);
      assert (a + b)[..|a + b| - 1] == a + c;
      assert (a + b)[|a + b| - 1] == b[|b| - 1];
    }
  }

  /** With nothing ignored, every enabled repository is read. */
  lemma {:induction false} KeptRepositoriesNoIgnore(enabled: seq<string>)
    ensures KeptRepositories(enabled, []) == enabled
  {
    if enabled != [] {
      KeptRepositoriesNoIgnore(enabled[..|enabled| - 1]);
      assert enabled == enabled[..|enabled| - 1] + [enabled[|enabled| - 1]];
    }
  }

  /** The `nextRepo` loop of NewFactory: skip each enabled repository that some ignored name equals. */
  method FilterRepositories(enabled: seq<string>, ignore: seq<string>) returns (kept: seq<string>)
    ensures kept == KeptRepositories(enabled, ignore)
  {
    kept := [];
    var i := 0;
    label nextRepo:
    while i < |enabled|
      invariant 0 <= i <= |enabled|
      invariant kept == KeptRepositories(enabled[..i], ignore)
    {
      var repo := enabled[i];
      i := i + 1;
      assert enabled[..i][..i - 1] == enabled[..i - 1];
      var j := 0;
      while j < |ignore|
        invariant 0 <= j <= |ignore|
        invariant repo !in ignore[..j]
      {
        if repo == ignore[j] {
          continue nextRepo;
        }
        assert ignore[..j + 1] == ignore[..j] + [ignore[j]];
        j := j + 1;
      }
      assert ignore[..j] == ignore;
      kept := kept + [repo];
    }
    assert enabled[..i] == enabled;
  }

  /** The factory's settings: installed and repository packages by name, and the options. */
  datatype Options = Options(
    local: map<string, Package>,
    sync: map<string, Package>,
    skipInstalled: bool,
    truncate: bool,
    noUnknown: bool,
    depFunc: Package -> seq<string>)

  /** One dependency name of one frontier node, in scan order. */
  datatype Demand = Demand(node: Node, name: string)

  function DemandsOf(v: Node, ds: seq<string>): seq<Demand>
  {
    seq(|ds|, k requires 0 <= k < |ds| => Demand(v, ds[k]))
  }

  /** Every (node, dependency) pair of the frontier, node by node, in dependency order. */
  function Demands(deps: Package -> seq<string>, lst: seq<Node>): seq<Demand>
  {
    if lst == [] then []
    else Demands(deps, lst[..|lst| - 1]) + DemandsOf(lst[|lst| - 1], deps(lst[|lst| - 1].pkg))
  }

  /** Every listed node has an edge row, so edges may be added from it. */
  ghost predicate Rows(g: GraphState, lst: seq<Node>)
  {
    forall k :: 0 <= k < |lst| ==> lst[k].id in g.edges
  }

  ghost predicate Rowed(g: GraphState, dms: seq<Demand>)
  {
    forall k :: 0 <= k < |dms| ==> dms[k].node.id in g.edges
  }

  lemma {:induction false} DemandsRowed(deps: Package -> seq<string>, lst: seq<Node>, g: GraphState)
    requires Rows(g, lst)
    ensures Rowed(g, Demands(deps, lst))
  {
    if lst != [] {
      DemandsRowed(deps, lst[..|lst| - 1], g);
    }
  }

  /** Where the scan sends a dependency name, in the order the layer tests it. */
  datatype Route = ToExisting | Skipped | ToSync | ToRemote

  /** The routes under which the scan adds an edge from the frontier node. */
  predicate Links(route: Route)
  {
    route == ToExisting || route == ToSync
  }

  function RouteOf(o: Options, names: map<string, Node>, d: string): Route
  {
    if d in names then ToExisting
    else if o.skipInstalled && d in o.local then Skipped
    else if d in o.sync then ToSync
    else ToRemote
  }

  /** The graph and the three locals of a layer: the next frontier, the names to fetch, and the waiting nodes. */
  datatype ScanState = ScanState(
    graph: GraphState,
    next: seq<Node>,
    unavailable: set<string>,
    pending: map<string, seq<Node>>)

  /** The scan loop's body for one dependency of one frontier node. */
  function ScanStep(o: Options, s: ScanState, dm: Demand): (r: ScanState)
    requires dm.node.id in s.graph.edges
    ensures r.graph.names == s.graph.names
    ensures r.graph.edges.Keys == s.graph.edges.Keys
  {
    match RouteOf(o, s.graph.names, dm.name)
    case ToExisting =>
      s.(graph := Linked(s.graph, dm.node, s.graph.names[dm.name]))
    case Skipped =>
      s
    case ToSync =>
      var u := Node(s.graph.nextID + 1, o.sync[dm.name]);
      s.(graph := Linked(WithNode(s.graph), dm.node, u),
         next := if o.truncate then s.next else s.next + [u])
    case ToRemote =>
      s.(unavailable := s.unavailable + {dm.name},
         pending := s.pending[dm.name := Get(s.pending, dm.name) + [dm.node]])
  }

  /** The scan steps over a sequence of demands; the node indices never change. */
  function ScanAll(o: Options, s: ScanState, dms: seq<Demand>): (r: ScanState)
    requires Rowed(s.graph, dms)
    ensures r.graph.names == s.graph.names
    ensures r.graph.edges.Keys == s.graph.edges.Keys
  {
    if dms == [] then s
    else ScanStep(o, ScanAll(o, s, dms[..|dms| - 1]), dms[|dms| - 1])
  }

  lemma ScanAllSnoc(o: Options, s: ScanState, dms: seq<Demand>, dm: Demand)
    requires Rowed(s.graph, dms + [dm])
    ensures ScanAll(o, s, dms + [dm]) == ScanStep(o, ScanAll(o, s, dms), dm)
  {
    assert (dms + [dm])[..|dms|] == dms;
  }

  /** The demands of a node with an edge row may follow demands that all have one. */
  lemma RowedExtend(g: GraphState, done: seq<Demand>, v: Node, ds: seq<string>)
    requires Rowed(g, done) && v.id in g.edges
    ensures Rowed(g, done + DemandsOf(v, ds))
  {
  }

  /** The demands up to the j-th dependency of the i-th frontier node all come from nodes with rows. */
  lemma RowedUpTo(deps: Package -> seq<string>, lst: seq<Node>, g: GraphState, i: int, j: int)
    requires Rows(g, lst) && 0 <= i < |lst| && 0 <= j <= |deps(lst[i].pkg)|
    ensures Rowed(g, Demands(deps, lst[..i]) + DemandsOf(lst[i], deps(lst[i].pkg)[..j]))
  {
    assert Rows(g, lst[..i]);
    DemandsRowed(deps, lst[..i], g);
  }

  /** The demands of a longer frontier prefix extend those of the shorter one. */
  lemma DemandsSnoc(deps: Package -> seq<string>, lst: seq<Node>, i: int)
    requires 0 <= i < |lst|
    ensures Demands(deps, lst[..i + 1]) == Demands(deps, lst[..i]) + DemandsOf(lst[i], deps(lst[i].pkg)[..|deps(lst[i].pkg)|])
  {
    assert lst[..i + 1][..i] == lst[..i];
    assert deps(lst[i].pkg)[..|deps(lst[i].pkg)|] == deps(lst[i].pkg);
  }

  /** One more dependency of the same node extends the demands by one. */
  lemma DemandsOfSnoc(v: Node, ds: seq<string>, j: int)
    requires 0 <= j < |ds|
    ensures DemandsOf(v, ds[..j + 1]) == DemandsOf(v, ds[..j]) + [Demand(v, ds[j])]
  {
  }

  lemma DemandsNone(done: seq<Demand>, v: Node, ds: seq<string>)
    ensures done + DemandsOf(v, ds[..0]) == done
  {
    assert DemandsOf(v, ds[..0]) == [];
    AppendEmpty(done);
  }

  lemma AppendEmpty<T>(x: seq<T>)
    ensures x + [] == x
  {
  }

  lemma DemandsAfter(done: seq<Demand>, v: Node, ds: seq<string>, j: int)
    requires 0 <= j < |ds|
    ensures done + DemandsOf(v, ds[..j + 1]) == (done + DemandsOf(v, ds[..j])) + [Demand(v, ds[j])]
  {
    DemandsOfSnoc(v, ds, j);
    SnocAssoc(done, DemandsOf(v, ds[..j]), Demand(v, ds[j]));
  }

  /** The scan of a whole frontier, from empty locals. */
  function Scan(o: Options, g: GraphState, lst: seq<Node>): ScanState
    requires Rows(g, lst)
  {
    DemandsRowed(o.depFunc, lst, g);
    ScanAll(o, ScanState(g, [], {}, map[]), Demands(o.depFunc, lst))
  }

  /** The names the scan sends to the AUR. */
  function RemoteNames(o: Options, names: map<string, Node>, dms: seq<Demand>): set<string>
  {
    if dms == [] then {}
    else
      var dm := dms[|dms| - 1];
      RemoteNames(o, names, dms[..|dms| - 1]) + (if RouteOf(o, names, dm.name) == ToRemote then {dm.name} else {})
  }

  /** The nodes that wait for the name `d`: one entry per deferred occurrence, in scan order. */
  function Waiting(o: Options, names: map<string, Node>, dms: seq<Demand>, d: string): seq<Node>
  {
    if dms == [] then []
    else
      var dm := dms[|dms| - 1];
      Waiting(o, names, dms[..|dms| - 1], d) + (if dm.name == d && RouteOf(o, names, d) == ToRemote then [dm.node] else [])
  }

  /** The repository nodes the scan makes, numbered on from `base`. */
  function SyncMade(o: Options, names: map<string, Node>, dms: seq<Demand>, base: int): seq<Node>
  {
    if dms == [] then []
    else
      var dm := dms[|dms| - 1];
      var made := SyncMade(o, names, dms[..|dms| - 1], base);
      made + (if RouteOf(o, names, dm.name) == ToSync then [Node(base + |made| + 1, o.sync[dm.name])] else [])
  }

  /** The repository nodes get consecutive fresh ids and their packages from the repositories. */
  lemma {:induction false} SyncMadeIds(o: Options, names: map<string, Node>, dms: seq<Demand>, base: int, k: int)
    requires 0 <= k < |SyncMade(o, names, dms, base)|
    ensures SyncMade(o, names, dms, base)[k].id == base + k + 1
    ensures SyncMade(o, names, dms, base)[k].pkg in o.sync.Values
  {
    var a := dms[..|dms| - 1];
    if k < |SyncMade(o, names, a, base)| {
      SyncMadeIds(o, names, a, base, k);
    }
  }

  /** The copies of the node with id `w` that the scan appends to w's out-list: one per linked dependency. */
  function Linking(o: Options, names: map<string, Node>, dms: seq<Demand>, w: int): seq<Node>
  {
    if dms == [] then []
    else
      var dm := dms[|dms| - 1];
      Linking(o, names, dms[..|dms| - 1], w) + (if dm.node.id == w && Links(RouteOf(o, names, dm.name)) then [dm.node] else [])
  }

  lemma StepPending(o: Options, s: ScanState, dm: Demand, d: string)
    requires dm.node.id in s.graph.edges
    ensures Get(ScanStep(o, s, dm).pending, d) ==
      Get(s.pending, d) + (if dm.name == d && RouteOf(o, s.graph.names, d) == ToRemote then [dm.node] else [])
  {
  }

  lemma StepOutLists(o: Options, s: ScanState, dm: Demand, w: int)
    requires dm.node.id in s.graph.edges
    ensures Get(ScanStep(o, s, dm).graph.edgesFrom, w) == Get(s.graph.edgesFrom, w) +
      (if dm.node.id == w && Links(RouteOf(o, s.graph.names, dm.name)) then [dm.node] else [])
  {
    var route := RouteOf(o, s.graph.names, dm.name);
    if route == ToSync {
      LinkedLists(WithNode(s.graph), dm.node, Node(s.graph.nextID + 1, o.sync[dm.name]), w);
    } else if route == ToExisting {
      LinkedLists(s.graph, dm.node, s.graph.names[dm.name], w);
    }
  }

  lemma StepKeepsEdge(o: Options, s: ScanState, dm: Demand, a: int, b: int)
    requires dm.node.id in s.graph.edges && a in s.graph.edges && b in s.graph.edges[a]
    ensures b in ScanStep(o, s, dm).graph.edges[a]
  {
  }

  lemma StepPendingIn(o: Options, s: ScanState, dm: Demand)
    requires dm.node.id in s.graph.edges && PendingIn(s.pending, s.graph)
    ensures PendingIn(ScanStep(o, s, dm).pending, ScanStep(o, s, dm).graph)
  {
    var r := ScanStep(o, s, dm);
    forall d, k | d in r.pending && 0 <= k < |r.pending[d]| ensures r.pending[d][k].id in r.graph.edges {
      if RouteOf(o, s.graph.names, dm.name) == ToRemote && d == dm.name && k == |Get(s.pending, d)| {
      } else {
        assert r.pending[d][k] == s.pending[d][k];
      }
    }
  }

  /** Exactly the deferred names become unavailable. */
  lemma {:induction false} ScanUnavailable(o: Options, s: ScanState, dms: seq<Demand>)
    requires Rowed(s.graph, dms)
    ensures ScanAll(o, s, dms).unavailable == s.unavailable + RemoteNames(o, s.graph.names, dms)
  {
    if dms != [] {
      ScanUnavailable(o, s, dms[..|dms| - 1]);
    }
  }

  /** Each deferred occurrence appends its node to the name's pending list, in scan order. */
  lemma {:induction false} ScanPending(o: Options, s: ScanState, dms: seq<Demand>, d: string)
    requires Rowed(s.graph, dms)
    ensures Get(ScanAll(o, s, dms).pending, d) == Get(s.pending, d) + Waiting(o, s.graph.names, dms, d)
  {
    if dms != [] {
      var a := dms[..|dms| - 1];
      ScanPending(o, s, a, d);
      StepPending(o, ScanAll(o, s, a), dms[|dms| - 1], d);
    }
  }

  lemma StepCounter(o: Options, s: ScanState, dm: Demand)
    requires dm.node.id in s.graph.edges
    ensures ScanStep(o, s, dm).graph.nextID == s.graph.nextID + (if RouteOf(o, s.graph.names, dm.name) == ToSync then 1 else 0)
  {
  }

  lemma StepNext(o: Options, s: ScanState, dm: Demand)
    requires dm.node.id in s.graph.edges
    ensures ScanStep(o, s, dm).next == s.next +
      (if RouteOf(o, s.graph.names, dm.name) == ToSync && !o.truncate then [Node(s.graph.nextID + 1, o.sync[dm.name])] else [])
  {
  }

  /** Each repository dependency consumes exactly one id. */
  lemma {:induction false} ScanCounter(o: Options, s: ScanState, dms: seq<Demand>)
    requires Rowed(s.graph, dms)
    ensures ScanAll(o, s, dms).graph.nextID == s.graph.nextID + |SyncMade(o, s.graph.names, dms, s.graph.nextID)|
  {
    if dms != [] {
      var a := dms[..|dms| - 1];
      ScanCounter(o, s, a);
      StepCounter(o, ScanAll(o, s, a), dms[|dms| - 1]);
    }
  }

  lemma {:induction false} ScanSyncKept(o: Options, s: ScanState, dms: seq<Demand>)
    requires Rowed(s.graph, dms) && !o.truncate
    ensures ScanAll(o, s, dms).next == s.next + SyncMade(o, s.graph.names, dms, s.graph.nextID)
  {
    if dms == [] {
      AppendEmpty(s.next);
    } else {
      var a := dms[..|dms| - 1];
      ScanSyncKept(o, s, a);
      ScanCounter(o, s, a);
      ScanAllLast(o, s, dms);
      SyncStep(o, s.graph.names, s.graph.nextID, ScanAll(o, s, a), dms, s.next);
    }
  }

  /** The repository node a demand makes, if any, with the given id. */
  function SyncNode(o: Options, names: map<string, Node>, dm: Demand, id: int): seq<Node>
  {
    if RouteOf(o, names, dm.name) == ToSync then [Node(id, o.sync[dm.name])] else []
  }

  lemma {:induction false} SyncMadeSnoc(o: Options, names: map<string, Node>, dms: seq<Demand>, base: int)
    requires dms != []
    ensures SyncMade(o, names, dms, base) ==
      SyncMade(o, names, dms[..|dms| - 1], base) + SyncNode(o, names, dms[|dms| - 1], base + |SyncMade(o, names, dms[..|dms| - 1], base)| + 1)
  {
  }

  lemma {:induction false} StepSync(o: Options, r: ScanState, dm: Demand, names: map<string, Node>, id: int)
    requires dm.node.id in r.graph.edges && !o.truncate
    requires r.graph.names == names && r.graph.nextID + 1 == id
    ensures ScanStep(o, r, dm).next == r.next + SyncNode(o, names, dm, id)
  {
    StepNext(o, r, dm);
  }

  lemma {:induction false} ScanAllLast(o: Options, s: ScanState, dms: seq<Demand>)
    requires Rowed(s.graph, dms) && dms != []
    ensures ScanAll(o, s, dms).next == ScanStep(o, ScanAll(o, s, dms[..|dms| - 1]), dms[|dms| - 1]).next
  {
  }

  /** One step of ScanSyncKept: the last demand adds its repository node, if any, to both sides. */
  lemma {:induction false} SyncStep(o: Options, names: map<string, Node>, base: int, r: ScanState, dms: seq<Demand>, x: seq<Node>)
    requires dms != [] && dms[|dms| - 1].node.id in r.graph.edges && !o.truncate && r.graph.names == names
    requires r.graph.nextID == base + |SyncMade(o, names, dms[..|dms| - 1], base)|
    requires r.next == x + SyncMade(o, names, dms[..|dms| - 1], base)
    ensures ScanStep(o, r, dms[|dms| - 1]).next == x + SyncMade(o, names, dms, base)
  {
    var made := SyncMade(o, names, dms[..|dms| - 1], base);
    var e := SyncNode(o, names, dms[|dms| - 1], base + |made| + 1);
    SyncMadeSnoc(o, names, dms, base);
    StepSync(o, r, dms[|dms| - 1], names, base + |made| + 1);
    SnocChain(ScanStep(o, r, dms[|dms| - 1]).next, r.next, x, made, e, SyncMade(o, names, dms, base));
  }

  lemma SnocChain<T>(n: seq<T>, m: seq<T>, x: seq<T>, y: seq<T>, e: seq<T>, y': seq<T>)
    requires n == m + e && m == x + y && y' == y + e
    ensures n == x + y'
  {
  }

  lemma {:induction false} ScanTruncated(o: Options, s: ScanState, dms: seq<Demand>)
    requires Rowed(s.graph, dms) && o.truncate
    ensures ScanAll(o, s, dms).next == s.next
  {
    if dms != [] {
      var a := dms[..|dms| - 1];
      ScanTruncated(o, s, a);
      StepNext(o, ScanAll(o, s, a), dms[|dms| - 1]);
    }
  }

  /** The repository nodes join the next frontier, in scan order, iff truncate is off. */
  lemma ScanSync(o: Options, s: ScanState, dms: seq<Demand>)
    requires Rowed(s.graph, dms)
    ensures o.truncate ==> ScanAll(o, s, dms).next == s.next
    ensures !o.truncate ==> ScanAll(o, s, dms).next == s.next + SyncMade(o, s.graph.names, dms, s.graph.nextID)
  {
    if o.truncate {
      ScanTruncated(o, s, dms);
    } else {
      ScanSyncKept(o, s, dms);
    }
  }

  /** A node's out-list grows by one copy of itself per dependency linked to an existing or repository node. */
  lemma {:induction false} ScanOutLists(o: Options, s: ScanState, dms: seq<Demand>, w: int)
    requires Rowed(s.graph, dms)
    ensures Get(ScanAll(o, s, dms).graph.edgesFrom, w) == Get(s.graph.edgesFrom, w) + Linking(o, s.graph.names, dms, w)
  {
    if dms != [] {
      var a := dms[..|dms| - 1];
      ScanOutLists(o, s, a, w);
      StepOutLists(o, ScanAll(o, s, a), dms[|dms| - 1], w);
    }
  }

  /** A dependency already in the graph ends with an edge from its node to the existing node. */
  lemma {:induction false} ScanLinksExisting(o: Options, s: ScanState, dms: seq<Demand>, k: int)
    requires Rowed(s.graph, dms)
    requires 0 <= k < |dms| && RouteOf(o, s.graph.names, dms[k].name) == ToExisting
    ensures s.graph.names[dms[k].name].id in ScanAll(o, s, dms).graph.edges[dms[k].node.id]
  {
    var a := dms[..|dms| - 1];
    if k < |a| {
      ScanLinksExisting(o, s, a, k);
      StepKeepsEdge(o, ScanAll(o, s, a), dms[|dms| - 1], dms[k].node.id, s.graph.names[dms[k].name].id);
    }
  }

  /** The id a linked demand's edge points to: the node already in the graph, or else the repository node made with id `id`. */
  function LinkTarget(names: map<string, Node>, dm: Demand, id: int): int
  {
    if dm.name in names then names[dm.name].id else id
  }

  /** The ids the scan links the node with id `a` to, one per linked dependency of `a`; repository ids are numbered on from `base`. */
  function Targets(o: Options, names: map<string, Node>, dms: seq<Demand>, base: int, a: int): set<int>
  {
    if dms == [] then {}
    else
      var dm := dms[|dms| - 1];
      var pre := dms[..|dms| - 1];
      Targets(o, names, pre, base, a) +
        (if dm.node.id == a && Links(RouteOf(o, names, dm.name)) then {LinkTarget(names, dm, base + |SyncMade(o, names, pre, base)| + 1)} else {})
  }

  /** One step adds at most one edge: from the demand's node to its target, and only in the two linking routes. */
  lemma StepEdges(o: Options, s: ScanState, dm: Demand, a: int)
    requires dm.node.id in s.graph.edges && a in s.graph.edges
    ensures ScanStep(o, s, dm).graph.edges[a].Keys == s.graph.edges[a].Keys +
      (if dm.node.id == a && Links(RouteOf(o, s.graph.names, dm.name)) then {LinkTarget(s.graph.names, dm, s.graph.nextID + 1)} else {})
  {
  }

  /** The scan adds to the edge row of `a` exactly the targets of a's linked dependencies: skipped and deferred names add no edge. */
  lemma {:induction false} ScanEdges(o: Options, s: ScanState, dms: seq<Demand>, a: int)
    requires Rowed(s.graph, dms) && a in s.graph.edges
    ensures ScanAll(o, s, dms).graph.edges[a].Keys == s.graph.edges[a].Keys + Targets(o, s.graph.names, dms, s.graph.nextID, a)
  {
    if dms != [] {
      var pre := dms[..|dms| - 1];
      ScanEdges(o, s, pre, a);
      ScanCounter(o, s, pre);
      EdgesStep(o, s.graph.names, s.graph.nextID, ScanAll(o, s, pre), dms, a, s.graph.edges[a].Keys);
    }
  }

  lemma {:induction false} EdgesStep(o: Options, names: map<string, Node>, base: int, r: ScanState, dms: seq<Demand>, a: int, x: set<int>)
    requires dms != [] && r.graph.names == names
    requires r.graph.nextID == base + |SyncMade(o, names, dms[..|dms| - 1], base)|
    requires dms[|dms| - 1].node.id in r.graph.edges && a in r.graph.edges
    requires r.graph.edges[a].Keys == x + Targets(o, names, dms[..|dms| - 1], base, a)
    ensures ScanStep(o, r, dms[|dms| - 1]).graph.edges[a].Keys == x + Targets(o, names, dms, base, a)
  {
    StepEdges(o, r, dms[|dms| - 1], a);
  }

  /** Every linked demand contributes its target to its node's row; `n` is the id a repository node made for it gets. */
  lemma {:induction false} TargetsHas(o: Options, names: map<string, Node>, dms: seq<Demand>, base: int, k: int, n: int)
    requires 0 <= k < |dms| && Links(RouteOf(o, names, dms[k].name))
    requires n == base + |SyncMade(o, names, dms[..k], base)| + 1
    ensures LinkTarget(names, dms[k], n) in Targets(o, names, dms, base, dms[k].node.id)
  {
    var pre := dms[..|dms| - 1];
    if k < |pre| {
      assert pre[..k] == dms[..k] && pre[k] == dms[k];
      TargetsHas(o, names, pre, base, k, n);
    }
  }

  /** Every target comes from a linked demand of that node. */
  lemma {:induction false} TargetsFrom(o: Options, names: map<string, Node>, dms: seq<Demand>, base: int, a: int, b: int)
    requires b in Targets(o, names, dms, base, a)
    ensures exists k :: (0 <= k < |dms| && dms[k].node.id == a && Links(RouteOf(o, names, dms[k].name)) &&
                         b == LinkTarget(names, dms[k], base + |SyncMade(o, names, dms[..k], base)| + 1))
  {
    var n := |dms| - 1;
    var pre := dms[..n];
    if b in Targets(o, names, pre, base, a) {
      TargetsFrom(o, names, pre, base, a, b);
      var k :| 0 <= k < |pre| && pre[k].node.id == a && Links(RouteOf(o, names, pre[k].name)) &&
        b == LinkTarget(names, pre[k], base + |SyncMade(o, names, pre[..k], base)| + 1);
      assert pre[..k] == dms[..k] && pre[k] == dms[k];
      assert 0 <= k < |dms| && dms[k].node.id == a && Links(RouteOf(o, names, dms[k].name)) &&
        b == LinkTarget(names, dms[k], base + |SyncMade(o, names, dms[..k], base)| + 1);
    } else {
      assert dms[..n] == pre;
      assert 0 <= n < |dms| && dms[n].node.id == a && Links(RouteOf(o, names, dms[n].name)) &&
        b == LinkTarget(names, dms[n], base + |SyncMade(o, names, dms[..n], base)| + 1);
    }
  }

  /**
   * A dependency found in a repository ends with an edge from its node to `n`, the id of the
   * repository node made for it: one past the repository nodes made for the demands before it.
   */
  lemma ScanLinksSync(o: Options, s: ScanState, dms: seq<Demand>, k: int, n: int)
    requires Rowed(s.graph, dms)
    requires 0 <= k < |dms| && RouteOf(o, s.graph.names, dms[k].name) == ToSync
    requires n == s.graph.nextID + |SyncMade(o, s.graph.names, dms[..k], s.graph.nextID)| + 1
    ensures n in ScanAll(o, s, dms).graph.edges[dms[k].node.id]
  {
    var a := dms[k].node.id;
    TargetsHas(o, s.graph.names, dms, s.graph.nextID, k, n);
    assert LinkTarget(s.graph.names, dms[k], n) == n;
    ScanEdges(o, s, dms, a);
    RowHas(ScanAll(o, s, dms).graph.edges[a], s.graph.edges[a].Keys, Targets(o, s.graph.names, dms, s.graph.nextID, a), n);
  }

  lemma RowHas(row: map<int, Edge>, x: set<int>, t: set<int>, n: int)
    requires row.Keys == x + t && n in t
    ensures n in row
  {
  }

  /** One step leaves the node list and the id index alone: a repository node is never added. */
  lemma StepKeepsNodes(o: Options, s: ScanState, dm: Demand)
    requires dm.node.id in s.graph.edges
    ensures ScanStep(o, s, dm).graph.nodes == s.graph.nodes && ScanStep(o, s, dm).graph.nodeIDs == s.graph.nodeIDs
  {
  }

  /** The scan never lists or indexes a node: repository nodes get ids and edges only. */
  lemma {:induction false} ScanKeepsNodes(o: Options, s: ScanState, dms: seq<Demand>)
    requires Rowed(s.graph, dms)
    ensures ScanAll(o, s, dms).graph.nodes == s.graph.nodes && ScanAll(o, s, dms).graph.nodeIDs == s.graph.nodeIDs
  {
    if dms != [] {
      ScanKeepsNodes(o, s, dms[..|dms| - 1]);
      StepKeepsNodes(o, ScanAll(o, s, dms[..|dms| - 1]), dms[|dms| - 1]);
    }
  }

  /** An out-list of a frontier node grows by nothing but copies of that node. */
  lemma LinkingOwn(o: Options, names: map<string, Node>, dms: seq<Demand>, w: int, k: int)
    requires 0 <= k < |Linking(o, names, dms, w)|
    ensures Linking(o, names, dms, w)[k].id == w
  {
    if dms != [] {
      var a := dms[..|dms| - 1];
      if k < |Linking(o, names, a, w)| {
        LinkingOwn(o, names, a, w, k);
      }
    }
  }

  /** Go's pre-sized request: one empty name per unavailable name, then each unavailable name once. */
  ghost predicate IsRequest(rq: seq<string>, unavailable: set<string>)
  {
    && |rq| == 2 * |unavailable|
    && (forall k :: 0 <= k < |unavailable| ==> rq[k] == "")
    && (forall x :: x in rq[|unavailable|..] <==> x in unavailable)
    && (forall i, j :: |unavailable| <= i < j < |rq| ==> rq[i] != rq[j])
  }

  /** With nothing unavailable the request is empty; otherwise it asks for the empty name too. */
  lemma RequestShape(rq: seq<string>, unavailable: set<string>)
    requires IsRequest(rq, unavailable)
    ensures unavailable == {} <==> rq == []
    ensures unavailable != {} ==> "" in rq
  {
    if unavailable != {} {
      assert rq[0] == "";
    }
  }

  /** The remote lookup's answer: every name found, some not found, or a failure. */
  datatype AurReply = Found(pkgs: seq<Package>) | NotFound(pkgs: seq<Package>, missing: seq<string>) | Unreachable(message: string)

  datatype AurError = NotFoundError(names: seq<string>) | TransportError(message: string)

  /** The graph and the next frontier while fetched packages are being added. */
  datatype Fetching = Fetching(graph: GraphState, next: seq<Node>)

  ghost predicate PendingIn(pending: map<string, seq<Node>>, g: GraphState)
  {
    forall d, k :: d in pending && 0 <= k < |pending[d]| ==> pending[d][k].id in g.edges
  }

  /** The edges from every waiting node to u, in order. */
  function LinkAll(g: GraphState, vs: seq<Node>, u: Node): (r: GraphState)
    requires forall k :: 0 <= k < |vs| ==> vs[k].id in g.edges
    ensures r.edges.Keys == g.edges.Keys
  {
    if vs == [] then g
    else Linked(LinkAll(g, vs[..|vs| - 1], u), vs[|vs| - 1], u)
  }

  /** Linking adds edges only: the node list, the indices and the counter stay. */
  lemma {:induction false} LinkAllKeeps(g: GraphState, vs: seq<Node>, u: Node)
    requires forall k :: 0 <= k < |vs| ==> vs[k].id in g.edges
    ensures LinkAll(g, vs, u).names == g.names && LinkAll(g, vs, u).nodes == g.nodes
    ensures LinkAll(g, vs, u).nodeIDs == g.nodeIDs && LinkAll(g, vs, u).nextID == g.nextID
  {
    if vs != [] {
      LinkAllKeeps(g, vs[..|vs| - 1], u);
    }
  }

  /** The nodes whose id is `w`. */
  function OwnedBy(vs: seq<Node>, w: int): seq<Node>
  {
    if vs == [] then []
    else OwnedBy(vs[..|vs| - 1], w) + (if vs[|vs| - 1].id == w then [vs[|vs| - 1]] else [])
  }

  /** Linking u to the waiting nodes gives each of them an edge to u. */
  lemma {:induction false} LinkAllReaches(g: GraphState, vs: seq<Node>, u: Node, k: int)
    requires forall i :: 0 <= i < |vs| ==> vs[i].id in g.edges
    requires 0 <= k < |vs|
    ensures u.id in LinkAll(g, vs, u).edges[vs[k].id]
  {
    var a := vs[..|vs| - 1];
    if k < |a| {
      LinkAllReaches(g, a, u, k);
    }
  }

  /** Each waiting node's out-list gets one more copy of that node per edge. */
  lemma {:induction false} LinkAllOutLists(g: GraphState, vs: seq<Node>, u: Node, w: int)
    requires forall i :: 0 <= i < |vs| ==> vs[i].id in g.edges
    ensures Get(LinkAll(g, vs, u).edgesFrom, w) == Get(g.edgesFrom, w) + OwnedBy(vs, w)
  {
    if vs != [] {
      var a := vs[..|vs| - 1];
      LinkAllOutLists(g, a, u, w);
      LinkedLists(LinkAll(g, a, u), vs[|vs| - 1], u, w);
    }
  }

  /** u's in-list gets one copy of u per edge; no other in-list changes. */
  lemma {:induction false} LinkAllInLists(g: GraphState, vs: seq<Node>, u: Node, w: int)
    requires forall i :: 0 <= i < |vs| ==> vs[i].id in g.edges
    ensures w != u.id ==> Get(LinkAll(g, vs, u).edgesTo, w) == Get(g.edgesTo, w)
    ensures w == u.id ==> |Get(LinkAll(g, vs, u).edgesTo, w)| == |Get(g.edgesTo, w)| + |vs|
    ensures w == u.id ==> forall i :: 0 <= i < |Get(g.edgesTo, w)| ==> Get(LinkAll(g, vs, u).edgesTo, w)[i] == Get(g.edgesTo, w)[i]
    ensures w == u.id ==> forall i :: |Get(g.edgesTo, w)| <= i < |Get(LinkAll(g, vs, u).edgesTo, w)| ==> Get(LinkAll(g, vs, u).edgesTo, w)[i] == u
  {
    if vs != [] {
      var a := vs[..|vs| - 1];
      LinkAllInLists(g, a, u, w);
      LinkedLists(LinkAll(g, a, u), vs[|vs| - 1], u, w);
    }
  }

  /** addFetchedPkg: NewNode, join the next frontier, AddNode (None where that panics), then the pending edges. */
  function Adopt(f: Fetching, pending: map<string, seq<Node>>, p: Package): (r: Option<Fetching>)
    requires PendingIn(pending, f.graph)
    ensures r.Some? ==> f.graph.edges.Keys <= r.value.graph.edges.Keys
  {
    var g1 := WithNode(f.graph);
    var u := Node(g1.nextID, p);
    if p.name in g1.names || u.id in g1.nodeIDs then None
    else Some(Fetching(LinkAll(Inserted(g1, u), Get(pending, p.name), u), f.next + [u]))
  }

  /** Adopt each package in order, stopping at the first panic. */
  function AdoptAll(f: Fetching, pending: map<string, seq<Node>>, ps: seq<Package>): (r: Option<Fetching>)
    requires PendingIn(pending, f.graph)
    ensures r.Some? ==> f.graph.edges.Keys <= r.value.graph.edges.Keys
  {
    if ps == [] then Some(f)
    else
      match AdoptAll(f, pending, ps[..|ps| - 1])
      case None => None
      case Some(f1) => Adopt(f1, pending, ps[|ps| - 1])
  }

  lemma AdoptAllSnoc(f: Fetching, pending: map<string, seq<Node>>, ps: seq<Package>, p: Package)
    requires PendingIn(pending, f.graph)
    ensures AdoptAll(f, pending, ps + [p]) ==
      match AdoptAll(f, pending, ps) case None => None case Some(f1) => Adopt(f1, pending, p)
  {
    assert (ps + [p])[..|ps|] == ps;
  }

  /** The nodes NewNode makes for `ps` when the counter stands at `base`. */
  function Fresh(base: int, ps: seq<Package>): seq<Node>
  {
    seq(|ps|, i requires 0 <= i < |ps| => Node(base + i + 1, ps[i]))
  }

  /** The names of the packages. */
  function NameSet(ps: seq<Package>): set<string>
  {
    set p | p in ps :: p.name
  }

  /** No package's name is taken, by the graph or by an earlier package. */
  ghost predicate NamesFree(names: set<string>, ps: seq<Package>)
  {
    && (forall i :: 0 <= i < |ps| ==> ps[i].name !in names)
    && (forall i, j :: 0 <= i < j < |ps| ==> ps[i].name != ps[j].name)
  }

  /** One adoption that does not panic takes the next id and adds the package's name. */
  lemma AdoptStepCounter(f: Fetching, pending: map<string, seq<Node>>, p: Package)
    requires PendingIn(pending, f.graph) && Adopt(f, pending, p).Some?
    ensures Adopt(f, pending, p).value.graph.nextID == f.graph.nextID + 1
    ensures Adopt(f, pending, p).value.graph.names.Keys == f.graph.names.Keys + {p.name}
  {
    var g1 := WithNode(f.graph);
    var u := Node(g1.nextID, p);
    var h := Inserted(g1, u);
    var vs := Get(pending, p.name);
    assert forall k :: 0 <= k < |vs| ==> vs[k].id in h.edges;
    LinkAllKeeps(h, vs, u);
  }

  /** One adoption that does not panic appends a node with the next id to the node list. */
  lemma AdoptStepNodes(f: Fetching, pending: map<string, seq<Node>>, p: Package)
    requires PendingIn(pending, f.graph) && Adopt(f, pending, p).Some?
    ensures Adopt(f, pending, p).value.graph.nodes == f.graph.nodes + [Node(f.graph.nextID + 1, p)]
  {
    var g1 := WithNode(f.graph);
    var u := Node(g1.nextID, p);
    var h := Inserted(g1, u);
    var vs := Get(pending, p.name);
    assert forall k :: 0 <= k < |vs| ==> vs[k].id in h.edges;
    LinkAllKeeps(h, vs, u);
  }

  /** One adoption that does not panic appends the same node to the next frontier. */
  lemma AdoptStepNext(f: Fetching, pending: map<string, seq<Node>>, p: Package)
    requires PendingIn(pending, f.graph) && Adopt(f, pending, p).Some?
    ensures Adopt(f, pending, p).value.next == f.next + [Node(f.graph.nextID + 1, p)]
  {
  }

  /** One adoption keeps every id within the counter. */
  lemma AdoptStepIds(f: Fetching, pending: map<string, seq<Node>>, p: Package)
    requires PendingIn(pending, f.graph) && Adopt(f, pending, p).Some?
    requires IdsBelow(f.graph)
    ensures IdsBelow(Adopt(f, pending, p).value.graph)
  {
    var g1 := WithNode(f.graph);
    var u := Node(g1.nextID, p);
    var h := Inserted(g1, u);
    var vs := Get(pending, p.name);
    assert forall k :: 0 <= k < |vs| ==> vs[k].id in h.edges;
    WithNodeFresh(f.graph);
    InsertedIdsBelow(g1, u);
    LinkAllKeeps(h, vs, u);
  }

  /** With ids from the counter only, one adoption panics exactly when the name is taken. */
  lemma AdoptStepFails(f: Fetching, pending: map<string, seq<Node>>, p: Package)
    requires PendingIn(pending, f.graph) && IdsBelow(f.graph)
    ensures Adopt(f, pending, p).None? <==> p.name in f.graph.names
  {
    WithNodeFresh(f.graph);
  }

  lemma FreshSnoc(base: int, a: seq<Package>, p: Package)
    ensures Fresh(base, a + [p]) == Fresh(base, a) + [Node(base + |a| + 1, p)]
  {
  }

  /** Adoption advances the counter once per package. */
  lemma {:induction false} AdoptAllCounter(f: Fetching, pending: map<string, seq<Node>>, ps: seq<Package>)
    requires PendingIn(pending, f.graph) && AdoptAll(f, pending, ps).Some?
    ensures AdoptAll(f, pending, ps).value.graph.nextID == f.graph.nextID + |ps|
  {
    if ps != [] {
      var a := ps[..|ps| - 1];
      AdoptAllCounter(f, pending, a);
      AdoptStepCounter(AdoptAll(f, pending, a).value, pending, ps[|ps| - 1]);
    }
  }

  /** Adopted packages join the node list in order, with consecutive fresh ids. */
  lemma {:induction false} AdoptAllNodes(f: Fetching, pending: map<string, seq<Node>>, ps: seq<Package>)
    requires PendingIn(pending, f.graph) && AdoptAll(f, pending, ps).Some?
    ensures AdoptAll(f, pending, ps).value.graph.nodes == f.graph.nodes + Fresh(f.graph.nextID, ps)
  {
    if ps != [] {
      var a := ps[..|ps| - 1];
      var p := ps[|ps| - 1];
      var r1 := AdoptAll(f, pending, a).value;
      AdoptAllNodes(f, pending, a);
      AdoptAllCounter(f, pending, a);
      AdoptStepNodes(r1, pending, p);
      SplitLast(ps);
      FreshSnoc(f.graph.nextID, a, p);
      SnocAssoc(f.graph.nodes, Fresh(f.graph.nextID, a), Node(f.graph.nextID + |a| + 1, p));
    }
  }

  /** Adopted packages join the next frontier in order, as the same nodes. */
  lemma {:induction false} AdoptAllNext(f: Fetching, pending: map<string, seq<Node>>, ps: seq<Package>)
    requires PendingIn(pending, f.graph) && AdoptAll(f, pending, ps).Some?
    ensures AdoptAll(f, pending, ps).value.next == f.next + Fresh(f.graph.nextID, ps)
  {
    if ps != [] {
      var a := ps[..|ps| - 1];
      var p := ps[|ps| - 1];
      var r1 := AdoptAll(f, pending, a).value;
      AdoptAllNext(f, pending, a);
      AdoptAllCounter(f, pending, a);
      AdoptStepNext(r1, pending, p);
      SplitLast(ps);
      FreshSnoc(f.graph.nextID, a, p);
      SnocAssoc(f.next, Fresh(f.graph.nextID, a), Node(f.graph.nextID + |a| + 1, p));
    }
  }

  lemma NameSetSnoc(a: seq<Package>, p: Package)
    ensures NameSet(a + [p]) == NameSet(a) + {p.name}
  {
    assert forall q :: q in a + [p] <==> q in a || q == p;
  }

  /** Adoption adds exactly the packages' names. */
  lemma {:induction false} AdoptAllNames(f: Fetching, pending: map<string, seq<Node>>, ps: seq<Package>)
    requires PendingIn(pending, f.graph) && AdoptAll(f, pending, ps).Some?
    ensures AdoptAll(f, pending, ps).value.graph.names.Keys == f.graph.names.Keys + NameSet(ps)
  {
    if ps != [] {
      var a := ps[..|ps| - 1];
      var p := ps[|ps| - 1];
      AdoptAllNames(f, pending, a);
      AdoptStepCounter(AdoptAll(f, pending, a).value, pending, p);
      SplitLast(ps);
      NameSetSnoc(a, p);
    }
  }

  /** Adoption keeps every id within the counter. */
  lemma {:induction false} AdoptAllIds(f: Fetching, pending: map<string, seq<Node>>, ps: seq<Package>)
    requires PendingIn(pending, f.graph) && AdoptAll(f, pending, ps).Some? && IdsBelow(f.graph)
    ensures IdsBelow(AdoptAll(f, pending, ps).value.graph)
  {
    if ps != [] {
      var a := ps[..|ps| - 1];
      AdoptAllIds(f, pending, a);
      AdoptStepIds(AdoptAll(f, pending, a).value, pending, ps[|ps| - 1]);
    }
  }

  /** Every indexed node, and only those, has an edge row. */
  ghost predicate RowPerNode(g: GraphState)
  {
    g.edges.Keys == g.nodeIDs.Keys
  }

  /** Linking keeps every edge already recorded. */
  lemma {:induction false} LinkAllKeepsEdge(g: GraphState, vs: seq<Node>, u: Node, a: int, b: int)
    requires forall k :: 0 <= k < |vs| ==> vs[k].id in g.edges
    requires a in g.edges && b in g.edges[a]
    ensures b in LinkAll(g, vs, u).edges[a]
  {
    if vs != [] {
      LinkAllKeepsEdge(g, vs[..|vs| - 1], u, a, b);
    }
  }

  lemma AdoptStepRows(f: Fetching, pending: map<string, seq<Node>>, p: Package)
    requires PendingIn(pending, f.graph) && Adopt(f, pending, p).Some? && RowPerNode(f.graph)
    ensures RowPerNode(Adopt(f, pending, p).value.graph)
  {
    var g1 := WithNode(f.graph);
    var u := Node(g1.nextID, p);
    var h := Inserted(g1, u);
    var vs := Get(pending, p.name);
    assert forall k :: 0 <= k < |vs| ==> vs[k].id in h.edges;
    LinkAllKeeps(h, vs, u);
  }

  /** A later adoption keeps the edges recorded before it. */
  lemma AdoptStepKeepsEdge(f: Fetching, pending: map<string, seq<Node>>, p: Package, a: int, b: int)
    requires PendingIn(pending, f.graph) && Adopt(f, pending, p).Some?
    requires IdsBelow(f.graph) && RowPerNode(f.graph)
    requires a in f.graph.edges && b in f.graph.edges[a]
    ensures b in Adopt(f, pending, p).value.graph.edges[a]
  {
    var g1 := WithNode(f.graph);
    var u := Node(g1.nextID, p);
    var h := Inserted(g1, u);
    var vs := Get(pending, p.name);
    assert forall k :: 0 <= k < |vs| ==> vs[k].id in h.edges;
    assert a in f.graph.nodeIDs;
    assert h.edges[a] == f.graph.edges[a];
    LinkAllKeepsEdge(h, vs, u, a, b);
  }

  /** addFetchedPkg gives every node waiting for the package's name an edge to the new node. */
  lemma AdoptStepLinks(f: Fetching, pending: map<string, seq<Node>>, p: Package, k: int)
    requires PendingIn(pending, f.graph) && Adopt(f, pending, p).Some?
    requires 0 <= k < |Get(pending, p.name)|
    ensures f.graph.nextID + 1 in Adopt(f, pending, p).value.graph.edges[Get(pending, p.name)[k].id]
  {
    var g1 := WithNode(f.graph);
    var u := Node(g1.nextID, p);
    var h := Inserted(g1, u);
    var vs := Get(pending, p.name);
    assert forall i :: 0 <= i < |vs| ==> vs[i].id in h.edges;
    LinkAllReaches(h, vs, u, k);
  }

  /** Waiting nodes stay valid edge sources as the edge table grows. */
  lemma PendingWithin(pending: map<string, seq<Node>>, g: GraphState, h: GraphState)
    requires PendingIn(pending, g) && g.edges.Keys <= h.edges.Keys
    ensures PendingIn(pending, h)
  {
  }

  /** Adoption keeps one edge row per indexed node. */
  lemma {:induction false} AdoptAllRows(f: Fetching, pending: map<string, seq<Node>>, ps: seq<Package>)
    requires PendingIn(pending, f.graph) && AdoptAll(f, pending, ps).Some? && RowPerNode(f.graph)
    ensures RowPerNode(AdoptAll(f, pending, ps).value.graph)
  {
    if ps != [] {
      var a := ps[..|ps| - 1];
      var r1 := AdoptAll(f, pending, a).value;
      AdoptAllRows(f, pending, a);
      PendingWithin(pending, f.graph, r1.graph);
      AdoptStepRows(r1, pending, ps[|ps| - 1]);
    }
  }

  /** The last adoption of a list that does not panic follows a prefix that does not panic. */
  lemma AdoptAllLast(f: Fetching, pending: map<string, seq<Node>>, ps: seq<Package>)
    requires PendingIn(pending, f.graph) && ps != [] && AdoptAll(f, pending, ps).Some?
    ensures AdoptAll(f, pending, ps[..|ps| - 1]).Some?
    ensures PendingIn(pending, AdoptAll(f, pending, ps[..|ps| - 1]).value.graph)
    ensures Adopt(AdoptAll(f, pending, ps[..|ps| - 1]).value, pending, ps[|ps| - 1]) == AdoptAll(f, pending, ps)
  {
    PendingWithin(pending, f.graph, AdoptAll(f, pending, ps[..|ps| - 1]).value.graph);
  }

  /** One adoption links the nodes waiting for the package's name to the node numbered `n`, the next free id. */
  lemma AdoptedAt(f: Fetching, pending: map<string, seq<Node>>, ps: seq<Package>, r1: Fetching, p: Package, k: int, n: int)
    requires PendingIn(pending, f.graph) && PendingIn(pending, r1.graph) && n == r1.graph.nextID + 1
    requires AdoptAll(f, pending, ps).Some? && Adopt(r1, pending, p) == AdoptAll(f, pending, ps)
    requires 0 <= k < |Get(pending, p.name)|
    ensures Get(pending, p.name)[k].id in AdoptAll(f, pending, ps).value.graph.edges
    ensures n in AdoptAll(f, pending, ps).value.graph.edges[Get(pending, p.name)[k].id]
  {
    AdoptStepLinks(r1, pending, p, k);
  }

  /** The last adoption of a list links the nodes waiting for its name to its node, numbered `n`. */
  lemma EdgeMade(f: Fetching, pending: map<string, seq<Node>>, ps: seq<Package>, i: int, k: int, n: int)
    requires PendingIn(pending, f.graph) && AdoptAll(f, pending, ps).Some?
    requires i == |ps| - 1 && n == f.graph.nextID + i + 1
    requires 0 <= i && 0 <= k < |Get(pending, ps[i].name)|
    ensures Get(pending, ps[i].name)[k].id in AdoptAll(f, pending, ps).value.graph.edges
    ensures n in AdoptAll(f, pending, ps).value.graph.edges[Get(pending, ps[i].name)[k].id]
  {
    var a := ps[..|ps| - 1];
    var p := ps[i];
    AdoptAllLast(f, pending, ps);
    var r1 := AdoptAll(f, pending, a).value;
    AdoptAllCounter(f, pending, a);
    AdoptedAt(f, pending, ps, r1, p, k, n);
  }

  /** An edge present after adopting one package stays present after the whole list is adopted. */
  lemma KeptAt(f: Fetching, pending: map<string, seq<Node>>, ps: seq<Package>, r1: Fetching, p: Package, x: int, y: int)
    requires PendingIn(pending, f.graph) && PendingIn(pending, r1.graph) && IdsBelow(r1.graph) && RowPerNode(r1.graph)
    requires AdoptAll(f, pending, ps).Some? && Adopt(r1, pending, p) == AdoptAll(f, pending, ps)
    requires x in r1.graph.edges && y in r1.graph.edges[x]
    ensures x in AdoptAll(f, pending, ps).value.graph.edges && y in AdoptAll(f, pending, ps).value.graph.edges[x]
  {
    AdoptStepKeepsEdge(r1, pending, p, x, y);
  }

  /** An edge present after adopting a prefix is present after adopting one more package. */
  lemma EdgeCarried(f: Fetching, pending: map<string, seq<Node>>, ps: seq<Package>, x: int, y: int)
    requires PendingIn(pending, f.graph) && IdsBelow(f.graph) && RowPerNode(f.graph)
    requires ps != [] && AdoptAll(f, pending, ps).Some?
    requires AdoptAll(f, pending, ps[..|ps| - 1]).Some?
    requires x in AdoptAll(f, pending, ps[..|ps| - 1]).value.graph.edges
    requires y in AdoptAll(f, pending, ps[..|ps| - 1]).value.graph.edges[x]
    ensures x in AdoptAll(f, pending, ps).value.graph.edges && y in AdoptAll(f, pending, ps).value.graph.edges[x]
  {
    var a := ps[..|ps| - 1];
    AdoptAllLast(f, pending, ps);
    var r1 := AdoptAll(f, pending, a).value;
    AdoptAllIds(f, pending, a);
    AdoptAllRows(f, pending, a);
    KeptAt(f, pending, ps, r1, ps[|ps| - 1], x, y);
  }

  /**
   * After the whole list is adopted, the node `x` that waited (k-th) for the i-th package's name
   * has an edge to `n`, the node that package received.
   */
  lemma {:induction false} AdoptAllLinks(f: Fetching, pending: map<string, seq<Node>>, ps: seq<Package>, i: int, k: int, x: int, n: int)
    requires PendingIn(pending, f.graph) && AdoptAll(f, pending, ps).Some?
    requires IdsBelow(f.graph) && RowPerNode(f.graph)
    requires 0 <= i < |ps| && 0 <= k < |Get(pending, ps[i].name)|
    requires x == Get(pending, ps[i].name)[k].id && n == f.graph.nextID + i + 1
    ensures x in AdoptAll(f, pending, ps).value.graph.edges && n in AdoptAll(f, pending, ps).value.graph.edges[x]
  {
    if i == |ps| - 1 {
      EdgeMade(f, pending, ps, i, k, n);
    } else {
      var a := ps[..|ps| - 1];
      AdoptAllLast(f, pending, ps);
      assert a[i] == ps[i];
      AdoptAllLinks(f, pending, a, i, k, x, n);
      EdgeCarried(f, pending, ps, x, n);
    }
  }

  lemma SplitLast<T>(s: seq<T>)
    requires s != []
    ensures s == s[..|s| - 1] + [s[|s| - 1]]
  {
  }

  lemma SnocAssoc<T>(x: seq<T>, y: seq<T>, u: T)
    ensures (x + y) + [u] == x + (y + [u])
  {
  }


  lemma NamesFreeSnoc(names: set<string>, a: seq<Package>, p: Package)
    ensures NamesFree(names, a + [p]) <==> NamesFree(names, a) && p.name !in names && p.name !in NameSet(a)
  {
    var ps := a + [p];
    assert forall i :: 0 <= i < |a| ==> ps[i] == a[i];
    assert ps[|a|] == p;
    if p.name in NameSet(a) {
      var q :| q in a && q.name == p.name;
      var i :| 0 <= i < |a| && a[i] == q;
      assert ps[i].name == ps[|a|].name;
    }
    if NamesFree(names, a) && p.name !in names && p.name !in NameSet(a) {
      forall i, j | 0 <= i < j < |ps| ensures ps[i].name != ps[j].name {
        if j == |a| {
          assert a[i] in a;
        }
      }
    }
  }

  /** When every id in the graph came from its counter, adoption panics exactly when a name is taken. */
  lemma {:induction false} AdoptAllSucceeds(f: Fetching, pending: map<string, seq<Node>>, ps: seq<Package>)
    requires PendingIn(pending, f.graph) && IdsBelow(f.graph)
    ensures AdoptAll(f, pending, ps).Some? <==> NamesFree(f.graph.names.Keys, ps)
  {
    if ps != [] {
      var a := ps[..|ps| - 1];
      var p := ps[|ps| - 1];
      SplitLast(ps);
      AdoptAllSucceeds(f, pending, a);
      NamesFreeSnoc(f.graph.names.Keys, a, p);
      if AdoptAll(f, pending, a).Some? {
        var r1 := AdoptAll(f, pending, a).value;
        AdoptAllNames(f, pending, a);
        AdoptAllIds(f, pending, a);
        AdoptStepFails(r1, pending, p);
      }
    }
  }

  /** A package made for a name the AUR does not know: that name, unknown origin, no dependencies. */
  function Placeholder(name: string): (p: Package)
    ensures p.name == name && p.origin == UnknownOrigin && p.depends == [] && p.makeDepends == []
  {
    Blank(UnknownOrigin).(name := name)
  }

  function Placeholders(names: seq<string>): seq<Package>
  {
    seq(|names|, i requires 0 <= i < |names| => Placeholder(names[i]))
  }

  /** How a layer ends: a grown graph and the next frontier, an error returned, or a panic. */
  datatype LayerEnd = Grown(fetched: Fetching) | Halted(error: AurError) | Crashed

  function Finish(r: Option<Fetching>): LayerEnd
  {
    if r.Some? then Grown(r.value) else Crashed
  }

  /** The packages a reply makes the layer fetch: placeholders for the missing names first, then the found ones. */
  function Fetched(reply: AurReply): seq<Package>
  {
    match reply
    case Found(pkgs) => pkgs
    case NotFound(pkgs, missing) => Placeholders(missing) + pkgs
    case Unreachable(_) => []
  }

  /**
   * The second half of a layer: act on the AUR's reply. An error ends the build unless it is a
   * NotFound that is tolerated; otherwise the fetched packages are adopted one after the other.
   */
  function Settle(o: Options, s: ScanState, reply: AurReply): LayerEnd
    requires PendingIn(s.pending, s.graph)
  {
    if reply.Unreachable? then Halted(TransportError(reply.message))
    else if reply.NotFound? && o.noUnknown then Halted(NotFoundError(reply.missing))
    else Finish(AdoptAll(Fetching(s.graph, s.next), s.pending, Fetched(reply)))
  }

  lemma {:induction false} ScanPendingIn(o: Options, s: ScanState, dms: seq<Demand>)
    requires Rowed(s.graph, dms) && PendingIn(s.pending, s.graph)
    ensures PendingIn(ScanAll(o, s, dms).pending, ScanAll(o, s, dms).graph)
  {
    if dms != [] {
      var a := dms[..|dms| - 1];
      ScanPendingIn(o, s, a);
      StepPendingIn(o, ScanAll(o, s, a), dms[|dms| - 1]);
    }
  }

  /** One layer: scan the frontier, then settle the reply to its request. */
  function LayerSpec(o: Options, g: GraphState, lst: seq<Node>, reply: AurReply): LayerEnd
    requires Rows(g, lst)
  {
    DemandsRowed(o.depFunc, lst, g);
    ScanPendingIn(o, ScanState(g, [], {}, map[]), Demands(o.depFunc, lst));
    Settle(o, Scan(o, g, lst), reply)
  }

  /** A layer that grows takes one fresh id per fetched package, and appends their nodes to the node list and to the next frontier, in order. */
  lemma SettleGrows(o: Options, s: ScanState, reply: AurReply)
    requires PendingIn(s.pending, s.graph) && Settle(o, s, reply).Grown?
    ensures Settle(o, s, reply).fetched.graph.nextID == s.graph.nextID + |Fetched(reply)|
    ensures Settle(o, s, reply).fetched.graph.nodes == s.graph.nodes + Fresh(s.graph.nextID, Fetched(reply))
    ensures Settle(o, s, reply).fetched.next == s.next + Fresh(s.graph.nextID, Fetched(reply))
  {
    var start := Fetching(s.graph, s.next);
    AdoptAllCounter(start, s.pending, Fetched(reply));
    AdoptAllNodes(start, s.pending, Fetched(reply));
    AdoptAllNext(start, s.pending, Fetched(reply));
  }

  /**
   * In a layer that grows, the node `x` that waited (k-th) for the name of the i-th fetched package
   * gets an edge to `n`, the node that package received.
   */
  lemma SettleLinks(o: Options, s: ScanState, reply: AurReply, i: int, k: int, x: int, n: int)
    requires PendingIn(s.pending, s.graph) && IdsBelow(s.graph) && RowPerNode(s.graph) && Settle(o, s, reply).Grown?
    requires 0 <= i < |Fetched(reply)| && 0 <= k < |Get(s.pending, Fetched(reply)[i].name)|
    requires x == Get(s.pending, Fetched(reply)[i].name)[k].id && n == s.graph.nextID + i + 1
    ensures x in Settle(o, s, reply).fetched.graph.edges && n in Settle(o, s, reply).fetched.graph.edges[x]
  {
    AdoptAllLinks(Fetching(s.graph, s.next), s.pending, Fetched(reply), i, k, x, n);
  }

  /** A layer returns an error exactly on a failed lookup, or on unknown names when they are not tolerated. */
  lemma SettleHalts(o: Options, s: ScanState, reply: AurReply)
    requires PendingIn(s.pending, s.graph)
    ensures Settle(o, s, reply).Halted? <==> reply.Unreachable? || (reply.NotFound? && o.noUnknown)
    ensures reply.Unreachable? ==> Settle(o, s, reply) == Halted(TransportError(reply.message))
    ensures reply.NotFound? && o.noUnknown ==> Settle(o, s, reply) == Halted(NotFoundError(reply.missing))
  {
  }

  /** How NewGraph ends: with a graph, with an error, by a panic, or still looping when the fuel ran out. */
  datatype Build = Built(graph: GraphState) | Aborted(error: AurError) | Panicked | Spinning

  /** The end and the number of AUR requests made. */
  datatype Run = Run(end: Build, calls: nat)

  /** Rounds of the outer loop, entered only while the frontier is empty, with at most `fuel` rounds. */
  function Rounds(o: Options, g: GraphState, reply: AurReply, fuel: nat): Run
  {
    if fuel == 0 then Run(Spinning, 0)
    else
      match LayerSpec(o, g, [], reply)
      case Halted(e) => Run(Aborted(e), 1)
      case Crashed => Run(Panicked, 1)
      case Grown(f) =>
        if f.next == [] then
          var r := Rounds(o, f.graph, reply, fuel - 1);
          Run(r.end, r.calls + 1)
        else Run(Built(f.graph), 1)
  }

  /** Seeding: every requested package becomes a node, in order, with no edges and no pending names. */
  function Seed(pkgs: seq<Package>): Option<Fetching>
  {
    AdoptAll(Fetching(EmptyGraph(), []), map[], pkgs)
  }

  /** No node has an edge: every edge row, out-list and in-list is empty. */
  ghost predicate Edgeless(g: GraphState)
  {
    && (forall a :: a in g.edges ==> g.edges[a] == map[])
    && (forall a :: a in g.edgesFrom ==> g.edgesFrom[a] == [])
    && (forall a :: a in g.edgesTo ==> g.edgesTo[a] == [])
  }

  /** With nobody waiting, adopting a package adds a node but no edge. */
  lemma AdoptEdgeless(f: Fetching, p: Package)
    requires Edgeless(f.graph) && Adopt(f, map[], p).Some?
    ensures Edgeless(Adopt(f, map[], p).value.graph)
  {
    var g1 := WithNode(f.graph);
    var none: map<string, seq<Node>> := map[];
    assert Get(none, p.name) == [];
    assert Adopt(f, map[], p).value.graph == Inserted(g1, Node(g1.nextID, p));
  }

  /** With nobody waiting, adopting a list adds no edge. */
  lemma {:induction false} AdoptAllEdgeless(f: Fetching, ps: seq<Package>)
    requires Edgeless(f.graph) && AdoptAll(f, map[], ps).Some?
    ensures Edgeless(AdoptAll(f, map[], ps).value.graph)
  {
    if ps != [] {
      var a := ps[..|ps| - 1];
      AdoptAllEdgeless(f, a);
      AdoptEdgeless(AdoptAll(f, map[], a).value, ps[|ps| - 1]);
    }
  }

  /** Seeding makes nodes only: the seeded graph has no edge. */
  lemma SeedEdgeless(pkgs: seq<Package>)
    ensures Seed(pkgs).Some? ==> Edgeless(Seed(pkgs).value.graph)
  {
    if Seed(pkgs).Some? {
      AdoptAllEdgeless(Fetching(EmptyGraph(), []), pkgs);
    }
  }

  /** NewGraph: seed, then loop while the frontier is empty (the request to the AUR is then always empty). */
  function NewGraphSpec(o: Options, pkgs: seq<Package>, reply: AurReply, fuel: nat): Run
  {
    match Seed(pkgs)
    case None => Run(Panicked, 0)
    case Some(f) => Outer(o, f.graph, f.next, reply, fuel)
  }

  /** The outer loop from graph `g` and frontier `next`: it runs rounds only while the frontier is empty. */
  function Outer(o: Options, g: GraphState, next: seq<Node>, reply: AurReply, fuel: nat): Run
  {
    if next != [] then Run(Built(g), 0) else Rounds(o, g, reply, fuel)
  }

  /** The seeds become nodes 1, 2, ... in input order and form the first frontier; a repeated name panics. */
  lemma SeedNodes(pkgs: seq<Package>)
    ensures Seed(pkgs).Some? <==> NamesFree({}, pkgs)
    ensures Seed(pkgs).Some? ==> Seed(pkgs).value.graph.nodes == Fresh(0, pkgs) == Seed(pkgs).value.next
    ensures Seed(pkgs).Some? ==> Seed(pkgs).value.graph.nextID == |pkgs|
  {
    var f := Fetching(EmptyGraph(), []);
    AdoptAllSucceeds(f, map[], pkgs);
    if Seed(pkgs).Some? {
      AdoptAllNodes(f, map[], pkgs);
      AdoptAllNext(f, map[], pkgs);
      AdoptAllCounter(f, map[], pkgs);
    }
  }

  /** Because the loop runs only while the frontier is empty, seeds with distinct names are never expanded. */
  lemma SeedsNotExpanded(o: Options, pkgs: seq<Package>, reply: AurReply, fuel: nat)
    requires pkgs != [] && NamesFree({}, pkgs)
    ensures Seed(pkgs).Some? && NewGraphSpec(o, pkgs, reply, fuel) == Run(Built(Seed(pkgs).value.graph), 0)
  {
    SeedNodes(pkgs);
  }

  /** With no seeds, a reply that yields no package makes every round repeat the last: the loop spins. */
  lemma {:induction false} SpinsOnEmptyReply(o: Options, g: GraphState, reply: AurReply, fuel: nat)
    requires Fetched(reply) == [] && !reply.Unreachable? && !(reply.NotFound? && o.noUnknown)
    ensures Rounds(o, g, reply, fuel) == Run(Spinning, fuel)
  {
    if fuel > 0 {
      var s := Scan(o, g, []);
      assert s == ScanState(g, [], {}, map[]);
      if reply.NotFound? {
        assert reply.missing == [] by {
          assert |Placeholders(reply.missing) + reply.pkgs| == |reply.missing| + |reply.pkgs|;
        }
      }
      var e := LayerSpec(o, g, [], reply);
      assert e == Grown(Fetching(g, []));
      SpinsOnEmptyReply(o, g, reply, fuel - 1);
    }
  }

  /** Once an adoption panics, adopting more packages cannot recover. */
  lemma {:induction false} AdoptAllStuck(f: Fetching, pending: map<string, seq<Node>>, ps: seq<Package>, k: int)
    requires PendingIn(pending, f.graph) && 0 <= k <= |ps| && AdoptAll(f, pending, ps[..k]).None?
    ensures AdoptAll(f, pending, ps).None?
    decreases |ps| - k
  {
    if k < |ps| {
      assert ps[..k + 1][..k] == ps[..k];
      AdoptAllStuck(f, pending, ps, k + 1);
    } else {
      assert ps[..k] == ps;
    }
  }

  /** fromAUR: as many empty names as there are unavailable names, then each unavailable name once. */
  method AurRequest(unavailable: set<string>) returns (rq: seq<string>)
    ensures IsRequest(rq, unavailable)
  {
    rq := seq(|unavailable|, _ => "");
    ghost var picked: seq<string> := [];
    var rest := unavailable;
    while rest != {}
      invariant rq == seq(|unavailable|, _ => "") + picked
      invariant rest <= unavailable && |picked| + |rest| == |unavailable|
      invariant forall i :: 0 <= i < |picked| ==> picked[i] in unavailable && picked[i] !in rest
      invariant forall x :: x in unavailable ==> x in rest || x in picked
      invariant forall i, j :: 0 <= i < j < |picked| ==> picked[i] != picked[j]
      decreases |rest|
    {
      var k :| k in rest;
      rq := rq + [k];
      picked := picked + [k];
      rest := rest - {k};
    }
  }

  /** The pending-edge loop of addFetchedPkg: an edge from each waiting node to u, in order. */
  method LinkPending(g: Graph, vs: seq<Node>, u: Node)
    requires forall k :: 0 <= k < |vs| ==> vs[k].id in g.edges
    modifies g
    ensures g.Snapshot() == LinkAll(old(g.Snapshot()), vs, u)
    ensures old(g.Valid()) ==> g.Valid()
  {
    ghost var h := g.Snapshot();
    for k := 0 to |vs|
      invariant g.Snapshot() == LinkAll(h, vs[..k], u)
      invariant old(g.Valid()) ==> g.Valid()
    {
      assert vs[..k + 1][..k] == vs[..k];
      g.AddEdgeFromTo(vs[k], u);
    }
    assert vs[..|vs|] == vs;
  }

  /** addFetchedPkg: a fresh node joins the frontier, is added (false where AddNode panics), and gets its pending edges. */
  method AddFetched(g: Graph, pending: map<string, seq<Node>>, next: seq<Node>, p: Package) returns (alive: bool, next': seq<Node>)
    requires PendingIn(pending, g.Snapshot())
    modifies g
    ensures alive <==> Adopt(Fetching(old(g.Snapshot()), next), pending, p).Some?
    ensures alive ==> Adopt(Fetching(old(g.Snapshot()), next), pending, p).value == Fetching(g.Snapshot(), next')
    ensures old(g.Valid()) ==> g.Valid()
  {
    ghost var g0 := g.Snapshot();
    var u := g.NewNode(p);
    next' := next + [u];
    if g.HasName(u.pkg.name) || g.Has(u) {
      return false, next';
    }
    g.AddNode(u);
    ghost var h := Inserted(WithNode(g0), u);
    assert g.Snapshot() == h;
    var vs := Get(pending, p.name);
    assert forall k :: 0 <= k < |vs| ==> vs[k].id in h.edges;
    LinkPending(g, vs, u);
    alive := true;
  }

  /** Adopt the packages in order, stopping at the first panic. */
  method AdoptEach(g: Graph, pending: map<string, seq<Node>>, next: seq<Node>, ps: seq<Package>) returns (alive: bool, next': seq<Node>)
    requires PendingIn(pending, g.Snapshot())
    modifies g
    ensures alive <==> AdoptAll(Fetching(old(g.Snapshot()), next), pending, ps).Some?
    ensures alive ==> AdoptAll(Fetching(old(g.Snapshot()), next), pending, ps).value == Fetching(g.Snapshot(), next')
    ensures old(g.Valid()) ==> g.Valid()
  {
    ghost var f0 := Fetching(g.Snapshot(), next);
    next' := next;
    for k := 0 to |ps|
      invariant AdoptAll(f0, pending, ps[..k]) == Some(Fetching(g.Snapshot(), next'))
      invariant PendingIn(pending, g.Snapshot())
      invariant old(g.Valid()) ==> g.Valid()
    {
      assert ps[..k + 1][..k] == ps[..k];
      alive, next' := AddFetched(g, pending, next', ps[k]);
      if !alive {
        AdoptAllStuck(f0, pending, ps, k + 1);
        return;
      }
    }
    assert ps[..|ps|] == ps;
    alive := true;
  }

  /** The factory: the installed and repository packages by name, the options, and the AUR request count. */
  class Factory {
    var local: map<string, Package>
    var sync: map<string, Package>
    var skipInstalled: bool
    var truncate: bool
    var noUnknown: bool
    var depFunc: Package -> seq<string>
    var aurCalls: int

    /** The settings a layer reads. */
    function Opts(): Options
      reads this`local, this`sync, this`skipInstalled, this`truncate, this`noUnknown, this`depFunc
    {
      Options(local, sync, skipInstalled, truncate, noUnknown, depFunc)
    }

    /** NewFactory with the databases already read: all options off, the default dependency function. */
    constructor(local: map<string, Package>, sync: map<string, Package>)
      ensures Opts() == Options(local, sync, false, false, false, DefaultDeps) && aurCalls == 0
    {
      this.local, this.sync := local, sync;
      skipInstalled, truncate, noUnknown := false, false, false;
      depFunc := DefaultDeps;
      aurCalls := 0;
    }

    method SetSkipInstalled(yes: bool)
      modifies this`skipInstalled
      ensures Opts() == old(Opts()).(skipInstalled := yes)
    {
      skipInstalled := yes;
    }

    method SetTruncate(yes: bool)
      modifies this`truncate
      ensures Opts() == old(Opts()).(truncate := yes)
    {
      truncate := yes;
    }

    method SetNoUnknown(yes: bool)
      modifies this`noUnknown
      ensures Opts() == old(Opts()).(noUnknown := yes)
    {
      noUnknown := yes;
    }

    method SetDependencyFunc(fn: Package -> seq<string>)
      modifies this`depFunc
      ensures Opts() == old(Opts()).(depFunc := fn)
    {
      depFunc := fn;
    }

    function NumRequestsAUR(): int
      reads this
    {
      aurCalls
    }

    /** The scan of one dependency name `d` of the frontier node `v`. */
    method ScanDemand(g: Graph, ghost s0: ScanState, v: Node, d: string, next: seq<Node>, unavailable: set<string>, pending: map<string, seq<Node>>)
      returns (next': seq<Node>, unavailable': set<string>, pending': map<string, seq<Node>>)
      requires s0 == ScanState(g.Snapshot(), next, unavailable, pending) && v.id in s0.graph.edges
      modifies g
      ensures ScanState(g.Snapshot(), next', unavailable', pending') == ScanStep(Opts(), s0, Demand(v, d))
      ensures old(g.Valid()) ==> g.Valid()
    {
      ghost var route := RouteOf(Opts(), s0.graph.names, d);
      next', unavailable', pending' := next, unavailable, pending;
      if g.HasName(d) {
        var u := g.NodeWithName(d).value;
        g.AddEdgeFromTo(v, u);
        assert route == ToExisting && g.Snapshot() == Linked(s0.graph, v, u);
        return;
      }
      if skipInstalled {
        if d in local {
          assert route == Skipped;
          return;
        }
      }
      if d in sync {
        var u := g.NewNode(sync[d]);
        if !truncate {
          next' := next' + [u];
        }
        g.AddEdgeFromTo(v, u);
        assert route == ToSync && g.Snapshot() == Linked(WithNode(s0.graph), v, u);
        return;
      }
      assert route == ToRemote;
      unavailable' := unavailable' + {d};
      pending' := pending'[d := Get(pending', d) + [v]];
    }

    /** The scan of every dependency of one frontier node, in order, continuing the scan of `done`. */
    method ScanNode(g: Graph, v: Node, ghost s0: ScanState, ghost done: seq<Demand>,
                    next: seq<Node>, unavailable: set<string>, pending: map<string, seq<Node>>)
      returns (next': seq<Node>, unavailable': set<string>, pending': map<string, seq<Node>>)
      requires Rowed(s0.graph, done) && v.id in s0.graph.edges
      requires ScanState(g.Snapshot(), next, unavailable, pending) == ScanAll(Opts(), s0, done)
      modifies g
      ensures Rowed(s0.graph, done + DemandsOf(v, depFunc(v.pkg)))
      ensures ScanState(g.Snapshot(), next', unavailable', pending') == ScanAll(Opts(), s0, done + DemandsOf(v, depFunc(v.pkg)))
      ensures old(g.Valid()) ==> g.Valid()
    {
      var ds := depFunc(v.pkg);
      RowedExtend(s0.graph, done, v, ds);
      DemandsNone(done, v, ds);
      next', unavailable', pending' := next, unavailable, pending;
      ghost var dms := done;
      ghost var st := ScanAll(Opts(), s0, done);
      for j := 0 to |ds|
        invariant dms == done + DemandsOf(v, ds[..j])
        invariant Rowed(s0.graph, dms)
        invariant st == ScanAll(Opts(), s0, dms)
        invariant ScanState(g.Snapshot(), next', unavailable', pending') == st
        invariant old(g.Valid()) ==> g.Valid()
      {
        var dm := Demand(v, ds[j]);
        DemandsAfter(done, v, ds, j);
        RowedExtend(s0.graph, done, v, ds[..j + 1]);
        ScanAllSnoc(Opts(), s0, dms, dm);
        next', unavailable', pending' := ScanDemand(g, st, v, ds[j], next', unavailable', pending');
        st := ScanStep(Opts(), st, dm);
        dms := dms + [dm];
      }
      assert ds[..|ds|] == ds;
    }

    /** The scan of the whole frontier: every dependency of every node, in order, from empty locals. */
    method ScanFrontier(g: Graph, lst: seq<Node>) returns (next: seq<Node>, unavailable: set<string>, pending: map<string, seq<Node>>)
      requires Rows(g.Snapshot(), lst)
      modifies g
      ensures ScanState(g.Snapshot(), next, unavailable, pending) == Scan(Opts(), old(g.Snapshot()), lst)
      ensures old(g.Valid()) ==> g.Valid()
    {
      ghost var o := Opts();
      ghost var g0 := g.Snapshot();
      ghost var s0 := ScanState(g0, [], {}, map[]);
      next, unavailable, pending := [], {}, map[];
      for i := 0 to |lst|
        invariant Rowed(g0, Demands(o.depFunc, lst[..i]))
        invariant ScanState(g.Snapshot(), next, unavailable, pending) == ScanAll(o, s0, Demands(o.depFunc, lst[..i]))
        invariant old(g.Valid()) ==> g.Valid()
      {
        next, unavailable, pending := ScanNode(g, lst[i], s0, Demands(o.depFunc, lst[..i]), next, unavailable, pending);
        DemandsSnoc(o.depFunc, lst, i);
        assert o.depFunc(lst[i].pkg)[..|o.depFunc(lst[i].pkg)|] == o.depFunc(lst[i].pkg);
      }
      assert lst[..|lst|] == lst;
    }

    /** One layer of NewGraph: scan the frontier, make the one AUR request, adopt what it yields. */
    method Layer(g: Graph, lst: seq<Node>, oracle: seq<string> -> AurReply) returns (res: LayerEnd, request: seq<string>)
      requires Rows(g.Snapshot(), lst)
      modifies this`aurCalls, g
      ensures aurCalls == old(aurCalls) + 1
      ensures IsRequest(request, Scan(Opts(), old(g.Snapshot()), lst).unavailable)
      ensures res == LayerSpec(Opts(), old(g.Snapshot()), lst, oracle(request))
      ensures res.Grown? ==> res.fetched.graph == g.Snapshot()
      ensures old(g.Valid()) ==> g.Valid()
    {
      ghost var g0 := g.Snapshot();
      var next, unavailable, pending := ScanFrontier(g, lst);
      DemandsRowed(depFunc, lst, g0);
      ScanPendingIn(Opts(), ScanState(g0, [], {}, map[]), Demands(depFunc, lst));
      request := AurRequest(unavailable);
      aurCalls := aurCalls + 1;
      var reply := oracle(request);
      if reply.Unreachable? {
        return Halted(TransportError(reply.message)), request;
      }
      if reply.NotFound? && noUnknown {
        return Halted(NotFoundError(reply.missing)), request;
      }
      var alive;
      alive, next := AdoptEach(g, pending, next, Fetched(reply));
      res := if alive then Grown(Fetching(g.Snapshot(), next)) else Crashed;
    }

    /** One round of NewGraph's outer loop: a layer over the empty frontier, whose request is therefore empty. */
    method Round(g: Graph, oracle: seq<string> -> AurReply, ghost n: nat) returns (r: LayerEnd)
      requires n > 0
      modifies this`aurCalls, g
      ensures aurCalls == old(aurCalls) + 1
      ensures old(g.Valid()) ==> g.Valid()
      ensures r.Halted? ==> Rounds(Opts(), old(g.Snapshot()), oracle([]), n) == Run(Aborted(r.error), 1)
      ensures r.Crashed? ==> Rounds(Opts(), old(g.Snapshot()), oracle([]), n) == Run(Panicked, 1)
      ensures r.Grown? ==> r.fetched.graph == g.Snapshot()
      ensures r.Grown? && r.fetched.next != [] ==> Rounds(Opts(), old(g.Snapshot()), oracle([]), n) == Run(Built(g.Snapshot()), 1)
      ensures r.Grown? && r.fetched.next == [] ==>
                Rounds(Opts(), old(g.Snapshot()), oracle([]), n)
                == Run(Rounds(Opts(), g.Snapshot(), oracle([]), n - 1).end, Rounds(Opts(), g.Snapshot(), oracle([]), n - 1).calls + 1)
    {
      ghost var gs := g.Snapshot();
      var request;
      r, request := Layer(g, [], oracle);
      assert Demands(depFunc, []) == [];
      RequestShape(request, {});
    }

    /** The outer loop of NewGraph: run layers while the frontier is empty, for at most `fuel` rounds. */
    method Spin(g: Graph, lst: seq<Node>, oracle: seq<string> -> AurReply, fuel: nat) returns (res: Build)
      requires g.Valid()
      modifies this`aurCalls, g
      ensures g.Valid()
      ensures res == Outer(Opts(), old(g.Snapshot()), lst, oracle([]), fuel).end
      ensures aurCalls == old(aurCalls) + Outer(Opts(), old(g.Snapshot()), lst, oracle([]), fuel).calls
      ensures res.Built? ==> res.graph == g.Snapshot()
    {
      ghost var o := Opts();
      ghost var reply := oracle([]);
      ghost var target := Outer(o, g.Snapshot(), lst, reply, fuel);
      var next := lst;
      var n: nat := fuel;
      ghost var rest := target;
      while |next| == 0 && n > 0
        invariant n <= fuel && g.Valid()
        invariant aurCalls == old(aurCalls) + (fuel - n)
        invariant rest == Outer(o, g.Snapshot(), next, reply, n)
        invariant target.end == rest.end && target.calls == rest.calls + (fuel - n)
        decreases n
      {
        var r := Round(g, oracle, n);
        if r.Halted? {
          return Aborted(r.error);
        }
        if r.Crashed? {
          return Panicked;
        }
        next := r.fetched.next;
        n := n - 1;
        rest := Outer(o, g.Snapshot(), next, reply, n);
      }
      res := if |next| == 0 then Spinning else Built(g.Snapshot());
    }

    /** NewGraph: seed the graph, then run the outer loop. */
    method NewGraph(pkgs: seq<Package>, oracle: seq<string> -> AurReply, fuel: nat) returns (res: Build, g: Graph)
      modifies this`aurCalls
      ensures fresh(g) && g.Valid()
      ensures res == NewGraphSpec(Opts(), pkgs, oracle([]), fuel).end
      ensures aurCalls == old(aurCalls) + NewGraphSpec(Opts(), pkgs, oracle([]), fuel).calls
      ensures res.Built? ==> res.graph == g.Snapshot()
    {
      g := new Graph();
      var alive, lst := AdoptEach(g, map[], [], pkgs);
      if !alive {
        return Panicked, g;
      }
      res := Spin(g, lst, oracle, fuel);
    }
  }
}
