/**
 * The append-only dependency graph of package nodes: parallel indices keyed by package
 * name and by node id, per-node adjacency lists, an edge table and an id counter.
 */
module DepGraph {
  import opened Wrappers
  import opened Pacman

  /** A node: a package and the id the graph handed out for it. */
  datatype Node = Node(id: int, pkg: Package)

  /** The number of installation and make dependencies of the node's package. */
  function NumAllDepends(n: Node): int
  {
    |n.pkg.depends| + |n.pkg.makeDepends|
  }

  /** The installation dependencies followed by the make dependencies. */
  function AllDepends(n: Node): (r: seq<string>)
    ensures |r| == NumAllDepends(n)
    ensures r[..|n.pkg.depends|] == n.pkg.depends && r[|n.pkg.depends|..] == n.pkg.makeDepends
    ensures forall d :: d in r <==> d in n.pkg.depends || d in n.pkg.makeDepends
  {
    n.pkg.depends + n.pkg.makeDepends
  }

  /** Whether the node's package comes from the AUR. */
  predicate IsFromAUR(n: Node)
  {
    n.pkg.origin == AUROrigin
  }

  /** A dependency edge: `from` has the dependency `to`. */
  datatype Edge = Edge(from: Node, to: Node)

  /** An edge needs fetching from the AUR when its dependency does. */
  predicate EdgeIsFromAUR(e: Edge)
  {
    IsFromAUR(e.to)
  }

  /** The contents of the seven fields of a graph. */
  datatype GraphState = GraphState(
    names: map<string, Node>,
    nodes: seq<Node>,
    nodeIDs: map<int, Node>,
    edgesFrom: map<int, seq<Node>>,
    edgesTo: map<int, seq<Node>>,
    edges: map<int, map<int, Edge>>,
    nextID: int)

  /** A freshly made graph: empty indices, the counter at 0. */
  function EmptyGraph(): GraphState
  {
    GraphState(map[], [], map[], map[], map[], map[], 0)
  }

  /** NewNode: consume the next id for a node of `p`; nothing but the counter changes. */
  function WithNode(g: GraphState): GraphState
  {
    g.(nextID := g.nextID + 1)
  }

  /** AddNode once its checks have passed: index the node and give it empty lists. */
  function Inserted(g: GraphState, v: Node): GraphState
  {
    g.(names := g.names[v.pkg.name := v],
       nodes := g.nodes + [v],
       nodeIDs := g.nodeIDs[v.id := v],
       edgesFrom := g.edgesFrom[v.id := []],
       edgesTo := g.edgesTo[v.id := []],
       edges := g.edges[v.id := map[]])
  }

  /**
   * AddEdgeFromTo as written: record the edge under (u.id, v.id), and append u to u's own
   * out-list and v to v's own in-list.
   */
  function Linked(g: GraphState, u: Node, v: Node): GraphState
    requires u.id in g.edges
  {
    g.(edges := g.edges[u.id := g.edges[u.id][v.id := Edge(u, v)]],
       edgesFrom := g.edgesFrom[u.id := Get(g.edgesFrom, u.id) + [u]],
       edgesTo := g.edgesTo[v.id := Get(g.edgesTo, v.id) + [v]])
  }

  /** Every listed node is indexed under its name and under its id. */
  ghost predicate Listed(g: GraphState)
  {
    forall i :: 0 <= i < |g.nodes| ==>
      g.nodes[i].pkg.name in g.names && g.names[g.nodes[i].pkg.name] == g.nodes[i]
      && g.nodes[i].id in g.nodeIDs && g.nodeIDs[g.nodes[i].id] == g.nodes[i]
  }

  /** Every index entry is a listed node carrying that name or id. */
  ghost predicate Backed(g: GraphState)
  {
    && (forall name :: name in g.names ==> g.names[name].pkg.name == name && g.names[name] in g.nodes)
    && (forall id :: id in g.nodeIDs ==> g.nodeIDs[id].id == id && g.nodeIDs[id] in g.nodes)
  }

  /** No id is listed twice. */
  ghost predicate Distinct(g: GraphState)
  {
    forall i, j :: 0 <= i < j < |g.nodes| ==> g.nodes[i].id != g.nodes[j].id
  }

  /** The three indices of the node list agree with it, and it holds no node twice. */
  ghost predicate Indexed(g: GraphState)
  {
    Listed(g) && Backed(g) && Distinct(g)
  }

  /** Every node has an out-list and an edge row; in-lists exist at least for every node. */
  ghost predicate Keyed(g: GraphState)
  {
    && g.edges.Keys == g.nodeIDs.Keys
    && g.edgesFrom.Keys == g.nodeIDs.Keys
    && g.nodeIDs.Keys <= g.edgesTo.Keys
  }

  /** Each adjacency list holds only its own node: the consequence of AddEdgeFromTo as written. */
  ghost predicate SelfListed(g: GraphState)
  {
    && (forall k, x :: k in g.edgesFrom && x in g.edgesFrom[k] ==> x.id == k)
    && (forall k, x :: k in g.edgesTo && x in g.edgesTo[k] ==> x.id == k)
  }

  /** The edge stored under (a, b) runs from the node with id a to the node with id b. */
  ghost predicate EdgeEnds(g: GraphState)
  {
    forall a, b :: a in g.edges && b in g.edges[a] ==> g.edges[a][b].from.id == a && g.edges[a][b].to.id == b
  }

  /** The invariant every graph operation keeps. */
  ghost predicate Coherent(g: GraphState)
  {
    Indexed(g) && Keyed(g) && SelfListed(g) && EdgeEnds(g)
  }

  /** Every id in the graph was handed out by the counter: ids run from 1 to nextID. */
  ghost predicate IdsBelow(g: GraphState)
  {
    && 0 <= g.nextID
    && forall id :: id in g.nodeIDs ==> 1 <= id <= g.nextID
  }

  lemma EmptyCoherent()
    ensures Coherent(EmptyGraph()) && IdsBelow(EmptyGraph())
  {
  }

  /** NewNode's id is fresh: above every id in the graph, so never one already used. */
  lemma WithNodeFresh(g: GraphState)
    requires IdsBelow(g)
    ensures IdsBelow(WithNode(g)) && Coherent(WithNode(g)) == Coherent(g)
    ensures WithNode(g).nextID !in g.nodeIDs
    ensures forall id :: id in g.nodeIDs ==> id < WithNode(g).nextID
  {
  }

  lemma InsertedListed(g: GraphState, v: Node)
    requires Listed(g) && v.pkg.name !in g.names && v.id !in g.nodeIDs
    ensures Listed(Inserted(g, v))
  {
    var h := Inserted(g, v);
    forall i | 0 <= i < |h.nodes|
      ensures h.nodes[i].pkg.name in h.names && h.names[h.nodes[i].pkg.name] == h.nodes[i]
      ensures h.nodes[i].id in h.nodeIDs && h.nodeIDs[h.nodes[i].id] == h.nodes[i]
    {
      if i < |g.nodes| {
        assert h.nodes[i] == g.nodes[i];
      }
    }
  }

  lemma InsertedBacked(g: GraphState, v: Node)
    requires Backed(g)
    ensures Backed(Inserted(g, v))
  {
    var h := Inserted(g, v);
    forall name | name in h.names ensures h.names[name].pkg.name == name && h.names[name] in h.nodes {
      if name != v.pkg.name {
        assert g.names[name] in g.nodes;
      }
    }
    forall id | id in h.nodeIDs ensures h.nodeIDs[id].id == id && h.nodeIDs[id] in h.nodes {
      if id != v.id {
        assert g.nodeIDs[id] in g.nodes;
      }
    }
  }

  lemma InsertedDistinct(g: GraphState, v: Node)
    requires Listed(g) && Distinct(g) && v.id !in g.nodeIDs
    ensures Distinct(Inserted(g, v))
  {
    var h := Inserted(g, v);
    forall i, j | 0 <= i < j < |h.nodes| ensures h.nodes[i].id != h.nodes[j].id {
      assert h.nodes[i] == g.nodes[i];
      if j < |g.nodes| {
        assert h.nodes[j] == g.nodes[j];
      }
    }
  }

  lemma InsertedSelfListed(g: GraphState, v: Node)
    requires SelfListed(g) && EdgeEnds(g)
    ensures SelfListed(Inserted(g, v)) && EdgeEnds(Inserted(g, v))
  {
  }

  /** AddNode keeps the invariant when its checks pass. */
  lemma InsertedCoherent(g: GraphState, v: Node)
    requires Coherent(g)
    requires v.pkg.name !in g.names && v.id !in g.nodeIDs
    ensures Coherent(Inserted(g, v))
  {
    InsertedListed(g, v);
    InsertedBacked(g, v);
    InsertedDistinct(g, v);
    InsertedSelfListed(g, v);
  }

  /** AddNode keeps ids within the counter when the node's id came from it. */
  lemma InsertedIdsBelow(g: GraphState, v: Node)
    requires IdsBelow(g) && 1 <= v.id <= g.nextID
    ensures IdsBelow(Inserted(g, v))
  {
  }

  /** AddEdgeFromTo keeps the invariant, wherever `v` comes from. */
  lemma LinkedCoherent(g: GraphState, u: Node, v: Node)
    requires Coherent(g) && u.id in g.edges
    ensures Coherent(Linked(g, u, v)) && IdsBelow(Linked(g, u, v)) == IdsBelow(g)
  {
    var h := Linked(g, u, v);
    forall k, x | k in h.edgesFrom && x in h.edgesFrom[k] ensures x.id == k {
      if k != u.id {
        assert x in g.edgesFrom[k];
      }
    }
    forall k, x | k in h.edgesTo && x in h.edgesTo[k] ensures x.id == k {
      if k != v.id {
        assert x in g.edgesTo[k];
      }
    }
  }

  /** AddEdgeFromTo grows exactly u's out-list and v's in-list, each by one element. */
  lemma LinkedLists(g: GraphState, u: Node, v: Node, w: int)
    requires u.id in g.edges
    ensures Get(Linked(g, u, v).edgesFrom, w) == Get(g.edgesFrom, w) + (if w == u.id then [u] else [])
    ensures Get(Linked(g, u, v).edgesTo, w) == Get(g.edgesTo, w) + (if w == v.id then [v] else [])
    ensures Linked(g, u, v).nodes == g.nodes && Linked(g, u, v).names == g.names
    ensures Linked(g, u, v).nodeIDs == g.nodeIDs && Linked(g, u, v).nextID == g.nextID
  {
  }

  /** Adding the same edge twice stores one edge but lists the endpoints twice. */
  lemma LinkedTwice(g: GraphState, u: Node, v: Node)
    requires u.id in g.edges
    ensures Linked(Linked(g, u, v), u, v).edges == Linked(g, u, v).edges
    ensures Get(Linked(Linked(g, u, v), u, v).edgesFrom, u.id) == Get(g.edgesFrom, u.id) + [u, u]
  {
    var h := Linked(g, u, v);
    assert h.edges[u.id][v.id := Edge(u, v)] == h.edges[u.id];
  }

  /** In a coherent graph a node's out-list holds only nodes with its own id. */
  lemma OutListsSelf(g: GraphState, u: Node, v: Node)
    requires Coherent(g) && v in Get(g.edgesFrom, u.id)
    ensures v.id == u.id
  {
  }

  /** The graph object: Go's seven fields, updated in place. */
  class Graph {
    var names: map<string, Node>
    var nodes: seq<Node>
    var nodeIDs: map<int, Node>
    var edgesFrom: map<int, seq<Node>>
    var edgesTo: map<int, seq<Node>>
    var edges: map<int, map<int, Edge>>
    var nextID: int

    /** The current contents of the fields. */
    function Snapshot(): GraphState
      reads this
    {
      GraphState(names, nodes, nodeIDs, edgesFrom, edgesTo, edges, nextID)
    }

    ghost predicate Valid()
      reads this
    {
      Coherent(Snapshot()) && IdsBelow(Snapshot())
    }

    /** NewGraph. */
    constructor()
      ensures Snapshot() == EmptyGraph()
      ensures Valid()
    {
      names, nodes, nodeIDs := map[], [], map[];
      edgesFrom, edgesTo, edges := map[], map[], map[];
      nextID := 0;
      new;
      EmptyCoherent();
    }

    /** Whether the node's id is in the graph. */
    predicate Has(n: Node)
      reads this
    {
      n.id in nodeIDs
    }

    predicate HasName(name: string)
      reads this
    {
      name in names
    }

    /** The node of the given name, or None where Go returns nil. */
    function NodeWithName(name: string): (r: Option<Node>)
      reads this
      ensures r.Some? <==> HasName(name)
      ensures Valid() && r.Some? ==> r.value.pkg.name == name && r.value in Nodes()
    {
      if name in names then Some(names[name]) else None
    }

    function Nodes(): seq<Node>
      reads this
    {
      nodes
    }

    /** The out-list stored under the node's id; empty where Go reads a nil slice. */
    function From(v: Node): (r: seq<Node>)
      reads this
      ensures Valid() ==> forall x :: x in r ==> x.id == v.id
    {
      Get(edgesFrom, v.id)
    }

    /** The in-list stored under the node's id. */
    function To(v: Node): (r: seq<Node>)
      reads this
      ensures Valid() ==> forall x :: x in r ==> x.id == v.id
    {
      Get(edgesTo, v.id)
    }

    /** Edge(u, v): the edge stored under the two ids, or None where Go returns nil. */
    function EdgeOf(u: Node, v: Node): (r: Option<Edge>)
      reads this
      ensures r.Some? <==> u.id in edges && v.id in edges[u.id]
      ensures Valid() && r.Some? ==> r.value.from.id == u.id && r.value.to.id == v.id
    {
      if u.id in edges && v.id in edges[u.id] then Some(edges[u.id][v.id]) else None
    }

    /** Whether v occurs in u's out-list, by a search through it. */
    method HasEdgeFromTo(u: Node, v: Node) returns (b: bool)
      ensures b <==> v in From(u)
      ensures Valid() && b ==> u.id == v.id
    {
      var ns := Get(edgesFrom, u.id);
      var i := 0;
      while i < |ns|
        invariant 0 <= i <= |ns|
        invariant v !in ns[..i]
      {
        if ns[i] == v {
          return true;
        }
        assert ns[..i + 1] == ns[..i] + [ns[i]];
        i := i + 1;
      }
      assert ns[..i] == ns;
      return false;
    }

    /** Edge in either direction; in a valid graph only ever between nodes of one id. */
    method HasEdgeBetween(u: Node, v: Node) returns (b: bool)
      ensures b <==> v in From(u) || u in From(v)
      ensures Valid() && b ==> u.id == v.id
    {
      b := HasEdgeFromTo(u, v);
      if !b {
        b := HasEdgeFromTo(v, u);
      }
    }

    /** Increment the counter and return it: 1 in a fresh graph, larger on every call. */
    method NewNodeID() returns (id: int)
      modifies this`nextID
      ensures id == old(nextID) + 1 && Snapshot() == WithNode(old(Snapshot()))
      ensures old(Valid()) ==> Valid() && id !in nodeIDs
    {
      ghost var g0 := Snapshot();
      nextID := nextID + 1;
      id := nextID;
      assert Snapshot() == WithNode(g0);
      if IdsBelow(g0) {
        WithNodeFresh(g0);
      }
    }

    /** A node for `pkg` with a fresh id; the graph itself does not change. */
    method NewNode(pkg: Package) returns (n: Node)
      modifies this`nextID
      ensures n == Node(old(nextID) + 1, pkg) && Snapshot() == WithNode(old(Snapshot()))
      ensures old(Valid()) ==> Valid() && !Has(n) && 1 <= n.id == nextID
      ensures old(Valid()) ==> n !in nodes && forall k :: k in names ==> names[k].id != n.id
    {
      var id := NewNodeID();
      n := Node(id, pkg);
    }

    /** Index the node and give it empty lists; its name and id must be new. */
    method AddNode(v: Node)
      requires !HasName(v.pkg.name) && !Has(v)
      modifies this
      ensures Snapshot() == Inserted(old(Snapshot()), v)
      ensures HasName(v.pkg.name) && Has(v) && NodeWithName(v.pkg.name) == Some(v)
      ensures Nodes() == old(Nodes()) + [v] && From(v) == [] && To(v) == []
      ensures old(Valid()) && 1 <= v.id <= nextID ==> Valid()
    {
      ghost var g0 := Snapshot();
      names := names[v.pkg.name := v];
      nodes := nodes + [v];
      var id := v.id;
      nodeIDs := nodeIDs[id := v];
      edgesFrom := edgesFrom[id := []];
      edgesTo := edgesTo[id := []];
      edges := edges[id := map[]];
      assert Snapshot() == Inserted(g0, v);
      if Coherent(g0) && IdsBelow(g0) && 1 <= v.id <= nextID {
        InsertedCoherent(g0, v);
        InsertedIdsBelow(g0, v);
      }
    }

    /** Store the edge and append u to u's out-list, v to v's in-list; u must have an edge row. */
    method AddEdgeFromTo(u: Node, v: Node)
      requires u.id in edges
      modifies this
      ensures Snapshot() == Linked(old(Snapshot()), u, v)
      ensures EdgeOf(u, v) == Some(Edge(u, v))
      ensures From(u) == old(From(u)) + [u] && To(v) == old(To(v)) + [v]
      ensures old(Valid()) ==> Valid()
    {
      ghost var g0 := Snapshot();
      var uid, vid := u.id, v.id;
      edges := edges[uid := edges[uid][vid := Edge(u, v)]];
      edgesFrom := edgesFrom[uid := Get(edgesFrom, uid) + [u]];
      edgesTo := edgesTo[vid := Get(edgesTo, vid) + [v]];
      assert Snapshot() == Linked(g0, u, v);
      if Coherent(g0) {
        LinkedCoherent(g0, u, v);
      }
    }
  }
}
