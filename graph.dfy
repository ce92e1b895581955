/** The Code Intelligence Graph: a simple directed graph (a networkx
    `DiGraph`) whose nodes are string ids carrying a `type`, and for Function
    nodes a `file` and a `source_code`, and whose edges carry a `type`.
    A `DiGraph` holds at most one edge per ordered pair, so the edges are a map
    keyed by the pair; predecessors and successors are derived from it. */
module CodeGraph {
  import opened Wrappers

  datatype NodeType = File | Service | Function | DatabaseTable | ErrorType

  datatype EdgeType = Contains | Calls | Modifies | Implements | CanCause

  /** The attributes a node may carry; an absent attribute is None (a node that
      networkx creates implicitly as an edge endpoint carries none). */
  datatype NodeAttrs = NodeAttrs(kind: Option<NodeType>, file: Option<string>, sourceCode: Option<string>)

  const NoAttrs := NodeAttrs(None, None, None)

  datatype Graph = Graph(nodes: map<string, NodeAttrs>, edges: map<(string, string), EdgeType>)

  const EmptyGraph := Graph(map[], map[])

  /** Both endpoints of every edge are nodes, as networkx guarantees. */
  predicate WellFormed(g: Graph) {
    forall e :: e in g.edges ==> e.0 in g.nodes && e.1 in g.nodes
  }

  /** A graph as a loaded GraphML file delivers it. */
  type ValidGraph = g: Graph | WellFormed(g) witness EmptyGraph

  /** `graph.nodes[id].get('type')`, None for an absent node too. */
  function KindOf(g: Graph, id: string): Option<NodeType> {
    if id in g.nodes then g.nodes[id].kind else None
  }

  /** `graph[u][v].get('type')` when the edge exists, None otherwise. */
  function EdgeKind(g: Graph, u: string, v: string): Option<EdgeType> {
    if (u, v) in g.edges then Some(g.edges[(u, v)]) else None
  }

  /** `graph.predecessors(v)`: the sources of the edges into `v`. */
  function Predecessors(g: Graph, v: string): (r: set<string>)
    ensures forall p :: p in r <==> (p, v) in g.edges
  {
    var r := set e | e in g.edges.Keys && e.1 == v :: e.0;
    assert forall p :: (p, v) in g.edges ==> p in r by {
      forall p | (p, v) in g.edges ensures p in r {
        var e := (p, v);
        assert e in g.edges.Keys && e.1 == v;
      }
    }
    r
  }

  /** `graph.successors(u)`: the targets of the edges out of `u`. */
  function Successors(g: Graph, u: string): (r: set<string>)
    ensures forall s :: s in r <==> (u, s) in g.edges
  {
    var r := set e | e in g.edges.Keys && e.0 == u :: e.1;
    assert forall s :: (u, s) in g.edges ==> s in r by {
      forall s | (u, s) in g.edges ensures s in r {
        var e := (u, s);
        assert e in g.edges.Keys && e.0 == u;
      }
    }
    r
  }

  /** The attribute update `add_node` performs on a node that already exists:
      every attribute it passes replaces the old one, the others are kept. */
  function Merge(prev: NodeAttrs, upd: NodeAttrs): (r: NodeAttrs)
    ensures r.kind == (if upd.kind.Some? then upd.kind else prev.kind)
    ensures r.file == (if upd.file.Some? then upd.file else prev.file)
    ensures r.sourceCode == (if upd.sourceCode.Some? then upd.sourceCode else prev.sourceCode)
  {
    NodeAttrs(
      if upd.kind.Some? then upd.kind else prev.kind,
      if upd.file.Some? then upd.file else prev.file,
      if upd.sourceCode.Some? then upd.sourceCode else prev.sourceCode)
  }

  /** `graph.add_node(id, **attrs)`. */
  function WithNode(g: Graph, id: string, attrs: NodeAttrs): (r: Graph)
    ensures r.nodes.Keys == g.nodes.Keys + {id}
    ensures r.nodes[id] == if id in g.nodes then Merge(g.nodes[id], attrs) else attrs
    ensures forall x :: x in g.nodes && x != id ==> r.nodes[x] == g.nodes[x]
    ensures r.edges == g.edges
    ensures WellFormed(g) ==> WellFormed(r)
  {
    g.(nodes := g.nodes[id := if id in g.nodes then Merge(g.nodes[id], attrs) else attrs])
  }

  /** `graph.add_edge(u, v, type=t)`: absent endpoints become attribute-less
      nodes, and an existing (u, v) edge has its type replaced, never doubled. */
  function WithEdge(g: Graph, u: string, v: string, t: EdgeType): (r: Graph)
    ensures r.nodes.Keys == g.nodes.Keys + {u, v}
    ensures forall x :: x in g.nodes ==> r.nodes[x] == g.nodes[x]
    ensures forall x :: x in r.nodes && x !in g.nodes ==> r.nodes[x] == NoAttrs
    ensures r.edges.Keys == g.edges.Keys + {(u, v)} && r.edges[(u, v)] == t
    ensures forall e :: e in g.edges && e != (u, v) ==> r.edges[e] == g.edges[e]
    ensures WellFormed(g) ==> WellFormed(r)
  {
    var withU := if u in g.nodes then g.nodes else g.nodes[u := NoAttrs];
    var withV := if v in withU then withU else withU[v := NoAttrs];
    Graph(withV, g.edges[(u, v) := t])
  }

  /** The networkx `DiGraph` object the graph builder mutates in place. */
  class DiGraph {
    var nodes: map<string, NodeAttrs>
    var edges: map<(string, string), EdgeType>

    function Value(): Graph
      reads this
    {
      Graph(nodes, edges)
    }

    constructor ()
      ensures Value() == EmptyGraph
    {
      nodes, edges := map[], map[];
    }

    method AddNode(id: string, attrs: NodeAttrs)
      modifies this
      ensures Value() == WithNode(old(Value()), id, attrs)
    {
      var g := WithNode(Value(), id, attrs);
      nodes := g.nodes;
    }

    method AddEdge(u: string, v: string, t: EdgeType)
      modifies this
      ensures Value() == WithEdge(old(Value()), u, v, t)
    {
      var g := WithEdge(Value(), u, v, t);
      nodes, edges := g.nodes, g.edges;
    }
  }
}
