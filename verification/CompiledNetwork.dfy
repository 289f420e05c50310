/** A compiled graph is a network of the kind the engine models run on. */
module CompiledNetwork {
  import opened Options
  import opened Kahn
  import opened Graphs
  import opened CompiledGraph
  import Networks

  /** compile rejects a graph for a cycle exactly if the graph's own hasCycle finds one, and never for a stray edge. */
  method HasCycleAgrees(g: Graph) returns (cyclic: bool, r: Result)
    requires g.Valid()
    ensures r == Err(GraphCycleDetected) <==> cyclic
    ensures r != Err(InternalError)
  {
    cyclic := g.HasCycle();
    r := Compile(g.nodes, g.edges);
    assert Adjacency(|g.nodes|, g.edges) == g.adjListOut;
    if g.nodes == [] {
      EmptyIsAcyclic(g.adjListOut);
    }
  }

  lemma EmptyIsAcyclic(out: Lists)
    requires out == []
    ensures Acyclic(out)
  {
  }

  /** Every edge ends at a declared port. */
  predicate PortsDeclared(nodes: seq<Node>, edges: seq<Edge>)
    requires EdgesInRange(|nodes|, edges)
  {
    forall k :: 0 <= k < |edges| ==> Routed(nodes, edges[k]).port.Some?
  }

  /** No two entries of the edge list end at the same port. */
  predicate OneEdgePerPort(nodes: seq<Node>, edges: seq<Edge>)
    requires EdgesInRange(|nodes|, edges)
  {
    forall k, l :: 0 <= k < l < |edges| ==>
      edges[k].dst != edges[l].dst || Routed(nodes, edges[k]).port != Routed(nodes, edges[l]).port
  }

  function Connection(e: OutEdge): Networks.Edge {
    Networks.Edge(e.dst, if e.port.Some? then e.port.value else 0)
  }

  function Connections(route: seq<OutEdge>): seq<Networks.Edge> {
    seq(|route|, k requires 0 <= k < |route| => Connection(route[k]))
  }

  function NetworkOf(nodes: seq<Node>, g: Compiled): Networks.Network {
    Networks.Network(
      seq(|nodes|, i requires 0 <= i < |nodes| => |nodes[i].inputs|),
      seq(|g.outEdges|, i requires 0 <= i < |g.outEdges| => Connections(g.outEdges[i])))
  }

  function Position(order: seq<nat>, v: nat): (i: nat)
    requires v in order
    ensures i < |order| && order[i] == v
  {
    if order[0] == v then 0 else 1 + Position(order[1..], v)
  }

  /** The place of every node in the topological order. */
  function Ranks(order: seq<nat>, n: nat): seq<nat>
    requires forall v: nat :: v in order <==> v < n
  {
    seq(n, v requires 0 <= v < n => Position(order, v))
  }

  /** Which edge of the graph an entry of the routing table stands for. */
  lemma {:induction false} EntryIsEdge(nodes: seq<Node>, edges: seq<Edge>, u: nat, k: nat) returns (m: nat)
    requires EdgesInRange(|nodes|, edges) && k < |Route(nodes, edges, u)|
    ensures m < |edges| && edges[m].src == u && Route(nodes, edges, u)[k] == Routed(nodes, edges[m])
    ensures |Route(nodes, edges[..m], u)| == k
  {
    var front, last := edges[..|edges| - 1], edges[|edges| - 1];
    if k < |Route(nodes, front, u)| {
      m := EntryIsEdge(nodes, front, u, k);
      assert front[..m] == edges[..m];
    } else {
      m := |edges| - 1;
    }
  }

  /** Every edge of the graph is an entry of the routing table. */
  lemma {:induction false} EdgeIsEntry(nodes: seq<Node>, edges: seq<Edge>, m: nat) returns (k: nat)
    requires EdgesInRange(|nodes|, edges) && m < |edges|
    ensures k < |Route(nodes, edges, edges[m].src)| && Route(nodes, edges, edges[m].src)[k] == Routed(nodes, edges[m])
  {
    var front := edges[..|edges| - 1];
    if m < |front| {
      k := EdgeIsEntry(nodes, front, m);
    } else {
      k := |Route(nodes, front, edges[m].src)|;
    }
  }

  /** An entry of the routing table is an edge of the adjacency lists. */
  lemma EntryIsAdjacent(nodes: seq<Node>, edges: seq<Edge>, u: nat, k: nat)
    requires EdgesInRange(|nodes|, edges) && u < |nodes| && k < |Route(nodes, edges, u)|
    ensures Kahn.Edge(Adjacency(|nodes|, edges), u, Route(nodes, edges, u)[k].dst)
  {
    RouteScans(nodes, edges, u);
    var ends := Ends(Outgoing(edges, u));
    assert ends[k] == Route(nodes, edges, u)[k].dst;
  }

  /** The order of a compiled graph ranks its network. */
  lemma CompiledIsRanked(nodes: seq<Node>, edges: seq<Edge>, g: Compiled)
    requires EdgesInRange(|nodes|, edges) && Represents(nodes, edges, g)
    ensures Networks.Ranked(NetworkOf(nodes, g), Ranks(g.topoOrder, |nodes|))
  {
    var net, rank := NetworkOf(nodes, g), Ranks(g.topoOrder, |nodes|);
    forall u, k | Networks.IsEdge(net, u, k) && net.out[u][k].dst < |rank|
      ensures rank[u] < rank[net.out[u][k].dst]
    {
      var v := net.out[u][k].dst;
      EntryIsAdjacent(nodes, edges, u, k);
      EdgeRises(Adjacency(|nodes|, edges), g.topoOrder, u, v);
    }
  }

  lemma EdgeRises(out: Lists, order: seq<nat>, u: nat, v: nat)
    requires Kahn.Edge(out, u, v) && IsOrder(out, order)
    ensures Position(order, u) < Position(order, v)
  {
    var i := Position(order, v);
    assert Kahn.Edge(out, u, order[i]);
    assert u in order[..i];
    var j :| 0 <= j < i && order[j] == u;
    assert order[Position(order, u)] == order[j];
  }

  /** The network of a compiled graph is valid if every port is declared and fed by at most one edge. */
  lemma CompiledIsValid(nodes: seq<Node>, edges: seq<Edge>, g: Compiled)
    requires EdgesInRange(|nodes|, edges) && Represents(nodes, edges, g)
    requires PortsDeclared(nodes, edges) && OneEdgePerPort(nodes, edges)
    ensures Networks.ValidNetwork(NetworkOf(nodes, g))
  {
    var net := NetworkOf(nodes, g);
    forall u, k | Networks.IsEdge(net, u, k)
      ensures net.out[u][k].dst < |net.ports| && net.out[u][k].port < net.ports[net.out[u][k].dst]
    {
      var m := EntryIsEdge(nodes, edges, u, k);
    }
    forall u, k, u', k' | Networks.IsEdge(net, u, k) && Networks.IsEdge(net, u', k') && net.out[u][k] == net.out[u'][k']
      ensures u == u' && k == k'
    {
      var m := EntryIsEdge(nodes, edges, u, k);
      var m' := EntryIsEdge(nodes, edges, u', k');
      assert m == m';
    }
  }

  /** What compile checks of ports is what the end-of-stream results rely on. */
  lemma CompiledIsCovered(nodes: seq<Node>, edges: seq<Edge>, g: Compiled)
    requires EdgesInRange(|nodes|, edges) && Represents(nodes, edges, g) && PortsCovered(nodes, edges)
    ensures Networks.Covered(NetworkOf(nodes, g))
  {
    var net := NetworkOf(nodes, g);
    forall v, i | 0 <= v < |net.ports| && 0 <= i < net.ports[v] && !Networks.IsSource(net, v)
      ensures Networks.IsFed(net, v, i)
    {
      PortIsFed(nodes, edges, g, v, i);
    }
  }

  lemma PortIsFed(nodes: seq<Node>, edges: seq<Edge>, g: Compiled, v: nat, i: nat)
    requires EdgesInRange(|nodes|, edges) && Represents(nodes, edges, g) && PortsCovered(nodes, edges)
    requires v < |nodes| && i < |nodes[v].inputs| && !Networks.IsSource(NetworkOf(nodes, g), v)
    ensures Networks.IsFed(NetworkOf(nodes, g), v, i)
  {
    var net, out := NetworkOf(nodes, g), Adjacency(|nodes|, edges);
    var u, k :| 0 <= u < |net.out| && 0 <= k < |net.out[u]| && net.out[u][k].dst == v;
    EntryIsAdjacent(nodes, edges, u, k);
    PendingZero(out, {}, v, |out|);
    assert Fed(nodes, edges, v, i);
    var m :| 0 <= m < |edges| && edges[m].dst == v && Routed(nodes, edges[m]).port == Some(i);
    var k' := EdgeIsEntry(nodes, edges, m);
    assert Networks.IsEdge(net, edges[m].src, k') && net.out[edges[m].src][k'] == Networks.Edge(v, i);
  }
}
