/**
 CompiledGraph::compile of include/ai_pipe/compiled_graph.hpp: the routing table, degrees,
 topological order and checks computed from a graph's nodes and edges.
 */
module CompiledGraph {
  import opened Options
  import opened Kahn
  import opened Graphs

  /** One routed connection; `port` is the index of the destination port, or none if it is not declared. */
  datatype OutEdge = OutEdge(srcPort: string, dst: nat, dstPort: string, port: Option<nat>)

  datatype Error = GraphEmpty | InternalError | GraphCycleDetected | InvalidConfiguration

  datatype Result = Ok(graph: Compiled) | Err(error: Error)

  datatype Compiled = Compiled(
    outEdges: seq<seq<OutEdge>>,
    successors: seq<seq<nat>>,
    predecessors: seq<seq<nat>>,
    inDegree: seq<int>,
    topoOrder: seq<nat>,
    sources: seq<nat>,
    sinks: seq<nat>)

  // ---- What compilation means ----

  predicate EdgesInRange(n: nat, edges: seq<Edge>) {
    forall k :: 0 <= k < |edges| ==> edges[k].src < n && edges[k].dst < n
  }

  /** The first position of a port name. */
  function PortIndex(ports: seq<string>, name: string): Option<nat> {
    IndexFrom(ports, name, 0)
  }

  function IndexFrom(ports: seq<string>, name: string, i: nat): (r: Option<nat>)
    ensures match r
            case Some(j) => i <= j < |ports| && ports[j] == name && name !in ports[i..j]
            case None => i <= |ports| ==> name !in ports[i..]
    decreases |ports| - i
  {
    if i >= |ports| then None else if ports[i] == name then Some(i) else IndexFrom(ports, name, i + 1)
  }

  function Routed(nodes: seq<Node>, e: Edge): OutEdge
    requires e.dst < |nodes|
  {
    OutEdge(e.srcPort, e.dst, e.dstPort, PortIndex(nodes[e.dst].inputs, e.dstPort))
  }

  /** The graph's own scan of the edges of a node, with destination ports looked up. */
  function Route(nodes: seq<Node>, edges: seq<Edge>, i: nat): seq<OutEdge>
    requires EdgesInRange(|nodes|, edges)
  {
    if edges == [] then []
    else
      var last := edges[|edges| - 1];
      Route(nodes, edges[..|edges| - 1], i) + (if last.src == i then [Routed(nodes, last)] else [])
  }

  /** `j` is the first port with this name. */
  predicate FirstNamed(ports: seq<string>, name: string, j: nat) {
    j < |ports| && ports[j] == name && forall i :: 0 <= i < j ==> ports[i] != name
  }

  /** The entry carries the edge's own port names and destination, and the index of the destination port if it is declared. */
  ghost predicate EntryOf(nodes: seq<Node>, e: Edge, entry: OutEdge)
    requires e.dst < |nodes|
  {
    && entry.srcPort == e.srcPort && entry.dst == e.dst && entry.dstPort == e.dstPort
    && forall j: nat :: entry.port == Some(j) <==> FirstNamed(nodes[e.dst].inputs, e.dstPort, j)
  }

  lemma RoutedIsEntry(nodes: seq<Node>, e: Edge)
    requires e.dst < |nodes|
    ensures EntryOf(nodes, e, Routed(nodes, e))
  {
    var ports, port := nodes[e.dst].inputs, PortIndex(nodes[e.dst].inputs, e.dstPort);
    if port.Some? {
      assert forall i :: 0 <= i < port.value ==> ports[0..port.value][i] == ports[i];
    } else {
      assert ports[0..] == ports;
    }
  }

  /** The entries of a node are the edges that leave it, in insertion order. */
  ghost predicate EntriesOf(nodes: seq<Node>, edges: seq<Edge>, i: nat, entries: seq<OutEdge>) {
    var scan := Outgoing(edges, i);
    && |entries| == |scan|
    && forall k :: 0 <= k < |scan| ==> scan[k].dst < |nodes| && EntryOf(nodes, scan[k], entries[k])
  }

  /** outEdges is getOutgoingEdges, edge by edge. */
  lemma RouteIsOutgoing(nodes: seq<Node>, edges: seq<Edge>, i: nat)
    requires EdgesInRange(|nodes|, edges)
    ensures EntriesOf(nodes, edges, i, Route(nodes, edges, i))
  {
    RouteScans(nodes, edges, i);
    forall k | 0 <= k < |Outgoing(edges, i)|
      ensures Outgoing(edges, i)[k].dst < |nodes| && EntryOf(nodes, Outgoing(edges, i)[k], Route(nodes, edges, i)[k])
    {
      RoutedIsEntry(nodes, Outgoing(edges, i)[k]);
    }
  }

  lemma {:induction false} RouteScans(nodes: seq<Node>, edges: seq<Edge>, i: nat)
    requires EdgesInRange(|nodes|, edges)
    ensures var scan := Outgoing(edges, i);
            && |Route(nodes, edges, i)| == |scan|
            && forall k :: 0 <= k < |scan| ==> scan[k] in edges && scan[k].dst < |nodes| && Route(nodes, edges, i)[k] == Routed(nodes, scan[k])
  {
    if edges != [] {
      RouteScans(nodes, edges[..|edges| - 1], i);
    }
  }

  /** The adjacency lists of the edges. */
  function Adjacency(n: nat, edges: seq<Edge>): Lists {
    seq(n, i requires 0 <= i < n => Ends(Outgoing(edges, i)))
  }

  /** Some edge ends at this input port. */
  predicate Fed(nodes: seq<Node>, edges: seq<Edge>, v: nat, port: nat)
    requires EdgesInRange(|nodes|, edges)
  {
    exists k :: 0 <= k < |edges| && edges[k].dst == v && Routed(nodes, edges[k]).port == Some(port)
  }

  /** A node with incoming edges has an edge to every declared input port. */
  predicate PortsCovered(nodes: seq<Node>, edges: seq<Edge>)
    requires EdgesInRange(|nodes|, edges)
  {
    forall v, port :: 0 <= v < |nodes| && 0 <= port < |nodes[v].inputs| && InDegree(Adjacency(|nodes|, edges), v) > 0 ==>
      Fed(nodes, edges, v, port)
  }

  // ---- The edge pass ----

  /** The tables after a prefix of the edges; `ends` are the destinations of `outEdges`. */
  datatype Tables = Tables(
    outEdges: seq<seq<OutEdge>>,
    ends: Lists,
    successors: Lists,
    predecessors: Lists,
    inDegree: seq<int>,
    covered: seq<seq<bool>>)

  predicate Shaped(nodes: seq<Node>, t: Tables) {
    && |t.outEdges| == |t.ends| == |t.successors| == |t.predecessors| == |t.inDegree| == |t.covered| == |nodes|
    && forall v :: 0 <= v < |nodes| ==> |t.covered[v]| == |nodes[v].inputs|
  }

  ghost predicate RoutesOk(nodes: seq<Node>, edges: seq<Edge>, t: Tables)
    requires EdgesInRange(|nodes|, edges) && Shaped(nodes, t)
  {
    && (forall i :: 0 <= i < |nodes| ==> t.outEdges[i] == Route(nodes, edges, i))
    && t.ends == Adjacency(|nodes|, edges)
    && InRange(t.ends)
    && (forall v :: 0 <= v < |nodes| ==> t.inDegree[v] == InDegree(t.ends, v))
  }

  ghost predicate NeighboursOk(nodes: seq<Node>, edges: seq<Edge>, t: Tables)
    requires Shaped(nodes, t)
  {
    && (forall u :: 0 <= u < |nodes| ==> Distinct(t.successors[u]) && Distinct(t.predecessors[u]))
    && (forall u, v: nat :: 0 <= u < |nodes| ==> (v in t.successors[u] <==> Joined(edges, u, v)))
    && (forall u: nat, v :: 0 <= v < |nodes| ==> (u in t.predecessors[v] <==> Joined(edges, u, v)))
  }

  predicate Joined(edges: seq<Edge>, u: nat, v: nat) {
    exists k :: 0 <= k < |edges| && edges[k].src == u && edges[k].dst == v
  }

  ghost predicate CoverageOk(nodes: seq<Node>, edges: seq<Edge>, t: Tables)
    requires EdgesInRange(|nodes|, edges) && Shaped(nodes, t)
  {
    forall v, port :: 0 <= v < |nodes| && 0 <= port < |t.covered[v]| ==> (t.covered[v][port] <==> Fed(nodes, edges, v, port))
  }

  ghost predicate TablesOk(nodes: seq<Node>, edges: seq<Edge>, t: Tables)
    requires EdgesInRange(|nodes|, edges)
  {
    Shaped(nodes, t) && RoutesOk(nodes, edges, t) && NeighboursOk(nodes, edges, t) && CoverageOk(nodes, edges, t)
  }

  method FindPort(ports: seq<string>, name: string) returns (port: Option<nat>)
    ensures port == PortIndex(ports, name)
  {
    for i := 0 to |ports|
      invariant PortIndex(ports, name) == IndexFrom(ports, name, i)
    {
      if ports[i] == name {
        return Some(i);
      }
    }
    return None;
  }

  function AddOnce(list: seq<nat>, v: nat): seq<nat> {
    if v in list then list else list + [v]
  }

  function WithEdge(nodes: seq<Node>, t: Tables, e: Edge, port: Option<nat>): Tables
    requires Shaped(nodes, t) && e.src < |nodes| && e.dst < |nodes|
    requires port.Some? ==> port.value < |nodes[e.dst].inputs|
  {
    Tables(
      t.outEdges[e.src := t.outEdges[e.src] + [OutEdge(e.srcPort, e.dst, e.dstPort, port)]],
      t.ends[e.src := t.ends[e.src] + [e.dst]],
      t.successors[e.src := AddOnce(t.successors[e.src], e.dst)],
      t.predecessors[e.dst := AddOnce(t.predecessors[e.dst], e.src)],
      t.inDegree[e.dst := t.inDegree[e.dst] + 1],
      if port.Some? then t.covered[e.dst := t.covered[e.dst][port.value := true]] else t.covered)
  }

  method EdgePass(nodes: seq<Node>, edges: seq<Edge>) returns (ok: bool, t: Tables)
    ensures ok == EdgesInRange(|nodes|, edges)
    ensures ok ==> TablesOk(nodes, edges, t) && |t.outEdges| == |nodes|
    ensures ok ==> forall i :: 0 <= i < |nodes| ==> EntriesOf(nodes, edges, i, t.outEdges[i])
  {
    var n := |nodes|;
    var none: Lists := seq(n, _ => []);
    t := Tables(seq(n, _ => []), none, none, none, seq(n, _ => 0),
                seq(n, i requires 0 <= i < n => seq(|nodes[i].inputs|, _ => false)));
    EmptyTables(nodes, t);
    for k := 0 to |edges|
      invariant EdgesInRange(n, edges[..k]) && TablesOk(nodes, edges[..k], t)
    {
      var e := edges[k];
      if e.src >= n || e.dst >= n {
        return false, t;
      }
      var port := FindPort(nodes[e.dst].inputs, e.dstPort);
      assert edges[..k + 1] == edges[..k] + [e];
      MoreTables(nodes, edges[..k], t, e);
      t := WithEdge(nodes, t, e, port);
    }
    assert edges[..|edges|] == edges;
    ok := true;
    forall i | 0 <= i < |nodes|
      ensures EntriesOf(nodes, edges, i, t.outEdges[i])
    {
      RouteIsOutgoing(nodes, edges, i);
    }
  }

  lemma EmptyTables(nodes: seq<Node>, t: Tables)
    requires Shaped(nodes, t)
    requires forall i :: 0 <= i < |nodes| ==>
               && t.outEdges[i] == [] && t.ends[i] == [] && t.successors[i] == [] && t.predecessors[i] == [] && t.inDegree[i] == 0
               && forall port :: 0 <= port < |t.covered[i]| ==> !t.covered[i][port]
    ensures TablesOk(nodes, [], t)
  {
    assert t.ends == Adjacency(|nodes|, []);
    forall v | 0 <= v < |nodes|
      ensures InDegree(t.ends, v) == 0
    {
      PendingZero(t.ends, {}, v, |nodes|);
    }
  }

  lemma RoutesMore(nodes: seq<Node>, edges: seq<Edge>, t: Tables, t': Tables, e: Edge)
    requires EdgesInRange(|nodes|, edges) && Shaped(nodes, t) && RoutesOk(nodes, edges, t) && e.src < |nodes| && e.dst < |nodes|
    requires EdgesInRange(|nodes|, edges + [e]) && Shaped(nodes, t')
    requires t'.outEdges == t.outEdges[e.src := t.outEdges[e.src] + [Routed(nodes, e)]]
    requires t'.ends == t.ends[e.src := t.ends[e.src] + [e.dst]]
    requires t'.inDegree == t.inDegree[e.dst := t.inDegree[e.dst] + 1]
    ensures RoutesOk(nodes, edges + [e], t')
  {
    forall i | 0 <= i < |nodes|
      ensures t'.outEdges[i] == Route(nodes, edges + [e], i)
    {
      RouteMore(nodes, edges, e, i);
    }
    AdjacencyMore(|nodes|, edges, e);
    EdgeDegrees(t.ends, e.src, e.dst);
  }

  lemma AdjacencyMore(n: nat, edges: seq<Edge>, e: Edge)
    requires e.src < n
    ensures Adjacency(n, edges + [e]) == Adjacency(n, edges)[e.src := Adjacency(n, edges)[e.src] + [e.dst]]
  {
    var before, after := Adjacency(n, edges), Adjacency(n, edges + [e]);
    forall i | 0 <= i < n
      ensures after[i] == if i == e.src then before[i] + [e.dst] else before[i]
    {
      OutgoingMore(edges, e, i);
    }
  }

  lemma RouteMore(nodes: seq<Node>, edges: seq<Edge>, e: Edge, i: nat)
    requires EdgesInRange(|nodes|, edges) && EdgesInRange(|nodes|, edges + [e]) && e.dst < |nodes|
    ensures Route(nodes, edges + [e], i) == Route(nodes, edges, i) + if e.src == i then [Routed(nodes, e)] else []
  {
    assert (edges + [e])[..|edges|] == edges;
  }

  lemma JoinedMore(edges: seq<Edge>, e: Edge, u: nat, v: nat)
    ensures Joined(edges + [e], u, v) <==> Joined(edges, u, v) || (e.src == u && e.dst == v)
  {
    var longer := edges + [e];
    if Joined(edges, u, v) {
      var k :| 0 <= k < |edges| && edges[k].src == u && edges[k].dst == v;
      assert longer[k].src == u && longer[k].dst == v;
    }
    assert longer[|edges|] == e;
  }

  lemma NeighboursMore(nodes: seq<Node>, edges: seq<Edge>, t: Tables, t': Tables, e: Edge)
    requires Shaped(nodes, t) && NeighboursOk(nodes, edges, t) && e.src < |nodes| && e.dst < |nodes| && Shaped(nodes, t')
    requires t'.successors == t.successors[e.src := AddOnce(t.successors[e.src], e.dst)]
    requires t'.predecessors == t.predecessors[e.dst := AddOnce(t.predecessors[e.dst], e.src)]
    ensures NeighboursOk(nodes, edges + [e], t')
  {
    forall u: nat, v: nat
      ensures Joined(edges + [e], u, v) <==> Joined(edges, u, v) || (e.src == u && e.dst == v)
    {
      JoinedMore(edges, e, u, v);
    }
  }

  lemma CoverageMore(nodes: seq<Node>, edges: seq<Edge>, t: Tables, t': Tables, e: Edge)
    requires EdgesInRange(|nodes|, edges) && Shaped(nodes, t) && CoverageOk(nodes, edges, t) && e.src < |nodes| && e.dst < |nodes|
    requires Shaped(nodes, t') && EdgesInRange(|nodes|, edges + [e])
    requires var port := Routed(nodes, e).port;
             t'.covered == if port.Some? then t.covered[e.dst := t.covered[e.dst][port.value := true]] else t.covered
    ensures CoverageOk(nodes, edges + [e], t')
  {
    forall v, port | 0 <= v < |nodes| && 0 <= port < |t'.covered[v]|
      ensures t'.covered[v][port] <==> Fed(nodes, edges + [e], v, port)
    {
      FedMore(nodes, edges, e, v, port);
    }
  }

  lemma FedMore(nodes: seq<Node>, edges: seq<Edge>, e: Edge, v: nat, port: nat)
    requires EdgesInRange(|nodes|, edges) && EdgesInRange(|nodes|, edges + [e]) && e.dst < |nodes|
    ensures Fed(nodes, edges + [e], v, port) <==> Fed(nodes, edges, v, port) || (e.dst == v && Routed(nodes, e).port == Some(port))
  {
    var longer := edges + [e];
    if Fed(nodes, edges, v, port) {
      var k :| 0 <= k < |edges| && edges[k].dst == v && Routed(nodes, edges[k]).port == Some(port);
      assert longer[k].dst == v && Routed(nodes, longer[k]).port == Some(port);
    }
    assert longer[|edges|] == e;
  }

  lemma MoreTables(nodes: seq<Node>, edges: seq<Edge>, t: Tables, e: Edge)
    requires EdgesInRange(|nodes|, edges) && TablesOk(nodes, edges, t) && e.src < |nodes| && e.dst < |nodes|
    ensures EdgesInRange(|nodes|, edges + [e])
    ensures TablesOk(nodes, edges + [e], WithEdge(nodes, t, e, Routed(nodes, e).port))
  {
    var t' := WithEdge(nodes, t, e, Routed(nodes, e).port);
    RoutesMore(nodes, edges, t, t', e);
    NeighboursMore(nodes, edges, t, t', e);
    CoverageMore(nodes, edges, t, t', e);
  }

  // ---- Compilation ----

  /** What a compiled graph says about the nodes and edges it was made from. */
  ghost predicate Represents(nodes: seq<Node>, edges: seq<Edge>, g: Compiled)
    requires EdgesInRange(|nodes|, edges)
  {
    var out := Adjacency(|nodes|, edges);
    && |g.outEdges| == |g.successors| == |g.predecessors| == |g.inDegree| == |nodes|
    && (forall i :: 0 <= i < |nodes| ==> g.outEdges[i] == Route(nodes, edges, i))
    && (forall i :: 0 <= i < |nodes| ==> g.inDegree[i] == InDegree(out, i))
    && (forall u :: 0 <= u < |nodes| ==> Distinct(g.successors[u]) && Distinct(g.predecessors[u]))
    && (forall u, v: nat :: 0 <= u < |nodes| ==> (v in g.successors[u] <==> Joined(edges, u, v)))
    && (forall u: nat, v :: 0 <= v < |nodes| ==> (u in g.predecessors[v] <==> Joined(edges, u, v)))
    && IsOrder(out, g.topoOrder)
    && Selects(g.sources, |nodes|, (v: nat) => v < |nodes| && InDegree(out, v) == 0)
    && Selects(g.sinks, |nodes|, (v: nat) => v < |nodes| && out[v] == [])
  }

  /** A permutation of the nodes in which every edge goes forward. */
  ghost predicate IsOrder(out: Lists, order: seq<nat>) {
    && Distinct(order) && (forall v: nat :: v in order <==> v < |out|)
    && Respects(out, order)
  }

  /** The nodes with a property, in increasing order. */
  ghost predicate Selects(list: seq<nat>, n: nat, p: nat -> bool) {
    && (forall v: nat :: v in list <==> v < n && p(v))
    && forall i, j :: 0 <= i < j < |list| ==> list[i] < list[j]
  }

  /**
   Compilation fails exactly on an empty graph, on an edge to a node that is not there, on a
   cycle, and on an uncovered input port, in this order; otherwise the result represents the
   graph.
   */
  method Compile(nodes: seq<Node>, edges: seq<Edge>) returns (r: Result)
    ensures r == Err(GraphEmpty) <==> nodes == []
    ensures r == Err(InternalError) <==> nodes != [] && !EdgesInRange(|nodes|, edges)
    ensures r == Err(GraphCycleDetected) <==>
              nodes != [] && EdgesInRange(|nodes|, edges) && !Acyclic(Adjacency(|nodes|, edges))
    ensures r == Err(InvalidConfiguration) <==>
              nodes != [] && EdgesInRange(|nodes|, edges) && Acyclic(Adjacency(|nodes|, edges)) && !PortsCovered(nodes, edges)
    ensures r.Ok? ==> EdgesInRange(|nodes|, edges) && Represents(nodes, edges, r.graph)
    ensures r.Ok? ==> |r.graph.outEdges| == |nodes| && forall i :: 0 <= i < |nodes| ==> EntriesOf(nodes, edges, i, r.graph.outEdges[i])
  {
    if nodes == [] {
      return Err(GraphEmpty);
    }
    var ok, t := EdgePass(nodes, edges);
    if !ok {
      return Err(InternalError);
    }
    var order := Peel(t.ends, t.inDegree);
    CompleteIffAcyclic(t.ends, order);
    if |order| != |nodes| {
      return Err(GraphCycleDetected);
    }
    var sources, sinks := Extremes(t.ends, t.inDegree);
    var covered := CheckCoverage(nodes, edges, t);
    if !covered {
      return Err(InvalidConfiguration);
    }
    r := Ok(Compiled(t.outEdges, t.successors, t.predecessors, t.inDegree, order, sources, sinks));
  }

  method Extremes(out: Lists, inDegree: seq<int>) returns (sources: seq<nat>, sinks: seq<nat>)
    requires |inDegree| == |out| && forall v :: 0 <= v < |out| ==> inDegree[v] == InDegree(out, v)
    ensures Selects(sources, |out|, (v: nat) => v < |out| && InDegree(out, v) == 0)
    ensures Selects(sinks, |out|, (v: nat) => v < |out| && out[v] == [])
  {
    sources, sinks := [], [];
    for n := 0 to |out|
      invariant Selects(sources, n, (v: nat) => v < |out| && InDegree(out, v) == 0)
      invariant Selects(sinks, n, (v: nat) => v < |out| && out[v] == [])
      invariant (forall i :: 0 <= i < |sources| ==> sources[i] < n) && (forall i :: 0 <= i < |sinks| ==> sinks[i] < n)
    {
      if inDegree[n] == 0 {
        sources := sources + [n];
      }
      if out[n] == [] {
        sinks := sinks + [n];
      }
    }
  }

  method CheckCoverage(nodes: seq<Node>, ghost edges: seq<Edge>, t: Tables) returns (ok: bool)
    requires EdgesInRange(|nodes|, edges) && TablesOk(nodes, edges, t)
    ensures ok == PortsCovered(nodes, edges)
  {
    for v := 0 to |nodes|
      invariant forall u, port :: 0 <= u < v && 0 <= port < |t.covered[u]| && t.inDegree[u] > 0 ==> t.covered[u][port]
    {
      if t.inDegree[v] != 0 {
        for port := 0 to |nodes[v].inputs|
          invariant forall i :: 0 <= i < port ==> t.covered[v][i]
        {
          if !t.covered[v][port] {
            assert !Fed(nodes, edges, v, port);
            return false;
          }
        }
      }
    }
    ok := true;
  }
}
