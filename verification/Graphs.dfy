/**
 The graph under construction of src/graph.cpp.  A node is known by its insertion index,
 which stands for the node address that the maps are keyed with.
 */
module Graphs {
  import opened Options
  import opened Kahn
  import opened EdgeKeys

  /** A payload type; `UNTYPED` matches any. */
  type PayloadType = nat

  const UNTYPED: PayloadType := 0

  datatype Node = Node(name: string, inputs: seq<string>, outputs: seq<string>, types: map<string, PayloadType>) {
    function PortType(port: string): PayloadType {
      if port in types then types[port] else UNTYPED
    }
  }

  datatype Edge = Edge(src: nat, srcPort: string, dst: nat, dstPort: string)

  // ---- Edge lists ----

  /** The edges of node `i`, in insertion order. */
  function Outgoing(edges: seq<Edge>, i: nat): seq<Edge> {
    if edges == [] then []
    else
      var last := edges[|edges| - 1];
      Outgoing(edges[..|edges| - 1], i) + (if last.src == i then [last] else [])
  }

  /** The edges into node `i`, in insertion order. */
  function Incoming(edges: seq<Edge>, i: nat): seq<Edge> {
    if edges == [] then []
    else
      var last := edges[|edges| - 1];
      Incoming(edges[..|edges| - 1], i) + (if last.dst == i then [last] else [])
  }

  function Ends(edges: seq<Edge>): seq<nat> {
    seq(|edges|, k requires 0 <= k < |edges| => edges[k].dst)
  }

  function Starts(edges: seq<Edge>): seq<nat> {
    seq(|edges|, k requires 0 <= k < |edges| => edges[k].src)
  }

  // ---- The graph ----

  /** An edge that matches the declared ports and payload types of its nodes. */
  predicate Fits(src: Node, srcPort: string, dst: Node, dstPort: string) {
    && (srcPort == "" || srcPort in src.outputs)
    && (dstPort == "" || dstPort in dst.inputs)
    && (srcPort == "" || dstPort == "" || src.PortType(srcPort) == UNTYPED || dst.PortType(dstPort) == UNTYPED ||
        src.PortType(srcPort) == dst.PortType(dstPort))
  }

  /** The checks of addEdge on the two ports. */
  method PortsFit(src: Node, srcPort: string, dst: Node, dstPort: string) returns (ok: bool)
    ensures ok == Fits(src, srcPort, dst, dstPort)
  {
    if src.outputs == [] && srcPort != "" {
      return false;
    }
    if srcPort != "" && srcPort !in src.outputs {
      return false;
    }
    if dst.inputs == [] && dstPort != "" {
      return false;
    }
    if dstPort != "" && dstPort !in dst.inputs {
      return false;
    }
    if srcPort != "" && dstPort != "" {
      var srcType, dstType := src.PortType(srcPort), dst.PortType(dstPort);
      if srcType != UNTYPED && dstType != UNTYPED && srcType != dstType {
        return false;
      }
    }
    return true;
  }

  function KeyOf(nodes: seq<Node>, e: Edge): string
    requires e.src < |nodes| && e.dst < |nodes|
  {
    Key(nodes[e.src].name, e.srcPort, nodes[e.dst].name, e.dstPort)
  }

  class Graph {
    var nodes: seq<Node>
    var nodeMap: map<string, nat>
    var edges: seq<Edge>
    var edgeKeys: set<string>
    var adjListOut: Lists
    var adjListIn: Lists
    var inDegree: seq<int>

    /** Names are unique, and the adjacency lists, degrees and keys are those of the edges. */
    ghost predicate Valid()
      reads this
    {
      && NamesOk(nodes, nodeMap)
      && ListsOk(|nodes|, edges, adjListOut, adjListIn, inDegree)
      && KeysOk(nodes, edges, edgeKeys)
    }

    constructor ()
      ensures Valid() && nodes == [] && edges == []
    {
      nodes, nodeMap, edges, edgeKeys := [], map[], [], {};
      adjListOut, adjListIn, inDegree := [], [], [];
    }

    /** addNode: refused for a null node and for a name that is taken. */
    method AddNode(node: Option<Node>) returns (ok: bool)
      requires Valid()
      modifies this
      ensures Valid() && edges == old(edges)
      ensures ok <==> node.Some? && !HasName(old(nodes), node.value.name)
      ensures nodes == if ok then old(nodes) + [node.value] else old(nodes)
    {
      if node.None? {
        return false;
      }
      NameIsKnown(nodes, nodeMap, node.value.name);
      if node.value.name in nodeMap {
        return false;
      }
      NodeNamed(nodes, nodeMap, node.value);
      NodeListed(|nodes|, edges, adjListOut, adjListIn, inDegree);
      NodeKeyed(nodes, edges, edgeKeys, node.value);
      nodeMap := nodeMap[node.value.name := |nodes|];
      nodes := nodes + [node.value];
      adjListOut := adjListOut + [[]];
      adjListIn := adjListIn + [[]];
      inDegree := inDegree + [0];
      assert NamesOk(nodes, nodeMap);
      assert ListsOk(|nodes|, edges, adjListOut, adjListIn, inDegree);
      assert KeysOk(nodes, edges, edgeKeys);
      return true;
    }

    /**
     addEdge: accepted exactly if both nodes exist, the ports and payload types fit, and no
     edge with the same key was added before.  For names without NUL that is the same edge.
     */
    method AddEdge(srcName: string, srcPort: string, dstName: string, dstPort: string) returns (ok: bool)
      requires Valid()
      modifies this
      ensures Valid() && nodes == old(nodes) && nodeMap == old(nodeMap)
      ensures ok <==>
                && srcName in nodeMap && dstName in nodeMap
                && Fits(nodes[nodeMap[srcName]], srcPort, nodes[nodeMap[dstName]], dstPort)
                && !HasKey(nodes, old(edges), Key(srcName, srcPort, dstName, dstPort))
      ensures EdgeNames(srcName, srcPort, dstName, dstPort).NulFree() ==>
                (ok <==>
                 && srcName in nodeMap && dstName in nodeMap
                 && Fits(nodes[nodeMap[srcName]], srcPort, nodes[nodeMap[dstName]], dstPort)
                 && Edge(nodeMap[srcName], srcPort, nodeMap[dstName], dstPort) !in old(edges))
      ensures edges == if ok then old(edges) + [Edge(nodeMap[srcName], srcPort, nodeMap[dstName], dstPort)] else old(edges)
    {
      if srcName !in nodeMap || dstName !in nodeMap {
        return false;
      }
      var src, dst := nodeMap[srcName], nodeMap[dstName];
      var fits := PortsFit(nodes[src], srcPort, nodes[dst], dstPort);
      if !fits {
        return false;
      }
      var key := Key(srcName, srcPort, dstName, dstPort);
      KeyIsKnown(nodes, edges, edgeKeys, key);
      if EdgeNames(srcName, srcPort, dstName, dstPort).NulFree() {
        KeyIsEdge(nodes, nodeMap, edges, EdgeNames(srcName, srcPort, dstName, dstPort));
      }
      if key in edgeKeys {
        return false;
      }
      Insert(Edge(src, srcPort, dst, dstPort));
      return true;
    }

    /** Recording an edge in all the tables. */
    method Insert(edge: Edge)
      requires Valid() && edge.src < |nodes| && edge.dst < |nodes|
      modifies `edges, `edgeKeys, `adjListOut, `adjListIn, `inDegree
      ensures Valid() && edges == old(edges) + [edge]
    {
      var src, dst := edge.src, edge.dst;
      ghost var edges0, keys0, out0, into0, degree0 := edges, edgeKeys, adjListOut, adjListIn, inDegree;
      edgeKeys := edgeKeys + {KeyOf(nodes, edge)};
      edges := edges + [edge];
      adjListOut := adjListOut[src := adjListOut[src] + [dst]];
      adjListIn := adjListIn[dst := adjListIn[dst] + [src]];
      inDegree := inDegree[dst := inDegree[dst] + 1];
      EdgeKeyed(nodes, edges0, keys0, edge, edges, edgeKeys);
      EdgeListed(|nodes|, edges0, out0, into0, degree0, edge, edges, adjListOut, adjListIn, inDegree);
    }

    /** getOutgoingEdges: the edges of a node in insertion order. */
    method GetOutgoingEdges(i: nat) returns (outgoing: seq<Edge>)
      ensures outgoing == Outgoing(edges, i)
    {
      outgoing := [];
      for k := 0 to |edges|
        invariant outgoing == Outgoing(edges[..k], i)
      {
        assert edges[..k + 1][..k] == edges[..k];
        if edges[k].src == i {
          outgoing := outgoing + [edges[k]];
        }
      }
      assert edges[..|edges|] == edges;
    }

    /** hasCycle: peeling leaves nodes over exactly if some walk returns to its start. */
    method HasCycle() returns (cyclic: bool)
      requires Valid()
      ensures cyclic <==> !Acyclic(adjListOut)
    {
      var order := Peel(adjListOut, inDegree);
      CompleteIffAcyclic(adjListOut, order);
      cyclic := |order| != |nodes|;
    }
  }

  // ---- What the fields say ----

  ghost predicate NamesOk(nodes: seq<Node>, nodeMap: map<string, nat>) {
    && (forall i :: 0 <= i < |nodes| ==> nodes[i].name in nodeMap && nodeMap[nodes[i].name] == i)
    && (forall name :: name in nodeMap ==> nodeMap[name] < |nodes| && nodes[nodeMap[name]].name == name)
  }

  predicate HasName(nodes: seq<Node>, name: string) {
    exists i :: 0 <= i < |nodes| && nodes[i].name == name
  }

  lemma NameIsKnown(nodes: seq<Node>, nodeMap: map<string, nat>, name: string)
    requires NamesOk(nodes, nodeMap)
    ensures name in nodeMap <==> HasName(nodes, name)
  {
  }

  ghost predicate ListsOk(n: nat, edges: seq<Edge>, out: Lists, into: Lists, inDegree: seq<int>) {
    && |out| == |into| == |inDegree| == n && InRange(out)
    && (forall k :: 0 <= k < |edges| ==> edges[k].src < n && edges[k].dst < n)
    && (forall i :: 0 <= i < n ==> out[i] == Ends(Outgoing(edges, i)))
    && (forall i :: 0 <= i < n ==> into[i] == Starts(Incoming(edges, i)))
    && (forall i :: 0 <= i < n ==> inDegree[i] == InDegree(out, i) == |into[i]|)
  }

  ghost predicate KeysOk(nodes: seq<Node>, edges: seq<Edge>, keys: set<string>) {
    && (forall k :: 0 <= k < |edges| ==> edges[k].src < |nodes| && edges[k].dst < |nodes|)
    && (forall key {:trigger HasKey(nodes, edges, key)} :: key in keys <==> HasKey(nodes, edges, key))
  }

  ghost predicate HasKey(nodes: seq<Node>, edges: seq<Edge>, key: string) {
    exists k :: 0 <= k < |edges| && edges[k].src < |nodes| && edges[k].dst < |nodes| && KeyOf(nodes, edges[k]) == key
  }

  lemma NodeNamed(nodes: seq<Node>, nodeMap: map<string, nat>, node: Node)
    requires NamesOk(nodes, nodeMap) && node.name !in nodeMap
    ensures NamesOk(nodes + [node], nodeMap[node.name := |nodes|])
  {
  }

  /** A new node has no edges. */
  lemma NodeListed(n: nat, edges: seq<Edge>, out: Lists, into: Lists, inDegree: seq<int>)
    requires ListsOk(n, edges, out, into, inDegree)
    ensures ListsOk(n + 1, edges, out + [[]], into + [[]], inDegree + [0])
  {
    NoOutgoing(edges, n);
    NoIncoming(edges, n);
    NodeDegrees(out);
    var out', into', inDegree' := out + [[]], into + [[]], inDegree + [0];
    forall i | 0 <= i < n + 1
      ensures out'[i] == Ends(Outgoing(edges, i))
      ensures into'[i] == Starts(Incoming(edges, i))
      ensures inDegree'[i] == InDegree(out', i) == |into'[i]|
    {
      if i == n {
        assert out'[i] == [] && into'[i] == [];
      } else {
        assert out'[i] == out[i] && into'[i] == into[i] && inDegree'[i] == inDegree[i];
      }
    }
  }

  lemma NodeDegrees(out: Lists)
    requires InRange(out)
    ensures InRange(out + [[]])
    ensures forall v :: 0 <= v < |out| ==> InDegree(out + [[]], v) == InDegree(out, v)
    ensures InDegree(out + [[]], |out|) == 0
  {
    var n := |out|;
    forall v | 0 <= v <= n
      ensures InDegree(out + [[]], v) == InDegree(out, v)
    {
      PendingFrame(out, out + [[]], v, n);
    }
    PendingZero(out, {}, n, n);
  }

  lemma NodeKeyed(nodes: seq<Node>, edges: seq<Edge>, keys: set<string>, node: Node)
    requires KeysOk(nodes, edges, keys)
    ensures KeysOk(nodes + [node], edges, keys)
  {
    forall key
      ensures HasKey(nodes + [node], edges, key) <==> HasKey(nodes, edges, key)
    {
      forall k | 0 <= k < |edges|
        ensures KeyOf(nodes + [node], edges[k]) == KeyOf(nodes, edges[k])
      {
      }
    }
  }

  lemma EdgeKeyed(nodes: seq<Node>, edges: seq<Edge>, keys: set<string>, edge: Edge, longer: seq<Edge>, more: set<string>)
    requires KeysOk(nodes, edges, keys) && edge.src < |nodes| && edge.dst < |nodes|
    requires longer == edges + [edge] && more == keys + {KeyOf(nodes, edge)}
    ensures KeysOk(nodes, longer, more)
  {
    forall key
      ensures HasKey(nodes, longer, key) <==> HasKey(nodes, edges, key) || key == KeyOf(nodes, edge)
    {
      if HasKey(nodes, edges, key) {
        var k :| 0 <= k < |edges| && edges[k].src < |nodes| && edges[k].dst < |nodes| && KeyOf(nodes, edges[k]) == key;
        assert longer[k] == edges[k];
      }
      assert longer[|edges|] == edge;
    }
  }

  lemma KeyIsKnown(nodes: seq<Node>, edges: seq<Edge>, keys: set<string>, key: string)
    requires KeysOk(nodes, edges, keys)
    ensures key in keys <==> HasKey(nodes, edges, key)
  {
  }

  /** The key of an edge without NUL is known exactly if that edge is. */
  lemma KeyIsEdge(nodes: seq<Node>, nodeMap: map<string, nat>, edges: seq<Edge>, names: EdgeNames)
    requires NamesOk(nodes, nodeMap) && names.NulFree() && names.src in nodeMap && names.dst in nodeMap
    requires forall k :: 0 <= k < |edges| ==> edges[k].src < |nodes| && edges[k].dst < |nodes|
    ensures HasKey(nodes, edges, names.Key()) <==> Edge(nodeMap[names.src], names.srcPort, nodeMap[names.dst], names.dstPort) in edges
  {
    var edge := Edge(nodeMap[names.src], names.srcPort, nodeMap[names.dst], names.dstPort);
    if HasKey(nodes, edges, names.Key()) {
      var k :| 0 <= k < |edges| && edges[k].src < |nodes| && edges[k].dst < |nodes| && KeyOf(nodes, edges[k]) == names.Key();
      var other := EdgeNames(nodes[edges[k].src].name, edges[k].srcPort, nodes[edges[k].dst].name, edges[k].dstPort);
      KeysDiffer(names, other);
      assert edges[k] == edge;
    }
    if edge in edges {
      var k :| 0 <= k < |edges| && edges[k] == edge;
      assert KeyOf(nodes, edges[k]) == names.Key();
    }
  }

  lemma EdgeListed(n: nat, edges: seq<Edge>, out: Lists, into: Lists, inDegree: seq<int>, e: Edge,
                   longer: seq<Edge>, out': Lists, into': Lists, inDegree': seq<int>)
    requires ListsOk(n, edges, out, into, inDegree) && e.src < n && e.dst < n
    requires longer == edges + [e] && out' == out[e.src := out[e.src] + [e.dst]]
    requires into' == into[e.dst := into[e.dst] + [e.src]] && inDegree' == inDegree[e.dst := inDegree[e.dst] + 1]
    ensures ListsOk(n, longer, out', into', inDegree')
  {
    forall i | 0 <= i < n
      ensures out'[i] == Ends(Outgoing(longer, i))
      ensures into'[i] == Starts(Incoming(longer, i))
    {
      OutgoingMore(edges, e, i);
      IncomingMore(edges, e, i);
    }
    EdgeDegrees(out, e.src, e.dst);
  }

  lemma OutgoingMore(edges: seq<Edge>, e: Edge, i: nat)
    ensures Outgoing(edges + [e], i) == Outgoing(edges, i) + if e.src == i then [e] else []
    ensures Ends(Outgoing(edges + [e], i)) == Ends(Outgoing(edges, i)) + if e.src == i then [e.dst] else []
  {
    assert (edges + [e])[..|edges|] == edges;
  }

  lemma IncomingMore(edges: seq<Edge>, e: Edge, i: nat)
    ensures Starts(Incoming(edges + [e], i)) == Starts(Incoming(edges, i)) + if e.dst == i then [e.src] else []
  {
    assert (edges + [e])[..|edges|] == edges;
  }

  lemma EdgeDegrees(out: Lists, u: nat, x: nat)
    requires InRange(out) && u < |out| && x < |out|
    ensures InRange(out[u := out[u] + [x]])
    ensures forall v :: 0 <= v < |out| ==> InDegree(out[u := out[u] + [x]], v) == InDegree(out, v) + if v == x then 1 else 0
  {
    forall v | 0 <= v < |out|
      ensures InDegree(out[u := out[u] + [x]], v) == InDegree(out, v) + if v == x then 1 else 0
    {
      PendingAppend(out, u, x, v, |out|);
    }
  }

  lemma {:induction false} NoOutgoing(edges: seq<Edge>, n: nat)
    requires forall k :: 0 <= k < |edges| ==> edges[k].src < n
    ensures Outgoing(edges, n) == []
  {
    if edges != [] {
      NoOutgoing(edges[..|edges| - 1], n);
    }
  }

  lemma {:induction false} NoIncoming(edges: seq<Edge>, n: nat)
    requires forall k :: 0 <= k < |edges| ==> edges[k].dst < n
    ensures Incoming(edges, n) == []
  {
    if edges != [] {
      NoIncoming(edges[..|edges| - 1], n);
    }
  }

  lemma {:induction false} PendingFrame(out: Lists, out': Lists, v: nat, n: nat)
    requires n <= |out| && n <= |out'| && forall u :: 0 <= u < n ==> out[u] == out'[u]
    ensures Pending(out, {}, v, n) == Pending(out', {}, v, n)
  {
    if n > 0 {
      PendingFrame(out, out', v, n - 1);
    }
  }

  /** One more edge is one more incoming edge at its end. */
  lemma {:induction false} PendingAppend(out: Lists, u: nat, x: nat, v: nat, n: nat)
    requires n <= |out| && u < |out|
    ensures Pending(out[u := out[u] + [x]], {}, v, n) == Pending(out, {}, v, n) + (if u < n && x == v then 1 else 0)
  {
    if n > 0 {
      PendingAppend(out, u, x, v, n - 1);
      assert (out[u] + [x])[..|out[u]|] == out[u];
    }
  }

  // ---- Names with NUL ----

  /** A node with the given name and the ports of two edges. */
  function Ported(name: string, a: EdgeNames, b: EdgeNames): Node {
    Node(name, [a.dstPort, b.dstPort], [a.srcPort, b.srcPort], map[])
  }

  /** A graph whose nodes have the given names and the ports of two edges. */
  method WithNodes(called: seq<string>, a: EdgeNames, b: EdgeNames) returns (g: Graph)
    ensures fresh(g) && g.Valid() && g.edges == []
    ensures forall k :: 0 <= k < |called| ==> called[k] in g.nodeMap
    ensures forall k :: 0 <= k < |g.nodes| ==> g.nodes[k] == Ported(g.nodes[k].name, a, b)
  {
    g := new Graph();
    for i := 0 to |called|
      invariant fresh(g) && g.Valid() && g.edges == []
      invariant forall k :: 0 <= k < i ==> HasName(g.nodes, called[k])
      invariant forall k :: 0 <= k < |g.nodes| ==> g.nodes[k] == Ported(g.nodes[k].name, a, b)
    {
      ghost var before := g.nodes;
      var added := g.AddNode(Some(Ported(called[i], a, b)));
      NamesKept(before, g.nodes);
      assert added ==> g.nodes[|before|].name == called[i];
    }
    forall k | 0 <= k < |called|
      ensures called[k] in g.nodeMap
    {
      NameIsKnown(g.nodes, g.nodeMap, called[k]);
    }
  }

  /** Every edge with NUL in a name is refused by some graph that does not have it. */
  method RefuseAbsent(names: EdgeNames) returns (g: Graph, ok: bool)
    requires !names.NulFree()
    ensures g.Valid() && names.src in g.nodeMap && names.dst in g.nodeMap
    ensures Fits(g.nodes[g.nodeMap[names.src]], names.srcPort, g.nodes[g.nodeMap[names.dst]], names.dstPort)
    ensures Edge(g.nodeMap[names.src], names.srcPort, g.nodeMap[names.dst], names.dstPort) !in g.edges
    ensures !ok
  {
    var twin := Twin(names);
    var called := [names.src, names.dst, twin.src, twin.dst];
    g := WithNodes(called, names, twin);
    assert called[0] in g.nodeMap && called[1] in g.nodeMap && called[2] in g.nodeMap && called[3] in g.nodeMap;
    ok := g.AddEdge(twin.src, twin.srcPort, twin.dst, twin.dstPort);
    assert ok by {
      NoKey(g.nodes, twin.Key());
    }
    ghost var edges, edge := g.edges, Edge(g.nodeMap[names.src], names.srcPort, g.nodeMap[names.dst], names.dstPort);
    assert KeyOf(g.nodes, edges[0]) == names.Key();
    ok := g.AddEdge(names.src, names.srcPort, names.dst, names.dstPort);
    assert g.edges == edges && edge != edges[0];
  }

  lemma NoKey(nodes: seq<Node>, key: string)
    ensures !HasKey(nodes, [], key)
  {
  }

  lemma NamesKept(before: seq<Node>, nodes: seq<Node>)
    requires before <= nodes
    ensures forall name :: HasName(before, name) ==> HasName(nodes, name)
  {
    forall name | HasName(before, name)
      ensures HasName(nodes, name)
    {
      var i :| 0 <= i < |before| && before[i].name == name;
      assert nodes[i].name == name;
    }
  }
}
