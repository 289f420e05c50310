/**
 What compiling a graph is for: on the network of a compiled graph the engine keeps its
 promises, with nothing left to assume about the shape of the graph but single-fed ports.
 */
module EndToEnd {
  import Networks
  import Graphs
  import opened CompiledGraph
  import opened CompiledNetwork
  import BatchEngine
  import BatchInvariant
  import BatchResults
  import StreamEngine
  import StreamResults
  import StreamDrain
  import StreamStranded
  import opened SyncStrategy
  import opened SyncSetup
  import SyncResults

  /** A graph that compile accepts, whose edges end at declared ports, one edge per port. */
  ghost predicate Compiles(nodes: seq<Graphs.Node>, edges: seq<Graphs.Edge>, g: Compiled) {
    && nodes != [] && EdgesInRange(|nodes|, edges) && Represents(nodes, edges, g)
    && PortsCovered(nodes, edges) && PortsDeclared(nodes, edges) && OneEdgePerPort(nodes, edges)
  }

  lemma CompiledShape(nodes: seq<Graphs.Node>, edges: seq<Graphs.Edge>, g: Compiled) returns (rank: seq<nat>)
    requires Compiles(nodes, edges, g)
    ensures var net := NetworkOf(nodes, g);
            && |net.ports| == |net.out| == |nodes| > 0
            && Networks.ValidNetwork(net) && Networks.Covered(net) && Networks.Ranked(net, rank)
  {
    assert |Adjacency(|nodes|, edges)| == |nodes| && IsOrder(Adjacency(|nodes|, edges), g.topoOrder);
    rank := Ranks(g.topoOrder, |nodes|);
    CompiledIsValid(nodes, edges, g);
    CompiledIsCovered(nodes, edges, g);
    CompiledIsRanked(nodes, edges, g);
  }

  /**
   A batch on a compiled graph reports completion at most once and only after every node
   succeeded exactly once; and if its sources have at most one port, it was undisturbed and
   fully supplied and has come to rest, it has reported.
   */
  lemma CompiledBatch(nodes: seq<Graphs.Node>, edges: seq<Graphs.Edge>, g: Compiled, run: seq<BatchEngine.State>, n: nat)
    requires Compiles(nodes, edges, g) && BatchEngine.IsRun(NetworkOf(nodes, g), run) && n < |run|
    ensures run[n].sh.callbacks <= 1
    ensures run[n].sh.callbacks == 1 ==> BatchResults.AllSucceeded(run[n].sh)
    ensures var net := NetworkOf(nodes, g);
            && BatchEngine.Quiescent(run[n]) && BatchInvariant.SingleSources(net) && BatchResults.Undisturbed(run[n].sh)
            && Networks.ValidNetwork(net) && BatchEngine.WellFormed(net, run[n].sh) && BatchResults.FullySupplied(net, run[n].sh)
            ==> run[n].sh.callbacks == 1
  {
    var net := NetworkOf(nodes, g);
    var rank := CompiledShape(nodes, edges, g);
    BatchResults.CallbackMeansComplete(net, run, n, rank);
    if && BatchEngine.Quiescent(run[n]) && BatchInvariant.SingleSources(net) && BatchResults.Undisturbed(run[n].sh)
       && BatchEngine.WellFormed(net, run[n].sh) && BatchResults.FullySupplied(net, run[n].sh) {
      BatchResults.BatchCompletes(net, run, n, rank);
    }
  }

  /**
   A stream on a compiled graph whose sources have all been signalled, whose queues are empty
   and which has come to rest has flushed every node exactly once and notified exactly once.
   */
  lemma CompiledStream(nodes: seq<Graphs.Node>, edges: seq<Graphs.Edge>, g: Compiled, c: StreamEngine.Config, run: seq<StreamEngine.State>, n: nat)
    requires Compiles(nodes, edges, g) && c.net == NetworkOf(nodes, g)
    requires StreamEngine.IsRun(c, run) && n < |run| && StreamEngine.Quiescent(run[n])
    requires StreamEngine.WellFormed(c, run[n].sh) && StreamResults.AllSignalledAndEmpty(c, run[n].sh)
    ensures StreamResults.AtEndOfStream(run[n])
  {
    var rank := CompiledShape(nodes, edges, g);
    StreamResults.EndOfStreamCompletes(c, run, n, rank);
  }

  /**
   A compiled graph in which every node has between 1 and 64 input ports always gets through to
   end of stream, without rate limiting, exactly if only its sources have more than one port.
   */
  lemma CompiledDrains(nodes: seq<Graphs.Node>, edges: seq<Graphs.Edge>, g: Compiled, c: StreamEngine.Config)
    requires Compiles(nodes, edges, g)
    requires forall v :: 0 <= v < |nodes| ==> 0 < |nodes[v].inputs| <= StreamEngine.MAX_EOS_PORTS
    requires c.net == NetworkOf(nodes, g) && c.autoReschedule && !c.mayDefer && c.capacity > 0
    ensures StreamStranded.AlwaysDrains(c) <==> StreamDrain.JoinFree(c)
  {
    var rank := CompiledShape(nodes, edges, g);
    StreamStranded.DrainsIffJoinFree(c, rank);
  }

  /**
   A strategy initialised from a compiled graph has a group for every join with a common fork,
   and in that group places for exactly the nodes that lie between the two.
   */
  method CompiledSync(graph: Graphs.Graph, s: JoinAwareSync) returns (r: Result, regions: seq<Region>)
    requires graph.Valid()
    modifies s
    ensures r.Ok? ==> |r.graph.predecessors| == |graph.nodes| && SyncResults.InitialisedFor(s, graph.nodes, r.graph, regions)
  {
    r := Compile(graph.nodes, graph.edges);
    regions := [];
    if r.Ok? {
      regions := SyncSetup.Initialize(s, graph.nodes, graph.edges, r.graph);
      SyncResults.PlacedIffBetweenAll(graph.nodes, graph.edges, r.graph, regions);
    }
  }
}
