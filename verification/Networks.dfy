/**
 The part of a compiled graph that the engine runs on: how many input ports each node
 declares, and where each of its outgoing edges ends.
 */
module Networks {

  /** One outgoing connection: the destination node and its input port index. */
  datatype Edge = Edge(dst: nat, port: nat)

  /** `ports[v]` input ports and `out[v]` outgoing edges for node `v`. */
  datatype Network = Network(ports: seq<nat>, out: seq<seq<Edge>>)

  predicate IsEdge(g: Network, u: int, k: int) {
    0 <= u < |g.out| && 0 <= k < |g.out[u]|
  }

  /** Every edge ends at a declared port, and each input port is fed by at most one edge. */
  ghost predicate ValidNetwork(g: Network) {
    && |g.ports| == |g.out|
    && (forall u, k :: IsEdge(g, u, k) ==> g.out[u][k].dst < |g.ports| && g.out[u][k].port < g.ports[g.out[u][k].dst])
    && (forall u, k, u', k' :: IsEdge(g, u, k) && IsEdge(g, u', k') && g.out[u][k] == g.out[u'][k'] ==> u == u' && k == k')
  }

  predicate IsSink(g: Network, v: nat) {
    v < |g.out| && g.out[v] == []
  }

  predicate IsSource(g: Network, v: nat) {
    forall u, k :: 0 <= u < |g.out| && 0 <= k < |g.out[u]| ==> g.out[u][k].dst != v
  }

  function CountSinks(g: Network, n: nat): nat {
    if n == 0 then 0 else CountSinks(g, n - 1) + (if IsSink(g, n - 1) then 1 else 0)
  }

  /** An order of the nodes along which every edge goes up: the graph has no cycle. */
  ghost predicate Ranked(g: Network, rank: seq<nat>) {
    && |rank| == |g.out|
    && forall u, k :: IsEdge(g, u, k) && g.out[u][k].dst < |rank| ==> rank[u] < rank[g.out[u][k].dst]
  }

  /** What compile() checks of ports: a node with upstream edges has every input port fed. */
  ghost predicate Covered(g: Network) {
    forall v, i :: 0 <= v < |g.ports| && 0 <= i < g.ports[v] && !IsSource(g, v) ==> IsFed(g, v, i)
  }

  ghost predicate IsFed(g: Network, v: nat, i: nat) {
    exists u, k :: IsEdge(g, u, k) && g.out[u][k] == Edge(v, i)
  }

  /** Following edges upwards from any node of a DAG ends at a sink. */
  lemma {:induction false} SinkAbove(g: Network, rank: seq<nat>, v: nat) returns (path: seq<nat>)
    requires ValidNetwork(g) && Ranked(g, rank) && v < |g.out|
    ensures IsPath(g, path) && path[0] == v && IsSink(g, path[|path| - 1])
    decreases MaxRank(rank) - rank[v]
  {
    MaxRankBounds(rank, v);
    if IsSink(g, v) {
      path := [v];
    } else {
      var u := g.out[v][0].dst;
      assert IsEdge(g, v, 0);
      MaxRankBounds(rank, u);
      var rest := SinkAbove(g, rank, u);
      path := [v] + rest;
      assert HasEdge(g, v, rest[0]);
      forall i | 0 <= i < |path| - 1
        ensures HasEdge(g, path[i], path[i + 1])
      {
        assert i > 0 ==> HasEdge(g, rest[i - 1], rest[i - 1 + 1]);
      }
    }
  }

  /** `path` follows edges of the graph. */
  ghost predicate IsPath(g: Network, path: seq<nat>) {
    && path != []
    && forall i :: 0 <= i < |path| - 1 ==> HasEdge(g, path[i], path[i + 1])
  }

  ghost predicate HasEdge(g: Network, u: nat, v: nat) {
    exists k :: IsEdge(g, u, k) && g.out[u][k].dst == v
  }

  lemma SinkExists(g: Network, rank: seq<nat>)
    requires ValidNetwork(g) && Ranked(g, rank) && |g.out| > 0
    ensures CountSinks(g, |g.out|) > 0
  {
    var path := SinkAbove(g, rank, 0);
    CountSinksAt(g, |g.out|, path[|path| - 1]);
  }

  function MaxRank(rank: seq<nat>): nat {
    if rank == [] then 0 else
      var m := MaxRank(rank[1..]);
      if rank[0] > m then rank[0] else m
  }

  lemma {:induction false} MaxRankBounds(rank: seq<nat>, v: nat)
    requires v < |rank|
    ensures rank[v] <= MaxRank(rank)
  {
    if v > 0 {
      MaxRankBounds(rank[1..], v - 1);
    }
  }

  lemma {:induction false} CountSinksAt(g: Network, n: nat, v: nat)
    requires v < n && IsSink(g, v)
    ensures CountSinks(g, n) > 0
  {
    if v < n - 1 {
      CountSinksAt(g, n - 1, v);
    }
  }
}
