/**
 JoinAwareSyncStrategy::initialize of src/join_aware_sync_strategy.hpp: one sync group per
 join that has a common fork, one branch per path between them, and a place on the branch for
 every node of the path.
 */
module SyncSetup {
  import opened Options
  import opened Texts
  import opened Kahn
  import opened PathSearch
  import opened ForkSearch
  import opened JoinSync
  import opened SyncStrategy
  import Graphs
  import CompiledGraph
  import CompiledNetwork

  /** A join, the fork found for it, and the branches between them. */
  datatype Region = Region(fork: nat, join: nat, branches: seq<seq<nat>>)

  function GroupId(k: nat, fork: string, join: string): string {
    "sync_group_" + Decimal(k) + "_" + fork + "_to_" + join
  }

  function BranchId(i: nat): string {
    "branch_" + Decimal(i)
  }

  function BranchIds(n: nat): seq<string> {
    seq(n, i requires 0 <= i < n => BranchId(i))
  }

  lemma BranchIdsDiffer(i: nat, j: nat)
    requires BranchId(i) == BranchId(j)
    ensures i == j
  {
    SameRest("branch_", Decimal(i), Decimal(j));
    DecimalDiffers(i, j);
  }

  /** The counter alone tells two group names apart, whatever the node names are. */
  lemma GroupIdsDiffer(k: nat, fork: string, join: string, k': nat, fork': string, join': string)
    requires GroupId(k, fork, join) == GroupId(k', fork', join')
    ensures k == k'
  {
    var rest, rest' := fork + "_to_" + join, fork' + "_to_" + join';
    assert GroupId(k, fork, join) == "sync_group_" + (Decimal(k) + ['_'] + rest);
    assert GroupId(k', fork', join') == "sync_group_" + (Decimal(k') + ['_'] + rest');
    SameRest("sync_group_", Decimal(k) + ['_'] + rest, Decimal(k') + ['_'] + rest');
    SplitAt('_', Decimal(k), rest, Decimal(k'), rest');
    DecimalDiffers(k, k');
  }

  // ---- Places ----

  predicate NodesKnown(names: seq<string>, regions: seq<Region>) {
    forall k :: 0 <= k < |regions| ==> RegionKnown(names, regions[k])
  }

  predicate RegionKnown(names: seq<string>, r: Region) {
    r.fork < |names| && r.join < |names| && BranchesKnown(names, r.branches)
  }

  predicate BranchesKnown(names: seq<string>, branches: seq<seq<nat>>) {
    forall i :: 0 <= i < |branches| ==> BranchKnown(names, branches[i])
  }

  predicate BranchKnown(names: seq<string>, branch: seq<nat>) {
    forall j :: 0 <= j < |branch| ==> branch[j] < |names|
  }

  /** A node of this name is on the branch. */
  predicate OnBranch(names: seq<string>, branch: seq<nat>, name: string) {
    exists j :: 0 <= j < |branch| && branch[j] < |names| && names[branch[j]] == name
  }

  /** The mapping after a place on the branch for each of its nodes. */
  function PlaceBranch(mapping: Mapping, names: seq<string>, branch: seq<nat>, m: Member): Mapping
    requires BranchKnown(names, branch)
  {
    if branch == [] then mapping
    else
      var n := |branch| - 1;
      Placed(PlaceBranch(mapping, names, branch[..n], m), names[branch[n]], m)
  }

  function PlaceBranches(mapping: Mapping, names: seq<string>, branches: seq<seq<nat>>, group: string): Mapping
    requires BranchesKnown(names, branches)
  {
    if branches == [] then mapping
    else
      var n := |branches| - 1;
      PlaceBranch(PlaceBranches(mapping, names, branches[..n], group), names, branches[n], Member(group, BranchId(n)))
  }

  function IdOf(names: seq<string>, regions: seq<Region>, k: nat): string
    requires k < |regions| && RegionKnown(names, regions[k])
  {
    GroupId(k, names[regions[k].fork], names[regions[k].join])
  }

  /** The mapping and the groups that initialize leaves behind. */
  function MappingOf(names: seq<string>, regions: seq<Region>): Mapping
    requires NodesKnown(names, regions)
  {
    if regions == [] then map[]
    else
      var n := |regions| - 1;
      PlaceBranches(MappingOf(names, regions[..n]), names, regions[n].branches, IdOf(names, regions, n))
  }

  function GroupsOf(names: seq<string>, regions: seq<Region>): Groups
    requires NodesKnown(names, regions)
  {
    if regions == [] then map[]
    else
      var n := |regions| - 1;
      var before := GroupsOf(names, regions[..n]);
      if regions[n].branches == [] then before
      else before[IdOf(names, regions, n) := NewGroup(BranchIds(|regions[n].branches|))]
  }

  lemma {:induction false} BranchPlaces(mapping: Mapping, names: seq<string>, branch: seq<nat>, m: Member, name: string, place: Member)
    requires BranchKnown(names, branch)
    ensures place in Members(PlaceBranch(mapping, names, branch, m), name) <==>
            place in Members(mapping, name) || (place == m && OnBranch(names, branch, name))
  {
    if branch != [] {
      var n := |branch| - 1;
      BranchPlaces(mapping, names, branch[..n], m, name, place);
      OnBranchMore(names, branch, name);
    }
  }

  lemma OnBranchMore(names: seq<string>, branch: seq<nat>, name: string)
    requires branch != [] && BranchKnown(names, branch)
    ensures OnBranch(names, branch, name) <==> OnBranch(names, branch[..|branch| - 1], name) || names[branch[|branch| - 1]] == name
  {
    var n := |branch| - 1;
    assert forall j :: 0 <= j < n ==> branch[..n][j] == branch[j];
    if j :| 0 <= j < n && branch[..n][j] < |names| && names[branch[..n][j]] == name {
      assert names[branch[j]] == name;
    }
  }

  /** The node is on branch `i`, and `place` is that branch. */
  predicate IsPlace(names: seq<string>, branches: seq<seq<nat>>, group: string, i: nat, name: string, place: Member)
    requires i < |branches|
  {
    OnBranch(names, branches[i], name) && place == Member(group, BranchId(i))
  }

  lemma {:induction false} BranchesPlaces(mapping: Mapping, names: seq<string>, branches: seq<seq<nat>>, group: string, name: string, place: Member)
    requires BranchesKnown(names, branches)
    ensures place in Members(PlaceBranches(mapping, names, branches, group), name) <==>
            || place in Members(mapping, name)
            || exists i :: 0 <= i < |branches| && IsPlace(names, branches, group, i, name, place)
  {
    if branches != [] {
      var n := |branches| - 1;
      var front := branches[..n];
      BranchesPlaces(mapping, names, front, group, name, place);
      BranchPlaces(PlaceBranches(mapping, names, front, group), names, branches[n], Member(group, BranchId(n)), name, place);
      forall i | 0 <= i < n
        ensures IsPlace(names, branches, group, i, name, place) <==> IsPlace(names, front, group, i, name, place)
      {
      }
      assert IsPlace(names, branches, group, n, name, place) <==>
             OnBranch(names, branches[n], name) && place == Member(group, BranchId(n));
    }
  }

  /** The node is on branch `i` of region `k`. */
  predicate InRegion(names: seq<string>, regions: seq<Region>, k: nat, i: nat, name: string) {
    k < |regions| && i < |regions[k].branches| && OnBranch(names, regions[k].branches[i], name)
  }

  /** The place that branch `i` of region `k` is. */
  function PlaceOf(names: seq<string>, regions: seq<Region>, k: nat, i: nat): Member
    requires k < |regions| && RegionKnown(names, regions[k])
  {
    Member(IdOf(names, regions, k), BranchId(i))
  }

  /** A node's places are the branches it is on. */
  lemma {:induction false} PlacesExact(names: seq<string>, regions: seq<Region>, name: string, place: Member)
    requires NodesKnown(names, regions)
    ensures place in Members(MappingOf(names, regions), name) <==>
            exists k, i :: InRegion(names, regions, k, i, name) && place == PlaceOf(names, regions, k, i)
  {
    if regions != [] {
      var n := |regions| - 1;
      var front, branches, group := regions[..n], regions[n].branches, IdOf(names, regions, n);
      PlacesExact(names, front, name, place);
      BranchesPlaces(MappingOf(names, front), names, branches, group, name, place);
      forall k: nat, i: nat | k < n
        ensures InRegion(names, regions, k, i, name) <==> InRegion(names, front, k, i, name)
      {
      }
      if i :| 0 <= i < |branches| && IsPlace(names, branches, group, i, name, place) {
        assert InRegion(names, regions, n, i, name) && place == PlaceOf(names, regions, n, i);
      }
      if place in Members(MappingOf(names, front), name) {
        var k, i :| InRegion(names, front, k, i, name) && place == PlaceOf(names, front, k, i);
        assert InRegion(names, regions, k, i, name) && place == PlaceOf(names, regions, k, i);
      }
      if k, i :| InRegion(names, regions, k, i, name) && place == PlaceOf(names, regions, k, i) {
        if k == n {
          assert IsPlace(names, branches, group, i, name, place);
        } else {
          assert InRegion(names, front, k, i, name) && place == PlaceOf(names, front, k, i);
        }
      }
    }
  }

  lemma IdsDiffer(names: seq<string>, regions: seq<Region>, k: nat, l: nat)
    requires NodesKnown(names, regions) && k < |regions| && l < |regions| && IdOf(names, regions, k) == IdOf(names, regions, l)
    ensures k == l
  {
    var r, r' := regions[k], regions[l];
    GroupIdsDiffer(k, names[r.fork], names[r.join], l, names[r'.fork], names[r'.join]);
  }

  /** Every region with branches has its group, in which nothing has happened. */
  lemma {:induction false} RegionHasGroup(names: seq<string>, regions: seq<Region>, k: nat)
    requires NodesKnown(names, regions) && k < |regions| && regions[k].branches != []
    ensures IdOf(names, regions, k) in GroupsOf(names, regions)
    ensures GroupsOf(names, regions)[IdOf(names, regions, k)] == NewGroup(BranchIds(|regions[k].branches|))
  {
    var n := |regions| - 1;
    if k < n {
      var front := regions[..n];
      assert front[k] == regions[k];
      RegionHasGroup(names, front, k);
      if IdOf(names, regions, k) == IdOf(names, regions, n) {
        IdsDiffer(names, regions, k, n);
      }
    }
  }

  /** There are no other groups. */
  lemma {:induction false} GroupHasRegion(names: seq<string>, regions: seq<Region>, id: string) returns (k: nat)
    requires NodesKnown(names, regions) && id in GroupsOf(names, regions)
    ensures k < |regions| && regions[k].branches != [] && id == IdOf(names, regions, k)
  {
    var n := |regions| - 1;
    if regions[n].branches != [] && id == IdOf(names, regions, n) {
      k := n;
    } else {
      k := GroupHasRegion(names, regions[..n], id);
    }
  }

  // ---- What the analysis finds ----

  function TopologyOf(g: CompiledGraph.Compiled): Topology {
    Topology(g.predecessors, g.successors)
  }

  /** The neighbour lists of a compiled graph are what the fork search works on. */
  lemma CompiledTopology(nodes: seq<Graphs.Node>, edges: seq<Graphs.Edge>, g: CompiledGraph.Compiled)
    requires CompiledGraph.EdgesInRange(|nodes|, edges) && CompiledGraph.Represents(nodes, edges, g)
    ensures TopologyOf(g).Valid()
  {
    forall u, k | 0 <= u < |nodes| && 0 <= k < |g.successors[u]|
      ensures g.successors[u][k] < |nodes|
    {
      assert g.successors[u][k] in g.successors[u];
    }
    forall v, k | 0 <= v < |nodes| && 0 <= k < |g.predecessors[v]|
      ensures g.predecessors[v][k] < |nodes|
    {
      assert g.predecessors[v][k] in g.predecessors[v];
    }
  }

  lemma JoinedIsAdjacent(nodes: seq<Graphs.Node>, edges: seq<Graphs.Edge>, u: nat, v: nat)
    requires CompiledGraph.EdgesInRange(|nodes|, edges) && CompiledGraph.Joined(edges, u, v)
    ensures Edge(CompiledGraph.Adjacency(|nodes|, edges), u, v)
  {
    var m :| 0 <= m < |edges| && edges[m].src == u && edges[m].dst == v;
    var k := CompiledNetwork.EdgeIsEntry(nodes, edges, m);
    CompiledNetwork.EntryIsAdjacent(nodes, edges, u, k);
  }

  /** The topological order ranks the successor lists, so the path search ends. */
  lemma CompiledRises(nodes: seq<Graphs.Node>, edges: seq<Graphs.Edge>, g: CompiledGraph.Compiled)
    requires CompiledGraph.EdgesInRange(|nodes|, edges) && CompiledGraph.Represents(nodes, edges, g)
    ensures Rising(g.successors, CompiledNetwork.Ranks(g.topoOrder, |nodes|), |nodes|)
  {
    var rank := CompiledNetwork.Ranks(g.topoOrder, |nodes|);
    AtMost(g.topoOrder, |nodes|);
    CompiledTopology(nodes, edges, g);
    forall u, v | Edge(g.successors, u, v)
      ensures rank[u] < rank[v]
    {
      JoinedIsAdjacent(nodes, edges, u, v);
      CompiledNetwork.EdgeRises(CompiledGraph.Adjacency(|nodes|, edges), g.topoOrder, u, v);
    }
  }

  /** `w` lies strictly between `u` and `v`. */
  ghost predicate Between(out: Lists, u: nat, w: nat, v: nat) {
    w != u && w != v && Reaches(out, u, w) && Reaches(out, w, v)
  }

  ghost predicate Reaches(out: Lists, u: nat, v: nat) {
    exists path :: Leads(out, path, u, v)
  }

  /** What is recorded for a join: its lowest common fork and every path between them, once. */
  ghost predicate Found(g: CompiledGraph.Compiled, r: Region) {
    && r.join < |g.predecessors| && HasFork(g, r.join)
    && (exists d :: Lowest(TopologyOf(g), g.predecessors[r.join], r.fork, d))
    && r.branches != [] && AllDifferent(r.branches)
    && (forall b :: b in r.branches <==> Leads(g.successors, [r.fork] + b + [r.join], r.fork, r.join))
  }

  /** Two predecessors, and a fork that they have in common within reach of the search. */
  ghost predicate HasFork(g: CompiledGraph.Compiled, join: nat)
    requires join < |g.predecessors|
  {
    && |g.predecessors[join]| >= 2
    && exists e :: 0 <= e < MAX_ITERATIONS && !NoCandidate(TopologyOf(g), g.predecessors[join], e)
  }

  /** The lowest common fork reaches the join. */
  lemma ForkReachesJoin(t: Topology, join: nat, fork: nat, d: nat) returns (b: seq<nat>)
    requires t.Valid() && join < |t.preds| && t.preds[join] != [] && Candidate(t, t.preds[join], fork, d)
    ensures Leads(t.succs, [fork] + b + [join], fork, join)
  {
    var start := t.preds[join][0];
    assert start in t.preds[join];
    var path := WithinIsWalk(t, start, d, fork);
    var whole := path + [join];
    forall i | 0 <= i < |whole| - 1
      ensures Steps(t.succs, whole, i)
    {
      if i < |path| - 1 {
        assert Steps(t.succs, path, i);
      }
    }
    b := Inner(whole);
    Restored(whole);
  }

  /** The nodes on the branches are those between the fork and the join. */
  lemma OnBranchIffBetween(g: CompiledGraph.Compiled, r: Region, rank: seq<nat>, top: nat, w: nat)
    requires Rising(g.successors, rank, top) && Found(g, r) && r.fork < |g.successors|
    ensures (exists b :: b in r.branches && w in b) <==> Between(g.successors, r.fork, w, r.join)
  {
    var out := g.successors;
    if b :| b in r.branches && w in b {
      var j :| 0 <= j < |b| && b[j] == w;
      SplitWalk(out, rank, top, [r.fork] + b + [r.join], j + 1);
    }
    if Between(out, r.fork, w, r.join) {
      var p :| Leads(out, p, r.fork, w);
      var q :| Leads(out, q, w, r.join);
      var b := BetweenIsOnBranch(out, rank, top, p, q, r.fork, w, r.join);
    }
  }

  lemma SplitWalk(out: Lists, rank: seq<nat>, top: nat, path: seq<nat>, j: nat)
    requires Rising(out, rank, top) && Walk(out, path) && 0 < j < |path| - 1
    ensures Between(out, path[0], path[j], path[|path| - 1])
  {
    var p, q := path[..j + 1], path[j..];
    forall i | 0 <= i < |p| - 1
      ensures Steps(out, p, i)
    {
      assert Steps(out, path, i);
    }
    forall i | 0 <= i < |q| - 1
      ensures Steps(out, q, i)
    {
      assert Steps(out, path, i + j);
    }
    assert Steps(out, path, j);
    assert Leads(out, p, path[0], path[j]) && Leads(out, q, path[j], path[|path| - 1]);
    WalkIsRising(out, rank, top, p);
    WalkIsRising(out, rank, top, q);
  }

  // ---- Initialisation ----

  function Names(nodes: seq<Graphs.Node>): seq<string> {
    seq(|nodes|, i requires 0 <= i < |nodes| => nodes[i].name)
  }

  /** Two predecessors make two incoming edges. */
  lemma TwoPredecessors(nodes: seq<Graphs.Node>, edges: seq<Graphs.Edge>, g: CompiledGraph.Compiled, join: nat)
    requires CompiledGraph.EdgesInRange(|nodes|, edges) && CompiledGraph.Represents(nodes, edges, g)
    requires join < |nodes| && |g.predecessors[join]| >= 2
    ensures g.inDegree[join] > 1
  {
    var out, u, u' := CompiledGraph.Adjacency(|nodes|, edges), g.predecessors[join][0], g.predecessors[join][1];
    assert u in g.predecessors[join] && u' in g.predecessors[join];
    JoinedIsAdjacent(nodes, edges, u, join);
    JoinedIsAdjacent(nodes, edges, u', join);
    PendingDone(out, {}, join, |out|, u);
    CountIn(out[u], join);
    PendingZero(out, {} + {u}, join, |out|);
  }

  /** Finding the fork and the branches of one join. */
  method Analyse(g: CompiledGraph.Compiled, join: nat, ghost rank: seq<nat>, ghost top: nat) returns (r: Option<Region>)
    requires TopologyOf(g).Valid() && Rising(g.successors, rank, top) && join < |g.predecessors|
    ensures r.Some? <==> HasFork(g, join)
    ensures r.Some? ==> r.value.join == join && r.value.fork < |g.successors| && Found(g, r.value)
  {
    ghost var d;
    var fork;
    fork, d := FindLowestCommonFork(TopologyOf(g), join);
    if fork.None? {
      return None;
    }
    ghost var b := ForkReachesJoin(TopologyOf(g), join, fork.value, d);
    WalkIsRising(g.successors, rank, top, [fork.value] + b + [join]);
    var branches := FindAllPaths(g.successors, fork.value, join, rank, top);
    assert b in branches;
    r := Some(Region(fork.value, join, branches));
  }

  /** A place for every node of the branches. */
  method MapBranches(s: JoinAwareSync, names: seq<string>, branches: seq<seq<nat>>, group: string)
    requires s.Valid() && BranchesKnown(names, branches)
    modifies s`mapping
    ensures s.Valid() && s.States() == old(s.States())
    ensures s.mapping == PlaceBranches(old(s.mapping), names, branches, group)
  {
    for i := 0 to |branches|
      invariant s.Valid() && s.States() == old(s.States())
      invariant s.mapping == PlaceBranches(old(s.mapping), names, branches[..i], group)
    {
      var branch, id := branches[i], BranchId(i);
      ghost var before := s.mapping;
      for j := 0 to |branch|
        invariant s.Valid() && s.States() == old(s.States())
        invariant s.mapping == PlaceBranch(before, names, branch[..j], Member(group, id))
      {
        s.MapNodeToGroup(names[branch[j]], group, id);
        assert branch[..j + 1][..j] == branch[..j];
      }
      assert branch[..|branch|] == branch;
      assert branches[..i + 1][..i] == branches[..i];
    }
    assert branches[..|branches|] == branches;
  }

  /** The regions are those of the joins below `n` that have a common fork, in order. */
  ghost predicate Covers(g: CompiledGraph.Compiled, regions: seq<Region>, n: nat)
    requires n <= |g.predecessors|
  {
    && (forall k :: 0 <= k < |regions| ==> Found(g, regions[k]) && regions[k].join < n)
    && (forall k, l :: 0 <= k < l < |regions| ==> regions[k].join < regions[l].join)
    && (forall join: nat :: join < n && HasFork(g, join) ==> IsJoin(regions, join))
  }

  predicate IsJoin(regions: seq<Region>, join: nat) {
    exists k :: 0 <= k < |regions| && regions[k].join == join
  }

  lemma CoversMore(g: CompiledGraph.Compiled, regions: seq<Region>, r: Region)
    requires r.join < |g.predecessors| && Covers(g, regions, r.join) && Found(g, r)
    ensures Covers(g, regions + [r], r.join + 1)
  {
    var longer := regions + [r];
    forall join: nat | join <= r.join && HasFork(g, join)
      ensures IsJoin(longer, join)
    {
      if join == r.join {
        assert longer[|regions|].join == join;
      } else {
        var k :| 0 <= k < |regions| && regions[k].join == join;
        assert longer[k].join == join;
      }
    }
  }

  /**
   initialize: the regions are those of the joins that have a common fork, and the places and
   groups are those of the regions.
   */
  method Initialize(s: JoinAwareSync, nodes: seq<Graphs.Node>, ghost edges: seq<Graphs.Edge>, g: CompiledGraph.Compiled)
    returns (regions: seq<Region>)
    requires CompiledGraph.EdgesInRange(|nodes|, edges) && CompiledGraph.Represents(nodes, edges, g)
    modifies s
    ensures Holds(s, Names(nodes), regions) && Covers(g, regions, |nodes|)
  {
    var joins := JoinPoints(nodes, edges, g);
    CompiledTopology(nodes, edges, g);
    CompiledRises(nodes, edges, g);
    regions := Regions(s, Names(nodes), g, joins, CompiledNetwork.Ranks(g.topoOrder, |nodes|));
  }

  method JoinPoints(nodes: seq<Graphs.Node>, ghost edges: seq<Graphs.Edge>, g: CompiledGraph.Compiled) returns (joins: seq<nat>)
    requires CompiledGraph.EdgesInRange(|nodes|, edges) && CompiledGraph.Represents(nodes, edges, g)
    ensures JoinsOk(g, joins)
  {
    joins := [];
    for i := 0 to |nodes|
      invariant forall k :: 0 <= k < |joins| ==> joins[k] < i
      invariant forall k, l :: 0 <= k < l < |joins| ==> joins[k] < joins[l]
      invariant forall join: nat :: join < i && HasFork(g, join) ==> join in joins
    {
      if g.inDegree[i] > 1 {
        joins := joins + [i];
      } else if HasFork(g, i) {
        TwoPredecessors(nodes, edges, g, i);
      }
    }
  }

  ghost predicate JoinsOk(g: CompiledGraph.Compiled, joins: seq<nat>) {
    && (forall k :: 0 <= k < |joins| ==> joins[k] < |g.predecessors|)
    && (forall k, l :: 0 <= k < l < |joins| ==> joins[k] < joins[l])
    && (forall join: nat :: join < |g.predecessors| && HasFork(g, join) ==> join in joins)
  }

  /** The strategy's places and groups are those of the regions. */
  ghost predicate Holds(s: JoinAwareSync, names: seq<string>, regions: seq<Region>)
    reads s, s.groups.Values
  {
    s.Valid() && NodesKnown(names, regions) && s.mapping == MappingOf(names, regions) && s.States() == GroupsOf(names, regions)
  }

  method Regions(s: JoinAwareSync, names: seq<string>, g: CompiledGraph.Compiled, joins: seq<nat>, ghost rank: seq<nat>)
    returns (regions: seq<Region>)
    requires |names| == |g.predecessors| && TopologyOf(g).Valid() && Rising(g.successors, rank, |names|) && JoinsOk(g, joins)
    modifies s
    ensures Holds(s, names, regions) && Covers(g, regions, |names|)
  {
    s.Clear();
    regions := [];
    CoversFirst(g, joins);
    for i := 0 to |joins|
      invariant Holds(s, names, regions) && Covers(g, regions, NextJoin(joins, i, |names|))
    {
      var r := RegionAt(names, g, regions, joins, i, rank);
      if r.Some? {
        Enrol(s, names, regions, r.value);
        regions := regions + [r.value];
      }
    }
  }

  /** The region of a join point, if it has one. */
  method RegionAt(names: seq<string>, g: CompiledGraph.Compiled, regions: seq<Region>, joins: seq<nat>, i: nat, ghost rank: seq<nat>)
    returns (r: Option<Region>)
    requires |names| == |g.predecessors| && TopologyOf(g).Valid() && Rising(g.successors, rank, |names|) && JoinsOk(g, joins)
    requires i < |joins| && Covers(g, regions, joins[i])
    ensures r.Some? ==> RegionKnown(names, r.value) && Covers(g, regions + [r.value], NextJoin(joins, i + 1, |names|))
    ensures r.None? ==> Covers(g, regions, NextJoin(joins, i + 1, |names|))
  {
    r := Analyse(g, joins[i], rank, |names|);
    if r.Some? {
      RegionIsKnown(g, names, r.value, rank, |names|);
      CoversMore(g, regions, r.value);
      CoversOn(g, regions + [r.value], joins, i);
    } else {
      CoversOn(g, regions, joins, i);
    }
  }

  lemma CoversFirst(g: CompiledGraph.Compiled, joins: seq<nat>)
    requires JoinsOk(g, joins)
    ensures Covers(g, [], NextJoin(joins, 0, |g.predecessors|))
  {
  }

  /** Where the search has got to. */
  function NextJoin(joins: seq<nat>, i: nat, n: nat): nat {
    if i < |joins| then joins[i] else n
  }

  /** Between two join points there is no join with a fork. */
  lemma CoversOn(g: CompiledGraph.Compiled, regions: seq<Region>, joins: seq<nat>, i: nat)
    requires i < |joins| && JoinsOk(g, joins)
    requires Covers(g, regions, joins[i] + 1) || (Covers(g, regions, joins[i]) && !HasFork(g, joins[i]))
    ensures Covers(g, regions, NextJoin(joins, i + 1, |g.predecessors|))
  {
    forall join: nat | join < NextJoin(joins, i + 1, |g.predecessors|) && HasFork(g, join)
      ensures IsJoin(regions, join)
    {
      var k :| 0 <= k < |joins| && joins[k] == join;
      assert k <= i;
    }
  }

  lemma RegionIsKnown(g: CompiledGraph.Compiled, names: seq<string>, r: Region, rank: seq<nat>, top: nat)
    requires Rising(g.successors, rank, top) && Found(g, r) && |names| == |g.successors| == |g.predecessors| && r.fork < |names|
    ensures RegionKnown(names, r)
  {
    forall i, j | 0 <= i < |r.branches| && 0 <= j < |r.branches[i]|
      ensures r.branches[i][j] < |names|
    {
      var b := r.branches[i];
      assert b in r.branches;
      var path := [r.fork] + b + [r.join];
      assert Steps(g.successors, path, j);
      assert path[j + 1] == b[j];
    }
  }

  /** The places and the group of one more region. */
  method Enrol(s: JoinAwareSync, names: seq<string>, regions: seq<Region>, r: Region)
    requires Holds(s, names, regions) && RegionKnown(names, r)
    modifies s
    ensures Holds(s, names, regions + [r])
  {
    ghost var longer := regions + [r];
    assert longer[..|regions|] == regions;
    var group := GroupId(|regions|, names[r.fork], names[r.join]);
    MapBranches(s, names, r.branches, group);
    if r.branches != [] {
      NewId(names, regions, r);
      s.RegisterSyncGroup(group, BranchIds(|r.branches|));
    }
  }

  lemma NewId(names: seq<string>, regions: seq<Region>, r: Region)
    requires NodesKnown(names, regions) && RegionKnown(names, r)
    ensures GroupId(|regions|, names[r.fork], names[r.join]) !in GroupsOf(names, regions)
  {
    var id := GroupId(|regions|, names[r.fork], names[r.join]);
    if id in GroupsOf(names, regions) {
      var k := GroupHasRegion(names, regions, id);
      GroupIdsDiffer(k, names[regions[k].fork], names[regions[k].join], |regions|, names[r.fork], names[r.join]);
    }
  }
}
