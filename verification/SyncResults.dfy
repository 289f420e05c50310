/**
 What the places and groups of initialize mean: a node belongs to the group of a join exactly
 if it lies between the join and its fork, and a frame is to be dropped at a node exactly if
 it was dropped on a parallel path in time.
 */
module SyncResults {
  import opened SyncGroups
  import opened JoinSync
  import opened SyncStrategy
  import opened SyncSetup
  import Graphs
  import CompiledGraph
  import CompiledNetwork

  predicate NamesDiffer(names: seq<string>) {
    forall i, j :: 0 <= i < j < |names| ==> names[i] != names[j]
  }

  // ---- Places are positions in the graph ----

  lemma OnBranchIsIn(names: seq<string>, branch: seq<nat>, w: nat)
    requires NamesDiffer(names) && BranchKnown(names, branch) && w < |names|
    ensures OnBranch(names, branch, names[w]) <==> w in branch
  {
  }

  /** The node has a place in the group of region `k`. */
  ghost predicate HasPlace(names: seq<string>, regions: seq<Region>, k: nat, name: string)
    requires NodesKnown(names, regions) && k < |regions|
  {
    exists m :: m in Members(MappingOf(names, regions), name) && m.group == IdOf(names, regions, k)
  }

  lemma PlacedIffOnBranch(names: seq<string>, regions: seq<Region>, k: nat, name: string)
    requires NodesKnown(names, regions) && k < |regions|
    ensures HasPlace(names, regions, k, name) <==> exists i :: InRegion(names, regions, k, i, name)
  {
    if HasPlace(names, regions, k, name) {
      var m :| m in Members(MappingOf(names, regions), name) && m.group == IdOf(names, regions, k);
      PlacesExact(names, regions, name, m);
      var l, i :| InRegion(names, regions, l, i, name) && m == PlaceOf(names, regions, l, i);
      IdsDiffer(names, regions, k, l);
    }
    if i :| InRegion(names, regions, k, i, name) {
      PlacesExact(names, regions, name, PlaceOf(names, regions, k, i));
    }
  }

  lemma OnBranchIffIn(names: seq<string>, regions: seq<Region>, k: nat, w: nat)
    requires NamesDiffer(names) && NodesKnown(names, regions) && k < |regions| && w < |names|
    ensures (exists i :: InRegion(names, regions, k, i, names[w])) <==> exists b :: b in regions[k].branches && w in b
  {
    var r := regions[k];
    if i: nat :| InRegion(names, regions, k, i, names[w]) {
      OnBranchIsIn(names, r.branches[i], w);
      assert r.branches[i] in r.branches;
    }
    if b :| b in r.branches && w in b {
      var i :| 0 <= i < |r.branches| && r.branches[i] == b;
      OnBranchIsIn(names, b, w);
      assert InRegion(names, regions, k, i, names[w]);
    }
  }

  /** A node has a place in the group of a join exactly if it lies strictly between the fork and the join. */
  lemma PlacedIffBetween(nodes: seq<Graphs.Node>, edges: seq<Graphs.Edge>, g: CompiledGraph.Compiled, regions: seq<Region>, k: nat, w: nat)
    requires CompiledGraph.EdgesInRange(|nodes|, edges) && CompiledGraph.Represents(nodes, edges, g)
    requires NamesDiffer(Names(nodes)) && NodesKnown(Names(nodes), regions) && w < |nodes|
    requires k < |regions| && Found(g, regions[k])
    ensures HasPlace(Names(nodes), regions, k, nodes[w].name) <==> Between(g.successors, regions[k].fork, w, regions[k].join)
  {
    var names, r := Names(nodes), regions[k];
    PlacedIffOnBranch(names, regions, k, names[w]);
    OnBranchIffIn(names, regions, k, w);
    CompiledRises(nodes, edges, g);
    assert RegionKnown(names, r);
    OnBranchIffBetween(g, r, CompiledNetwork.Ranks(g.topoOrder, |nodes|), |nodes|, w);
  }

  /** Every join with a common fork has its group, and its places are those of the nodes between the two. */
  ghost predicate InitialisedFor(s: JoinAwareSync, nodes: seq<Graphs.Node>, g: CompiledGraph.Compiled, regions: seq<Region>)
    requires |g.predecessors| == |nodes|
    reads s, s.groups.Values
  {
    && Holds(s, Names(nodes), regions) && Covers(g, regions, |nodes|)
    && forall k: nat, w: nat :: k < |regions| && w < |nodes| ==> PlacesAgree(nodes, g, regions, k, w)
  }

  ghost predicate PlacesAgree(nodes: seq<Graphs.Node>, g: CompiledGraph.Compiled, regions: seq<Region>, k: nat, w: nat)
    requires NodesKnown(Names(nodes), regions) && k < |regions| && w < |nodes|
  {
    HasPlace(Names(nodes), regions, k, nodes[w].name) <==> Between(g.successors, regions[k].fork, w, regions[k].join)
  }

  lemma PlacedIffBetweenAll(nodes: seq<Graphs.Node>, edges: seq<Graphs.Edge>, g: CompiledGraph.Compiled, regions: seq<Region>)
    requires CompiledGraph.EdgesInRange(|nodes|, edges) && CompiledGraph.Represents(nodes, edges, g)
    requires NamesDiffer(Names(nodes)) && NodesKnown(Names(nodes), regions) && Covers(g, regions, |nodes|)
    ensures forall k: nat, w: nat :: k < |regions| && w < |nodes| ==> PlacesAgree(nodes, g, regions, k, w)
  {
    forall k: nat, w: nat | k < |regions| && w < |nodes|
      ensures PlacesAgree(nodes, g, regions, k, w)
    {
      PlacedIffBetween(nodes, edges, g, regions, k, w);
    }
  }

  // ---- Siblings are parallel paths ----

  lemma BranchExists(names: seq<string>, regions: seq<Region>, k: nat, i: nat)
    requires NodesKnown(names, regions) && k < |regions| && i < |regions[k].branches|
    ensures Exists(GroupsOf(names, regions), PlaceOf(names, regions, k, i))
  {
    RegionHasGroup(names, regions, k);
    assert BranchIds(|regions[k].branches|)[i] == BranchId(i);
  }

  lemma NothingHappened(names: seq<string>, regions: seq<Region>)
    requires NodesKnown(names, regions)
    ensures Untouched(GroupsOf(names, regions))
  {
    forall m | Exists(GroupsOf(names, regions), m)
      ensures var b := GroupsOf(names, regions)[m.group].branches[m.branch]; b.processed == INVALID && b.pending == {}
    {
      var k := GroupHasRegion(names, regions, m.group);
      RegionHasGroup(names, regions, k);
    }
  }

  /** The node is on a branch of region `k` other than `i`. */
  ghost predicate Beside(names: seq<string>, regions: seq<Region>, k: nat, i: nat, name: string) {
    exists j :: j != i && InRegion(names, regions, k, j, name)
  }

  lemma SiblingIffBeside(names: seq<string>, regions: seq<Region>, k: nat, i: nat, name: string)
    requires NodesKnown(names, regions) && k < |regions| && i < |regions[k].branches|
    ensures Sibling(GroupsOf(names, regions), Members(MappingOf(names, regions), name), PlaceOf(names, regions, k, i)) <==>
            Beside(names, regions, k, i, name)
  {
    var groups, members, m := GroupsOf(names, regions), Members(MappingOf(names, regions), name), PlaceOf(names, regions, k, i);
    if Sibling(groups, members, m) {
      var n :| 0 <= n < |members| && members[n].group == m.group && members[n].branch != m.branch && Exists(groups, members[n]);
      assert members[n] in members;
      PlacesExact(names, regions, name, members[n]);
      var l, j :| InRegion(names, regions, l, j, name) && members[n] == PlaceOf(names, regions, l, j);
      IdsDiffer(names, regions, k, l);
      assert j != i && InRegion(names, regions, k, j, name);
    }
    if Beside(names, regions, k, i, name) {
      var j :| j != i && InRegion(names, regions, k, j, name);
      var other := PlaceOf(names, regions, k, j);
      PlacesExact(names, regions, name, other);
      BranchExists(names, regions, k, j);
      var n :| 0 <= n < |members| && members[n] == other;
      if BranchId(j) == BranchId(i) {
        BranchIdsDiffer(j, i);
      }
      assert members[n].group == m.group && members[n].branch != m.branch && Exists(groups, members[n]);
    }
  }

  // ---- Drops by graph and history ----

  /** Event `e` dropped the frame beside branch `i` of region `k`, before that branch got there. */
  ghost predicate DroppedBeside(names: seq<string>, regions: seq<Region>, events: seq<Event>, k: nat, i: nat, frame: Frame, e: nat) {
    && e < |events| && events[e].ReportDrop? && events[e].frame == frame
    && Beside(names, regions, k, i, events[e].node)
    && forall f :: 0 <= f < e ==> !PassedOn(names, regions, events[f], k, i, frame)
  }

  /** A node of branch `i` of region `k` processed the frame or a later one. */
  predicate PassedOn(names: seq<string>, regions: seq<Region>, e: Event, k: nat, i: nat, frame: Frame) {
    e.MarkProcessed? && e.frame >= frame && e.frame != INVALID && InRegion(names, regions, k, i, e.node)
  }

  lemma PassedIffOn(names: seq<string>, regions: seq<Region>, e: Event, k: nat, i: nat, frame: Frame)
    requires NodesKnown(names, regions) && k < |regions| && i < |regions[k].branches|
    ensures Passed(MappingOf(names, regions), e, PlaceOf(names, regions, k, i), frame) <==> PassedOn(names, regions, e, k, i, frame)
  {
    var m := PlaceOf(names, regions, k, i);
    PlacesExact(names, regions, e.node, m);
    if m in Members(MappingOf(names, regions), e.node) {
      var l, j :| InRegion(names, regions, l, j, e.node) && m == PlaceOf(names, regions, l, j);
      IdsDiffer(names, regions, k, l);
      BranchIdsDiffer(i, j);
    }
  }

  lemma ToldIffDroppedBeside(names: seq<string>, regions: seq<Region>, events: seq<Event>, k: nat, i: nat, frame: Frame, e: nat)
    requires NodesKnown(names, regions) && k < |regions| && i < |regions[k].branches| && e < |events|
    ensures ToldAt(GroupsOf(names, regions), MappingOf(names, regions), events, PlaceOf(names, regions, k, i), frame, e) <==>
            DroppedBeside(names, regions, events, k, i, frame, e)
  {
    SiblingIffBeside(names, regions, k, i, events[e].node);
    forall f | 0 <= f < e
      ensures Passed(MappingOf(names, regions), events[f], PlaceOf(names, regions, k, i), frame) <==>
              PassedOn(names, regions, events[f], k, i, frame)
    {
      PassedIffOn(names, regions, events[f], k, i, frame);
    }
  }

  /**
   After any history of calls on an initialised strategy: a frame is to be dropped at a node
   exactly if, for some fork and join around it, the frame was dropped on a path between them
   that is not the node's, before the node's own path had processed it or a later one.
   */
  lemma DropsFollowPaths(names: seq<string>, regions: seq<Region>, events: seq<Event>, name: string, frame: Frame)
    requires NodesKnown(names, regions)
    ensures ShouldDrop(Replay(GroupsOf(names, regions), MappingOf(names, regions), events), Members(MappingOf(names, regions), name), frame) <==>
            exists k, i, e :: InRegion(names, regions, k, i, name) && DroppedBeside(names, regions, events, k, i, frame, e)
  {
    var groups, mapping := GroupsOf(names, regions), MappingOf(names, regions);
    var members := Members(mapping, name);
    NothingHappened(names, regions);
    ShouldDropByHistory(groups, mapping, events, name, frame);
    if n :| 0 <= n < |members| && Exists(groups, members[n]) && Told(groups, mapping, events, members[n], frame) {
      assert members[n] in members;
      PlacesExact(names, regions, name, members[n]);
      var k, i :| InRegion(names, regions, k, i, name) && members[n] == PlaceOf(names, regions, k, i);
      var e :| 0 <= e < |events| && ToldAt(groups, mapping, events, members[n], frame, e);
      ToldIffDroppedBeside(names, regions, events, k, i, frame, e);
    }
    if k, i, e :| InRegion(names, regions, k, i, name) && DroppedBeside(names, regions, events, k, i, frame, e) {
      var m := PlaceOf(names, regions, k, i);
      PlacesExact(names, regions, name, m);
      BranchExists(names, regions, k, i);
      ToldIffDroppedBeside(names, regions, events, k, i, frame, e);
      var n :| 0 <= n < |members| && members[n] == m;
      assert Exists(groups, members[n]) && Told(groups, mapping, events, members[n], frame);
    }
  }
}
