/**
 The search for the lowest common fork of a join in src/join_aware_sync_strategy.hpp: level
 by level backwards from each predecessor of the join, until a node that fans out has been
 reached from all of them.
 */
module ForkSearch {
  import opened Options
  import opened Kahn
  import opened PathSearch

  const MAX_ITERATIONS: nat := 1000

  /** Deduplicated predecessor and successor lists. */
  datatype Topology = Topology(preds: Lists, succs: Lists) {
    ghost predicate Valid() {
      && |preds| == |succs| && InRange(preds) && InRange(succs)
      && (forall v :: 0 <= v < |preds| ==> Distinct(preds[v]))
      && (forall u, v :: 0 <= u < |preds| && 0 <= v < |preds| ==> (u in preds[v] <==> v in succs[u]))
    }

    predicate IsFork(v: nat) {
      v < |succs| && |succs[v]| > 1
    }
  }

  // ---- Levels ----

  /** The nodes and their predecessors. */
  ghost function Back(preds: Lists, s: set<nat>): set<nat> {
    s + (set u: nat | u < |preds| && Precedes(preds, u, s))
  }

  ghost predicate Precedes(preds: Lists, u: nat, s: set<nat>) {
    exists v :: v in s && v < |preds| && u in preds[v]
  }

  /** The nodes from which at most `d` edges lead to `start`. */
  ghost function Within(preds: Lists, start: nat, d: nat): set<nat> {
    if d == 0 then {start} else Back(preds, Within(preds, start, d - 1))
  }

  /** A fork at backward distance at most `d` from every start. */
  ghost predicate Candidate(t: Topology, starts: seq<nat>, v: nat, d: nat) {
    t.IsFork(v) && forall i :: 0 <= i < |starts| ==> v in Within(t.preds, starts[i], d)
  }

  ghost predicate NoCandidate(t: Topology, starts: seq<nat>, d: nat) {
    forall v :: !Candidate(t, starts, v, d)
  }

  /** Levels are distances: a node is within `d` of the start if and only if a walk of at most `d` edges leads there. */
  lemma {:induction false} WithinIsWalk(t: Topology, start: nat, d: nat, v: nat) returns (path: seq<nat>)
    requires t.Valid() && start < |t.preds| && v in Within(t.preds, start, d)
    ensures Leads(t.succs, path, v, start) && |path| <= d + 1
  {
    if d == 0 {
      path := [v];
    } else {
      var nearer := Within(t.preds, start, d - 1);
      if v in nearer {
        path := WithinIsWalk(t, start, d - 1, v);
      } else {
        assert Precedes(t.preds, v, nearer);
        var w :| w in nearer && w < |t.preds| && v in t.preds[w];
        path := WithinIsWalk(t, start, d - 1, w);
        Longer(t.succs, v, path);
        path := [v] + path;
      }
    }
  }

  lemma {:induction false} WalkIsWithin(t: Topology, start: nat, d: nat, path: seq<nat>)
    requires t.Valid() && start < |t.preds| && path != [] && Leads(t.succs, path, path[0], start) && |path| <= d + 1
    ensures path[0] in Within(t.preds, start, d)
    decreases d
  {
    if |path| == 1 {
      StartIsWithin(t.preds, start, d);
    } else {
      Shorter(t.succs, path);
      WalkIsWithin(t, start, d - 1, path[1..]);
      assert Precedes(t.preds, path[0], Within(t.preds, start, d - 1));
    }
  }

  lemma {:induction false} StartIsWithin(preds: Lists, start: nat, d: nat)
    ensures start in Within(preds, start, d)
  {
    if d > 0 {
      StartIsWithin(preds, start, d - 1);
    }
  }

  // ---- One level further back ----

  /** Everything reached has its predecessors reached, apart from what is queued. */
  ghost predicate Frontier(preds: Lists, reached: set<nat>, queue: seq<nat>) {
    && (forall v :: v in reached ==> v < |preds|)
    && (forall v :: v in queue ==> v in reached)
    && (forall v, u :: v in reached && v !in queue && u in preds[v] ==> u in reached)
  }

  method Expand(preds: Lists, before: set<nat>, queue: seq<nat>) returns (reached: set<nat>, next: seq<nat>)
    requires InRange(preds) && Frontier(preds, before, queue)
    ensures reached == Back(preds, before) && Frontier(preds, reached, next)
    ensures queue == [] ==> reached == before && next == []
  {
    reached, next := before, [];
    for q := 0 to |queue|
      invariant before <= reached <= Back(preds, before)
      invariant forall v :: v in reached ==> v < |preds| && (v in before || v in next)
      invariant forall v :: v in next ==> v in reached
      invariant forall i, u :: 0 <= i < q && queue[i] < |preds| && u in preds[queue[i]] ==> u in reached
      invariant q == 0 ==> reached == before && next == []
    {
      var current := queue[q];
      assert current in queue;
      reached, next := Predecessors(preds, before, current, reached, next);
    }
    forall v | v in Back(preds, before)
      ensures v in reached
    {
      if v !in before {
        assert Precedes(preds, v, before);
        var w :| w in before && w < |preds| && v in preds[w];
        if w in queue {
          var i :| 0 <= i < |queue| && queue[i] == w;
        }
      }
    }
  }

  method Predecessors(preds: Lists, ghost before: set<nat>, current: nat, reachedBefore: set<nat>, nextBefore: seq<nat>)
    returns (reached: set<nat>, next: seq<nat>)
    requires InRange(preds) && current < |preds| && current in before
    requires before <= reachedBefore <= Back(preds, before)
    requires forall v :: v in reachedBefore ==> v < |preds| && (v in before || v in nextBefore)
    requires forall v :: v in nextBefore ==> v in reachedBefore
    ensures reachedBefore <= reached <= Back(preds, before)
    ensures forall v :: v in reached ==> v < |preds| && (v in before || v in next)
    ensures forall v :: v in next ==> v in reached
    ensures forall u :: u in preds[current] ==> u in reached
  {
    reached, next := reachedBefore, nextBefore;
    for k := 0 to |preds[current]|
      invariant reachedBefore <= reached <= Back(preds, before)
      invariant forall v :: v in reached ==> v < |preds| && (v in before || v in next)
      invariant forall v :: v in next ==> v in reached
      invariant forall i :: 0 <= i < k ==> preds[current][i] in reached
    {
      var pred := preds[current][k];
      assert Precedes(preds, pred, before);
      if pred !in reached {
        reached, next := reached + {pred}, next + [pred];
      }
    }
  }

  // ---- The general case ----

  /** The sets after `k` rounds are the levels. */
  ghost predicate AtLevel(t: Topology, starts: seq<nat>, reached: seq<set<nat>>, queues: seq<seq<nat>>, k: nat) {
    && |reached| == |queues| == |starts|
    && (forall i :: 0 <= i < |starts| ==> reached[i] == Within(t.preds, starts[i], k) && Frontier(t.preds, reached[i], queues[i]))
  }

  /** A fork in all the sets, if there is one. */
  method CommonFork(t: Topology, reached: seq<set<nat>>) returns (fork: Option<nat>)
    requires |reached| > 0
    ensures fork.Some? ==> t.IsFork(fork.value) && forall i :: 0 <= i < |reached| ==> fork.value in reached[i]
    ensures fork.None? ==> forall v :: t.IsFork(v) ==> exists i :: 0 <= i < |reached| && v !in reached[i]
  {
    var left := reached[0];
    while left != {}
      invariant left <= reached[0]
      invariant forall v :: v in reached[0] - left && t.IsFork(v) ==> exists i :: 0 <= i < |reached| && v !in reached[i]
      decreases left
    {
      var candidate :| candidate in left;
      var everywhere := InAll(reached, candidate);
      if everywhere && t.IsFork(candidate) {
        return Some(candidate);
      }
      left := left - {candidate};
    }
    fork := None;
    forall v | t.IsFork(v)
      ensures exists i :: 0 <= i < |reached| && v !in reached[i]
    {
      if v !in reached[0] {
        assert 0 <= 0 < |reached| && v !in reached[0];
      } else {
        assert v in reached[0] - left;
      }
    }
  }

  method InAll(reached: seq<set<nat>>, v: nat) returns (all: bool)
    requires |reached| > 0 && v in reached[0]
    ensures all <==> forall i :: 0 <= i < |reached| ==> v in reached[i]
  {
    for i := 1 to |reached|
      invariant forall j :: 0 <= j < i ==> v in reached[j]
    {
      if v !in reached[i] {
        return false;
      }
    }
    all := true;
  }

  /** One more level for every start. */
  method ExpandAll(t: Topology, starts: seq<nat>, before: seq<set<nat>>, queuesBefore: seq<seq<nat>>, ghost k: nat)
    returns (reached: seq<set<nat>>, queues: seq<seq<nat>>, progress: bool)
    requires t.Valid() && AtLevel(t, starts, before, queuesBefore, k)
    ensures AtLevel(t, starts, reached, queues, k + 1)
    ensures !progress ==> reached == before
  {
    reached, queues, progress := [], [], false;
    for i := 0 to |before|
      invariant |reached| == |queues| == i
      invariant forall j :: 0 <= j < i ==> reached[j] == Within(t.preds, starts[j], k + 1) && Frontier(t.preds, reached[j], queues[j])
      invariant !progress ==> reached == before[..i]
    {
      var set', queue' := Expand(t.preds, before[i], queuesBefore[i]);
      if queuesBefore[i] != [] {
        progress := true;
      }
      reached, queues := reached + [set'], queues + [queue'];
    }
  }

  /** If a round adds nothing, later rounds add nothing. */
  lemma {:induction false} Saturated(preds: Lists, start: nat, k: nat, d: nat, v: nat)
    requires Within(preds, start, k + 1) <= Within(preds, start, k) && k <= d && v in Within(preds, start, d)
    ensures v in Within(preds, start, k)
    decreases d
  {
    if k < d {
      if v in Within(preds, start, d - 1) {
        Saturated(preds, start, k, d - 1, v);
      } else {
        assert Precedes(preds, v, Within(preds, start, d - 1));
        var w :| w in Within(preds, start, d - 1) && w < |preds| && v in preds[w];
        Saturated(preds, start, k, d - 1, w);
        assert Precedes(preds, v, Within(preds, start, k));
        assert v in Within(preds, start, k + 1);
      }
    }
  }

  lemma NoMoreCandidates(t: Topology, starts: seq<nat>, k: nat, d: nat)
    requires forall i :: 0 <= i < |starts| ==> Within(t.preds, starts[i], k + 1) <= Within(t.preds, starts[i], k)
    requires NoCandidate(t, starts, k) && k <= d
    ensures NoCandidate(t, starts, d)
  {
    forall v
      ensures !Candidate(t, starts, v, d)
    {
      if Candidate(t, starts, v, d) {
        forall i | 0 <= i < |starts|
          ensures v in Within(t.preds, starts[i], k)
        {
          Saturated(t.preds, starts[i], k, d, v);
        }
        assert Candidate(t, starts, v, k);
      }
    }
  }

  /** No level below `k` has a candidate. */
  ghost predicate NoneBelow(t: Topology, starts: seq<nat>, k: nat) {
    k > 0 ==> NoneBelow(t, starts, k - 1) && NoCandidate(t, starts, k - 1)
  }

  lemma {:induction false} NoneBelowAt(t: Topology, starts: seq<nat>, k: nat, e: nat)
    requires NoneBelow(t, starts, k) && e < k
    ensures NoCandidate(t, starts, e)
  {
    if e < k - 1 {
      NoneBelowAt(t, starts, k - 1, e);
    }
  }

  lemma NoneBelowAll(t: Topology, starts: seq<nat>, k: nat)
    requires NoneBelow(t, starts, k)
    ensures forall e :: 0 <= e < k ==> NoCandidate(t, starts, e)
  {
    forall e | 0 <= e < k
      ensures NoCandidate(t, starts, e)
    {
      NoneBelowAt(t, starts, k, e);
    }
  }

  /** The fork that was found, at the smallest level that has one. */
  ghost predicate Lowest(t: Topology, starts: seq<nat>, fork: nat, d: nat) {
    && d < MAX_ITERATIONS && Candidate(t, starts, fork, d)
    && forall e :: 0 <= e < d ==> NoCandidate(t, starts, e)
  }

  method SearchLevels(t: Topology, starts: seq<nat>) returns (fork: Option<nat>, ghost d: nat)
    requires t.Valid() && |starts| > 0 && forall i :: 0 <= i < |starts| ==> starts[i] < |t.preds|
    ensures fork.Some? ==> Lowest(t, starts, fork.value, d)
    ensures fork.None? ==> forall e :: 0 <= e < MAX_ITERATIONS ==> NoCandidate(t, starts, e)
  {
    var reached := seq(|starts|, i requires 0 <= i < |starts| => {starts[i]});
    var queues := seq(|starts|, i requires 0 <= i < |starts| => [starts[i]]);
    var iterations := 0;
    d := 0;
    while iterations < MAX_ITERATIONS
      invariant iterations <= MAX_ITERATIONS && AtLevel(t, starts, reached, queues, iterations)
      invariant NoneBelow(t, starts, iterations)
    {
      NoneBelowAll(t, starts, iterations);
      d := iterations;
      iterations := iterations + 1;
      fork := CommonFork(t, reached);
      if fork.Some? {
        return fork, d;
      }
      NoneAtLevel(t, starts, reached, queues, d);
      var progress;
      ghost var before, queued := reached, queues;
      reached, queues, progress := ExpandAll(t, starts, reached, queues, d);
      if !progress {
        NoneEver(t, starts, before, queued, queues, d);
        return None, d;
      }
    }
    NoneBelowAll(t, starts, iterations);
    fork := None;
  }

  lemma NoneAtLevel(t: Topology, starts: seq<nat>, reached: seq<set<nat>>, queues: seq<seq<nat>>, k: nat)
    requires AtLevel(t, starts, reached, queues, k)
    requires forall v :: t.IsFork(v) ==> exists i :: 0 <= i < |reached| && v !in reached[i]
    ensures NoCandidate(t, starts, k)
  {
  }

  /** With no progress there is no candidate at any later level. */
  lemma NoneEver(t: Topology, starts: seq<nat>, reached: seq<set<nat>>, queues: seq<seq<nat>>, queues': seq<seq<nat>>, k: nat)
    requires AtLevel(t, starts, reached, queues, k) && AtLevel(t, starts, reached, queues', k + 1)
    requires NoCandidate(t, starts, k)
    ensures forall e :: k <= e ==> NoCandidate(t, starts, e)
  {
    forall e | k <= e
      ensures NoCandidate(t, starts, e)
    {
      NoMoreCandidates(t, starts, k, e);
    }
  }

  // ---- The direct case ----

  /** How many of the starts have `g` as a direct predecessor. */
  ghost function ChildrenOf(t: Topology, starts: seq<nat>, g: nat): nat
    requires forall i :: 0 <= i < |starts| ==> starts[i] < |t.preds|
  {
    if starts == [] then 0
    else ChildrenOf(t, starts[..|starts| - 1], g) + (if g in t.preds[starts[|starts| - 1]] then 1 else 0)
  }

  lemma {:induction false} AllChildren(t: Topology, starts: seq<nat>, g: nat)
    requires forall i :: 0 <= i < |starts| ==> starts[i] < |t.preds|
    ensures ChildrenOf(t, starts, g) <= |starts|
    ensures ChildrenOf(t, starts, g) == |starts| <==> forall i :: 0 <= i < |starts| ==> g in t.preds[starts[i]]
  {
    if starts != [] {
      AllChildren(t, starts[..|starts| - 1], g);
    }
  }

  function CountAt(count: map<nat, nat>, g: nat): nat {
    if g in count then count[g] else 0
  }

  method CountParents(t: Topology, starts: seq<nat>) returns (count: map<nat, nat>)
    requires t.Valid() && forall i :: 0 <= i < |starts| ==> starts[i] < |t.preds|
    ensures forall g :: CountAt(count, g) == ChildrenOf(t, starts, g)
  {
    count := map[];
    for n := 0 to |starts|
      invariant forall g :: CountAt(count, g) == ChildrenOf(t, starts[..n], g)
    {
      assert starts[..n + 1][..n] == starts[..n];
      count := CountEach(t.preds[starts[n]], count);
    }
    assert starts[..|starts|] == starts;
  }

  method CountEach(parents: seq<nat>, before: map<nat, nat>) returns (count: map<nat, nat>)
    requires Distinct(parents)
    ensures forall g :: CountAt(count, g) == CountAt(before, g) + if g in parents then 1 else 0
  {
    count := before;
    for k := 0 to |parents|
      invariant forall g :: CountAt(count, g) == CountAt(before, g) + if g in parents[..k] then 1 else 0
    {
      var g := parents[k];
      assert parents[..k + 1] == parents[..k] + [g] && g !in parents[..k];
      count := count[g := CountAt(count, g) + 1];
    }
    assert parents[..|parents|] == parents;
  }

  /** A fork that is a direct predecessor of every start. */
  method DirectFork(t: Topology, starts: seq<nat>) returns (fork: Option<nat>)
    requires t.Valid() && forall i :: 0 <= i < |starts| ==> starts[i] < |t.preds|
    ensures fork.Some? ==> t.IsFork(fork.value) && forall i :: 0 <= i < |starts| ==> fork.value in t.preds[starts[i]]
  {
    var count := CountParents(t, starts);
    var left := count.Keys;
    while left != {}
      invariant left <= count.Keys
      decreases left
    {
      var parent :| parent in left;
      if count[parent] == |starts| && t.IsFork(parent) {
        AllChildren(t, starts, parent);
        assert CountAt(count, parent) == |starts|;
        return Some(parent);
      }
      left := left - {parent};
    }
    fork := None;
  }

  /**
   findLowestCommonFork: a join with fewer than two predecessors has none.  Otherwise the
   fork found is at the smallest possible greatest distance from the predecessors, and one is
   found exactly if there is one within 999 levels.
   */
  method FindLowestCommonFork(t: Topology, join: nat) returns (fork: Option<nat>, ghost d: nat)
    requires t.Valid() && join < |t.preds|
    ensures |t.preds[join]| < 2 ==> fork == None
    ensures fork.Some? ==> Lowest(t, t.preds[join], fork.value, d)
    ensures |t.preds[join]| >= 2 ==> (fork.None? <==> forall e :: 0 <= e < MAX_ITERATIONS ==> NoCandidate(t, t.preds[join], e))
  {
    var starts := t.preds[join];
    d := 0;
    if |starts| < 2 {
      return None, d;
    }
    var direct := DirectFork(t, starts);
    if direct.Some? {
      DirectIsLowest(t, starts, direct.value);
      assert !NoCandidate(t, starts, 1);
      return direct, 1;
    }
    fork, d := SearchLevels(t, starts);
    assert fork.Some? ==> !NoCandidate(t, starts, d);
  }

  lemma DirectIsLowest(t: Topology, starts: seq<nat>, fork: nat)
    requires t.Valid() && |starts| >= 2 && Distinct(starts) && forall i :: 0 <= i < |starts| ==> starts[i] < |t.preds|
    requires t.IsFork(fork) && forall i :: 0 <= i < |starts| ==> fork in t.preds[starts[i]]
    ensures Lowest(t, starts, fork, 1)
  {
    forall i | 0 <= i < |starts|
      ensures fork in Within(t.preds, starts[i], 1)
    {
      assert Within(t.preds, starts[i], 0) == {starts[i]};
      assert Precedes(t.preds, fork, {starts[i]});
    }
    forall v
      ensures !Candidate(t, starts, v, 0)
    {
      assert Within(t.preds, starts[0], 0) == {starts[0]} && Within(t.preds, starts[1], 0) == {starts[1]};
    }
  }
}
