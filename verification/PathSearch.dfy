/**
 The enumeration of all paths from a fork to a join in src/join_aware_sync_strategy.hpp: a
 depth-first search that keeps one path and one visited set and undoes its changes.
 */
module PathSearch {
  import opened Kahn

  /** Edges go up in rank: the graph has no cycle. */
  ghost predicate Rising(out: Lists, rank: seq<nat>, top: nat) {
    && InRange(out) && |rank| == |out|
    && (forall u :: 0 <= u < |rank| ==> rank[u] <= top)
    && (forall u, v :: Edge(out, u, v) ==> rank[u] < rank[v])
    && (forall u :: 0 <= u < |out| ==> Distinct(out[u]))
  }

  // ---- The paths ----

  function Prefixed(u: nat, paths: seq<seq<nat>>): seq<seq<nat>> {
    seq(|paths|, i requires 0 <= i < |paths| => [u] + paths[i])
  }

  /** All paths from `u` to `dest`, in depth-first order. */
  ghost function Paths(out: Lists, rank: seq<nat>, top: nat, u: nat, dest: nat): seq<seq<nat>>
    requires Rising(out, rank, top) && u < |out|
    decreases top - rank[u], 1, 0
  {
    if u == dest then [[u]] else PathsVia(out, rank, top, u, dest, |out[u]|)
  }

  /** Those through the first `n` successors. */
  ghost function PathsVia(out: Lists, rank: seq<nat>, top: nat, u: nat, dest: nat, n: nat): seq<seq<nat>>
    requires Rising(out, rank, top) && u < |out| && n <= |out[u]|
    decreases top - rank[u], 0, n
  {
    if n == 0 then []
    else
      assert Edge(out, u, out[u][n - 1]);
      PathsVia(out, rank, top, u, dest, n - 1) + Prefixed(u, Paths(out, rank, top, out[u][n - 1], dest))
  }

  /** A walk from `u` to `dest`. */
  predicate Leads(out: Lists, path: seq<nat>, u: nat, dest: nat) {
    Walk(out, path) && path[0] == u && path[|path| - 1] == dest
  }

  /** What is kept of a path: everything but its two ends. */
  function Inner(path: seq<nat>): seq<nat> {
    if |path| < 2 then [] else path[1..|path| - 1]
  }

  /** The branches a search adds for the paths that continue `stem`. */
  function Branches(stem: seq<nat>, paths: seq<seq<nat>>): seq<seq<nat>> {
    if paths == [] then []
    else
      var last := stem + paths[|paths| - 1];
      Branches(stem, paths[..|paths| - 1]) + (if |last| >= 2 then [Inner(last)] else [])
  }

  lemma {:induction false} BranchesConcat(stem: seq<nat>, a: seq<seq<nat>>, b: seq<seq<nat>>)
    ensures Branches(stem, a + b) == Branches(stem, a) + Branches(stem, b)
  {
    if b == [] {
      assert a + b == a;
    } else {
      assert (a + b)[..|a + b| - 1] == a + b[..|b| - 1];
      BranchesConcat(stem, a, b[..|b| - 1]);
    }
  }

  lemma {:induction false} BranchesPrefixed(stem: seq<nat>, u: nat, paths: seq<seq<nat>>)
    ensures Branches(stem, Prefixed(u, paths)) == Branches(stem + [u], paths)
  {
    if paths != [] {
      var front := paths[..|paths| - 1];
      assert Prefixed(u, paths)[..|paths| - 1] == Prefixed(u, front);
      BranchesPrefixed(stem, u, front);
      assert stem + ([u] + paths[|paths| - 1]) == stem + [u] + paths[|paths| - 1];
    }
  }

  lemma SinglePath(stem: seq<nat>, u: nat)
    ensures Branches(stem, [[u]]) == if |stem + [u]| >= 2 then [Inner(stem + [u])] else []
  {
    assert [[u]][..0] == [];
  }

  /** The branches found before and those through the first `n` successors. */
  ghost function FoundVia(out: Lists, rank: seq<nat>, top: nat, u: nat, dest: nat, n: nat, found: seq<seq<nat>>, stem: seq<nat>): seq<seq<nat>>
    requires Rising(out, rank, top) && u < |out| && n <= |out[u]|
  {
    found + Branches(stem, PathsVia(out, rank, top, u, dest, n))
  }

  lemma NoneVia(out: Lists, rank: seq<nat>, top: nat, u: nat, dest: nat, found: seq<seq<nat>>, stem: seq<nat>)
    requires Rising(out, rank, top) && u < |out|
    ensures FoundVia(out, rank, top, u, dest, 0, found, stem) == found
  {
  }

  /** The branches through one more successor. */
  lemma OneMore(out: Lists, rank: seq<nat>, top: nat, u: nat, dest: nat, n: nat, found: seq<seq<nat>>, stem: seq<nat>)
    requires Rising(out, rank, top) && u < |out| && n < |out[u]|
    ensures FoundVia(out, rank, top, u, dest, n, found, stem) + Branches(stem + [u], Paths(out, rank, top, out[u][n], dest)) ==
            FoundVia(out, rank, top, u, dest, n + 1, found, stem)
  {
    var paths := Paths(out, rank, top, out[u][n], dest);
    BranchesPrefixed(stem, u, paths);
    BranchesConcat(stem, PathsVia(out, rank, top, u, dest, n), Prefixed(u, paths));
  }

  /** A successor ranks above everything visited, so it has not been visited. */
  lemma NeighborIsNew(out: Lists, rank: seq<nat>, top: nat, u: nat, n: nat, visited: set<nat>)
    requires Rising(out, rank, top) && u < |out| && n < |out[u]| && forall v :: v in visited ==> v < |out| && rank[v] <= rank[u]
    ensures out[u][n] < |out| && rank[u] < rank[out[u][n]] <= top && out[u][n] !in visited
    ensures forall v :: v in visited ==> rank[v] < rank[out[u][n]]
  {
    assert Edge(out, u, out[u][n]);
  }

  // ---- The search ----

  class Search {
    const out: Lists
    const dest: nat
    var currentPath: seq<nat>
    var visited: set<nat>
    var allPaths: seq<seq<nat>>

    constructor (out: Lists, dest: nat)
      ensures this.out == out && this.dest == dest && currentPath == [] && visited == {} && allPaths == []
    {
      this.out, this.dest := out, dest;
      currentPath, visited, allPaths := [], {}, [];
    }

    /** Adds a branch for every path that continues the current one, and restores the path and the visited set. */
    method Visit(current: nat, ghost rank: seq<nat>, ghost top: nat)
      requires Rising(out, rank, top) && current < |out|
      requires forall v :: v in visited ==> v < |out| && rank[v] < rank[current]
      modifies this
      ensures currentPath == old(currentPath) && visited == old(visited)
      ensures allPaths == old(allPaths) + Branches(currentPath, Paths(out, rank, top, current, dest))
      decreases top - rank[current], 1
    {
      visited := visited + {current};
      currentPath := currentPath + [current];
      if current == dest {
        if |currentPath| >= 2 {
          allPaths := allPaths + [Inner(currentPath)];
        }
        SinglePath(old(currentPath), current);
      } else {
        VisitNeighbors(current, old(currentPath), rank, top);
      }
      currentPath := currentPath[..|currentPath| - 1];
      visited := visited - {current};
    }

    method VisitNeighbors(current: nat, ghost stem: seq<nat>, ghost rank: seq<nat>, ghost top: nat)
      requires Rising(out, rank, top) && current < |out| && currentPath == stem + [current]
      requires forall v :: v in visited ==> v < |out| && rank[v] <= rank[current]
      modifies this
      ensures currentPath == old(currentPath) && visited == old(visited)
      ensures allPaths == FoundVia(out, rank, top, current, dest, |out[current]|, old(allPaths), stem)
      decreases top - rank[current], 0, 1
    {
      NoneVia(out, rank, top, current, dest, allPaths, stem);
      for n := 0 to |out[current]|
        invariant currentPath == old(currentPath) && visited == old(visited)
        invariant allPaths == FoundVia(out, rank, top, current, dest, n, old(allPaths), stem)
      {
        VisitNeighbor(current, n, old(allPaths), stem, rank, top);
      }
    }

    method VisitNeighbor(current: nat, n: nat, ghost found: seq<seq<nat>>, ghost stem: seq<nat>, ghost rank: seq<nat>, ghost top: nat)
      requires Rising(out, rank, top) && current < |out| && n < |out[current]| && currentPath == stem + [current]
      requires forall v :: v in visited ==> v < |out| && rank[v] <= rank[current]
      requires allPaths == FoundVia(out, rank, top, current, dest, n, found, stem)
      modifies this
      ensures currentPath == old(currentPath) && visited == old(visited)
      ensures allPaths == FoundVia(out, rank, top, current, dest, n + 1, found, stem)
      decreases top - rank[current], 0, 0
    {
      var neighbor := out[current][n];
      NeighborIsNew(out, rank, top, current, n, visited);
      OneMore(out, rank, top, current, dest, n, found, stem);
      if neighbor !in visited {
        Visit(neighbor, rank, top);
      }
    }
  }

  // ---- Every path, once ----

  predicate AllDifferent(paths: seq<seq<nat>>) {
    forall i, j :: 0 <= i < j < |paths| ==> paths[i] != paths[j]
  }

  /** The listed paths lead from `u` to `dest`. */
  lemma {:induction false} PathsLead(out: Lists, rank: seq<nat>, top: nat, u: nat, dest: nat)
    requires Rising(out, rank, top) && u < |out|
    ensures forall p :: p in Paths(out, rank, top, u, dest) ==> Leads(out, p, u, dest)
    decreases top - rank[u], 1, 0
  {
    if u != dest {
      PathsViaLead(out, rank, top, u, dest, |out[u]|);
    }
  }

  lemma {:induction false} PathsViaLead(out: Lists, rank: seq<nat>, top: nat, u: nat, dest: nat, n: nat)
    requires Rising(out, rank, top) && u < |out| && n <= |out[u]|
    ensures forall p :: p in PathsVia(out, rank, top, u, dest, n) ==> Leads(out, p, u, dest) && |p| > 1 && p[1] in out[u][..n]
    decreases top - rank[u], 0, n
  {
    if n > 0 {
      var v := out[u][n - 1];
      assert Edge(out, u, v);
      PathsViaLead(out, rank, top, u, dest, n - 1);
      PathsLead(out, rank, top, v, dest);
      assert out[u][..n] == out[u][..n - 1] + [v];
      PrefixedLead(out, u, v, dest, Paths(out, rank, top, v, dest));
    }
  }

  lemma PrefixedLead(out: Lists, u: nat, v: nat, dest: nat, paths: seq<seq<nat>>)
    requires Edge(out, u, v) && forall p :: p in paths ==> Leads(out, p, v, dest)
    ensures forall p :: p in Prefixed(u, paths) ==> Leads(out, p, u, dest) && |p| > 1 && p[1] == v
  {
    forall i | 0 <= i < |paths|
      ensures var p := Prefixed(u, paths)[i]; Leads(out, p, u, dest) && |p| > 1 && p[1] == v
    {
      assert paths[i] in paths;
      Longer(out, u, paths[i]);
    }
  }

  /** An edge in front of a walk. */
  lemma Longer(out: Lists, u: nat, path: seq<nat>)
    requires Walk(out, path) && Edge(out, u, path[0])
    ensures Walk(out, [u] + path)
  {
    var longer := [u] + path;
    forall i | 0 <= i < |longer| - 1
      ensures Steps(out, longer, i)
    {
      if i > 0 {
        assert Steps(out, path, i - 1);
      }
    }
  }

  /** A walk without its first edge. */
  lemma Shorter(out: Lists, path: seq<nat>)
    requires Walk(out, path) && |path| > 1
    ensures Walk(out, path[1..]) && Edge(out, path[0], path[1])
  {
    assert Steps(out, path, 0);
    forall i | 0 <= i < |path[1..]| - 1
      ensures Steps(out, path[1..], i)
    {
      assert Steps(out, path, i + 1);
    }
  }

  /** Along a walk the rank rises. */
  lemma {:induction false} WalkIsRising(out: Lists, rank: seq<nat>, top: nat, path: seq<nat>)
    requires Rising(out, rank, top) && Walk(out, path)
    ensures path[|path| - 1] < |out| && rank[path[0]] <= rank[path[|path| - 1]]
    ensures |path| > 1 ==> rank[path[0]] < rank[path[|path| - 1]]
    decreases |path|
  {
    if |path| > 1 {
      Shorter(out, path);
      WalkIsRising(out, rank, top, path[1..]);
    }
  }

  /** Every path is listed. */
  lemma {:induction false} PathIsListed(out: Lists, rank: seq<nat>, top: nat, u: nat, dest: nat, path: seq<nat>)
    requires Rising(out, rank, top) && u < |out| && Leads(out, path, u, dest)
    ensures path in Paths(out, rank, top, u, dest)
    decreases |path|
  {
    WalkIsRising(out, rank, top, path);
    if |path| == 1 {
      assert path == [u];
    } else {
      Shorter(out, path);
      var rest := path[1..];
      PathIsListed(out, rank, top, path[1], dest, rest);
      var n :| 0 <= n < |out[u]| && out[u][n] == path[1];
      var paths := Paths(out, rank, top, path[1], dest);
      var i :| 0 <= i < |paths| && paths[i] == rest;
      assert Prefixed(u, paths)[i] == path;
      assert path in PathsVia(out, rank, top, u, dest, n + 1);
      ViaGrows(out, rank, top, u, dest, n + 1, |out[u]|, path);
    }
  }

  lemma {:induction false} ViaGrows(out: Lists, rank: seq<nat>, top: nat, u: nat, dest: nat, m: nat, n: nat, path: seq<nat>)
    requires Rising(out, rank, top) && u < |out| && m <= n <= |out[u]| && path in PathsVia(out, rank, top, u, dest, m)
    ensures path in PathsVia(out, rank, top, u, dest, n)
  {
    if m < n {
      ViaGrows(out, rank, top, u, dest, m, n - 1, path);
    }
  }

  /** No path is listed twice. */
  lemma {:induction false} PathsDiffer(out: Lists, rank: seq<nat>, top: nat, u: nat, dest: nat)
    requires Rising(out, rank, top) && u < |out|
    ensures AllDifferent(Paths(out, rank, top, u, dest))
    decreases top - rank[u], 1, 0
  {
    if u != dest {
      PathsViaDiffer(out, rank, top, u, dest, |out[u]|);
    }
  }

  lemma {:induction false} PathsViaDiffer(out: Lists, rank: seq<nat>, top: nat, u: nat, dest: nat, n: nat)
    requires Rising(out, rank, top) && u < |out| && n <= |out[u]|
    ensures AllDifferent(PathsVia(out, rank, top, u, dest, n))
    decreases top - rank[u], 0, n
  {
    if n > 0 {
      var v := out[u][n - 1];
      assert Edge(out, u, v);
      var a, b := PathsVia(out, rank, top, u, dest, n - 1), Paths(out, rank, top, v, dest);
      PathsViaDiffer(out, rank, top, u, dest, n - 1);
      PathsDiffer(out, rank, top, v, dest);
      PathsViaLead(out, rank, top, u, dest, n - 1);
      PathsLead(out, rank, top, v, dest);
      DifferentParts(a, u, b, v, out[u][..n - 1]);
    }
  }

  /** Paths through earlier successors differ from those through a new one. */
  lemma DifferentParts(a: seq<seq<nat>>, u: nat, b: seq<seq<nat>>, v: nat, before: seq<nat>)
    requires AllDifferent(a) && AllDifferent(b) && v !in before
    requires forall p :: p in a ==> |p| > 1 && p[1] in before
    requires forall p :: p in b ==> p != [] && p[0] == v
    ensures AllDifferent(a + Prefixed(u, b))
  {
    var all := a + Prefixed(u, b);
    forall i, j | 0 <= i < j < |all|
      ensures all[i] != all[j]
    {
      if i < |a| <= j {
        assert all[i] in a && b[j - |a|] in b;
        assert all[j][1] == v;
      } else if |a| <= i {
        assert all[i][1..] == b[i - |a|] && all[j][1..] == b[j - |a|];
      }
    }
  }

  // ---- The result ----

  lemma {:induction false} BranchesAre(paths: seq<seq<nat>>)
    requires forall p :: p in paths ==> |p| >= 2
    ensures |Branches([], paths)| == |paths|
    ensures forall i :: 0 <= i < |paths| ==> Branches([], paths)[i] == Inner(paths[i])
  {
    if paths != [] {
      var front, last := paths[..|paths| - 1], paths[|paths| - 1];
      assert last in paths;
      assert [] + last == last;
      BranchesAre(front);
    }
  }

  lemma Restored(path: seq<nat>)
    requires |path| >= 2
    ensures [path[0]] + Inner(path) + [path[|path| - 1]] == path
  {
  }

  /** The branches are the paths from source to dest without their ends, each once. */
  lemma BranchesExact(out: Lists, rank: seq<nat>, top: nat, source: nat, dest: nat)
    requires Rising(out, rank, top) && source < |out| && source != dest
    ensures var branches := Branches([], Paths(out, rank, top, source, dest));
            && AllDifferent(branches)
            && forall b :: b in branches <==> Leads(out, [source] + b + [dest], source, dest)
  {
    var paths := Paths(out, rank, top, source, dest);
    var branches := Branches([], paths);
    PathsLead(out, rank, top, source, dest);
    PathsDiffer(out, rank, top, source, dest);
    BranchesAre(paths);
    forall i | 0 <= i < |paths|
      ensures [source] + branches[i] + [dest] == paths[i]
    {
      assert paths[i] in paths;
      Restored(paths[i]);
    }
    forall b
      ensures b in branches <==> Leads(out, [source] + b + [dest], source, dest)
    {
      if b in branches {
        var i :| 0 <= i < |branches| && branches[i] == b;
        assert paths[i] in paths;
      }
      if Leads(out, [source] + b + [dest], source, dest) {
        PathIsListed(out, rank, top, source, dest, [source] + b + [dest]);
        var i :| 0 <= i < |paths| && paths[i] == [source] + b + [dest];
        assert Inner(paths[i]) == b;
      }
    }
  }

  /** findAllPaths: every path from source to dest exactly once, without its ends. */
  method FindAllPaths(out: Lists, source: nat, dest: nat, ghost rank: seq<nat>, ghost top: nat) returns (branches: seq<seq<nat>>)
    requires Rising(out, rank, top) && source < |out|
    ensures source == dest ==> branches == []
    ensures source != dest ==>
              && AllDifferent(branches)
              && forall b :: b in branches <==> Leads(out, [source] + b + [dest], source, dest)
  {
    var search := new Search(out, dest);
    search.Visit(source, rank, top);
    branches := search.allPaths;
    if source == dest {
      SinglePath([], source);
    } else {
      BranchesExact(out, rank, top, source, dest);
    }
  }

  /** Every node strictly between source and dest lies on some branch. */
  lemma BetweenIsOnBranch(out: Lists, rank: seq<nat>, top: nat, p: seq<nat>, q: seq<nat>, source: nat, w: nat, dest: nat)
    returns (b: seq<nat>)
    requires Rising(out, rank, top) && source < |out|
    requires Leads(out, p, source, w) && Leads(out, q, w, dest) && w != source && w != dest
    ensures w in b && Leads(out, [source] + b + [dest], source, dest)
  {
    var whole := p + q[1..];
    forall i | 0 <= i < |whole| - 1
      ensures Steps(out, whole, i)
    {
      if i < |p| - 1 {
        assert Steps(out, p, i);
      } else {
        assert Steps(out, q, i - (|p| - 1));
      }
    }
    b := Inner(whole);
    Restored(whole);
    assert whole[|p| - 1] == w;
    assert b[|p| - 2] == w;
  }
}
