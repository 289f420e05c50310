/**
 The iterative peeling of Kahn's algorithm, as CompiledGraph::compile in
 include/ai_pipe/compiled_graph.hpp and Graph::hasCycle in src/graph.cpp run it: over
 adjacency lists in which parallel edges appear once each.
 */
module Kahn {

  /** `out[u]` lists the ends of the edges of node `u`. */
  type Lists = seq<seq<nat>>

  predicate InRange(out: Lists) {
    forall u, k :: 0 <= u < |out| && 0 <= k < |out[u]| ==> out[u][k] < |out|
  }

  predicate Edge(out: Lists, u: int, v: int) {
    0 <= u < |out| && 0 <= v < |out| && v in out[u]
  }

  /** `path` follows edges. */
  predicate Walk(out: Lists, path: seq<nat>) {
    && path != [] && path[0] < |out|
    && forall i :: 0 <= i < |path| - 1 ==> Steps(out, path, i)
  }

  predicate Steps(out: Lists, path: seq<nat>, i: nat)
    requires i < |path| - 1
  {
    Edge(out, path[i], path[i + 1])
  }

  /** A walk along at least one edge back to where it started. */
  predicate Cycle(out: Lists, path: seq<nat>) {
    Walk(out, path) && |path| > 1 && path[0] == path[|path| - 1]
  }

  ghost predicate Acyclic(out: Lists) {
    forall path :: !Cycle(out, path)
  }

  // ---- Counting edges ----

  function Count(list: seq<nat>, v: nat): nat {
    if list == [] then 0 else Count(list[..|list| - 1], v) + (if list[|list| - 1] == v then 1 else 0)
  }

  /** Edges to `v` from those of the first `n` nodes that are not done. */
  function Pending(out: Lists, done: set<nat>, v: nat, n: nat): nat
    requires n <= |out|
  {
    if n == 0 then 0
    else Pending(out, done, v, n - 1) + (if n - 1 in done then 0 else Count(out[n - 1], v))
  }

  /** The edge-count in-degree. */
  function InDegree(out: Lists, v: nat): nat {
    Pending(out, {}, v, |out|)
  }

  lemma {:induction false} CountIn(list: seq<nat>, v: nat)
    ensures Count(list, v) > 0 <==> v in list
  {
    if list != [] {
      CountIn(list[..|list| - 1], v);
    }
  }

  lemma {:induction false} PendingDone(out: Lists, done: set<nat>, v: nat, n: nat, u: nat)
    requires n <= |out| && u !in done
    ensures Pending(out, done + {u}, v, n) == Pending(out, done, v, n) - (if u < n then Count(out[u], v) else 0)
  {
    if n > 0 {
      PendingDone(out, done, v, n - 1, u);
    }
  }

  lemma {:induction false} PendingZero(out: Lists, done: set<nat>, v: nat, n: nat)
    requires n <= |out|
    ensures Pending(out, done, v, n) == 0 <==> forall u :: 0 <= u < n && u !in done ==> v !in out[u]
  {
    if n > 0 {
      PendingZero(out, done, v, n - 1);
      CountIn(out[n - 1], v);
    }
  }

  // ---- Peeling ----

  function Elements(order: seq<nat>): set<nat> {
    set v | v in order
  }

  predicate Distinct(order: seq<nat>) {
    forall i, j :: 0 <= i < j < |order| ==> order[i] != order[j]
  }

  /** Every edge into an ordered node comes from a node ordered before it. */
  ghost predicate Respects(out: Lists, order: seq<nat>) {
    forall i, u :: 0 <= i < |order| && Edge(out, u, order[i]) ==> u in order[..i]
  }

  /** Each node outside the order is waiting for an edge from another node outside it. */
  ghost predicate Stuck(out: Lists, order: seq<nat>) {
    forall v {:trigger Waits(out, order, v)} :: 0 <= v < |out| && v !in order ==> Waits(out, order, v)
  }

  ghost predicate Waits(out: Lists, order: seq<nat>, v: int) {
    exists u: nat :: Edge(out, u, v) && u !in order
  }

  /** The loop: `remaining` counts the edges from nodes not yet peeled; `queue` are those it has reached zero for. */
  ghost predicate Peeling(out: Lists, remaining: seq<int>, order: seq<nat>, queue: seq<nat>) {
    && InRange(out) && |remaining| == |out|
    && Distinct(order + queue)
    && (forall i :: 0 <= i < |order| ==> order[i] < |out|)
    && (forall i :: 0 <= i < |queue| ==> queue[i] < |out|)
    && (forall v :: 0 <= v < |out| ==> remaining[v] == Pending(out, Elements(order), v, |out|))
    && (forall v :: 0 <= v < |out| ==> (remaining[v] == 0 <==> v in order || v in queue))
    && Respects(out, order)
  }

  method Peel(out: Lists, inDegree: seq<int>) returns (order: seq<nat>)
    requires InRange(out) && |inDegree| == |out|
    requires forall v :: 0 <= v < |out| ==> inDegree[v] == InDegree(out, v)
    ensures Distinct(order) && (forall v :: v in order ==> v < |out|)
    ensures Respects(out, order) && Stuck(out, order)
  {
    var remaining := inDegree;
    var queue := Ready(out, remaining);
    order := [];
    while queue != []
      invariant Peeling(out, remaining, order, queue)
      decreases |out| - |order|
    {
      var current := queue[0];
      remaining, queue := Release(out, remaining, order, queue);
      order := order + [current];
      Prefix(order, queue);
      AtMost(order, |out|);
    }
    Prefix(order, queue);
    StuckAtEnd(out, remaining, order);
  }

  /** The nodes without incoming edges. */
  method Ready(out: Lists, remaining: seq<int>) returns (queue: seq<nat>)
    requires InRange(out) && |remaining| == |out|
    requires forall v :: 0 <= v < |out| ==> remaining[v] == InDegree(out, v)
    ensures Peeling(out, remaining, [], queue)
  {
    queue := [];
    for n := 0 to |out|
      invariant Distinct(queue)
      invariant forall i :: 0 <= i < |queue| ==> queue[i] < n
      invariant forall v :: v in queue <==> 0 <= v < n && remaining[v] == 0
    {
      if remaining[n] == 0 {
        queue := queue + [n];
      }
    }
    assert Elements([]) == {};
    assert [] + queue == queue;
  }

  lemma Prefix(order: seq<nat>, queue: seq<nat>)
    requires Distinct(order + queue)
    ensures Distinct(order)
  {
    forall i, j | 0 <= i < j < |order|
      ensures order[i] != order[j]
    {
      assert (order + queue)[i] != (order + queue)[j];
    }
  }

  /** Counting down the edges of the node at the front of the queue. */
  method Release(out: Lists, before: seq<int>, ghost order: seq<nat>, ready: seq<nat>) returns (remaining: seq<int>, queue: seq<nat>)
    requires Peeling(out, before, order, ready) && ready != []
    ensures Peeling(out, remaining, order + [ready[0]], queue)
  {
    var current := ready[0];
    remaining, queue := before, ready[1..];
    ghost var peeled := order + [current];
    assert order + ready == peeled + queue;
    for k := 0 to |out[current]|
      invariant |remaining| == |out|
      invariant forall v :: 0 <= v < |out| ==> remaining[v] == before[v] - Count(out[current][..k], v)
      invariant Distinct(peeled + queue)
      invariant forall i :: 0 <= i < |queue| ==> queue[i] < |out|
      invariant forall v :: 0 <= v < |out| ==> (remaining[v] == 0 <==> v in peeled || v in queue)
    {
      var v := out[current][k];
      NotYetZero(out, before, order, ready, k);
      assert out[current][..k + 1][..k] == out[current][..k];
      remaining := remaining[v := remaining[v] - 1];
      if remaining[v] == 0 {
        Appended(peeled, queue, v);
        queue := queue + [v];
      }
    }
    assert out[current][..|out[current]|] == out[current];
    Released(out, before, order, ready);
  }

  /** An edge of the node being peeled is still counted. */
  lemma NotYetZero(out: Lists, remaining: seq<int>, order: seq<nat>, queue: seq<nat>, k: nat)
    requires Peeling(out, remaining, order, queue) && queue != [] && k < |out[queue[0]]|
    ensures var list := out[queue[0]]; list[k] < |out| && remaining[list[k]] - Count(list[..k], list[k]) > 0
  {
    var current := queue[0];
    var v := out[current][k];
    FrontIsNew(order, queue);
    PendingDone(out, Elements(order), v, |out|, current);
    CountPrefix(out[current], v, k + 1);
    assert out[current][..k + 1][..k] == out[current][..k];
  }

  lemma FrontIsNew(order: seq<nat>, queue: seq<nat>)
    requires queue != [] && Distinct(order + queue)
    ensures queue[0] !in order
    ensures Elements(order + [queue[0]]) == Elements(order) + {queue[0]}
  {
    assert (order + queue)[|order|] == queue[0];
    forall i | 0 <= i < |order|
      ensures order[i] != queue[0]
    {
      assert (order + queue)[i] == order[i];
    }
  }

  lemma {:induction false} CountPrefix(list: seq<nat>, v: nat, k: nat)
    requires k <= |list|
    ensures Count(list[..k], v) <= Count(list, v)
  {
    if k == |list| {
      assert list[..k] == list;
    } else {
      assert list[..|list| - 1][..k] == list[..k];
      CountPrefix(list[..|list| - 1], v, k);
    }
  }

  lemma Appended(peeled: seq<nat>, queue: seq<nat>, v: nat)
    requires Distinct(peeled + queue) && v !in peeled && v !in queue
    ensures Distinct(peeled + (queue + [v]))
  {
    assert peeled + (queue + [v]) == (peeled + queue) + [v];
  }

  /** Peeling a node without pending edges keeps the counts and the order. */
  lemma Released(out: Lists, remaining: seq<int>, order: seq<nat>, queue: seq<nat>)
    requires Peeling(out, remaining, order, queue) && queue != []
    ensures var current := queue[0];
            && current < |out|
            && Respects(out, order + [current])
            && forall v :: 0 <= v < |out| ==>
                 Pending(out, Elements(order + [current]), v, |out|) == remaining[v] - Count(out[current], v)
  {
    var current := queue[0];
    FrontIsNew(order, queue);
    forall v | 0 <= v < |out|
      ensures Pending(out, Elements(order + [current]), v, |out|) == remaining[v] - Count(out[current], v)
    {
      PendingDone(out, Elements(order), v, |out|, current);
    }
    PendingZero(out, Elements(order), current, |out|);
    RespectsMore(out, order, current);
  }

  lemma RespectsMore(out: Lists, order: seq<nat>, current: nat)
    requires Respects(out, order) && forall u :: 0 <= u < |out| && u !in Elements(order) ==> current !in out[u]
    ensures Respects(out, order + [current])
  {
    var longer := order + [current];
    forall i, u | 0 <= i < |longer| && Edge(out, u, longer[i])
      ensures u in longer[..i]
    {
      if i < |order| {
        assert longer[..i] == order[..i];
      } else {
        assert longer[..i] == order;
      }
    }
  }

  /** Distinct numbers below n are at most n. */
  lemma {:induction false} AtMost(order: seq<nat>, n: nat)
    requires Distinct(order) && forall v :: v in order ==> v < n
    ensures |order| <= n
  {
    SizeOf(order);
    Below(n);
    SubsetSize(Elements(order), UpTo(n));
  }

  lemma {:induction false} SizeOf(order: seq<nat>)
    requires Distinct(order)
    ensures |Elements(order)| == |order|
  {
    if order != [] {
      var front, last := order[..|order| - 1], order[|order| - 1];
      SizeOf(front);
      assert order == front + [last];
      assert Elements(order) == Elements(front) + {last};
    }
  }

  function UpTo(n: nat): set<nat> {
    if n == 0 then {} else UpTo(n - 1) + {n - 1}
  }

  lemma {:induction false} Below(n: nat)
    ensures |UpTo(n)| == n
    ensures forall v :: v in UpTo(n) <==> 0 <= v < n
  {
    if n > 0 {
      Below(n - 1);
    }
  }

  lemma {:induction false} SubsetSize(a: set<nat>, b: set<nat>)
    requires a <= b
    ensures |a| <= |b|
  {
    if a != {} {
      var x :| x in a;
      SubsetSize(a - {x}, b - {x});
    }
  }

  lemma StuckAtEnd(out: Lists, remaining: seq<int>, order: seq<nat>)
    requires Peeling(out, remaining, order, [])
    ensures Stuck(out, order)
  {
    assert order + [] == order;
    forall v | 0 <= v < |out| && v !in order
      ensures Waits(out, order, v)
    {
      PendingZero(out, Elements(order), v, |out|);
      var u :| 0 <= u < |out| && u !in Elements(order) && v in out[u];
      assert Edge(out, u, v);
    }
  }

  // ---- What the order decides ----

  /** A walk ends later in a complete order than it starts. */
  lemma {:induction false} WalkRises(out: Lists, order: seq<nat>, path: seq<nat>, i: nat, j: nat)
    requires Respects(out, order) && Distinct(order) && Walk(out, path)
    requires i < |order| && j < |order| && order[i] == path[0] && order[j] == path[|path| - 1]
    requires forall v :: 0 <= v < |out| ==> v in order
    ensures i <= j && (|path| > 1 ==> i < j)
    decreases |path|
  {
    if |path| == 1 {
      assert i == j;
    } else {
      var u := path[|path| - 2];
      assert Steps(out, path, |path| - 2);
      assert u in order[..j];
      var k :| 0 <= k < j && order[k] == u;
      var front := path[..|path| - 1];
      assert Walk(out, front) by {
        forall m | 0 <= m < |front| - 1
          ensures Steps(out, front, m)
        {
          assert Steps(out, path, m);
        }
      }
      WalkRises(out, order, front, i, k);
    }
  }

  /** A walk backwards among the nodes left over, as long as one likes. */
  lemma {:induction false} WalkBack(out: Lists, order: seq<nat>, v: nat, n: nat) returns (path: seq<nat>)
    requires Stuck(out, order) && v < |out| && v !in order
    ensures Walk(out, path) && |path| == n + 1 && path[n] == v
    ensures forall i :: 0 <= i < |path| ==> path[i] < |out|
    decreases n
  {
    if n == 0 {
      path := [v];
    } else {
      assert Waits(out, order, v);
      var u: nat :| Edge(out, u, v) && u !in order;
      var before := WalkBack(out, order, u, n - 1);
      path := before + [v];
      forall i | 0 <= i < |path| - 1
        ensures Steps(out, path, i)
      {
        if i < |before| - 1 {
          assert Steps(out, before, i);
        }
      }
    }
  }

  /** A long walk visits some node twice. */
  lemma Repeats(path: seq<nat>, n: nat) returns (i: nat, j: nat)
    requires |path| > n && forall k :: 0 <= k < |path| ==> path[k] < n
    ensures i < j < |path| && path[i] == path[j]
  {
    if Distinct(path) {
      AtMost(path, n);
    }
    i, j :| 0 <= i < j < |path| && path[i] == path[j];
  }

  /** The peeling is complete if and only if there is no cycle. */
  lemma CompleteIffAcyclic(out: Lists, order: seq<nat>)
    requires Distinct(order) && (forall v :: v in order ==> v < |out|) && Respects(out, order) && Stuck(out, order)
    ensures |order| == |out| <==> Acyclic(out)
    ensures |order| == |out| <==> forall v :: 0 <= v < |out| ==> v in order
  {
    CompleteIsAll(order, |out|);
    if |order| == |out| {
      forall path
        ensures !Cycle(out, path)
      {
        if Cycle(out, path) {
          CycleIsNotOrdered(out, order, path);
        }
      }
    } else {
      var v :| 0 <= v < |out| && v !in order;
      var loop := CycleLeft(out, order, v);
      assert Cycle(out, loop);
    }
  }

  lemma CycleIsNotOrdered(out: Lists, order: seq<nat>, path: seq<nat>)
    requires Respects(out, order) && Distinct(order) && Cycle(out, path)
    ensures !(forall v :: 0 <= v < |out| ==> v in order)
  {
    if forall v :: 0 <= v < |out| ==> v in order {
      assert path[0] in order;
      var i :| 0 <= i < |order| && order[i] == path[0];
      WalkRises(out, order, path, i, i);
    }
  }

  /** Nodes left over contain a cycle. */
  lemma CycleLeft(out: Lists, order: seq<nat>, v: nat) returns (loop: seq<nat>)
    requires Stuck(out, order) && v < |out| && v !in order
    ensures Cycle(out, loop)
  {
    var path := WalkBack(out, order, v, |out|);
    var i, j := Repeats(path, |out|);
    loop := path[i..j + 1];
    forall k | 0 <= k < |loop| - 1
      ensures Steps(out, loop, k)
    {
      assert Steps(out, path, i + k);
    }
  }

  lemma CompleteIsAll(order: seq<nat>, n: nat)
    requires Distinct(order) && forall v :: v in order ==> v < n
    ensures |order| == n <==> forall v :: 0 <= v < n ==> v in order
  {
    SizeOf(order);
    Below(n);
    var all := UpTo(n);
    assert forall v :: v in order <==> v in Elements(order);
    if forall v :: 0 <= v < n ==> v in order {
      assert Elements(order) == all;
    }
    if |order| == n {
      SameSize(Elements(order), all);
      forall v | 0 <= v < n
        ensures v in order
      {
        assert v in all;
      }
    }
  }

  lemma {:induction false} SameSize(a: set<nat>, b: set<nat>)
    requires a <= b && |a| == |b|
    ensures a == b
  {
    if a != b {
      var x :| x in b && x !in a;
      SubsetSize(a, b - {x});
    }
  }
}
