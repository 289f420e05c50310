/**
 With a join the queues need not empty.  The cascade latches a port and looks for end of
 stream, but does not try to schedule: a join that was waiting for the port it closes keeps
 the data on its other ports.

 For every DAG with a join there is a run, started by end-of-stream signals alone, in which
 this happens: no hook has any output, except that the first node to flush into the join
 emits one packet on the way.
 */
module StreamStranded {
  import opened Stacks
  import opened Networks
  import opened StreamEngine
  import opened StreamProof
  import opened StreamResults
  import opened StreamDrain

  // ---- Building runs ----

  /** A set of states that no step leaves. */
  ghost predicate Kept(c: Config, r: State -> bool) {
    forall s, a, s' :: r(s) && NextBy(c, s, a, s') ==> r(s')
  }

  ghost predicate EndsIn(c: Config, run: seq<State>, s: State) {
    IsRun(c, run) && run[|run| - 1] == s
  }

  ghost function Reachable(c: Config): State -> bool {
    s => exists run :: EndsIn(c, run, s)
  }

  lemma ReachableIsKept(c: Config)
    ensures Kept(c, Reachable(c)) && forall s :: Init(c, s) ==> Reachable(c)(s)
  {
    forall s | Init(c, s)
      ensures Reachable(c)(s)
    {
      assert EndsIn(c, [s], s);
    }
    forall s, a, s' | Reachable(c)(s) && NextBy(c, s, a, s')
      ensures Reachable(c)(s')
    {
      var run :| EndsIn(c, run, s);
      Extend(c, run, a, s');
      assert EndsIn(c, run + [s'], s');
    }
  }

  lemma Extend(c: Config, run: seq<State>, a: Action, s: State)
    requires IsRun(c, run) && NextBy(c, run[|run| - 1], a, s)
    ensures IsRun(c, run + [s])
  {
    var run' := run + [s];
    forall i | 0 <= i < |run'| - 1
      ensures Linked(c, run', i)
    {
      if i < |run| - 1 {
        assert Linked(c, run, i);
      } else {
        assert NextBy(c, run'[i], a, run'[i + 1]);
      }
    }
  }

  lemma Witness(c: Config, s: State) returns (run: seq<State>)
    requires Reachable(c)(s)
    ensures EndsIn(c, run, s)
  {
    run :| EndsIn(c, run, s);
  }

  /** A thread of a state of the set, and the join that is to be stranded. */
  datatype Scene = Scene(c: Config, v: nat, r: State -> bool, stacks: seq<seq<Frame>>, t: nat) {
    ghost predicate Ok() {
      Kept(c, r) && t < |stacks| && HasJoin(c, v)
    }

    /** The state is in the set, if the thread has this stack. */
    predicate At(sh: Shared, stack: seq<Frame>) {
      t < |stacks| && r(State(sh, stacks[t := stack]))
    }
  }

  ghost predicate HasJoin(c: Config, v: nat) {
    ValidConfig(c) && PortsBounded(c) && c.capacity > 0 && v < |c.net.ports| && !IsSource(c.net, v) && c.net.ports[v] >= 2
  }

  lemma Go(x: Scene, sh: Shared, rest: seq<Frame>, f: Frame, eff: Effect, next: Then<Frame>)
    requires x.Ok() && x.At(sh, rest + [f])
    requires WellFormed(x.c, sh) && Applies(sh, eff) && InRange(x.c, f) && Fire(x.c, sh, f, eff, next, NoThread)
    ensures x.At(Apply(sh, eff), rest + Frames(next))
  {
    var s := State(sh, x.stacks[x.t := rest + [f]]);
    var s' := State(Apply(sh, eff), Fired(s.stacks, x.t, next, NoThread));
    assert NextBy(x.c, s, Thread(x.t, eff, next, NoThread), s');
    assert s'.stacks == x.stacks[x.t := rest + Frames(next)];
  }

  lemma GoTo(x: Scene, sh: Shared, rest: seq<Frame>, f: Frame, eff: Effect, g: Frame)
    requires x.Ok() && x.At(sh, rest + [f])
    requires WellFormed(x.c, sh) && Applies(sh, eff) && InRange(x.c, f) && Fire(x.c, sh, f, eff, Goto(g), NoThread)
    ensures x.At(Apply(sh, eff), rest + [g])
  {
    Go(x, sh, rest, f, eff, Goto(g));
  }

  lemma Back(x: Scene, sh: Shared, rest: seq<Frame>, f: Frame, eff: Effect)
    requires x.Ok() && x.At(sh, rest + [f])
    requires WellFormed(x.c, sh) && Applies(sh, eff) && InRange(x.c, f) && Fire(x.c, sh, f, eff, Return, NoThread)
    ensures x.At(Apply(sh, eff), rest)
  {
    Go(x, sh, rest, f, eff, Return);
    assert rest + [] == rest;
  }

  lemma Into(x: Scene, sh: Shared, rest: seq<Frame>, f: Frame, eff: Effect, g: Frame, h: Frame)
    requires x.Ok() && x.At(sh, rest + [f])
    requires WellFormed(x.c, sh) && Applies(sh, eff) && InRange(x.c, f) && Fire(x.c, sh, f, eff, Call(g, h), NoThread)
    ensures x.At(Apply(sh, eff), (rest + [g]) + [h])
  {
    Go(x, sh, rest, f, eff, Call(g, h));
    assert rest + Frames(Call(g, h)) == (rest + [g]) + [h];
  }

  // ---- States between flushes ----

  predicate EmptyPort(p: Port) {
    p.enq == p.deq == 0
  }

  /** The join has not been reached: nothing queued and no port latched. */
  predicate Untouched(sh: Shared, v: nat)
    requires v < |sh.nodes|
  {
    forall i :: 0 <= i < |sh.nodes[v].ports| ==> sh.nodes[v].ports[i] == Port(0, 0, false)
  }

  /** The join holds one packet, on port `p`. */
  predicate HoldsAt(sh: Shared, v: nat, p: nat)
    requires v < |sh.nodes|
  {
    && p < |sh.nodes[v].ports| && sh.nodes[v].ports[p].enq == 1 && sh.nodes[v].ports[p].deq == 0
    && forall i :: 0 <= i < |sh.nodes[v].ports| && i != p ==> EmptyPort(sh.nodes[v].ports[i])
  }

  predicate Holds(sh: Shared, v: nat)
    requires v < |sh.nodes|
  {
    exists p :: 0 <= p < |sh.nodes[v].ports| && HoldsAt(sh, v, p)
  }

  predicate Quiet(c: Config, v: nat, sh: Shared) {
    && WellFormed(c, sh) && v < |sh.nodes|
    && (forall u, i :: 0 <= u < |sh.nodes| && 0 <= i < |sh.nodes[u].ports| && u != v ==> EmptyPort(sh.nodes[u].ports[i]))
    && (Untouched(sh, v) || Holds(sh, v))
  }

  /** Every node is waiting, or has flushed and is done. */
  predicate Settled(node: Node) {
    if node.propagated then node.exec == Completed else node.exec == Waiting
  }

  predicate Calm(c: Config, v: nat, sh: Shared) {
    Quiet(c, v, sh) && forall u :: 0 <= u < |sh.nodes| ==> Settled(sh.nodes[u])
  }

  /** What is latched stays latched, and what the join holds it keeps. */
  predicate Stays(v: nat, sh: Shared, sh': Shared)
    requires v < |sh.nodes|
  {
    && |sh'.nodes| == |sh.nodes|
    && (forall u :: 0 <= u < |sh.nodes| ==> LatchesStay(sh.nodes[u], sh'.nodes[u]))
    && (Holds(sh, v) ==> Holds(sh', v))
  }

  predicate LatchesStay(n: Node, n': Node) {
    |n'.ports| == |n.ports| && forall i :: 0 <= i < |n.ports| && n.ports[i].latched ==> n'.ports[i].latched
  }

  lemma JoinIsNotDrained(c: Config, v: nat, sh: Shared)
    requires Quiet(c, v, sh) && c.net.ports[v] >= 2
    ensures !AllDrained(sh, v)
  {
    if Untouched(sh, v) {
      assert sh.nodes[v].ports[0] == Port(0, 0, false);
    } else {
      var p :| 0 <= p < |sh.nodes[v].ports| && HoldsAt(sh, v, p);
      assert !sh.nodes[v].ports[p].Drained();
    }
  }

  // ---- A packet for the join ----

  /** The readiness count finds one of several open ports ready. */
  lemma {:induction false} CountFrom(x: Scene, sh: Shared, rest: seq<Frame>, p: nat, i: nat)
    requires x.Ok() && Quiet(x.c, x.v, sh) && HoldsAt(sh, x.v, p) && i <= x.c.net.ports[x.v]
    requires forall j :: 0 <= j < |sh.nodes[x.v].ports| ==> !sh.nodes[x.v].ports[j].latched
    requires x.At(sh, rest + [TryCount(x.v, i, AtLatch, i, if i > p then 1 else 0)])
    ensures x.At(sh, rest)
    decreases x.c.net.ports[x.v] - i
  {
    var v, ready := x.v, if i > p then 1 else 0;
    if i == x.c.net.ports[v] {
      Back(x, sh, rest, TryCount(v, i, AtLatch, i, ready), Nop);
    } else {
      var enq := sh.nodes[v].ports[i].enq;
      assert i != p ==> EmptyPort(sh.nodes[v].ports[i]);
      GoTo(x, sh, rest, TryCount(v, i, AtLatch, i, ready), Nop, TryCount(v, i, SizeEnq, i + 1, ready));
      GoTo(x, sh, rest, TryCount(v, i, SizeEnq, i + 1, ready), Nop, TryCount(v, i, SizeDeq(enq), i + 1, ready));
      GoTo(x, sh, rest, TryCount(v, i, SizeDeq(enq), i + 1, ready), Nop, TryCount(v, i + 1, AtLatch, i + 1, if i + 1 > p then 1 else 0));
      CountFrom(x, sh, rest, p, i + 1);
    }
  }

  /** The join is not scheduled for one packet. */
  lemma TryJoin(x: Scene, sh: Shared, rest: seq<Frame>, p: nat)
    requires x.Ok() && Quiet(x.c, x.v, sh) && HoldsAt(sh, x.v, p)
    requires forall j :: 0 <= j < |sh.nodes[x.v].ports| ==> !sh.nodes[x.v].ports[j].latched
    requires x.At(sh, rest + [TryState(x.v)])
    ensures x.At(sh, rest)
  {
    var v := x.v;
    if sh.nodes[v].exec != Waiting {
      Back(x, sh, rest, TryState(v), Nop);
    } else {
      GoTo(x, sh, rest, TryState(v), Nop, TryScan(v, 0, AtLatch));
      GoTo(x, sh, rest, TryScan(v, 0, AtLatch), Nop, TryCount(v, 0, AtLatch, 0, 0));
      CountFrom(x, sh, rest, p, 0);
    }
  }

  /** Pushing into the untouched join. */
  lemma PushJoin(c: Config, v: nat, sh: Shared, p: nat) returns (sh': Shared)
    requires Quiet(c, v, sh) && Untouched(sh, v) && p < |sh.nodes[v].ports|
    ensures Applies(sh, Push(v, p, 0)) && sh' == Apply(sh, Push(v, p, 0))
    ensures Quiet(c, v, sh') && HoldsAt(sh', v, p) && SameBesides(v, sh, sh')
    ensures forall j :: 0 <= j < |sh'.nodes[v].ports| ==> !sh'.nodes[v].ports[j].latched
  {
    sh' := Apply(sh, Push(v, p, 0));
    assert HoldsAt(sh', v, p);
  }

  /** Nothing but the queues of the join differs. */
  predicate SameBesides(v: nat, sh: Shared, sh': Shared) {
    && |sh'.nodes| == |sh.nodes|
    && (forall u :: 0 <= u < |sh.nodes| && u != v ==> sh'.nodes[u] == sh.nodes[u])
    && (v < |sh.nodes| ==>
          && sh'.nodes[v].exec == sh.nodes[v].exec && sh'.nodes[v].propagated == sh.nodes[v].propagated
          && LatchesStay(sh.nodes[v], sh'.nodes[v]))
  }

  /** Some edge of `w` from number `k` on ends at the join. */
  predicate Feeds(c: Config, w: nat, v: nat, k: nat)
    requires w < |c.net.out|
  {
    exists j :: k <= j < |c.net.out[w]| && c.net.out[w][j].dst == v
  }

  /** The outputs of a flush: one packet for the join if it has not been reached, otherwise none. */
  predicate OutputsFor(c: Config, v: nat, sh: Shared, w: nat, k: nat)
    requires v < |sh.nodes| && w < |sh.nodes| && w < |c.net.out|
  {
    var outs := sh.nodes[w].outs;
    || outs == {}
    || (Untouched(sh, v) && exists j :: k <= j < |c.net.out[w]| && outs == {j} && c.net.out[w][j].dst == v)
  }

  /** One edge: nothing, or the packet for the untouched join. */
  lemma PropagateEdge(x: Scene, sh: Shared, rest: seq<Frame>, w: nat, k: nat) returns (sh': Shared)
    requires x.Ok() && Quiet(x.c, x.v, sh) && w < |x.c.net.out| && w != x.v && k < |x.c.net.out[w]|
    requires OutputsFor(x.c, x.v, sh, w, k) || (k !in sh.nodes[w].outs && Holds(sh, x.v))
    requires x.At(sh, rest + [Propagate(w, k, true)])
    ensures x.At(sh', rest + [Propagate(w, k + 1, true)]) && Quiet(x.c, x.v, sh') && SameBesides(x.v, sh, sh')
    ensures if k in sh.nodes[w].outs then Holds(sh', x.v) else sh' == sh
  {
    var e, f, g := x.c.net.out[w][k], Propagate(w, k, true), Propagate(w, k + 1, true);
    assert IsEdge(x.c.net, w, k);
    sh' := sh;
    if k in sh.nodes[w].outs {
      sh' := PushJoin(x.c, x.v, sh, e.port);
      Into(x, sh, rest, f, Push(e.dst, e.port, 0), g, TryState(x.v));
      TryJoin(x, sh', rest + [g], e.port);
    } else {
      GoTo(x, sh, rest, f, Nop, g);
    }
  }

  lemma {:induction false} PropagateAll(x: Scene, sh: Shared, rest: seq<Frame>, w: nat, k: nat) returns (sh': Shared)
    requires x.Ok() && Quiet(x.c, x.v, sh) && w < |x.c.net.out| && w != x.v && k <= |x.c.net.out[w]|
    requires OutputsFor(x.c, x.v, sh, w, k) || (Holds(sh, x.v) && forall j :: k <= j < |x.c.net.out[w]| ==> j !in sh.nodes[w].outs)
    requires x.At(sh, rest + [Propagate(w, k, true)])
    ensures x.At(sh', rest + [FlushStore(w)]) && Quiet(x.c, x.v, sh') && SameBesides(x.v, sh, sh')
    ensures Holds(sh, x.v) || sh.nodes[w].outs != {} ==> Holds(sh', x.v)
    decreases |x.c.net.out[w]| - k
  {
    if k == |x.c.net.out[w]| {
      GoTo(x, sh, rest, Propagate(w, k, true), Nop, FlushStore(w));
      sh' := sh;
    } else {
      var sh1 := PropagateEdge(x, sh, rest, w, k);
      sh' := PropagateAll(x, sh1, rest, w, k + 1);
    }
  }

  // ---- One node's end of stream ----

  /** The look at one port. */
  lemma ScanPort(x: Scene, sh: Shared, rest: seq<Frame>, w: nat, retry: bool, i: nat)
    requires x.Ok() && WellFormed(x.c, sh) && w < |sh.nodes| && i < |sh.nodes[w].ports|
    requires x.At(sh, rest + [CheckScan(w, retry, i, AtLatch)])
    ensures if sh.nodes[w].ports[i].latched then x.At(sh, rest + [CheckScan(w, retry, i, DrainDeq(sh.nodes[w].ports[i].enq))])
            else x.At(sh, rest + Frames(ReturnFalse(w, retry)))
  {
    if sh.nodes[w].ports[i].latched {
      GoTo(x, sh, rest, CheckScan(w, retry, i, AtLatch), Nop, CheckScan(w, retry, i, DrainEnq));
      GoTo(x, sh, rest, CheckScan(w, retry, i, DrainEnq), Nop, CheckScan(w, retry, i, DrainDeq(sh.nodes[w].ports[i].enq)));
    } else {
      Go(x, sh, rest, CheckScan(w, retry, i, AtLatch), Nop, ReturnFalse(w, retry));
    }
  }

  lemma {:induction false} ScanFrom(x: Scene, sh: Shared, rest: seq<Frame>, w: nat, retry: bool, i: nat)
    requires x.Ok() && WellFormed(x.c, sh) && w < |sh.nodes| && i < |sh.nodes[w].ports|
    requires forall j :: 0 <= j < |sh.nodes[w].ports| ==> sh.nodes[w].ports[j].deq <= sh.nodes[w].ports[j].enq
    requires x.At(sh, rest + [CheckScan(w, retry, i, AtLatch)])
    ensures if forall j :: i <= j < |sh.nodes[w].ports| ==> sh.nodes[w].ports[j].Drained() then x.At(sh, rest + [CheckWaiting(w, retry)])
            else x.At(sh, rest + Frames(ReturnFalse(w, retry)))
    decreases |sh.nodes[w].ports| - i
  {
    var p, ports := sh.nodes[w].ports[i], |sh.nodes[w].ports|;
    ScanPort(x, sh, rest, w, retry, i);
    if p.latched {
      var f := CheckScan(w, retry, i, DrainDeq(p.enq));
      if p.deq < p.enq {
        Go(x, sh, rest, f, Nop, ReturnFalse(w, retry));
      } else if i + 1 < ports {
        GoTo(x, sh, rest, f, Nop, CheckScan(w, retry, i + 1, AtLatch));
        ScanFrom(x, sh, rest, w, retry, i + 1);
      } else {
        GoTo(x, sh, rest, f, Nop, CheckWaiting(w, retry));
      }
    }
  }

  /** Changing a node other than the join in anything but its ports. */
  lemma OtherNode(c: Config, v: nat, sh: Shared, w: nat, node: Node)
    requires Quiet(c, v, sh) && w < |sh.nodes| && w != v && node.ports == sh.nodes[w].ports
    ensures Quiet(c, v, WithNode(sh, w, node)) && Stays(v, sh, WithNode(sh, w, node))
    ensures Holds(sh, v) <==> Holds(WithNode(sh, w, node), v)
  {
    var sh' := WithNode(sh, w, node);
    assert sh'.nodes[v] == sh.nodes[v];
    if p :| 0 <= p < |sh.nodes[v].ports| && HoldsAt(sh, v, p) {
      assert HoldsAt(sh', v, p);
    }
    if p :| 0 <= p < |sh'.nodes[v].ports| && HoldsAt(sh', v, p) {
      assert HoldsAt(sh, v, p);
    }
  }

  /** Claiming the node. */
  lemma Claims(x: Scene, sh: Shared, rest: seq<Frame>, w: nat, retry: bool) returns (sh': Shared)
    requires x.Ok() && Calm(x.c, x.v, sh) && w < |sh.nodes| && w != x.v && !sh.nodes[w].propagated
    requires x.At(sh, rest + [CheckWaiting(w, retry)])
    ensures x.At(sh', rest + [Claimed(w, retry)]) && WellFormed(x.c, sh')
    ensures sh' == WithNode(sh, w, sh.nodes[w].(exec := Executing))
  {
    assert Settled(sh.nodes[w]);
    GoTo(x, sh, rest, CheckWaiting(w, retry), SetExec(w, Executing), Claimed(w, retry));
    sh' := Apply(sh, SetExec(w, Executing));
  }

  /** Marking the flush and running the hook, which has outputs for the edges `outs`. */
  lemma Hook(x: Scene, sh: Shared, rest: seq<Frame>, w: nat, retry: bool, outs: set<nat>) returns (sh': Shared)
    requires x.Ok() && WellFormed(x.c, sh) && w < |sh.nodes| && !sh.nodes[w].propagated && x.At(sh, rest + [Claimed(w, retry)])
    ensures x.At(sh', rest + [Propagate(w, 0, true)])
    ensures sh' == WithNode(sh, w, sh.nodes[w].(propagated := true, flushes := sh.nodes[w].flushes + 1, outs := outs))
  {
    GoTo(x, sh, rest, Claimed(w, retry), MarkFlush(w), Flush(w));
    var sh1 := Apply(sh, MarkFlush(w));
    GoTo(x, sh1, rest, Flush(w), Emit(w, outs), Propagate(w, 0, true));
    sh' := Apply(sh1, Emit(w, outs));
  }

  /** The node while it flushes. */
  function Flushing(n: Node, outs: set<nat>): Node {
    n.(exec := Executing, propagated := true, flushes := n.flushes + 1, outs := outs)
  }

  /** The edge on which the flush of `w` reaches the join, if it has not been reached. */
  lemma Outputs(c: Config, v: nat, sh: Shared, w: nat) returns (outs: set<nat>)
    requires Quiet(c, v, sh) && w < |sh.nodes|
    ensures outs == {} || (Untouched(sh, v) && exists j :: 0 <= j < |c.net.out[w]| && outs == {j} && c.net.out[w][j].dst == v)
    ensures Feeds(c, w, v, 0) && !Holds(sh, v) ==> outs != {}
  {
    outs := {};
    if Feeds(c, w, v, 0) && Untouched(sh, v) {
      var j :| 0 <= j < |c.net.out[w]| && c.net.out[w][j].dst == v;
      outs := {j};
    }
  }

  lemma MarkNode(x: Scene, sh: Shared, rest: seq<Frame>, w: nat, retry: bool, outs: set<nat>) returns (sh': Shared)
    requires x.Ok() && Calm(x.c, x.v, sh) && w < |sh.nodes| && w != x.v && !sh.nodes[w].propagated
    requires x.At(sh, rest + [CheckWaiting(w, retry)])
    ensures x.At(sh', rest + [Propagate(w, 0, true)]) && Quiet(x.c, x.v, sh') && Stays(x.v, sh, sh')
    ensures sh' == WithNode(sh, w, Flushing(sh.nodes[w], outs))
  {
    var n := sh.nodes[w];
    var sh1 := Claims(x, sh, rest, w, retry);
    sh' := Hook(x, sh1, rest, w, retry, outs);
    assert sh'.nodes == sh.nodes[w := Flushing(n, outs)];
    OtherNode(x.c, x.v, sh, w, sh'.nodes[w]);
  }

  /** The flush of a node, up to the cascade. */
  lemma FlushNode(x: Scene, sh: Shared, rest: seq<Frame>, w: nat, retry: bool) returns (sh': Shared)
    requires x.Ok() && Calm(x.c, x.v, sh) && w < |sh.nodes| && w != x.v && !sh.nodes[w].propagated
    requires x.At(sh, rest + [CheckWaiting(w, retry)])
    ensures x.At(sh', rest + [Cascade(w, 0)]) && Calm(x.c, x.v, sh') && Stays(x.v, sh, sh')
    ensures Feeds(x.c, w, x.v, 0) ==> Holds(sh', x.v)
  {
    var outs := Outputs(x.c, x.v, sh, w);
    var sh1 := MarkNode(x, sh, rest, w, retry, outs);
    assert sh1.nodes[x.v] == sh.nodes[x.v];
    var sh2 := PropagateAll(x, sh1, rest, w, 0);
    GoTo(x, sh2, rest, FlushStore(w), SetExec(w, Completed), Cascade(w, 0));
    sh' := Apply(sh2, SetExec(w, Completed));
    OtherNode(x.c, x.v, sh2, w, sh2.nodes[w].(exec := Completed));
    AfterFlush(x.c, x.v, sh, sh1, sh2, sh', w, outs);
  }

  lemma AfterFlush(c: Config, v: nat, sh: Shared, sh1: Shared, sh2: Shared, sh': Shared, w: nat, outs: set<nat>)
    requires Calm(c, v, sh) && w < |sh.nodes| && w != v
    requires sh1 == WithNode(sh, w, Flushing(sh.nodes[w], outs))
    requires Quiet(c, v, sh2) && SameBesides(v, sh1, sh2) && (Holds(sh, v) ==> Holds(sh2, v))
    requires sh' == WithNode(sh2, w, sh2.nodes[w].(exec := Completed)) && Quiet(c, v, sh') && (Holds(sh2, v) ==> Holds(sh', v))
    ensures Calm(c, v, sh') && Stays(v, sh, sh')
  {
    forall u | 0 <= u < |sh'.nodes|
      ensures Settled(sh'.nodes[u]) && LatchesStay(sh.nodes[u], sh'.nodes[u])
    {
      assert Settled(sh.nodes[u]);
    }
  }

  /** Counting a sink, and the notification after the last one. */
  lemma Finish(x: Scene, sh: Shared, rest: seq<Frame>, w: nat) returns (sh': Shared)
    requires x.Ok() && WellFormed(x.c, sh) && w < |x.c.net.out| && x.At(sh, rest + [Cascade(w, |x.c.net.out[w]|)])
    ensures x.At(sh', rest) && sh'.nodes == sh.nodes
  {
    var f := Cascade(w, |x.c.net.out[w]|);
    if !IsSink(x.c.net, w) {
      Back(x, sh, rest, f, Nop);
      sh' := sh;
    } else {
      GoTo(x, sh, rest, f, Nop, RecordSink(w));
      sh' := Apply(sh, AddSink);
      var all := CountSinks(x.c.net, |x.c.net.out|);
      if all == 0 || sh.sinksAtEos + 1 < all {
        Back(x, sh, rest, RecordSink(w), AddSink);
      } else {
        GoTo(x, sh, rest, RecordSink(w), AddSink, ReachExchange);
        sh' := Notify(x, sh', rest);
      }
    }
  }

  lemma Notify(x: Scene, sh: Shared, rest: seq<Frame>) returns (sh': Shared)
    requires x.Ok() && WellFormed(x.c, sh) && x.At(sh, rest + [ReachExchange])
    ensures x.At(sh', rest) && sh'.nodes == sh.nodes
  {
    if sh.reached {
      Back(x, sh, rest, ReachExchange, Nop);
      sh' := sh;
    } else {
      GoTo(x, sh, rest, ReachExchange, SetReached, ReachCallback);
      var sh1 := Apply(sh, SetReached);
      Back(x, sh1, rest, ReachCallback, CallBack);
      sh' := Apply(sh1, CallBack);
    }
  }

  lemma SameNodes(c: Config, v: nat, sh: Shared, sh': Shared)
    requires Calm(c, v, sh) && sh'.nodes == sh.nodes
    ensures Calm(c, v, sh') && Stays(v, sh, sh')
  {
    if p :| 0 <= p < |sh.nodes[v].ports| && HoldsAt(sh, v, p) {
      assert HoldsAt(sh', v, p);
    }
  }

  lemma LatchKeeps(c: Config, v: nat, sh: Shared, u: nat, i: nat)
    requires Calm(c, v, sh) && HasPort(sh, u, i) && (u == v ==> Holds(sh, v))
    ensures Calm(c, v, Apply(sh, Latch(u, i))) && Stays(v, sh, Apply(sh, Latch(u, i)))
  {
    var sh' := Apply(sh, Latch(u, i));
    if p :| 0 <= p < |sh.nodes[v].ports| && HoldsAt(sh, v, p) {
      assert HoldsAt(sh', v, p);
    }
    forall w | 0 <= w < |sh.nodes|
      ensures Settled(sh'.nodes[w])
    {
      assert Settled(sh.nodes[w]);
    }
  }

  lemma StaysOn(v: nat, a: Shared, b: Shared, c: Shared)
    requires v < |a.nodes| && Stays(v, a, b) && Stays(v, b, c)
    ensures Stays(v, a, c)
  {
    forall u | 0 <= u < |a.nodes|
      ensures LatchesStay(a.nodes[u], c.nodes[u])
    {
      assert LatchesStay(a.nodes[u], b.nodes[u]) && LatchesStay(b.nodes[u], c.nodes[u]);
    }
  }

  /** The cascade of a flushed node, with all that it sets off. */
  lemma {:induction false} CascadeFrom(x: Scene, rank: seq<nat>, sh: Shared, rest: seq<Frame>, w: nat, k: nat) returns (sh': Shared)
    requires x.Ok() && Ranked(x.c.net, rank) && Calm(x.c, x.v, sh) && w < |x.c.net.out| && k <= |x.c.net.out[w]|
    requires Feeds(x.c, w, x.v, 0) ==> Holds(sh, x.v)
    requires x.At(sh, rest + [Cascade(w, k)])
    ensures x.At(sh', rest) && Calm(x.c, x.v, sh') && Stays(x.v, sh, sh')
    decreases MaxRank(rank) - rank[w], |x.c.net.out[w]| - k
  {
    if k == |x.c.net.out[w]| {
      sh' := Finish(x, sh, rest, w);
      SameNodes(x.c, x.v, sh, sh');
    } else {
      var e := x.c.net.out[w][k];
      assert IsEdge(x.c.net, w, k);
      MaxRankBounds(rank, w);
      MaxRankBounds(rank, e.dst);
      LatchKeeps(x.c, x.v, sh, e.dst, e.port);
      Into(x, sh, rest, Cascade(w, k), Latch(e.dst, e.port), Cascade(w, k + 1), Check(e.dst, false));
      var sh1 := Apply(sh, Latch(e.dst, e.port));
      var sh2 := Settle(x, rank, sh1, rest + [Cascade(w, k + 1)], e.dst, false);
      sh' := CascadeFrom(x, rank, sh2, rest, w, k + 1);
      StaysOn(x.v, sh, sh1, sh2);
      StaysOn(x.v, sh, sh2, sh');
    }
  }

  /** A look at a node's end of stream, with all that it sets off. */
  lemma {:induction false} Settle(x: Scene, rank: seq<nat>, sh: Shared, rest: seq<Frame>, w: nat, retry: bool) returns (sh': Shared)
    requires x.Ok() && Ranked(x.c.net, rank) && Calm(x.c, x.v, sh) && w < |x.c.net.out| && (retry ==> AllDrained(sh, w))
    requires x.At(sh, rest + [Check(w, retry)])
    ensures x.At(sh', rest) && Calm(x.c, x.v, sh') && Stays(x.v, sh, sh')
    decreases MaxRank(rank) - rank[w], |x.c.net.out[w]| + 1
  {
    sh' := sh;
    if sh.nodes[w].propagated {
      SettledAlready(x, sh, rest, w, retry);
    } else {
      Looks(x, sh, rest, w, retry);
      if AllDrained(sh, w) {
        JoinIsNotDrained(x.c, x.v, sh);
        var sh1 := FlushNode(x, sh, rest, w, retry);
        sh' := CascadeFrom(x, rank, sh1, rest, w, 0);
        StaysOn(x.v, sh, sh1, sh');
      }
    }
  }

  lemma SettledAlready(x: Scene, sh: Shared, rest: seq<Frame>, w: nat, retry: bool)
    requires x.Ok() && Calm(x.c, x.v, sh) && w < |sh.nodes| && sh.nodes[w].propagated && x.At(sh, rest + [Check(w, retry)])
    ensures x.At(sh, rest)
  {
    assert Settled(sh.nodes[w]);
    if retry {
      GoTo(x, sh, rest, Check(w, retry), Nop, TryState(w));
      Back(x, sh, rest, TryState(w), Nop);
    } else {
      Back(x, sh, rest, Check(w, retry), Nop);
    }
  }

  lemma QueuesOrdered(c: Config, v: nat, sh: Shared, w: nat)
    requires Quiet(c, v, sh) && w < |sh.nodes|
    ensures forall j :: 0 <= j < |sh.nodes[w].ports| ==> sh.nodes[w].ports[j].deq <= sh.nodes[w].ports[j].enq
  {
    if w == v && !Untouched(sh, v) {
      var p :| 0 <= p < |sh.nodes[v].ports| && HoldsAt(sh, v, p);
    }
    forall j | 0 <= j < |sh.nodes[w].ports|
      ensures sh.nodes[w].ports[j].deq <= sh.nodes[w].ports[j].enq
    {
      assert w != v ==> EmptyPort(sh.nodes[w].ports[j]);
    }
  }

  lemma Looks(x: Scene, sh: Shared, rest: seq<Frame>, w: nat, retry: bool)
    requires x.Ok() && Calm(x.c, x.v, sh) && w < |sh.nodes| && !sh.nodes[w].propagated && (retry ==> AllDrained(sh, w))
    requires x.At(sh, rest + [Check(w, retry)])
    ensures if AllDrained(sh, w) then x.At(sh, rest + [CheckWaiting(w, retry)]) else x.At(sh, rest)
  {
    QueuesOrdered(x.c, x.v, sh, w);
    GoTo(x, sh, rest, Check(w, retry), Nop, CheckScan(w, retry, 0, AtLatch));
    ScanFrom(x, sh, rest, w, retry, 0);
    assert rest + Frames(ReturnFalse(w, false)) == rest;
  }

  // ---- Signals ----

  /** Nothing is running but looks at sources that have been signalled. */
  predicate Looking(c: Config, stack: seq<Frame>) {
    stack == [] || (|stack| == 1 && stack[0].Check? && stack[0].retry && stack[0].v < |c.net.out| && IsSource(c.net, stack[0].v))
  }

  ghost predicate AllLooking(c: Config, stacks: seq<seq<Frame>>) {
    forall t :: 0 <= t < |stacks| ==> Looking(c, stacks[t])
  }

  /** The first `n` ports of source `u` have been signalled. */
  predicate Signalled(sh: Shared, u: nat, n: nat)
    requires u < |sh.nodes|
  {
    forall i :: 0 <= i < |sh.nodes[u].ports| && i < n ==> sh.nodes[u].ports[i].latched
  }

  predicate SignalledBelow(c: Config, sh: Shared, n: nat) {
    forall u :: 0 <= u < |sh.nodes| && u < n && IsSource(c.net, u) ==> Signalled(sh, u, |sh.nodes[u].ports|)
  }

  lemma SignalStays(v: nat, sh: Shared, sh': Shared, u: nat, n: nat)
    requires v < |sh.nodes| && Stays(v, sh, sh') && u < |sh.nodes| && Signalled(sh, u, n)
    ensures Signalled(sh', u, n)
  {
    assert LatchesStay(sh.nodes[u], sh'.nodes[u]);
  }

  lemma SignalsStay(c: Config, v: nat, sh: Shared, sh': Shared, n: nat)
    requires v < |sh.nodes| && Stays(v, sh, sh') && SignalledBelow(c, sh, n)
    ensures SignalledBelow(c, sh', n)
  {
    forall u | 0 <= u < |sh.nodes| && u < n && IsSource(c.net, u)
      ensures Signalled(sh', u, |sh'.nodes[u].ports|)
    {
      SignalStays(v, sh, sh', u, |sh.nodes[u].ports|);
      assert LatchesStay(sh.nodes[u], sh'.nodes[u]);
    }
  }

  lemma Enters(c: Config, r: State -> bool, s: State, eff: Effect, frame: Frame)
    requires Kept(c, r) && r(s) && WellFormed(c, s.sh) && Applies(s.sh, eff) && Enter(c, s.sh, eff, frame)
    ensures r(State(Apply(s.sh, eff), s.stacks + [[frame]]))
  {
    assert NextBy(c, s, Outside(eff, frame), State(Apply(s.sh, eff), s.stacks + [[frame]]));
  }

  /** One port of a source is signalled. */
  lemma SignalPort(c: Config, v: nat, r: State -> bool, s: State, u: nat, i: nat) returns (s': State)
    requires Kept(c, r) && HasJoin(c, v) && r(s) && Calm(c, v, s.sh) && AllLooking(c, s.stacks)
    requires u < |s.sh.nodes| && IsSource(c.net, u) && i < |s.sh.nodes[u].ports| && Signalled(s.sh, u, i)
    ensures r(s') && Calm(c, v, s'.sh) && AllLooking(c, s'.stacks) && Stays(v, s.sh, s'.sh)
    ensures u < |s'.sh.nodes| && Signalled(s'.sh, u, i + 1)
  {
    s' := s;
    if !s.sh.nodes[u].ports[i].latched {
      Enters(c, r, s, Latch(u, i), Check(u, true));
      LatchKeeps(c, v, s.sh, u, i);
      s' := State(Apply(s.sh, Latch(u, i)), s.stacks + [[Check(u, true)]]);
    }
  }

  lemma {:induction false} SignalSource(c: Config, v: nat, r: State -> bool, s: State, u: nat, i: nat) returns (s': State)
    requires Kept(c, r) && HasJoin(c, v) && r(s) && Calm(c, v, s.sh) && AllLooking(c, s.stacks)
    requires u < |s.sh.nodes| && IsSource(c.net, u) && i <= |s.sh.nodes[u].ports| && Signalled(s.sh, u, i)
    ensures r(s') && Calm(c, v, s'.sh) && AllLooking(c, s'.stacks) && Stays(v, s.sh, s'.sh)
    ensures u < |s'.sh.nodes| && Signalled(s'.sh, u, |s'.sh.nodes[u].ports|)
    decreases |s.sh.nodes[u].ports| - i
  {
    if i == |s.sh.nodes[u].ports| {
      s' := s;
    } else {
      var s1 := SignalPort(c, v, r, s, u, i);
      assert LatchesStay(s.sh.nodes[u], s1.sh.nodes[u]);
      s' := SignalSource(c, v, r, s1, u, i + 1);
      StaysOn(v, s.sh, s1.sh, s'.sh);
    }
  }

  lemma {:induction false} SignalAll(c: Config, v: nat, r: State -> bool, s: State, n: nat) returns (s': State)
    requires Kept(c, r) && HasJoin(c, v) && r(s) && Calm(c, v, s.sh) && AllLooking(c, s.stacks) && n <= |s.sh.nodes|
    ensures r(s') && Calm(c, v, s'.sh) && AllLooking(c, s'.stacks) && SignalledBelow(c, s'.sh, n)
  {
    if n == 0 {
      s' := s;
    } else {
      var s1 := SignalAll(c, v, r, s, n - 1);
      if IsSource(c.net, n - 1) {
        s' := SignalSource(c, v, r, s1, n - 1, 0);
        SignalsStay(c, v, s1.sh, s'.sh, n - 1);
      } else {
        s' := s1;
      }
    }
  }

  /** A signalled source has only drained ports. */
  lemma SourceIsDrained(c: Config, v: nat, sh: Shared, u: nat)
    requires HasJoin(c, v) && Calm(c, v, sh) && SignalledBelow(c, sh, |sh.nodes|) && u < |sh.nodes| && IsSource(c.net, u)
    ensures AllDrained(sh, u)
  {
    assert Signalled(sh, u, |sh.nodes[u].ports|);
    forall i | 0 <= i < |sh.nodes[u].ports|
      ensures sh.nodes[u].ports[i].Drained()
    {
      assert EmptyPort(sh.nodes[u].ports[i]);
    }
  }

  /** One of the looks is taken. */
  lemma TakeLook(c: Config, v: nat, rank: seq<nat>, r: State -> bool, s: State, t: nat) returns (s': State)
    requires Kept(c, r) && HasJoin(c, v) && Ranked(c.net, rank) && r(s) && Calm(c, v, s.sh) && AllLooking(c, s.stacks)
    requires SignalledBelow(c, s.sh, |s.sh.nodes|) && t < |s.stacks|
    ensures r(s') && Calm(c, v, s'.sh) && SignalledBelow(c, s'.sh, |s'.sh.nodes|) && s'.stacks == s.stacks[t := []]
  {
    assert Looking(c, s.stacks[t]);
    if s.stacks[t] == [] {
      s' := s;
    } else {
      var x, w := Scene(c, v, r, s.stacks, t), s.stacks[t][0].v;
      assert s.stacks[t] == [] + [Check(w, true)];
      assert s.stacks[t := [] + [Check(w, true)]] == s.stacks;
      SourceIsDrained(c, v, s.sh, w);
      var sh' := Settle(x, rank, s.sh, [], w, true);
      s' := State(sh', s.stacks[t := []]);
      SignalsStay(c, v, s.sh, sh', |s.sh.nodes|);
    }
  }

  lemma {:induction false} TakeLooks(c: Config, v: nat, rank: seq<nat>, r: State -> bool, s: State, n: nat) returns (s': State)
    requires Kept(c, r) && HasJoin(c, v) && Ranked(c.net, rank) && r(s) && Calm(c, v, s.sh) && AllLooking(c, s.stacks)
    requires SignalledBelow(c, s.sh, |s.sh.nodes|) && n <= |s.stacks|
    ensures r(s') && Calm(c, v, s'.sh) && SignalledBelow(c, s'.sh, |s'.sh.nodes|) && AllLooking(c, s'.stacks)
    ensures |s'.stacks| == |s.stacks| && forall t :: 0 <= t < n ==> s'.stacks[t] == []
  {
    if n == 0 {
      s' := s;
    } else {
      var s1 := TakeLooks(c, v, rank, r, s, n - 1);
      s' := TakeLook(c, v, rank, r, s1, n - 1);
      forall t | 0 <= t < |s'.stacks|
        ensures Looking(c, s'.stacks[t])
      {
        assert Looking(c, s1.stacks[t]);
      }
    }
  }

  function Fresh(ports: nat): Node {
    Node(Waiting, seq(ports, _ => Port(0, 0, false)), false, 0, 0, {})
  }

  function Start(c: Config): State {
    State(Shared(seq(|c.net.ports|, v requires 0 <= v < |c.net.ports| => Fresh(c.net.ports[v])), 0, 0, false, 0), [])
  }

  lemma StartIsCalm(c: Config, v: nat)
    requires HasJoin(c, v)
    ensures Init(c, Start(c)) && Calm(c, v, Start(c).sh)
  {
  }

  /** A run that signals every source and comes to rest, with the queues empty but for the join's. */
  lemma SignalledRun(c: Config, v: nat, rank: seq<nat>) returns (run: seq<State>, s: State)
    requires HasJoin(c, v) && Ranked(c.net, rank)
    ensures EndsIn(c, run, s) && Quiescent(s) && Calm(c, v, s.sh) && SignalledBelow(c, s.sh, |s.sh.nodes|)
  {
    var r := Reachable(c);
    ReachableIsKept(c);
    StartIsCalm(c, v);
    var s1 := SignalAll(c, v, r, Start(c), |c.net.ports|);
    s := TakeLooks(c, v, rank, r, s1, |s1.stacks|);
    run := Witness(c, s);
  }

  // ---- The result ----

  /** Had the join been passed by, the whole graph would be at end of stream, the join included. */
  lemma JoinHolds(c: Config, v: nat, rank: seq<nat>, run: seq<State>, s: State)
    requires HasJoin(c, v) && Ranked(c.net, rank) && Covered(c.net)
    requires EndsIn(c, run, s) && Quiescent(s) && Calm(c, v, s.sh) && SignalledBelow(c, s.sh, |s.sh.nodes|)
    ensures Holds(s.sh, v)
  {
    if Untouched(s.sh, v) {
      forall u, i | 0 <= u < |s.sh.nodes| && 0 <= i < |s.sh.nodes[u].ports|
        ensures s.sh.nodes[u].ports[i].enq == s.sh.nodes[u].ports[i].deq
        ensures IsSource(c.net, u) ==> s.sh.nodes[u].ports[i].latched
      {
        assert u != v ==> EmptyPort(s.sh.nodes[u].ports[i]);
        assert IsSource(c.net, u) ==> Signalled(s.sh, u, |s.sh.nodes[u].ports|);
      }
      EndOfStreamCompletes(c, run, |run| - 1, rank);
      JoinIsNotDrained(c, v, s.sh);
    }
  }

  /** With no step in progress the ports that a flushed node feeds are latched. */
  lemma FedIsLatched(c: Config, run: seq<State>, s: State, w: nat, k: nat)
    requires ValidConfig(c) && PortsBounded(c) && EndsIn(c, run, s) && Quiescent(s) && IsEdge(c.net, w, k)
    requires w < |s.sh.nodes| && s.sh.nodes[w].propagated && HasPort(s.sh, c.net.out[w][k].dst, c.net.out[w][k].port)
    ensures PortOf(s.sh, c.net.out[w][k].dst, c.net.out[w][k].port).latched
  {
    RunInv(c, run, |run| - 1);
    LatchedDownstream(c, s, w, k);
  }

  lemma {:induction false} PortIsLatched(c: Config, v: nat, rank: seq<nat>, run: seq<State>, s: State, u: nat, i: nat)
    requires HasJoin(c, v) && Ranked(c.net, rank) && Covered(c.net)
    requires EndsIn(c, run, s) && Quiescent(s) && Calm(c, v, s.sh) && SignalledBelow(c, s.sh, |s.sh.nodes|)
    requires HasPort(s.sh, u, i) && rank[u] <= rank[v]
    ensures s.sh.nodes[u].ports[i].latched
    decreases rank[u], 0
  {
    if IsSource(c.net, u) {
      assert Signalled(s.sh, u, |s.sh.nodes[u].ports|);
    } else {
      assert IsFed(c.net, u, i);
      var w, k :| IsEdge(c.net, w, k) && c.net.out[w][k] == Edge(u, i);
      BeforeJoinFlushed(c, v, rank, run, s, w);
      FedIsLatched(c, run, s, w, k);
    }
  }

  /** The nodes before the join have all flushed. */
  lemma {:induction false} BeforeJoinFlushed(c: Config, v: nat, rank: seq<nat>, run: seq<State>, s: State, u: nat)
    requires HasJoin(c, v) && Ranked(c.net, rank) && Covered(c.net)
    requires EndsIn(c, run, s) && Quiescent(s) && Calm(c, v, s.sh) && SignalledBelow(c, s.sh, |s.sh.nodes|)
    requires u < |s.sh.nodes| && rank[u] < rank[v]
    ensures s.sh.nodes[u].propagated
    decreases rank[u], 1
  {
    forall i | 0 <= i < |s.sh.nodes[u].ports|
      ensures s.sh.nodes[u].ports[i].Drained()
    {
      assert EmptyPort(s.sh.nodes[u].ports[i]);
      PortIsLatched(c, v, rank, run, s, u, i);
    }
    assert AllDrained(s.sh, u);
    DrainedIsFlushed(c, run, s, u);
  }

  lemma DrainedIsFlushed(c: Config, run: seq<State>, s: State, u: nat)
    requires ValidConfig(c) && EndsIn(c, run, s) && Quiescent(s) && AllDrained(s.sh, u)
    ensures s.sh.nodes[u].propagated
  {
    NoMissedFlush(c, run, |run| - 1, u);
    RunInv(c, run, |run| - 1);
  }

  /** The node waits, all its ports are latched, and a packet is queued on one of them. */
  predicate Stranded(sh: Shared, v: nat) {
    && v < |sh.nodes| && sh.nodes[v].exec == Waiting
    && (forall i :: 0 <= i < |sh.nodes[v].ports| ==> sh.nodes[v].ports[i].latched)
    && exists i :: 0 <= i < |sh.nodes[v].ports| && sh.nodes[v].ports[i].deq < sh.nodes[v].ports[i].enq
  }

  /**
   "No lost wakeup" fails at every join once the cascade has latched its ports: for every
   DAG and every node in it that has upstream edges and at least two ports, a run that does
   nothing but signal the sources ends with no step in progress, every source signalled, and
   the node waiting with a packet queued, although nothing more can arrive.
   */
  lemma JoinIsStranded(c: Config, v: nat, rank: seq<nat>) returns (run: seq<State>)
    requires HasJoin(c, v) && Ranked(c.net, rank) && Covered(c.net)
    ensures IsRun(c, run) && Quiescent(run[|run| - 1]) && AllSignalled(c, run[|run| - 1].sh)
    ensures Stranded(run[|run| - 1].sh, v) && !AtEndOfStream(run[|run| - 1])
  {
    var s;
    run, s := SignalledRun(c, v, rank);
    JoinHolds(c, v, rank, run, s);
    forall u, i | 0 <= u < |s.sh.nodes| && 0 <= i < |s.sh.nodes[u].ports| && IsSource(c.net, u)
      ensures s.sh.nodes[u].ports[i].latched
    {
      assert Signalled(s.sh, u, |s.sh.nodes[u].ports|);
    }
    forall i | 0 <= i < |s.sh.nodes[v].ports|
      ensures s.sh.nodes[v].ports[i].latched
    {
      PortIsLatched(c, v, rank, run, s, v, i);
    }
    JoinIsNotDrained(c, v, s.sh);
    JoinWaits(c, v, run, s);
  }

  lemma JoinWaits(c: Config, v: nat, run: seq<State>, s: State)
    requires HasJoin(c, v) && EndsIn(c, run, s) && Calm(c, v, s.sh) && Holds(s.sh, v)
    ensures s.sh.nodes[v].exec == Waiting
  {
    RunInv(c, run, |run| - 1);
    JoinIsNotDrained(c, v, s.sh);
    assert Settled(s.sh.nodes[v]);
  }

  /** Every run that has signalled all sources and come to rest is at end of stream. */
  ghost predicate AlwaysDrains(c: Config) {
    forall run, n :: Finished(c, run, n) ==> AtEndOfStream(run[n])
  }

  ghost predicate Finished(c: Config, run: seq<State>, n: int) {
    IsRun(c, run) && 0 <= n < |run| && Quiescent(run[n]) && AllSignalled(c, run[n].sh)
  }

  /**
   The exact condition: with nodes that reschedule themselves and no rate limiting, a DAG
   always gets through to end of stream exactly if only its sources have more than one port.
   */
  lemma DrainsIffJoinFree(c: Config, rank: seq<nat>)
    requires ValidConfig(c) && Ranked(c.net, rank) && Covered(c.net) && |c.net.ports| > 0 && PortsBounded(c)
    requires c.autoReschedule && !c.mayDefer && c.capacity > 0
    ensures AlwaysDrains(c) <==> JoinFree(c)
  {
    if JoinFree(c) {
      forall run, n | Finished(c, run, n)
        ensures AtEndOfStream(run[n])
      {
        JoinFreeCompletes(c, run, n, rank);
      }
    } else {
      var v :| 0 <= v < |c.net.ports| && !IsSource(c.net, v) && c.net.ports[v] != 1;
      var run := JoinIsStranded(c, v, rank);
      assert Finished(c, run, |run| - 1);
    }
  }
}
