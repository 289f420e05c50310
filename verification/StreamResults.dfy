/**
 What the streaming engine guarantees in every run: exclusive and exactly-once flushes,
 flushes in topological order, no missed flush, no lost wakeup, and the end-of-stream
 notification.
 */
module StreamResults {
  import opened Stacks
  import opened Networks
  import opened StreamEngine
  import opened StreamInvariant
  import opened StreamSteps
  import opened StreamSinks
  import opened StreamProof

  // ---- Exclusion and exactly-once ----

  predicate FrameAt(s: State, t: int, i: int) {
    0 <= t < |s.stacks| && 0 <= i < |s.stacks[t]|
  }

  /** The frame is inside process() or inside the flush hook of the node. */
  predicate InHook(f: Frame, v: nat) {
    f == Process(v) || f == Flush(v)
  }

  /** process() and the flush hook of one node never overlap, nor does either with itself. */
  lemma HooksExclude(c: Config, run: seq<State>, n: nat, v: nat, t: nat, i: nat, t': nat, i': nat)
    requires ValidConfig(c) && IsRun(c, run) && n < |run|
    requires FrameAt(run[n], t, i) && FrameAt(run[n], t', i')
    requires InHook(run[n].stacks[t][i], v) && InHook(run[n].stacks[t'][i'], v)
    ensures t == t' && i == i'
  {
    var s := run[n];
    RunInv(c, run, n);
    assert FrameOkAt(c, s.sh)(s.stacks[t][i]);
    assert OwnerOk(s, v);
    if t < t' || (t == t' && i < i') {
      TotalTwo(OwnW(v), s.stacks, t, i, t', i');
    } else if t' < t || (t == t' && i' < i) {
      TotalTwo(OwnW(v), s.stacks, t', i', t, i);
    }
  }

  /** A flushed node has flushed once, runs no process() now, and never does again; its queues stay drained. */
  lemma FlushIsFinal(c: Config, run: seq<State>, i: nat, j: nat, v: nat)
    requires ValidConfig(c) && IsRun(c, run) && i <= j < |run|
    requires v < |run[i].sh.nodes| && run[i].sh.nodes[v].flushes > 0
    ensures v < |run[j].sh.nodes| && run[j].sh.nodes[v].flushes == 1
    ensures run[j].sh.nodes[v].runs == run[i].sh.nodes[v].runs
    ensures forall t, k :: FrameAt(run[j], t, k) ==> run[j].stacks[t][k] != Process(v)
    ensures AllDrained(run[j].sh, v) && run[j].sh.nodes[v].ports == run[i].sh.nodes[v].ports
  {
    RunInv(c, run, i);
    RunInv(c, run, j);
    FlushedStays(c, run, i, j, v);
    NoProcess(c, run[j], v);
  }

  lemma {:induction false} FlushedStays(c: Config, run: seq<State>, i: nat, j: nat, v: nat)
    requires ValidConfig(c) && IsRun(c, run) && i <= j < |run|
    requires v < |run[i].sh.nodes| && run[i].sh.nodes[v].propagated
    ensures v < |run[j].sh.nodes| && run[j].sh.nodes[v].propagated
    ensures run[j].sh.nodes[v].runs == run[i].sh.nodes[v].runs
    ensures run[j].sh.nodes[v].ports == run[i].sh.nodes[v].ports
    decreases j - i
  {
    if i < j {
      FlushedStays(c, run, i, j - 1, v);
      FlushedLink(c, run, j - 1, v);
    }
  }

  lemma FlushedLink(c: Config, run: seq<State>, i: nat, v: nat)
    requires ValidConfig(c) && IsRun(c, run) && i + 1 < |run|
    requires v < |run[i].sh.nodes| && run[i].sh.nodes[v].propagated
    ensures v < |run[i + 1].sh.nodes| && run[i + 1].sh.nodes[v].propagated
    ensures run[i + 1].sh.nodes[v].runs == run[i].sh.nodes[v].runs
    ensures run[i + 1].sh.nodes[v].ports == run[i].sh.nodes[v].ports
  {
    RunInv(c, run, i);
    assert Linked(c, run, i);
    FlushedNext(c, run[i], run[i + 1], v);
  }

  lemma FlushedNext(c: Config, s: State, s': State, v: nat)
    requires Inv(c, s) && Next(c, s, s')
    requires v < |s.sh.nodes| && s.sh.nodes[v].propagated
    ensures v < |s'.sh.nodes| && s'.sh.nodes[v].propagated
    ensures s'.sh.nodes[v].runs == s.sh.nodes[v].runs
    ensures s'.sh.nodes[v].ports == s.sh.nodes[v].ports
  {
    var a :| NextBy(c, s, a, s');
    FlushedStep(c, s, a, s', v);
  }

  /** After the flush a step neither starts process() nor touches the node's queues. */
  lemma FlushedStep(c: Config, s: State, a: Action, s': State, v: nat)
    requires Inv(c, s) && NextBy(c, s, a, s')
    requires v < |s.sh.nodes| && s.sh.nodes[v].propagated
    ensures v < |s'.sh.nodes| && s'.sh.nodes[v].propagated
    ensures s'.sh.nodes[v].runs == s.sh.nodes[v].runs
    ensures s'.sh.nodes[v].ports == s.sh.nodes[v].ports
  {
    PushIsUnlatched(c, s, a, s');
    if a.eff == StartRun(v) {
      StartsUnflushed(c, s, a, s');
    }
    FlushedEffect(s.sh, a.eff, v);
  }

  lemma FlushedEffect(sh: Shared, eff: Effect, v: nat)
    requires Applies(sh, eff) && AllDrained(sh, v) && sh.nodes[v].propagated
    requires eff.Push? ==> !PortOf(sh, eff.v, eff.i).latched
    ensures |Apply(sh, eff).nodes| == |sh.nodes|
    ensures Apply(sh, eff).nodes[v].propagated
    ensures eff != StartRun(v) ==> Apply(sh, eff).nodes[v].runs == sh.nodes[v].runs
    ensures Apply(sh, eff).nodes[v].ports == sh.nodes[v].ports
  {
    if (eff.Push? || eff.Pop? || eff.Latch?) && eff.v == v {
      assert sh.nodes[v].ports[eff.i].Drained();
    }
  }

  /** process() only starts on a node that has not flushed. */
  lemma StartsUnflushed(c: Config, s: State, a: Action, s': State)
    requires Inv(c, s) && NextBy(c, s, a, s') && a.eff.StartRun?
    ensures !s.sh.nodes[a.eff.v].propagated
  {
    StartIsGather(c, s.sh, Top(s.stacks[a.t]), a.eff, a.next, a.start);
    HoldingIsUnflushed(s, a.t);
  }

  lemma StartIsGather(c: Config, sh: Shared, f: Frame, eff: Effect, next: Then<Frame>, start: Start<Frame>)
    requires WellFormed(c, sh) && InRange(c, f) && Fire(c, sh, f, eff, next, start) && eff.StartRun?
    ensures f.Gather? && f.v == eff.v && (f.popped > 0 || c.net.ports[f.v] == 0)
  {
  }

  lemma HoldingIsUnflushed(s: State, t: nat)
    requires t < |s.stacks| && s.stacks[t] != [] && Top(s.stacks[t]).Gather?
    requires var f := Top(s.stacks[t]); f.v < |s.sh.nodes| && OwnerOk(s, f.v) && (s.sh.nodes[f.v].propagated ==> AllDrained(s.sh, f.v))
    requires var f := Top(s.stacks[t]); f.popped > 0 || |s.sh.nodes[f.v].ports| == 0
    ensures !s.sh.nodes[Top(s.stacks[t]).v].propagated
  {
    TotalAtLeast(ProcW(Top(s.stacks[t]).v), s.stacks, t);
  }

  lemma NoProcess(c: Config, s: State, v: nat)
    requires Inv(c, s) && v < |s.sh.nodes| && s.sh.nodes[v].propagated
    ensures forall t, k :: FrameAt(s, t, k) ==> s.stacks[t][k] != Process(v)
  {
    assert OwnerOk(s, v);
    forall t, k | FrameAt(s, t, k)
      ensures s.stacks[t][k] != Process(v)
    {
      TotalAt(ProcW(v), s.stacks, t);
      SumAt(ProcW(v), s.stacks[t], k);
    }
  }

  // ---- Topological order ----

  /** No frame of the node's process() or flush handling can still emit a packet. */
  ghost predicate Silent(s: State, u: nat) {
    forall t, k :: FrameAt(s, t, k) ==>
      var f := s.stacks[t][k];
      f != Process(u) && f != Flush(u) && !(f.Propagate? && f.v == u)
  }

  /** When a node has flushed, every ancestor has flushed and all its output is out. */
  lemma FlushIsTopological(c: Config, run: seq<State>, n: nat, path: seq<nat>)
    requires ValidConfig(c) && IsRun(c, run) && n < |run| && IsPath(c.net, path)
    requires path[|path| - 1] < |run[n].sh.nodes| && run[n].sh.nodes[path[|path| - 1]].flushes > 0
    ensures forall i :: 0 <= i < |path| ==> path[i] < |run[n].sh.nodes| && run[n].sh.nodes[path[i]].flushes == 1
    ensures forall i :: 0 <= i < |path| - 1 ==> Silent(run[n], path[i])
  {
    RunInv(c, run, n);
    AncestorsFlushed(c, run[n], path);
  }

  lemma {:induction false} AncestorsFlushed(c: Config, s: State, path: seq<nat>)
    requires Inv(c, s) && IsPath(c.net, path)
    requires path[|path| - 1] < |s.sh.nodes| && s.sh.nodes[path[|path| - 1]].propagated
    ensures forall i :: 0 <= i < |path| ==> path[i] < |s.sh.nodes| && s.sh.nodes[path[i]].flushes == 1
    ensures forall i :: 0 <= i < |path| - 1 ==> Silent(s, path[i])
  {
    if |path| > 1 {
      assert HasEdge(c.net, path[|path| - 2], path[|path| - 2 + 1]);
      FlushedBefore(c, s, path[|path| - 2], path[|path| - 1]);
      var front := path[..|path| - 1];
      assert IsPath(c.net, front) by {
        forall i | 0 <= i < |front| - 1
          ensures HasEdge(c.net, front[i], front[i + 1])
        {
          assert HasEdge(c.net, path[i], path[i + 1]);
        }
      }
      AncestorsFlushed(c, s, front);
      forall i | 0 <= i < |path| - 1
        ensures Silent(s, path[i])
      {
        assert path[i] == front[i];
      }
    }
  }

  /** When a node has flushed, the nodes that feed it have flushed and are silent. */
  lemma FlushedBefore(c: Config, s: State, u: nat, v: nat)
    requires Inv(c, s) && HasEdge(c.net, u, v) && v < |s.sh.nodes| && s.sh.nodes[v].propagated
    ensures u < |s.sh.nodes| && s.sh.nodes[u].flushes == 1 && Silent(s, u)
  {
    var k :| IsEdge(c.net, u, k) && c.net.out[u][k].dst == v;
    assert AllDrained(s.sh, v);
    assert s.sh.nodes[v].ports[c.net.out[u][k].port].Drained();
    assert Closed(s, u);
    ClosedIsSilent(c, s, u);
  }

  lemma ClosedIsSilent(c: Config, s: State, u: nat)
    requires Inv(c, s) && u < |s.sh.nodes| && Closed(s, u)
    ensures Silent(s, u)
  {
    assert OwnerOk(s, u);
    forall t, k | FrameAt(s, t, k)
      ensures var f := s.stacks[t][k]; f != Process(u) && f != Flush(u) && !(f.Propagate? && f.v == u)
    {
      TotalAt(ProcW(u), s.stacks, t);
      SumAt(ProcW(u), s.stacks[t], k);
      TotalAt(FlushW(u), s.stacks, t);
      SumAt(FlushW(u), s.stacks[t], k);
    }
  }

  // ---- Quiescent states ----

  /** No missed flush: with no step in progress a node with only drained ports has flushed. */
  lemma NoMissedFlush(c: Config, run: seq<State>, n: nat, v: nat)
    requires ValidConfig(c) && IsRun(c, run) && n < |run| && Quiescent(run[n])
    requires AllDrained(run[n].sh, v)
    ensures run[n].sh.nodes[v].flushes == 1
  {
    var s := run[n];
    RunInv(c, run, n);
    Idle(s, v);
    assert OwnerOk(s, v) && FlushOwed(s, v);
  }

  lemma Idle(s: State, v: nat)
    requires Quiescent(s)
    ensures Total(OwnW(v), s.stacks) == Total(PendW(v), s.stacks) == 0
    ensures Total(WitnessW(v), s.stacks) == Total(SecondCasW(v), s.stacks) == 0
    ensures forall enqs :: Total(FreshW(v, enqs), s.stacks) == 0
  {
    TotalIdle(OwnW(v), s.stacks);
    TotalIdle(PendW(v), s.stacks);
    TotalIdle(WitnessW(v), s.stacks);
    TotalIdle(SecondCasW(v), s.stacks);
    forall enqs
      ensures Total(FreshW(v, enqs), s.stacks) == 0
    {
      TotalIdle(FreshW(v, enqs), s.stacks);
    }
  }

  /**
   No lost wakeup: without rate limiting, with no step in progress, a waiting node none of
   whose ports is latched has a port with nothing queued; and no task is counted active.
   */
  lemma NoLostWakeup(c: Config, run: seq<State>, n: nat, v: nat)
    requires ValidConfig(c) && IsRun(c, run) && n < |run| && Quiescent(run[n]) && !c.mayDefer
    requires v < |run[n].sh.nodes| && run[n].sh.nodes[v].ports != [] && run[n].sh.nodes[v].exec == Waiting
    requires forall i :: 0 <= i < |run[n].sh.nodes[v].ports| ==> !run[n].sh.nodes[v].ports[i].latched
    ensures exists i :: 0 <= i < |run[n].sh.nodes[v].ports| && run[n].sh.nodes[v].ports[i].enq == run[n].sh.nodes[v].ports[i].deq
    ensures run[n].sh.active == 0
  {
    var s := run[n];
    RunInv(c, run, n);
    Idle(s, v);
    TotalIdle(TaskW(), s.stacks);
    assert ScheduleOwed(c, s, v);
    assert !DataWaiting(c, s.sh, v);
  }

  /** With no step in progress a waiting node with one input port has nothing queued, latched or not. */
  lemma NoLostWakeupSingle(c: Config, run: seq<State>, n: nat, v: nat)
    requires ValidConfig(c) && IsRun(c, run) && n < |run| && Quiescent(run[n]) && !c.mayDefer
    requires v < |run[n].sh.nodes| && |run[n].sh.nodes[v].ports| == 1 && run[n].sh.nodes[v].exec == Waiting
    ensures run[n].sh.nodes[v].ports[0].enq == run[n].sh.nodes[v].ports[0].deq
  {
    var s := run[n];
    RunInv(c, run, n);
    TotalIdle(SingleW(v, s.sh.nodes[v].ports[0].enq), s.stacks);
    assert SingleOwed(c, s, v);
  }

  // ---- The end-of-stream notification ----

  /** The notification is set only after every sink flushed and went silent, and calls back at most once. */
  lemma ReachedMeansAllSinks(c: Config, run: seq<State>, n: nat)
    requires ValidConfig(c) && IsRun(c, run) && n < |run|
    ensures run[n].sh.callbacks <= 1
    ensures run[n].sh.callbacks == 1 ==> run[n].sh.reached
    ensures run[n].sh.reached ==>
              forall v :: 0 <= v < |run[n].sh.nodes| && IsSink(c.net, v) ==> run[n].sh.nodes[v].flushes == 1 && Silent(run[n], v)
  {
    var s := run[n];
    RunInv(c, run, n);
    TotalNonNegative(CallbackW(), s.stacks);
    if s.sh.reached {
      CountFlushedMost(c, s.sh, |s.sh.nodes|);
      TotalNonNegative(SinkW(c), s.stacks);
      forall v | 0 <= v < |s.sh.nodes| && IsSink(c.net, v)
        ensures s.sh.nodes[v].flushes == 1 && Silent(s, v)
      {
        TotalOrdered(FlushW(v), SinkW(c), s.stacks);
        TotalNonNegative(FlushW(v), s.stacks);
        ClosedIsSilent(c, s, v);
      }
    }
  }

  /** Every source has an input port, all of them signalled, and nothing is queued anywhere. */
  ghost predicate AllSignalledAndEmpty(c: Config, sh: Shared)
    requires WellFormed(c, sh)
  {
    && (forall v :: 0 <= v < |c.net.ports| ==> 0 < c.net.ports[v] <= MAX_EOS_PORTS)
    && (forall v, i :: 0 <= v < |sh.nodes| && 0 <= i < |sh.nodes[v].ports| ==>
          sh.nodes[v].ports[i].enq == sh.nodes[v].ports[i].deq && (IsSource(c.net, v) ==> sh.nodes[v].ports[i].latched))
  }

  /** A state in which the whole graph is at end of stream. */
  ghost predicate AtEndOfStream(s: State) {
    && (forall v :: 0 <= v < |s.sh.nodes| ==> s.sh.nodes[v].flushes == 1 && AllDrained(s.sh, v))
    && s.sh.reached && s.sh.callbacks == 1
  }

  /**
   End of stream gets through: on a DAG, once every source port is signalled, the queues are
   empty and no step is in progress, every node has flushed exactly once and the
   notification has been given exactly once.
   */
  lemma EndOfStreamCompletes(c: Config, run: seq<State>, n: nat, rank: seq<nat>)
    requires ValidConfig(c) && IsRun(c, run) && n < |run| && Quiescent(run[n])
    requires Ranked(c.net, rank) && Covered(c.net) && |c.net.ports| > 0
    requires WellFormed(c, run[n].sh) && AllSignalledAndEmpty(c, run[n].sh)
    ensures AtEndOfStream(run[n])
  {
    RunInv(c, run, n);
    forall v | 0 <= v < |run[n].sh.nodes|
      ensures run[n].sh.nodes[v].propagated
    {
      AllFlush(c, run, n, rank, v);
    }
    AllFlushedNotifies(c, run[n], rank);
  }

  lemma AllFlushedNotifies(c: Config, s: State, rank: seq<nat>)
    requires Inv(c, s) && Quiescent(s) && Ranked(c.net, rank) && |c.net.ports| > 0
    requires forall v :: 0 <= v < |s.sh.nodes| ==> s.sh.nodes[v].propagated
    ensures AtEndOfStream(s)
  {
    TotalIdle(SinkW(c), s.stacks);
    TotalIdle(ExchangeW(), s.stacks);
    TotalIdle(CallbackW(), s.stacks);
    AllFlushedCount(c, s.sh, |s.sh.nodes|);
    SinkExists(c.net, rank);
  }

  /** With no step in progress a flushed node has latched the ports it feeds. */
  lemma LatchedDownstream(c: Config, s: State, u: nat, k: nat)
    requires Inv(c, s) && Quiescent(s) && IsEdge(c.net, u, k) && s.sh.nodes[u].propagated
    requires c.net.out[u][k].port < MAX_EOS_PORTS
    ensures PortOf(s.sh, c.net.out[u][k].dst, c.net.out[u][k].port).latched
  {
    TotalIdle(LaterW(u, k), s.stacks);
    assert CascadeOwed(c, s, u, k);
  }

  lemma {:induction false} AllFlush(c: Config, run: seq<State>, n: nat, rank: seq<nat>, v: nat)
    requires ValidConfig(c) && IsRun(c, run) && n < |run| && Quiescent(run[n])
    requires Ranked(c.net, rank) && Covered(c.net) && WellFormed(c, run[n].sh) && AllSignalledAndEmpty(c, run[n].sh)
    requires v < |run[n].sh.nodes|
    ensures run[n].sh.nodes[v].propagated
    decreases rank[v]
  {
    var s := run[n];
    RunInv(c, run, n);
    forall i | 0 <= i < |s.sh.nodes[v].ports|
      ensures s.sh.nodes[v].ports[i].Drained()
    {
      if !IsSource(c.net, v) {
        assert IsFed(c.net, v, i);
        var u, k :| IsEdge(c.net, u, k) && c.net.out[u][k] == Edge(v, i);
        AllFlush(c, run, n, rank, u);
        LatchedDownstream(c, s, u, k);
      }
    }
    assert AllDrained(s.sh, v);
    NoMissedFlush(c, run, n, v);
  }

  lemma {:induction false} AllFlushedCount(c: Config, sh: Shared, n: nat)
    requires n <= |sh.nodes|
    requires forall v :: 0 <= v < |sh.nodes| ==> sh.nodes[v].propagated
    ensures CountFlushed(c, sh, n) == CountSinks(c.net, n)
  {
    if n > 0 {
      AllFlushedCount(c, sh, n - 1);
    }
  }
}
