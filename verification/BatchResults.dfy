/**
 What a batch execution guarantees in every run: task accounting, at most one process()
 per node, and what the completion callback means.
 */
module BatchResults {
  import opened Networks
  import opened Stacks
  import opened BatchEngine
  import opened BatchInvariant
  import opened BatchProof

  predicate FrameAt(s: State, t: int, i: int) {
    0 <= t < |s.stacks| && 0 <= i < |s.stacks[t]|
  }

  /**
   The task counter is the number of tasks between a won scheduling CAS and their
   decrement, and it is zero when no step is in progress.
   */
  lemma ActiveCountsTasks(c: Network, run: seq<State>, n: nat)
    requires ValidNetwork(c) && IsRun(c, run) && n < |run|
    ensures run[n].sh.active == Total(TaskW(), run[n].stacks) >= 0
    ensures Quiescent(run[n]) ==> run[n].sh.active == 0
  {
    RunInv(c, run, n);
    TotalNonNegative(TaskW(), run[n].stacks);
    if Quiescent(run[n]) {
      TotalIdle(TaskW(), run[n].stacks);
    }
  }

  /** Each node calls process() at most once, and never in two threads at the same time. */
  lemma ProcessesOnce(c: Network, run: seq<State>, n: nat, v: nat)
    requires ValidNetwork(c) && IsRun(c, run) && n < |run| && v < |run[n].sh.nodes|
    ensures run[n].sh.nodes[v].executions <= run[n].sh.nodes[v].runs <= 1
    ensures forall t, i :: FrameAt(run[n], t, i) && run[n].stacks[t][i] == Process(v) ==>
              run[n].sh.nodes[v].exec == Executing && run[n].sh.nodes[v].runs == 1 && run[n].sh.nodes[v].executions == 0
  {
    var s := run[n];
    RunInv(c, run, n);
    assert OwnerOk(s, v);
    TotalNonNegative(AfterW(v), s.stacks);
    forall t, i | FrameAt(s, t, i) && s.stacks[t][i] == Process(v)
      ensures s.sh.nodes[v].exec == Executing && s.sh.nodes[v].runs == 1 && s.sh.nodes[v].executions == 0
    {
      FrameCounts(OwnW(v), s, t, i);
      FrameCounts(AfterW(v), s, t, i);
    }
  }

  lemma FrameCounts(w: Frame -> int, s: State, t: nat, i: nat)
    requires FrameAt(s, t, i) && forall f :: w(f) >= 0
    ensures Total(w, s.stacks) >= w(s.stacks[t][i])
  {
    TotalAt(w, s.stacks, t);
    SumAt(w, s.stacks[t], i);
  }

  /** A node has succeeded only if every node on a path to it has succeeded. */
  lemma {:induction false} SuccessGoesBack(c: Network, s: State, path: seq<nat>)
    requires Inv(c, s) && IsPath(c, path)
    requires path[|path| - 1] < |s.sh.nodes| && s.sh.nodes[path[|path| - 1]].executions > 0
    ensures path[0] < |s.sh.nodes| && s.sh.nodes[path[0]].executions > 0
    decreases |path|
  {
    if |path| > 1 {
      var u, v := path[|path| - 2], path[|path| - 1];
      assert HasEdge(c, path[|path| - 2], path[|path| - 2 + 1]);
      var k :| IsEdge(c, u, k) && c.out[u][k].dst == v;
      assert OwnerOk(s, v) && DataOk(s.sh, v);
      TotalNonNegative(AfterW(v), s.stacks);
      assert s.sh.nodes[v].ports[c.out[u][k].port].enq > 0;
      assert PortOf(s.sh, c.out[u][k].dst, c.out[u][k].port).enq > 0;
      var front := path[..|path| - 1];
      assert IsPath(c, front) by {
        forall i | 0 <= i < |front| - 1
          ensures HasEdge(c, front[i], front[i + 1])
        {
          assert HasEdge(c, path[i], path[i + 1]);
        }
      }
      SuccessGoesBack(c, s, front);
    }
  }

  /** Every node succeeded exactly once. */
  predicate AllSucceeded(sh: Shared) {
    forall v :: 0 <= v < |sh.nodes| ==> sh.nodes[v].executions == 1 && sh.nodes[v].runs == 1
  }

  /** On a DAG, if every sink succeeded then every node succeeded exactly once. */
  lemma SinksMeanAll(c: Network, s: State, rank: seq<nat>)
    requires Inv(c, s) && Ranked(c, rank) && SinksDone(c, s.sh, |s.sh.nodes|)
    ensures AllSucceeded(s.sh)
  {
    forall v | 0 <= v < |s.sh.nodes|
      ensures s.sh.nodes[v].executions == 1 && s.sh.nodes[v].runs == 1
    {
      var path := SinkAbove(c, rank, v);
      SuccessGoesBack(c, s, path);
      assert OwnerOk(s, v);
      TotalNonNegative(AfterW(v), s.stacks);
    }
  }

  /** The completion callback fires at most once, and only after every node of the DAG succeeded exactly once. */
  lemma CallbackMeansComplete(c: Network, run: seq<State>, n: nat, rank: seq<nat>)
    requires ValidNetwork(c) && IsRun(c, run) && n < |run| && Ranked(c, rank)
    ensures run[n].sh.callbacks <= 1
    ensures run[n].sh.callbacks == 1 ==> AllSucceeded(run[n].sh)
  {
    RunInv(c, run, n);
    TotalNonNegative(ReportW(), run[n].stacks);
    if run[n].sh.callbacks == 1 {
      SinksMeanAll(c, run[n], rank);
    }
  }

  /** With no step in progress the callback has fired exactly if every node succeeded. */
  lemma QuietCallback(c: Network, run: seq<State>, n: nat, rank: seq<nat>)
    requires ValidNetwork(c) && IsRun(c, run) && n < |run| && Ranked(c, rank) && |c.out| > 0
    requires Quiescent(run[n])
    ensures run[n].sh.callbacks == (if AllSucceeded(run[n].sh) then 1 else 0)
  {
    var s := run[n];
    RunInv(c, run, n);
    TotalIdle(ReportW(), s.stacks);
    TotalIdle(CheckW(), s.stacks);
    TotalIdle(TaskW(), s.stacks);
    SinkExists(c, rank);
    if s.sh.callbacks == 1 {
      CallbackMeansComplete(c, run, n, rank);
    }
  }

  /**
   Every source port got an input, every node without ports was tried once, as
   distributeInitialInputs does, and every process() that succeeded had an output for each
   outgoing edge.
   */
  ghost predicate FullySupplied(c: Network, sh: Shared)
    requires ValidNetwork(c) && WellFormed(c, sh)
  {
    && (forall v :: 0 <= v < |c.ports| && c.ports[v] == 0 ==> sh.nodes[v].attempted)
    && (forall v, i :: 0 <= v < |sh.nodes| && 0 <= i < |sh.nodes[v].ports| && IsSource(c, v) ==> sh.nodes[v].ports[i].enq > 0)
    && (forall u, k :: IsEdge(c, u, k) && sh.nodes[u].executions > 0 ==> k in sh.nodes[u].outs)
  }

  /** No process() returned false, nobody asked to stop, and no gather discarded a packet. */
  predicate Undisturbed(sh: Shared) {
    !sh.failed && !sh.asked && !sh.discarded
  }

  /**
   A batch gets through: if every source has at most one port and nothing disturbed the batch,
   then with no step in progress, every source fed and every success propagated, it was not
   stopped, every node succeeded exactly once and the callback fired exactly once.
   */
  lemma BatchCompletes(c: Network, run: seq<State>, n: nat, rank: seq<nat>)
    requires ValidNetwork(c) && IsRun(c, run) && n < |run| && Quiescent(run[n])
    requires Ranked(c, rank) && Covered(c) && |c.out| > 0 && SingleSources(c) && Undisturbed(run[n].sh)
    requires WellFormed(c, run[n].sh) && FullySupplied(c, run[n].sh)
    ensures !run[n].sh.stop && AllSucceeded(run[n].sh) && run[n].sh.callbacks == 1
  {
    RunInv(c, run, n);
    forall v | 0 <= v < |run[n].sh.nodes|
      ensures run[n].sh.nodes[v].executions > 0
    {
      SuppliedSucceeds(c, run[n], rank, v);
    }
    SinksMeanAll(c, run[n], rank);
    QuietCallback(c, run, n, rank);
  }

  /**
   A node waits for all of its inputs: an attempt that is about to claim a node with upstream
   edges, wherever it is in a stack, knows that every port has got a packet; and as long as the
   node is waiting and the batch not stopped, every port still holds one.
   */
  lemma WaitsForInputs(c: Network, run: seq<State>, n: nat, t: nat, i: nat, v: nat)
    requires ValidNetwork(c) && IsRun(c, run) && n < |run| && FrameAt(run[n], t, i)
    requires run[n].stacks[t][i] == TryCas(v) && !IsSource(c, v)
    ensures v < |run[n].sh.nodes| && forall j :: 0 <= j < |run[n].sh.nodes[v].ports| ==> run[n].sh.nodes[v].ports[j].enq > 0
    ensures !run[n].sh.stop && run[n].sh.nodes[v].exec == Waiting ==>
              forall j :: 0 <= j < |run[n].sh.nodes[v].ports| ==> run[n].sh.nodes[v].ports[j].deq < run[n].sh.nodes[v].ports[j].enq
  {
    RunInv(c, run, n);
    assert FrameOkAt(c, run[n].sh)(run[n].stacks[t][i]);
    assert DataOk(run[n].sh, v);
  }

  /** With at most one port per source, a stop means that a process() failed, somebody asked for it, or a gather discarded a packet. */
  lemma StopHasCause(c: Network, run: seq<State>, n: nat)
    requires ValidNetwork(c) && IsRun(c, run) && n < |run| && SingleSources(c)
    ensures run[n].sh.stop ==> !Undisturbed(run[n].sh)
  {
    RunInv(c, run, n);
  }

  /** And as long as none of this happened, no gather finds a port dry. */
  lemma GathersAreFed(c: Network, run: seq<State>, n: nat, t: nat, i: nat, v: nat, k: nat)
    requires ValidNetwork(c) && IsRun(c, run) && n < |run| && SingleSources(c) && Undisturbed(run[n].sh)
    requires FrameAt(run[n], t, i) && run[n].stacks[t][i] == Gather(v, k)
    ensures v < |run[n].sh.nodes| && !DryFrom(run[n].sh.nodes[v], k)
  {
    RunInv(c, run, n);
    assert FrameOkAt(c, run[n].sh)(run[n].stacks[t][i]) && GatherOkAt(c, run[n].sh)(run[n].stacks[t][i]);
  }

  /** With no step in progress and no stop, every output of a node that succeeded has been put into the queue at the end of its edge. */
  lemma OutputIsSent(c: Network, s: State, u: nat, k: nat)
    requires Inv(c, s) && Quiescent(s) && !s.sh.stop && IsEdge(c, u, k)
    requires s.sh.nodes[u].executions > 0 && k in s.sh.nodes[u].outs
    ensures PortOf(s.sh, c.out[u][k].dst, c.out[u][k].port).enq > 0
  {
    TotalIdle(SendW(u, k), s.stacks);
    assert SentOwed(c, s, u, k);
  }

  lemma {:induction false} SuppliedSucceeds(c: Network, s: State, rank: seq<nat>, v: nat)
    requires Inv(c, s) && Quiescent(s) && Ranked(c, rank) && Covered(c) && !s.sh.stop && FullySupplied(c, s.sh)
    requires v < |s.sh.nodes|
    ensures s.sh.nodes[v].executions > 0
    decreases rank[v]
  {
    forall i | 0 <= i < |s.sh.nodes[v].ports|
      ensures s.sh.nodes[v].ports[i].enq > 0
    {
      if !IsSource(c, v) {
        assert IsFed(c, v, i);
        var u, k :| IsEdge(c, u, k) && c.out[u][k] == Edge(v, i);
        SuppliedSucceeds(c, s, rank, u);
        OutputIsSent(c, s, u, k);
        assert PortOf(s.sh, c.out[u][k].dst, c.out[u][k].port).enq > 0;
      }
    }
    FedIsCompleted(c, s, v);
  }

  /** With no step in progress and no stop, a node whose ports all got data, or that has none and was tried, has completed. */
  lemma FedIsCompleted(c: Network, s: State, v: nat)
    requires Inv(c, s) && Quiescent(s) && !s.sh.stop && v < |s.sh.nodes|
    requires (s.sh.nodes[v].ports != [] || s.sh.nodes[v].attempted) && Fed(s.sh.nodes[v], |s.sh.nodes[v].ports|)
    ensures s.sh.nodes[v].exec == Completed && s.sh.nodes[v].executions > 0
  {
    TotalIdle(OwnW(v), s.stacks);
    TotalIdle(PendW(v), s.stacks);
    TotalIdle(FailW(v), s.stacks);
    TotalIdle(FreshW(v, Enqs(s.sh.nodes[v])), s.stacks);
    assert OwnerOk(s, v) && DataOk(s.sh, v) && ScheduleOwed(s, v);
  }
}
