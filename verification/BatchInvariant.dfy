/** The invariant of a batch execution, in terms of sums over the frames of every thread. */
module BatchInvariant {
  import opened Networks
  import opened Stacks
  import opened BatchEngine

  // ---- Weights ----

  /** Frames that run while the node is EXECUTING on their behalf. */
  predicate Owner(f: Frame) {
    f.Gather? || f.Process? || f.AfterProcess? || f.Success? || f.PropagateStop? || f.Propagate? || f.TaskStore?
  }

  /** Frames between a won WAITING->READY CAS and the task taking over. */
  predicate Pending(f: Frame) {
    f.TryInc? || f.TryPost? || f.TaskStop? || f.Task?
  }

  function OwnW(v: nat): Frame -> int {
    (f: Frame) => One(Owner(f) && f.v == v)
  }

  function PendW(v: nat): Frame -> int {
    (f: Frame) => One(Pending(f) && f.v == v)
  }

  function BusyW(v: nat): Frame -> int {
    (f: Frame) => OwnW(v)(f) + PendW(v)(f)
  }

  /** Frames between the increment of m_activeTasks and its decrement. */
  function TaskW(): Frame -> int {
    (f: Frame) => One(f.TryPost? || f.TaskStop? || f.Task? || Owner(f) || f.FailStop? || f.TaskDec?)
  }

  /** Frames past the stop check that have yet to call process(). */
  function BeforeW(v: nat): Frame -> int {
    (f: Frame) => One((f.Task? || f.Gather?) && f.v == v)
  }

  /** Frames that called process() and have yet to count a success. */
  function AfterW(v: nat): Frame -> int {
    (f: Frame) => One((f.Process? || f.AfterProcess? || f.Success?) && f.v == v)
  }

  function FailW(v: nat): Frame -> int {
    (f: Frame) => One(f.FailStop? && f.v == v)
  }

  /** Frames that will schedule the node if all its ports hold data, `enqs` being what was accepted so far. */
  predicate Fresh(f: Frame, v: nat, enqs: seq<nat>) {
    match f
    case TryStop(u) => u == v
    case TryState(u) => u == v
    case TryCount(u, i, read, ready) =>
      u == v && ready == i && (read.SizeDeq? ==> i < |enqs| && read.e == enqs[i])
    case TryCas(u) => u == v
    case _ => false
  }

  function FreshW(v: nat, enqs: seq<nat>): Frame -> int {
    (f: Frame) => One(Fresh(f, v, enqs))
  }

  /** Frames that will still look whether the batch is complete. */
  function CheckW(): Frame -> int {
    (f: Frame) => One(f.CheckActive? || f.CheckSink? || f.ReportCas?)
  }

  function ReportW(): Frame -> int {
    (f: Frame) => One(f.Report?)
  }

  /** Frames that have yet to come to edge `k` of the node. */
  function SendW(v: nat, k: nat): Frame -> int {
    (f: Frame) => One((f.PropagateStop? || (f.Propagate? && f.k <= k)) && f.v == v)
  }

  // ---- The invariant ----

  predicate Fed(node: Node, i: nat)
    requires i <= |node.ports|
  {
    forall j :: 0 <= j < i ==> node.ports[j].enq > 0
  }

  /** Every source has at most one input port. */
  predicate SingleSources(c: Network) {
    forall v :: 0 <= v < |c.ports| && IsSource(c, v) ==> c.ports[v] <= 1
  }

  /** There is a reason to stop, or a source that may be scheduled before all its ports hold data. */
  predicate Excused(c: Network, sh: Shared) {
    sh.failed || sh.asked || sh.discarded || !SingleSources(c)
  }

  /** Every port has got a packet, unless the node is a source with several ports. */
  predicate Supplied(c: Network, sh: Shared, v: nat)
    requires v < |sh.nodes| == |c.ports|
  {
    !IsSource(c, v) || c.ports[v] <= 1 ==> Fed(sh.nodes[v], |sh.nodes[v].ports|)
  }

  predicate SinksDone(c: Network, sh: Shared, n: nat)
    requires n <= |sh.nodes|
  {
    forall w :: 0 <= w < n && IsSink(c, w) ==> sh.nodes[w].executions > 0
  }

  /** What a frame knows; everything here stays true whatever other threads do. */
  predicate FrameOk(c: Network, sh: Shared, f: Frame)
    requires WellFormed(c, sh)
  {
    && InRange(c, f)
    && match f {
         case TryCount(v, i, read, ready) =>
           && ready <= i && (ready == i ==> Fed(sh.nodes[v], i))
           && (read.SizeDeq? ==> i < c.ports[v] && read.e <= sh.nodes[v].ports[i].enq)
         case TryCas(v) => Supplied(c, sh, v)
         case TryInc(v) => Supplied(c, sh, v)
         case TryPost(v) => Supplied(c, sh, v)
         case TaskStop(v) => Supplied(c, sh, v)
         case Task(v) => Supplied(c, sh, v)
         case Gather(v, i) => Fed(sh.nodes[v], i)
         case AfterProcess(_, ok) => !ok ==> sh.failed
         case FailStop(_) => Excused(c, sh)
         case PropagateStop(v) => sh.nodes[v].executions > 0
         case Propagate(v, _) => sh.nodes[v].executions > 0
         case TaskStore(v) => sh.nodes[v].executions > 0
         case CheckSink(j) => SinksDone(c, sh, j)
         case ReportCas => SinksDone(c, sh, |sh.nodes|)
         case _ => true
       }
  }

  ghost function FrameOkAt(c: Network, sh: Shared): Frame -> bool
    requires WellFormed(c, sh)
  {
    (f: Frame) => FrameOk(c, sh, f)
  }

  /** Without such a reason, a gather has all the packets it has yet to take. */
  predicate GatherOk(c: Network, sh: Shared, f: Frame)
    requires WellFormed(c, sh)
  {
    f.Gather? && f.v < |sh.nodes| && !Excused(c, sh) ==>
      forall j :: f.i <= j < |sh.nodes[f.v].ports| ==> sh.nodes[f.v].ports[j].deq == 0 < sh.nodes[f.v].ports[j].enq
  }

  ghost function GatherOkAt(c: Network, sh: Shared): Frame -> bool
    requires WellFormed(c, sh)
  {
    (f: Frame) => GatherOk(c, sh, f)
  }

  predicate Idle(x: Exec) {
    x == Waiting || x == Ready
  }

  /** Ownership, and that process() is called at most once. */
  predicate OwnerOk(s: State, v: nat)
    requires v < |s.sh.nodes|
  {
    var n := s.sh.nodes[v];
    && Total(OwnW(v), s.stacks) == One(n.exec == Executing)
    && Total(PendW(v), s.stacks) == One(n.exec == Ready)
    && n.runs <= 1
    && (n.runs > 0 ==> Total(BeforeW(v), s.stacks) == 0 && (s.sh.stop || !Idle(n.exec)))
    && n.executions + Total(AfterW(v), s.stacks) <= n.runs
    && (n.exec == Failed ==> s.sh.stop || Total(FailW(v), s.stacks) > 0)
  }

  /** What the queues of a node say about what ran. */
  predicate DataOk(sh: Shared, v: nat)
    requires v < |sh.nodes|
  {
    var n := sh.nodes[v];
    && (n.exec == Completed ==> n.executions > 0)
    && (n.runs > 0 ==> Fed(n, |n.ports|))
    && (!sh.stop && Idle(n.exec) ==> forall i :: 0 <= i < |n.ports| ==> n.ports[i].deq == 0)
  }

  function Enqs(node: Node): seq<nat> {
    seq(|node.ports|, i requires 0 <= i < |node.ports| => node.ports[i].enq)
  }

  /** A waiting node whose ports all hold data, and that somebody tried to schedule if it has none. */
  predicate DataWaiting(sh: Shared, v: nat)
    requires v < |sh.nodes|
  {
    var n := sh.nodes[v];
    && !sh.stop && n.exec == Waiting && (n.ports != [] || n.attempted)
    && forall i :: 0 <= i < |n.ports| ==> n.ports[i].deq < n.ports[i].enq
  }

  /** Such a node has someone who will schedule it. */
  predicate ScheduleOwed(s: State, v: nat)
    requires v < |s.sh.nodes|
  {
    DataWaiting(s.sh, v) ==> Total(FreshW(v, Enqs(s.sh.nodes[v])), s.stacks) > 0
  }

  /** An output of a node that succeeded is in the queue, unless the batch was stopped or it is on its way. */
  predicate SentOwed(c: Network, s: State, u: nat, k: nat)
    requires u < |s.sh.nodes| && IsEdge(c, u, k)
  {
    k in s.sh.nodes[u].outs && s.sh.nodes[u].executions > 0 ==>
      || s.sh.stop
      || (HasPort(s.sh, c.out[u][k].dst, c.out[u][k].port) && PortOf(s.sh, c.out[u][k].dst, c.out[u][k].port).enq > 0)
      || Total(SendW(u, k), s.stacks) > 0
  }

  predicate ReportOk(c: Network, s: State)
    requires WellFormed(c, s.sh)
  {
    && s.sh.active == Total(TaskW(), s.stacks)
    && s.sh.callbacks + Total(ReportW(), s.stacks) == One(s.sh.reported)
    && (s.sh.reported ==> SinksDone(c, s.sh, |s.sh.nodes|))
    && (CountSinks(c, |c.out|) > 0 && SinksDone(c, s.sh, |s.sh.nodes|) && s.sh.active == 0 ==>
          s.sh.reported || Total(CheckW(), s.stacks) > 0)
  }

  ghost predicate Inv(c: Network, s: State) {
    && ValidNetwork(c)
    && WellFormed(c, s.sh)
    && AllFrames(FrameOkAt(c, s.sh), s.stacks)
    && AllFrames(GatherOkAt(c, s.sh), s.stacks)
    && (s.sh.stop ==> Excused(c, s.sh))
    && (forall v :: 0 <= v < |s.sh.nodes| ==> OwnerOk(s, v) && DataOk(s.sh, v) && ScheduleOwed(s, v))
    && (forall u, k :: IsEdge(c, u, k) ==> SentOwed(c, s, u, k))
    // A port holds a packet only if the node that feeds it succeeded.
    && (forall u, k :: IsEdge(c, u, k) && PortOf(s.sh, c.out[u][k].dst, c.out[u][k].port).enq > 0 ==> s.sh.nodes[u].executions > 0)
    && ReportOk(c, s)
  }

  lemma InitInv(c: Network, s: State)
    requires ValidNetwork(c) && Init(c, s)
    ensures Inv(c, s)
  {
    forall v | 0 <= v < |s.sh.nodes|
      ensures !DataWaiting(s.sh, v)
    {
      if s.sh.nodes[v].ports != [] {
        assert s.sh.nodes[v].ports[0] == Port(0, 0);
      }
    }
    if CountSinks(c, |c.out|) > 0 {
      SomeSink(c, |c.out|);
    }
  }

  lemma {:induction false} SomeSink(c: Network, n: nat)
    requires CountSinks(c, n) > 0
    ensures exists v :: 0 <= v < n && IsSink(c, v)
  {
    if !IsSink(c, n - 1) {
      SomeSink(c, n - 1);
    }
  }
}
