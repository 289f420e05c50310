/**
 The invariant of the streaming engine, and that every step keeps it.

 Ownership of a node, pending obligations and the counters are all stated as weighted
 sums over the frames of every thread (`Stacks.Total`), so one step changes each of
 them by a known amount.
 */
module StreamInvariant {
  import opened Stacks
  import opened Networks
  import opened StreamEngine

  // ---- Weights: what a frame of some thread counts for ----

  /** Frames that run while the node is EXECUTING on their behalf. */
  predicate Owner(f: Frame) {
    f.Gather? || f.Process? || f.Propagate? || f.TaskStore? || f.Claimed? || f.LoserStore? || f.Flush? || f.FlushStore?
  }

  predicate Owns(f: Frame, v: nat) {
    Owner(f) && f.v == v
  }

  function OwnW(v: nat): Frame -> int {
    (f: Frame) => One(Owns(f, v))
  }

  /** Frames between a won WAITING->READY CAS and the task taking over. */
  function PendW(v: nat): Frame -> int {
    (f: Frame) => One((f.TryInc? || f.TryPost? || f.Task?) && f.v == v)
  }

  /** Frames between the increment of m_activeTasks and its decrement. */
  function TaskW(): Frame -> int {
    (f: Frame) => One(f.TryPost? || f.Task? || f.Gather? || f.Process? || (f.Propagate? && !f.flush)
                      || f.TaskStore? || f.TaskFinal? || f.TaskDone?)
  }

  /** Frames that hold a packet of the node, run process() on it or emit its result. */
  function ProcW(v: nat): Frame -> int {
    (f: Frame) => One(((f.Gather? && f.popped > 0) || f.Process? || (f.Propagate? && !f.flush)) && f.v == v)
  }

  /** Frames that run the flush hook or emit its output. */
  function FlushW(v: nat): Frame -> int {
    (f: Frame) => One((f.Flush? || (f.Propagate? && f.flush)) && f.v == v)
  }

  function CascadeW(v: nat): Frame -> int {
    (f: Frame) => One(f.Cascade? && f.v == v)
  }

  /** Frames of the node's end-of-stream handling that have yet to latch out-edge `j`. */
  function LaterW(v: nat, j: nat): Frame -> int {
    (f: Frame) => One((f.Flush? || (f.Propagate? && f.flush) || f.FlushStore? || (f.Cascade? && f.k <= j)) && f.v == v)
  }

  /** Frames that will still look whether the node is at end of stream. */
  function WitnessW(v: nat): Frame -> int {
    (f: Frame) => One((f.Check? || f.CheckScan? || f.CheckWaiting? || f.TaskFinal?) && f.v == v)
  }

  function SecondCasW(v: nat): Frame -> int {
    (f: Frame) => One(f.CheckCompleted? && f.v == v)
  }

  /** Frames that will schedule the node if all its ports hold data, `enqs` being what was accepted so far. */
  predicate Fresh(f: Frame, v: nat, enqs: seq<nat>) {
    match f
    case TryState(u) => u == v
    case TryScan(u, _, _) => u == v
    case TryCount(u, i, read, expected, ready) =>
      && u == v
      && match read {
           case AtLatch => expected == ready
           case SizeEnq => expected == ready + 1
           case SizeDeq(e) => expected == ready + 1 && i < |enqs| && e == enqs[i]
           case _ => false
         }
    case TryCas(u) => u == v
    case Check(u, retry) => u == v && retry
    case CheckScan(u, retry, _, _) => u == v && retry
    case _ => false
  }

  function FreshW(v: nat, enqs: seq<nat>): Frame -> int {
    (f: Frame) => One(Fresh(f, v, enqs))
  }

  /** Frames that will schedule a node with one input port if it holds data, latched or not. */
  predicate FreshSingle(f: Frame, v: nat, enq: nat) {
    match f
    case TryState(u) => u == v
    case TryScan(u, _, _) => u == v
    case TryCount(u, i, read, expected, ready) =>
      && u == v
      && match read {
           case SizeEnq => expected <= ready + 1
           case SizeDeq(e) => expected <= ready + 1 && e == enq
           case DrainDeq(e) => expected <= ready && e == enq
           case _ => expected <= ready
         }
    case TryCas(u) => u == v
    case Check(u, retry) => u == v && retry
    case CheckScan(u, retry, _, _) => u == v && retry
    case _ => false
  }

  function SingleW(v: nat, enq: nat): Frame -> int {
    (f: Frame) => One(FreshSingle(f, v, enq))
  }

  /** Frames of a sink's end-of-stream handling that have yet to count it. */
  function SinkW(c: Config): Frame -> int {
    (f: Frame) => One((f.Flush? || (f.Propagate? && f.flush) || f.FlushStore? || f.Cascade? || f.RecordSink?) && IsSink(c.net, f.v))
  }

  function ExchangeW(): Frame -> int {
    (f: Frame) => One(f.ReachExchange?)
  }

  function CallbackW(): Frame -> int {
    (f: Frame) => One(f.ReachCallback?)
  }

  // ---- The invariant ----

  predicate ReadOk(p: Port, read: Read) {
    match read
    case DrainEnq => p.latched
    case DrainDeq(e) => p.latched && e == p.enq
    case _ => true
  }

  predicate DrainedBelow(node: Node, i: nat)
    requires i <= |node.ports|
  {
    forall j :: 0 <= j < i ==> node.ports[j].Drained()
  }

  /** What a frame knows; everything here stays true whatever other threads do. */
  predicate FrameOk(c: Config, sh: Shared, f: Frame)
    requires WellFormed(c, sh)
  {
    && InRange(c, f)
    && match f {
         case TryScan(v, i, read) =>
           DrainedBelow(sh.nodes[v], i) && ReadOk(sh.nodes[v].ports[i], read) && !read.SizeEnq? && !read.SizeDeq?
         case TryCount(v, i, read, _, _) => i < c.net.ports[v] ==> ReadOk(sh.nodes[v].ports[i], read)
         case CheckScan(v, _, i, read) =>
           DrainedBelow(sh.nodes[v], i) && ReadOk(sh.nodes[v].ports[i], read) && !read.SizeEnq? && !read.SizeDeq?
         case CheckWaiting(v, _) => AllDrained(sh, v)
         case CheckCompleted(v, _) => AllDrained(sh, v)
         case Claimed(v, _) => AllDrained(sh, v)
         case LoserStore(v, _) => sh.nodes[v].propagated
         case Flush(v) => sh.nodes[v].propagated
         case Propagate(v, _, flush) => flush ==> sh.nodes[v].propagated
         case FlushStore(v) => sh.nodes[v].propagated
         case Cascade(v, _) => sh.nodes[v].propagated
         case RecordSink(v) => IsSink(c.net, v)
         case _ => true
       }
  }

  ghost function FrameOkAt(c: Config, sh: Shared): Frame -> bool
    requires WellFormed(c, sh)
  {
    (f: Frame) => FrameOk(c, sh, f)
  }

  predicate PortsOk(c: Config, sh: Shared)
    requires WellFormed(c, sh)
  {
    && (forall v, i :: 0 <= v < |sh.nodes| && 0 <= i < |sh.nodes[v].ports| ==>
          sh.nodes[v].ports[i].deq <= sh.nodes[v].ports[i].enq && (sh.nodes[v].ports[i].latched ==> i < MAX_EOS_PORTS))
    && (forall v :: 0 <= v < |sh.nodes| ==>
          && (sh.nodes[v].propagated ==> AllDrained(sh, v))
          && sh.nodes[v].flushes == One(sh.nodes[v].propagated)
          && (c.autoReschedule && sh.nodes[v].exec == Completed ==> sh.nodes[v].propagated))
  }

  /** The node's flush is over: the hook ran and its output is out. */
  predicate Closed(s: State, u: nat)
    requires u < |s.sh.nodes|
  {
    s.sh.nodes[u].propagated && Total(FlushW(u), s.stacks) == 0
  }

  function Enqs(node: Node): seq<nat> {
    seq(|node.ports|, i requires 0 <= i < |node.ports| => node.ports[i].enq)
  }

  /** Ownership: the state word says exactly which frames exist. */
  predicate OwnerOk(s: State, v: nat)
    requires v < |s.sh.nodes|
  {
    var n := s.sh.nodes[v];
    && Total(OwnW(v), s.stacks) == One(n.exec == Executing)
    && Total(PendW(v), s.stacks) == One(n.exec == Ready)
    && (n.propagated ==> Total(ProcW(v), s.stacks) == 0)
    && (Total(CascadeW(v), s.stacks) > 0 ==> Closed(s, v))
  }

  /** A node that is due for its flush has someone who will notice. */
  predicate FlushOwed(s: State, v: nat)
    requires v < |s.sh.nodes|
  {
    var n := s.sh.nodes[v];
    AllDrained(s.sh, v) && !n.propagated ==>
      || n.exec == Ready || n.exec == Executing
      || Total(WitnessW(v), s.stacks) > 0
      || (n.exec == Completed && Total(SecondCasW(v), s.stacks) > 0)
  }

  predicate DataWaiting(c: Config, sh: Shared, v: nat)
    requires v < |sh.nodes|
  {
    var n := sh.nodes[v];
    && n.exec == Waiting && n.ports != []
    && forall i :: 0 <= i < |n.ports| ==> !n.ports[i].latched && n.ports[i].deq < n.ports[i].enq
  }

  /** A waiting node whose open ports all hold data has someone who will schedule it. */
  predicate ScheduleOwed(c: Config, s: State, v: nat)
    requires v < |s.sh.nodes|
  {
    !c.mayDefer && DataWaiting(c, s.sh, v) ==> Total(FreshW(v, Enqs(s.sh.nodes[v])), s.stacks) > 0
  }

  predicate SingleWaiting(sh: Shared, v: nat)
    requires v < |sh.nodes|
  {
    var n := sh.nodes[v];
    n.exec == Waiting && |n.ports| == 1 && n.ports[0].deq < n.ports[0].enq
  }

  /** A waiting node whose only port holds data has someone who will schedule it, latched or not. */
  predicate SingleOwed(c: Config, s: State, v: nat)
    requires v < |s.sh.nodes|
  {
    !c.mayDefer && SingleWaiting(s.sh, v) ==> Total(SingleW(v, s.sh.nodes[v].ports[0].enq), s.stacks) > 0
  }

  /** A flushed node has latched its out-edge or still has the frame that will. */
  predicate CascadeOwed(c: Config, s: State, u: nat, k: nat)
    requires u < |s.sh.nodes| && IsEdge(c.net, u, k)
  {
    var e := c.net.out[u][k];
    s.sh.nodes[u].propagated ==>
      || e.port >= MAX_EOS_PORTS
      || (HasPort(s.sh, e.dst, e.port) && PortOf(s.sh, e.dst, e.port).latched)
      || Total(LaterW(u, k), s.stacks) > 0
  }

  function CountFlushed(c: Config, sh: Shared, n: nat): nat
    requires n <= |sh.nodes|
  {
    if n == 0 then 0 else CountFlushed(c, sh, n - 1) + One(IsSink(c.net, n - 1) && sh.nodes[n - 1].propagated)
  }

  predicate SinksOk(c: Config, s: State)
    requires WellFormed(c, s.sh)
  {
    var all := CountSinks(c.net, |c.net.out|);
    && s.sh.sinksAtEos + Total(SinkW(c), s.stacks) == CountFlushed(c, s.sh, |s.sh.nodes|)
    && (s.sh.reached || Total(ExchangeW(), s.stacks) > 0 ==> s.sh.sinksAtEos == all)
    && (s.sh.sinksAtEos == all && all > 0 ==> s.sh.reached || Total(ExchangeW(), s.stacks) > 0)
    && s.sh.callbacks + Total(CallbackW(), s.stacks) == One(s.sh.reached)
  }

  ghost predicate Inv(c: Config, s: State) {
    && ValidConfig(c)
    && WellFormed(c, s.sh)
    && PortsOk(c, s.sh)
    && AllFrames(FrameOkAt(c, s.sh), s.stacks)
    && s.sh.active == Total(TaskW(), s.stacks)
    && (forall v :: 0 <= v < |s.sh.nodes| ==> OwnerOk(s, v) && FlushOwed(s, v) && ScheduleOwed(c, s, v) && SingleOwed(c, s, v))
    && (forall u, k :: IsEdge(c.net, u, k) ==> CascadeOwed(c, s, u, k))
    // A latched port is fed by a node whose flush is over.
    && (forall u, k :: IsEdge(c.net, u, k) && PortOf(s.sh, c.net.out[u][k].dst, c.net.out[u][k].port).latched ==> Closed(s, u))
    && SinksOk(c, s)
  }

  lemma InitInv(c: Config, s: State)
    requires ValidConfig(c) && Init(c, s)
    ensures Inv(c, s)
  {
    NoneFlushed(c, s.sh, |s.sh.nodes|);
    forall v | 0 <= v < |s.sh.nodes|
      ensures !AllDrained(s.sh, v) && !DataWaiting(c, s.sh, v) && !SingleWaiting(s.sh, v)
    {
      if s.sh.nodes[v].ports != [] {
        assert s.sh.nodes[v].ports[0] == Port(0, 0, false);
      }
    }
  }

  lemma {:induction false} NoneFlushed(c: Config, sh: Shared, n: nat)
    requires n <= |sh.nodes|
    requires forall v :: 0 <= v < |sh.nodes| ==> !sh.nodes[v].propagated
    ensures CountFlushed(c, sh, n) == 0
  {
    if n > 0 {
      NoneFlushed(c, sh, n - 1);
    }
  }
}
