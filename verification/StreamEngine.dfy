/**
 The streaming engine of src/execution_engine_impl.cpp as a state machine.

 Every step performs at most one access to a shared atomic, and any number of threads
 interleave.  A thread is a call stack of frames (see `Stacks`), so the recursion of
 the end-of-stream check through output propagation and the cascade is kept as it is.
 A queue is its two position counters: `enq` packets were accepted, the first `deq` of
 them have been popped by a gather or evicted by a drop policy; `size()` reads the two
 counters in two steps.  Which frames a gather takes is left open: it may pop any
 number of packets, and it succeeds only having popped one (or on a node without input
 ports).  The stop flag stays clear and the pool accepts every task.
 */
module StreamEngine {
  import opened Networks
  import opened Stacks
  import Scheduler

  const MAX_EOS_PORTS := 64

  /**
   `autoReschedule` is the scheduler's setting; `mayDefer` says a minimum interval is
   configured, so that a positive decision may be deferred.  With `dropTail` a full queue, of
   `capacity` packets, rejects; otherwise the oldest packets make room.
   */
  datatype Config = Config(net: Network, autoReschedule: bool, mayDefer: bool, dropTail: bool, capacity: nat)

  ghost predicate ValidConfig(c: Config) {
    ValidNetwork(c.net)
  }

  datatype Exec = Waiting | Ready | Executing | Completed

  datatype Port = Port(enq: nat, deq: nat, latched: bool) {
    predicate Drained() { latched && enq == deq }
  }

  /**
   `flushes` and `runs` count the calls of onEndOfStream() and of process(); `outs` are the
   outgoing edges for which the latest of them had an output.
   */
  datatype Node = Node(exec: Exec, ports: seq<Port>, propagated: bool, flushes: nat, runs: nat, outs: set<nat>)

  datatype Shared = Shared(nodes: seq<Node>, active: int, sinksAtEos: nat, reached: bool, callbacks: nat)

  /** How far portDrained() or the readiness count has got with one port. */
  datatype Read = AtLatch | DrainEnq | DrainDeq(e: nat) | SizeEnq | SizeDeq(e: nat)

  datatype Frame =
    // tryScheduleNode, and scheduleNodeExecution from the CAS on
    | TryState(v: nat)
    | TryScan(v: nat, i: nat, read: Read)
    | TryCount(v: nat, i: nat, read: Read, expected: nat, ready: nat)
    | TryCas(v: nat)
    | TryInc(v: nat)
    | TryPost(v: nat)
    // executeNodeTask
    | Task(v: nat)
    | Gather(v: nat, popped: nat)
    | Process(v: nat)
    | Propagate(v: nat, k: nat, flush: bool)
    | TaskStore(v: nat)
    | TaskFinal(v: nat)
    | TaskDone(v: nat)
    // checkNodeEndOfStream; `retry` is the caller's "if false, tryScheduleNode"
    | Check(v: nat, retry: bool)
    | CheckScan(v: nat, retry: bool, i: nat, read: Read)
    | CheckWaiting(v: nat, retry: bool)
    | CheckCompleted(v: nat, retry: bool)
    | Claimed(v: nat, retry: bool)
    | LoserStore(v: nat, retry: bool)
    | Flush(v: nat)
    | FlushStore(v: nat)
    | Cascade(v: nat, k: nat)
    // recordSinkEndOfStream
    | RecordSink(v: nat)
    | ReachExchange
    | ReachCallback

  datatype State = State(sh: Shared, stacks: seq<seq<Frame>>)

  /** The single write a step makes to the shared state. */
  datatype Effect =
    | Nop
    | SetExec(v: nat, x: Exec)
    | Pop(v: nat, i: nat)
    | Push(v: nat, i: nat, evicted: nat)
    | Latch(v: nat, i: nat)
    | MarkFlush(v: nat)
    | StartRun(v: nat)
    | Emit(v: nat, outs: set<nat>)
    | AddActive(d: int)
    | AddSink
    | SetReached
    | CallBack

  predicate WellFormed(c: Config, sh: Shared) {
    && |sh.nodes| == |c.net.ports| == |c.net.out|
    && (forall v :: 0 <= v < |sh.nodes| ==> |sh.nodes[v].ports| == c.net.ports[v])
  }

  predicate HasPort(sh: Shared, v: nat, i: nat) {
    v < |sh.nodes| && i < |sh.nodes[v].ports|
  }

  function PortOf(sh: Shared, v: nat, i: nat): Port
    requires HasPort(sh, v, i)
  {
    sh.nodes[v].ports[i]
  }

  /** An effect names an existing node and port, and pops only what is queued. */
  predicate Applies(sh: Shared, eff: Effect) {
    match eff
    case SetExec(v, _) => v < |sh.nodes|
    case Pop(v, i) => HasPort(sh, v, i) && PortOf(sh, v, i).deq < PortOf(sh, v, i).enq
    case Push(v, i, n) => HasPort(sh, v, i) && PortOf(sh, v, i).deq + n <= PortOf(sh, v, i).enq
    case Latch(v, i) => HasPort(sh, v, i)
    case MarkFlush(v) => v < |sh.nodes|
    case StartRun(v) => v < |sh.nodes|
    case Emit(v, _) => v < |sh.nodes|
    case _ => true
  }

  function WithNode(sh: Shared, v: nat, node: Node): Shared
    requires v < |sh.nodes|
  {
    sh.(nodes := sh.nodes[v := node])
  }

  function WithPort(sh: Shared, v: nat, i: nat, p: Port): Shared
    requires HasPort(sh, v, i)
  {
    WithNode(sh, v, sh.nodes[v].(ports := sh.nodes[v].ports[i := p]))
  }

  function Apply(sh: Shared, eff: Effect): Shared
    requires Applies(sh, eff)
  {
    match eff
    case Nop => sh
    case SetExec(v, x) => WithNode(sh, v, sh.nodes[v].(exec := x))
    case Pop(v, i) => var p := PortOf(sh, v, i); WithPort(sh, v, i, p.(deq := p.deq + 1))
    case Push(v, i, n) => var p := PortOf(sh, v, i); WithPort(sh, v, i, p.(enq := p.enq + 1, deq := p.deq + n))
    case Latch(v, i) => WithPort(sh, v, i, PortOf(sh, v, i).(latched := true))
    case MarkFlush(v) => WithNode(sh, v, sh.nodes[v].(propagated := true, flushes := sh.nodes[v].flushes + 1))
    case StartRun(v) => WithNode(sh, v, sh.nodes[v].(runs := sh.nodes[v].runs + 1))
    case Emit(v, outs) => WithNode(sh, v, sh.nodes[v].(outs := outs))
    case AddActive(d) => sh.(active := sh.active + d)
    case AddSink => sh.(sinksAtEos := sh.sinksAtEos + 1)
    case SetReached => sh.(reached := true)
    case CallBack => sh.(callbacks := sh.callbacks + 1)
  }

  /** The frame names an existing node, port and edge. */
  predicate InRange(c: Config, f: Frame) {
    match f
    case ReachExchange => true
    case ReachCallback => true
    case TryScan(v, i, _) => v < |c.net.ports| && i < c.net.ports[v]
    case TryCount(v, i, _, _, _) => v < |c.net.ports| && i <= c.net.ports[v] && (i == c.net.ports[v] ==> f.read == AtLatch)
    case CheckScan(v, _, i, _) => v < |c.net.ports| && i < c.net.ports[v]
    case Propagate(v, k, _) => v < |c.net.ports| == |c.net.out| && k <= |c.net.out[v]|
    case Cascade(v, k) => v < |c.net.ports| == |c.net.out| && k <= |c.net.out[v]|
    case _ => f.v < |c.net.ports|
  }

  /** checkNodeEndOfStream returned false to a caller that may then try to schedule. */
  function ReturnFalse(v: nat, retry: bool): Then<Frame> {
    if retry then Goto(TryState(v)) else Return
  }

  function CountStart(v: nat): Then<Frame> {
    Goto(TryCount(v, 0, AtLatch, 0, 0))
  }

  /** tryScheduleNode, and scheduleNodeExecution up to posting the task. */
  predicate FireTry(c: Config, sh: Shared, f: Frame, eff: Effect, next: Then<Frame>, start: Start<Frame>)
    requires WellFormed(c, sh) && InRange(c, f)
  {
    && start == (if f.TryPost? then NewThread(Task(f.v)) else NoThread)
    && match f
       case TryState(v) =>
         && eff == Nop
         && next == if sh.nodes[v].exec != Waiting then Return
                    else if c.net.ports[v] == 0 then CountStart(v)
                    else Goto(TryScan(v, 0, AtLatch))
       case TryScan(v, i, read) => eff == Nop && next == ScanNext(c, sh.nodes[v].ports[i], v, i, read)
       case TryCount(v, i, read, expected, ready) =>
         && eff == Nop
         && if i == c.net.ports[v] then
              var go := Scheduler.StreamSchedules(Scheduler.Context(IsSource(c.net, v), expected, ready));
              (go && next == Goto(TryCas(v))) || ((!go || c.mayDefer) && next == Return)
            else
              next == Goto(CountNext(sh.nodes[v].ports[i], v, i, read, expected, ready))
       case TryCas(v) =>
         if sh.nodes[v].exec == Waiting then eff == SetExec(v, Ready) && next == Goto(TryInc(v))
         else eff == Nop && next == Return
       case TryInc(v) => eff == AddActive(1) && next == Goto(TryPost(v))
       case TryPost(v) => eff == Nop && next == Return
       case _ => false
  }

  /** allInputPortsDrained in tryScheduleNode, one load at a time. */
  function ScanNext(c: Config, p: Port, v: nat, i: nat, read: Read): Then<Frame>
    requires v < |c.net.ports|
  {
    match read
    case AtLatch => if p.latched && i < MAX_EOS_PORTS then Goto(TryScan(v, i, DrainEnq)) else CountStart(v)
    case DrainEnq => Goto(TryScan(v, i, DrainDeq(p.enq)))
    case DrainDeq(e) =>
      if p.deq < e then CountStart(v)
      else if i + 1 < c.net.ports[v] then Goto(TryScan(v, i + 1, AtLatch))
      else Goto(Check(v, false))
    case _ => Return
  }

  /** The readiness count: a drained port is not expected, any other one is. */
  function CountNext(p: Port, v: nat, i: nat, read: Read, expected: nat, ready: nat): Frame {
    match read
    case AtLatch =>
      if p.latched && i < MAX_EOS_PORTS then TryCount(v, i, DrainEnq, expected, ready)
      else TryCount(v, i, SizeEnq, expected + 1, ready)
    case DrainEnq => TryCount(v, i, DrainDeq(p.enq), expected, ready)
    case DrainDeq(e) =>
      if p.deq < e then TryCount(v, i, SizeEnq, expected + 1, ready)
      else TryCount(v, i + 1, AtLatch, expected, ready)
    case SizeEnq => TryCount(v, i, SizeDeq(p.enq), expected, ready)
    case SizeDeq(e) => TryCount(v, i + 1, AtLatch, expected, if p.deq < e then ready + 1 else ready)
  }

  /** A DropTail queue that is full, counting a packet that the node may just be taking out. */
  predicate Rejects(c: Config, sh: Shared, e: Edge) {
    && c.dropTail && HasPort(sh, e.dst, e.port)
    && var p := PortOf(sh, e.dst, e.port);
       p.enq - p.deq + (if sh.nodes[e.dst].exec == Executing then 1 else 0) >= c.capacity
  }

  /** There is room, or room is made. */
  predicate Accepts(c: Config, sh: Shared, e: Edge) {
    HasPort(sh, e.dst, e.port) && (c.dropTail ==> PortOf(sh, e.dst, e.port).enq - PortOf(sh, e.dst, e.port).deq < c.capacity)
  }

  /** executeNodeTask, with gathering, propagation and success or failure handling. */
  predicate FireTask(c: Config, sh: Shared, f: Frame, eff: Effect, next: Then<Frame>)
    requires WellFormed(c, sh) && InRange(c, f)
  {
    match f
    case Task(v) =>
      if sh.nodes[v].exec == Ready then eff == SetExec(v, Executing) && next == Goto(Gather(v, 0))
      else eff == Nop && next == Goto(TaskDone(v))
    case Gather(v, popped) =>
      || (eff.Pop? && eff.v == v && next == Goto(Gather(v, popped + 1)))
      || ((popped > 0 || c.net.ports[v] == 0) && eff == StartRun(v) && next == Goto(Process(v)))
      || (eff == SetExec(v, Waiting) && next == Call(TaskDone(v), Check(v, true)))
    case Process(v) =>
      || (eff.Emit? && eff.v == v && next == Goto(Propagate(v, 0, false)))
      || (eff == SetExec(v, Waiting) && next == Call(TaskFinal(v), TryState(v)))
    case Propagate(v, k, flush) =>
      if k == |c.net.out[v]| then
        eff == Nop && next == Goto(if flush then FlushStore(v) else TaskStore(v))
      else
        var e := c.net.out[v][k];
        if k !in sh.nodes[v].outs then
          eff == Nop && next == Goto(Propagate(v, k + 1, flush))
        else
          || (Rejects(c, sh, e) && eff == Nop && next == Goto(Propagate(v, k + 1, flush)))
          // DropHead or KeepLatest makes room
          || (!c.dropTail && eff == Pop(e.dst, e.port) && next == Goto(f))
          || (Accepts(c, sh, e) && eff == Push(e.dst, e.port, 0) && next == Call(Propagate(v, k + 1, flush), TryState(e.dst)))
    case TaskStore(v) =>
      if c.autoReschedule then eff == SetExec(v, Waiting) && next == Call(TaskFinal(v), TryState(v))
      else eff == SetExec(v, Completed) && next == Goto(TaskFinal(v))
    case TaskFinal(v) => eff == Nop && next == Call(TaskDone(v), Check(v, false))
    case TaskDone(v) => eff == AddActive(-1) && next == Return
    case _ => false
  }

  /** allInputPortsDrained in checkNodeEndOfStream, one load at a time. */
  function CheckNext(c: Config, p: Port, v: nat, retry: bool, i: nat, read: Read): Then<Frame>
    requires v < |c.net.ports|
  {
    match read
    case AtLatch =>
      if p.latched && i < MAX_EOS_PORTS then Goto(CheckScan(v, retry, i, DrainEnq)) else ReturnFalse(v, retry)
    case DrainEnq => Goto(CheckScan(v, retry, i, DrainDeq(p.enq)))
    case DrainDeq(e) =>
      if p.deq < e then ReturnFalse(v, retry)
      else if i + 1 < c.net.ports[v] then Goto(CheckScan(v, retry, i + 1, AtLatch))
      else Goto(CheckWaiting(v, retry))
    case _ => Return
  }

  /** checkNodeEndOfStream up to the claim: detection and the two compare-exchanges. */
  predicate FireCheck(c: Config, sh: Shared, f: Frame, eff: Effect, next: Then<Frame>)
    requires WellFormed(c, sh) && InRange(c, f)
  {
    match f
    case Check(v, retry) =>
      && eff == Nop
      && next == if sh.nodes[v].propagated || c.net.ports[v] == 0 then ReturnFalse(v, retry)
                 else Goto(CheckScan(v, retry, 0, AtLatch))
    case CheckScan(v, retry, i, read) =>
      eff == Nop && next == CheckNext(c, sh.nodes[v].ports[i], v, retry, i, read)
    case CheckWaiting(v, retry) =>
      if sh.nodes[v].exec == Waiting then eff == SetExec(v, Executing) && next == Goto(Claimed(v, retry))
      else eff == Nop && next == Goto(CheckCompleted(v, retry))
    case CheckCompleted(v, retry) =>
      if sh.nodes[v].exec == Completed then eff == SetExec(v, Executing) && next == Goto(Claimed(v, retry))
      else eff == Nop && next == ReturnFalse(v, retry)
    case _ => false
  }

  /** checkNodeEndOfStream from the claim on: exactly-once flag, flush, cascade, sinks. */
  predicate FireFlush(c: Config, sh: Shared, f: Frame, eff: Effect, next: Then<Frame>)
    requires WellFormed(c, sh) && InRange(c, f)
  {
    match f
    case Claimed(v, retry) =>
      if sh.nodes[v].propagated then eff == Nop && next == Goto(LoserStore(v, retry))
      else eff == MarkFlush(v) && next == Goto(Flush(v))
    case LoserStore(v, retry) => eff == SetExec(v, Waiting) && next == ReturnFalse(v, retry)
    case Flush(v) => eff.Emit? && eff.v == v && next == Goto(Propagate(v, 0, true))
    case FlushStore(v) => eff == SetExec(v, Completed) && next == Goto(Cascade(v, 0))
    case Cascade(v, k) =>
      if k == |c.net.out[v]| then
        eff == Nop && next == if IsSink(c.net, v) then Goto(RecordSink(v)) else Return
      else
        var e := c.net.out[v][k];
        if e.port < MAX_EOS_PORTS then
          eff == Latch(e.dst, e.port) && next == Call(Cascade(v, k + 1), Check(e.dst, false))
        else
          eff == Nop && next == Goto(Cascade(v, k + 1))
    case RecordSink(v) =>
      && eff == AddSink
      && var all := CountSinks(c.net, |c.net.out|);
         next == if all == 0 || sh.sinksAtEos + 1 < all then Return else Goto(ReachExchange)
    case ReachExchange =>
      if sh.reached then eff == Nop && next == Return else eff == SetReached && next == Goto(ReachCallback)
    case ReachCallback => eff == CallBack && next == Return
    case _ => false
  }

  predicate IsTry(f: Frame) {
    f.TryState? || f.TryScan? || f.TryCount? || f.TryCas? || f.TryInc? || f.TryPost?
  }

  predicate IsTask(f: Frame) {
    f.Task? || f.Gather? || f.Process? || f.Propagate? || f.TaskStore? || f.TaskFinal? || f.TaskDone?
  }

  predicate IsCheck(f: Frame) {
    f.Check? || f.CheckScan? || f.CheckWaiting? || f.CheckCompleted?
  }

  /** What the top frame of a stack may do next. */
  predicate Fire(c: Config, sh: Shared, f: Frame, eff: Effect, next: Then<Frame>, start: Start<Frame>)
    requires WellFormed(c, sh) && InRange(c, f)
  {
    if IsTry(f) then FireTry(c, sh, f, eff, next, start)
    else if IsTask(f) then start == NoThread && FireTask(c, sh, f, eff, next)
    else if IsCheck(f) then start == NoThread && FireCheck(c, sh, f, eff, next)
    else start == NoThread && FireFlush(c, sh, f, eff, next)
  }

  /**
   What callers, timers and the watchdog start: pushInput on a port that is not latched
   (latch check and push as one step), signalEndOfStream on a source node, and extra
   scheduling attempts.
   */
  predicate Enter(c: Config, sh: Shared, eff: Effect, start: Frame)
    requires WellFormed(c, sh)
  {
    || (eff.Push? && HasPort(sh, eff.v, eff.i) && !PortOf(sh, eff.v, eff.i).latched && start == TryState(eff.v))
    || (eff.Latch? && HasPort(sh, eff.v, eff.i) && !PortOf(sh, eff.v, eff.i).latched && IsSource(c.net, eff.v)
        && eff.i < MAX_EOS_PORTS && start == Check(eff.v, true))
    || (eff == Nop && (start.TryState? || start.TryCas?) && start.v < |c.net.ports|)
  }

  datatype Action =
    | Thread(t: nat, eff: Effect, next: Then<Frame>, start: Start<Frame>)
    | Outside(eff: Effect, frame: Frame)

  predicate NextBy(c: Config, s: State, a: Action, s': State) {
    && WellFormed(c, s.sh)
    && Applies(s.sh, a.eff)
    && s'.sh == Apply(s.sh, a.eff)
    && match a
       case Thread(t, eff, next, start) =>
         && t < |s.stacks| && s.stacks[t] != []
         && InRange(c, Top(s.stacks[t]))
         && Fire(c, s.sh, Top(s.stacks[t]), eff, next, start)
         && s'.stacks == Fired(s.stacks, t, next, start)
       case Outside(eff, frame) =>
         && Enter(c, s.sh, eff, frame)
         && s'.stacks == s.stacks + Started(NewThread(frame))
  }

  ghost predicate Next(c: Config, s: State, s': State) {
    exists a :: NextBy(c, s, a, s')
  }

  /** A streaming run starts with empty open queues and every node waiting. */
  predicate Init(c: Config, s: State) {
    && WellFormed(c, s.sh)
    && s.stacks == []
    && s.sh.active == 0 && s.sh.sinksAtEos == 0 && !s.sh.reached && s.sh.callbacks == 0
    && (forall v :: 0 <= v < |s.sh.nodes| ==>
          var n := s.sh.nodes[v];
          && n.exec == Waiting && !n.propagated && n.flushes == 0 && n.runs == 0 && n.outs == {}
          && forall i :: 0 <= i < |n.ports| ==> n.ports[i] == Port(0, 0, false))
  }

  ghost predicate IsRun(c: Config, run: seq<State>) {
    && run != []
    && Init(c, run[0])
    && forall i :: 0 <= i < |run| - 1 ==> Linked(c, run, i)
  }

  ghost predicate Linked(c: Config, run: seq<State>, i: nat)
    requires i < |run| - 1
  {
    Next(c, run[i], run[i + 1])
  }

  /** No engine step is in progress. */
  predicate Quiescent(s: State) {
    forall t :: 0 <= t < |s.stacks| ==> s.stacks[t] == []
  }

  predicate AllDrained(sh: Shared, v: nat) {
    && v < |sh.nodes|
    && |sh.nodes[v].ports| > 0
    && forall i :: 0 <= i < |sh.nodes[v].ports| ==> sh.nodes[v].ports[i].Drained()
  }
}
