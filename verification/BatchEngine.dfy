/**
 A batch execution of src/execution_engine_impl.cpp as a state machine.

 Every step performs at most one access to a shared atomic, and any number of threads
 interleave; see `Stacks` for threads.  No end-of-stream latch is ever set in batch mode,
 so every declared port is an expected input.  A queue is its two position counters; an
 edge carries at most one packet per execution, so propagation neither rejects nor evicts.
 Inputs from outside go to source nodes only.  The run may be stopped at any time.
 */
module BatchEngine {
  import opened Networks
  import opened Stacks
  import Scheduler

  datatype Exec = Waiting | Ready | Executing | Completed | Failed

  datatype Port = Port(enq: nat, deq: nat)

  /**
   `executions` is execution_count, the successes; `runs` counts the calls of process();
   `attempted` records that a scheduling attempt was made from outside; `outs` are the outgoing
   edges for which process() had an output.
   */
  datatype Node = Node(exec: Exec, ports: seq<Port>, executions: nat, runs: nat, attempted: bool, outs: set<nat>)

  /**
   `failed`, `asked` and `discarded` are history: some process() returned false, somebody asked
   to stop, and a gather discarded a packet because of its frame.
   */
  datatype Shared = Shared(
    nodes: seq<Node>,
    active: int,
    stop: bool,
    reported: bool,
    callbacks: nat,
    failed: bool,
    asked: bool,
    discarded: bool)

  datatype Read = SizeEnq | SizeDeq(e: nat)

  datatype Frame =
    // tryScheduleNode and scheduleNodeExecution
    | TryStop(v: nat)
    | TryState(v: nat)
    | TryCount(v: nat, i: nat, read: Read, ready: nat)
    | TryCas(v: nat)
    | TryInc(v: nat)
    | TryPost(v: nat)
    // executeNodeTask
    | TaskStop(v: nat)
    | Task(v: nat)
    | Gather(v: nat, i: nat)
    | Process(v: nat)
    | AfterProcess(v: nat, ok: bool)
    | Success(v: nat)
    | PropagateStop(v: nat)
    | Propagate(v: nat, k: nat)
    | TaskStore(v: nat)
    | FailStop(v: nat)
    | TaskDec(v: nat)
    // checkCompletionAndNotify
    | CheckActive
    | CheckSink(j: nat)
    | ReportCas
    | Report

  datatype State = State(sh: Shared, stacks: seq<seq<Frame>>)

  /** The single write a step makes to the shared state. */
  datatype Effect =
    | Nop
    | SetExec(v: nat, x: Exec)
    | Pop(v: nat, i: nat, discard: bool)
    | Push(v: nat, i: nat)
    | StartRun(v: nat)
    | Emit(v: nat, outs: set<nat>)
    | CountSuccess(v: nat)
    | Attempt(v: nat)
    | AddActive(d: int)
    | RecordFailure
    | SetStop(asked: bool)
    | SetReported
    | CallBack

  predicate WellFormed(c: Network, sh: Shared) {
    && |sh.nodes| == |c.ports| == |c.out|
    && (forall v :: 0 <= v < |sh.nodes| ==> |sh.nodes[v].ports| == c.ports[v])
  }

  predicate HasPort(sh: Shared, v: nat, i: nat) {
    v < |sh.nodes| && i < |sh.nodes[v].ports|
  }

  function PortOf(sh: Shared, v: nat, i: nat): Port
    requires HasPort(sh, v, i)
  {
    sh.nodes[v].ports[i]
  }

  predicate Applies(sh: Shared, eff: Effect) {
    match eff
    case SetExec(v, _) => v < |sh.nodes|
    case Pop(v, i, _) => HasPort(sh, v, i) && PortOf(sh, v, i).deq < PortOf(sh, v, i).enq
    case Push(v, i) => HasPort(sh, v, i)
    case StartRun(v) => v < |sh.nodes|
    case CountSuccess(v) => v < |sh.nodes|
    case Emit(v, _) => v < |sh.nodes|
    case Attempt(v) => v < |sh.nodes|
    case _ => true
  }

  function WithNode(sh: Shared, v: nat, node: Node): Shared
    requires v < |sh.nodes|
  {
    sh.(nodes := sh.nodes[v := node])
  }

  function WithPort(sh: Shared, v: nat, i: nat, p: Port): Shared
    requires HasPort(sh, v, i)
  {
    WithNode(sh, v, sh.nodes[v].(ports := sh.nodes[v].ports[i := p]))
  }

  function Apply(sh: Shared, eff: Effect): Shared
    requires Applies(sh, eff)
  {
    match eff
    case Nop => sh
    case SetExec(v, x) => WithNode(sh, v, sh.nodes[v].(exec := x))
    case Pop(v, i, discard) =>
      var p := PortOf(sh, v, i);
      WithPort(sh, v, i, p.(deq := p.deq + 1)).(discarded := sh.discarded || discard)
    case Push(v, i) => var p := PortOf(sh, v, i); WithPort(sh, v, i, p.(enq := p.enq + 1))
    case StartRun(v) => WithNode(sh, v, sh.nodes[v].(runs := sh.nodes[v].runs + 1))
    case CountSuccess(v) => WithNode(sh, v, sh.nodes[v].(executions := sh.nodes[v].executions + 1))
    case Emit(v, outs) => WithNode(sh, v, sh.nodes[v].(outs := outs))
    case Attempt(v) => WithNode(sh, v, sh.nodes[v].(attempted := true))
    case AddActive(d) => sh.(active := sh.active + d)
    case RecordFailure => sh.(failed := true)
    case SetStop(asked) => sh.(stop := true, asked := sh.asked || asked)
    case SetReported => sh.(reported := true)
    case CallBack => sh.(callbacks := sh.callbacks + 1)
  }

  /** The frame names an existing node, port and edge. */
  predicate InRange(c: Network, f: Frame) {
    match f
    case CheckActive => true
    case CheckSink(j) => j <= |c.out|
    case ReportCas => true
    case Report => true
    case TryCount(v, i, read, _) => v < |c.ports| && i <= c.ports[v] && (i == c.ports[v] ==> read == SizeEnq)
    case Gather(v, i) => v < |c.ports| && i <= c.ports[v]
    case Propagate(v, k) => v < |c.ports| == |c.out| && k <= |c.out[v]|
    case _ => f.v < |c.ports|
  }

  predicate IsTry(f: Frame) {
    f.TryStop? || f.TryState? || f.TryCount? || f.TryCas? || f.TryInc? || f.TryPost?
  }

  predicate IsCheck(f: Frame) {
    f.CheckActive? || f.CheckSink? || f.ReportCas? || f.Report?
  }

  predicate FireTry(c: Network, sh: Shared, f: Frame, eff: Effect, next: Then<Frame>, start: Start<Frame>)
    requires WellFormed(c, sh) && InRange(c, f)
  {
    && start == (if f.TryPost? then NewThread(TaskStop(f.v)) else NoThread)
    && match f
       case TryStop(v) => eff == Nop && next == if sh.stop then Return else Goto(TryState(v))
       case TryState(v) =>
         eff == Nop && next == if sh.nodes[v].exec != Waiting then Return else Goto(TryCount(v, 0, SizeEnq, 0))
       case TryCount(v, i, read, ready) =>
         && eff == Nop
         && if i == c.ports[v] then
              var go := Scheduler.BatchSchedules(Scheduler.Context(IsSource(c, v), c.ports[v], ready));
              next == if go then Goto(TryCas(v)) else Return
            else
              var p := sh.nodes[v].ports[i];
              next == Goto(match read
                           case SizeEnq => TryCount(v, i, SizeDeq(p.enq), ready)
                           case SizeDeq(e) => TryCount(v, i + 1, SizeEnq, if p.deq < e then ready + 1 else ready))
       case TryCas(v) =>
         if sh.nodes[v].exec == Waiting then eff == SetExec(v, Ready) && next == Goto(TryInc(v))
         else eff == Nop && next == Return
       case TryInc(v) => eff == AddActive(1) && next == Goto(TryPost(v))
       case TryPost(v) => eff == Nop && next == Return
       case _ => false
  }

  /** One of the ports from `i` on has nothing queued. */
  predicate DryFrom(node: Node, i: nat) {
    exists j :: i <= j < |node.ports| && node.ports[j].deq >= node.ports[j].enq
  }

  predicate FireTask(c: Network, sh: Shared, f: Frame, eff: Effect, next: Then<Frame>)
    requires WellFormed(c, sh) && InRange(c, f)
  {
    match f
    case TaskStop(v) =>
      if sh.stop then eff == SetExec(v, Waiting) && next == Goto(TaskDec(v))
      else eff == Nop && next == Goto(Task(v))
    case Task(v) =>
      if sh.nodes[v].exec == Ready then eff == SetExec(v, Executing) && next == Goto(Gather(v, 0))
      else eff == Nop && next == Goto(TaskDec(v))
    case Gather(v, i) =>
      || (i == c.ports[v] && eff == StartRun(v) && next == Goto(Process(v)))
      || (i < c.ports[v] && eff == Pop(v, i, false) && next == Goto(Gather(v, i + 1)))
      // a head that cannot be paired, or that a sibling branch dropped
      || (eff.Pop? && eff.v == v && eff.discard && next == Goto(Gather(v, i)))
      || (DryFrom(sh.nodes[v], i) && eff == SetExec(v, Failed) && next == Goto(FailStop(v)))
    case Process(v) =>
      || (eff.Emit? && eff.v == v && next == Goto(AfterProcess(v, true)))
      || (eff == RecordFailure && next == Goto(AfterProcess(v, false)))
    case AfterProcess(v, ok) =>
      if sh.stop then eff == SetExec(v, Waiting) && next == Goto(TaskDec(v))
      else if ok then eff == Nop && next == Goto(Success(v))
      else eff == SetExec(v, Failed) && next == Goto(FailStop(v))
    case Success(v) => eff == CountSuccess(v) && next == Goto(PropagateStop(v))
    case PropagateStop(v) => eff == Nop && next == Goto(if sh.stop then TaskStore(v) else Propagate(v, 0))
    case Propagate(v, k) =>
      if k == |c.out[v]| then
        eff == Nop && next == Goto(TaskStore(v))
      else
        var e := c.out[v][k];
        if k in sh.nodes[v].outs then eff == Push(e.dst, e.port) && next == Call(Propagate(v, k + 1), TryStop(e.dst))
        else eff == Nop && next == Goto(Propagate(v, k + 1))
    case TaskStore(v) => eff == SetExec(v, Completed) && next == Goto(TaskDec(v))
    case FailStop(v) => eff == SetStop(false) && next == Goto(TaskDec(v))
    case TaskDec(v) => eff == AddActive(-1) && next == Goto(CheckActive)
    case _ => false
  }

  predicate FireCheck(c: Network, sh: Shared, f: Frame, eff: Effect, next: Then<Frame>)
    requires WellFormed(c, sh) && InRange(c, f)
  {
    match f
    case CheckActive => eff == Nop && next == if sh.active != 0 then Return else Goto(CheckSink(0))
    case CheckSink(j) =>
      && eff == Nop
      && next == if j == |c.out| then Goto(ReportCas)
                 else if IsSink(c, j) && sh.nodes[j].executions == 0 then Return
                 else Goto(CheckSink(j + 1))
    case ReportCas =>
      if sh.reported then eff == Nop && next == Return
      else eff == SetReported && next == Goto(Report)
    case Report => eff == CallBack && next == Return
    case _ => false
  }

  predicate Fire(c: Network, sh: Shared, f: Frame, eff: Effect, next: Then<Frame>, start: Start<Frame>)
    requires WellFormed(c, sh) && InRange(c, f)
  {
    if IsTry(f) then FireTry(c, sh, f, eff, next, start)
    else if IsCheck(f) then start == NoThread && FireCheck(c, sh, f, eff, next)
    else start == NoThread && FireTask(c, sh, f, eff, next)
  }

  /** An input for a source node, a scheduling attempt on any node, or a stop request. */
  predicate Enter(c: Network, sh: Shared, eff: Effect, start: Start<Frame>)
    requires WellFormed(c, sh)
  {
    || (eff.Push? && IsSource(c, eff.v) && start == NewThread(TryStop(eff.v)))
    || (eff.Attempt? && start == NewThread(TryStop(eff.v)))
    || (eff == SetStop(true) && start == NoThread)
  }

  datatype Action =
    | Thread(t: nat, eff: Effect, next: Then<Frame>, start: Start<Frame>)
    | Outside(eff: Effect, start: Start<Frame>)

  predicate NextBy(c: Network, s: State, a: Action, s': State) {
    && WellFormed(c, s.sh)
    && Applies(s.sh, a.eff)
    && s'.sh == Apply(s.sh, a.eff)
    && match a
       case Thread(t, eff, next, start) =>
         && t < |s.stacks| && s.stacks[t] != []
         && InRange(c, Top(s.stacks[t]))
         && Fire(c, s.sh, Top(s.stacks[t]), eff, next, start)
         && s'.stacks == Fired(s.stacks, t, next, start)
       case Outside(eff, start) =>
         && Enter(c, s.sh, eff, start)
         && s'.stacks == s.stacks + Started(start)
  }

  ghost predicate Next(c: Network, s: State, s': State) {
    exists a :: NextBy(c, s, a, s')
  }

  /** resetInternalState: everything empty and waiting. */
  predicate Init(c: Network, s: State) {
    && WellFormed(c, s.sh)
    && s.stacks == []
    && s.sh.active == 0 && !s.sh.stop && !s.sh.reported && s.sh.callbacks == 0
    && !s.sh.failed && !s.sh.asked && !s.sh.discarded
    && (forall v :: 0 <= v < |s.sh.nodes| ==>
          var n := s.sh.nodes[v];
          && n.exec == Waiting && n.executions == 0 && n.runs == 0 && !n.attempted && n.outs == {}
          && forall i :: 0 <= i < |n.ports| ==> n.ports[i] == Port(0, 0))
  }

  ghost predicate IsRun(c: Network, run: seq<State>) {
    && run != []
    && Init(c, run[0])
    && forall i :: 0 <= i < |run| - 1 ==> Linked(c, run, i)
  }

  ghost predicate Linked(c: Network, run: seq<State>, i: nat)
    requires i < |run| - 1
  {
    Next(c, run[i], run[i + 1])
  }

  /** No engine step is in progress. */
  predicate Quiescent(s: State) {
    forall t :: 0 <= t < |s.stacks| ==> s.stacks[t] == []
  }
}
