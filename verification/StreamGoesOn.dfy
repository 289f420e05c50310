/**
 No thread of a streaming engine is ever stuck: in every reachable state the top frame of every
 thread can make a step.
 */
module StreamGoesOn {
  import opened Stacks
  import opened Networks
  import opened StreamEngine
  import opened StreamInvariant
  import opened StreamSteps
  import opened StreamProof
  import Scheduler

  /** One of the steps open to a frame. */
  datatype Choice = Choice(eff: Effect, next: Then<Frame>, start: Start<Frame>)

  function TryChoice(c: Config, sh: Shared, f: Frame): Choice
    requires WellFormed(c, sh) && InRange(c, f) && IsTry(f)
  {
    match f
    case TryState(v) =>
      var next := if sh.nodes[v].exec != Waiting then Return
                  else if c.net.ports[v] == 0 then CountStart(v)
                  else Goto(TryScan(v, 0, AtLatch));
      Choice(Nop, next, NoThread)
    case TryScan(v, i, read) => Choice(Nop, ScanNext(c, sh.nodes[v].ports[i], v, i, read), NoThread)
    case TryCount(v, i, read, expected, ready) =>
      if i < c.net.ports[v] then
        Choice(Nop, Goto(CountNext(sh.nodes[v].ports[i], v, i, read, expected, ready)), NoThread)
      else if Scheduler.StreamSchedules(Scheduler.Context(IsSource(c.net, v), expected, ready)) then
        Choice(Nop, Goto(TryCas(v)), NoThread)
      else
        Choice(Nop, Return, NoThread)
    case TryCas(v) =>
      if sh.nodes[v].exec == Waiting then Choice(SetExec(v, Ready), Goto(TryInc(v)), NoThread)
      else Choice(Nop, Return, NoThread)
    case TryInc(v) => Choice(AddActive(1), Goto(TryPost(v)), NoThread)
    case TryPost(v) => Choice(Nop, Return, NewThread(Task(v)))
  }

  function TaskChoice(c: Config, sh: Shared, f: Frame): Choice
    requires WellFormed(c, sh) && InRange(c, f) && IsTask(f)
  {
    match f
    case Task(v) =>
      if sh.nodes[v].exec == Ready then Choice(SetExec(v, Executing), Goto(Gather(v, 0)), NoThread)
      else Choice(Nop, Goto(TaskDone(v)), NoThread)
    case Gather(v, popped) =>
      if popped > 0 || c.net.ports[v] == 0 then Choice(StartRun(v), Goto(Process(v)), NoThread)
      else Choice(SetExec(v, Waiting), Call(TaskDone(v), Check(v, true)), NoThread)
    case Process(v) => Choice(Emit(v, {}), Goto(Propagate(v, 0, false)), NoThread)
    case Propagate(v, k, flush) =>
      if k == |c.net.out[v]| then Choice(Nop, Goto(if flush then FlushStore(v) else TaskStore(v)), NoThread)
      else
        var e := c.net.out[v][k];
        if k in sh.nodes[v].outs && Accepts(c, sh, e) then
          Choice(Push(e.dst, e.port, 0), Call(Propagate(v, k + 1, flush), TryState(e.dst)), NoThread)
        else
          Choice(Nop, Goto(Propagate(v, k + 1, flush)), NoThread)
    case TaskStore(v) =>
      if c.autoReschedule then Choice(SetExec(v, Waiting), Call(TaskFinal(v), TryState(v)), NoThread)
      else Choice(SetExec(v, Completed), Goto(TaskFinal(v)), NoThread)
    case TaskFinal(v) => Choice(Nop, Call(TaskDone(v), Check(v, false)), NoThread)
    case TaskDone(v) => Choice(AddActive(-1), Return, NoThread)
  }

  function CheckChoice(c: Config, sh: Shared, f: Frame): Choice
    requires WellFormed(c, sh) && InRange(c, f) && IsCheck(f)
  {
    match f
    case Check(v, retry) =>
      var next := if sh.nodes[v].propagated || c.net.ports[v] == 0 then ReturnFalse(v, retry)
                  else Goto(CheckScan(v, retry, 0, AtLatch));
      Choice(Nop, next, NoThread)
    case CheckScan(v, retry, i, read) => Choice(Nop, CheckNext(c, sh.nodes[v].ports[i], v, retry, i, read), NoThread)
    case CheckWaiting(v, retry) =>
      if sh.nodes[v].exec == Waiting then Choice(SetExec(v, Executing), Goto(Claimed(v, retry)), NoThread)
      else Choice(Nop, Goto(CheckCompleted(v, retry)), NoThread)
    case CheckCompleted(v, retry) =>
      if sh.nodes[v].exec == Completed then Choice(SetExec(v, Executing), Goto(Claimed(v, retry)), NoThread)
      else Choice(Nop, ReturnFalse(v, retry), NoThread)
  }

  function FlushChoice(c: Config, sh: Shared, f: Frame): Choice
    requires WellFormed(c, sh) && InRange(c, f) && !IsTry(f) && !IsTask(f) && !IsCheck(f)
  {
    match f
    case Claimed(v, retry) =>
      if sh.nodes[v].propagated then Choice(Nop, Goto(LoserStore(v, retry)), NoThread)
      else Choice(MarkFlush(v), Goto(Flush(v)), NoThread)
    case LoserStore(v, retry) => Choice(SetExec(v, Waiting), ReturnFalse(v, retry), NoThread)
    case Flush(v) => Choice(Emit(v, {}), Goto(Propagate(v, 0, true)), NoThread)
    case FlushStore(v) => Choice(SetExec(v, Completed), Goto(Cascade(v, 0)), NoThread)
    case Cascade(v, k) =>
      if k == |c.net.out[v]| then Choice(Nop, if IsSink(c.net, v) then Goto(RecordSink(v)) else Return, NoThread)
      else if c.net.out[v][k].port < MAX_EOS_PORTS then
        Choice(Latch(c.net.out[v][k].dst, c.net.out[v][k].port), Call(Cascade(v, k + 1), Check(c.net.out[v][k].dst, false)), NoThread)
      else
        Choice(Nop, Goto(Cascade(v, k + 1)), NoThread)
    case RecordSink(_) =>
      var all := CountSinks(c.net, |c.net.out|);
      Choice(AddSink, if all == 0 || sh.sinksAtEos + 1 < all then Return else Goto(ReachExchange), NoThread)
    case ReachExchange =>
      if sh.reached then Choice(Nop, Return, NoThread) else Choice(SetReached, Goto(ReachCallback), NoThread)
    case ReachCallback => Choice(CallBack, Return, NoThread)
  }

  ghost predicate IsOpen(c: Config, sh: Shared, f: Frame, ch: Choice)
    requires WellFormed(c, sh) && InRange(c, f)
  {
    Applies(sh, ch.eff) && Fire(c, sh, f, ch.eff, ch.next, ch.start)
  }

  lemma TryIsOpen(c: Config, sh: Shared, f: Frame)
    requires WellFormed(c, sh) && InRange(c, f) && IsTry(f)
    ensures IsOpen(c, sh, f, TryChoice(c, sh, f))
  {
  }

  lemma TaskIsOpen(c: Config, sh: Shared, f: Frame)
    requires ValidConfig(c) && WellFormed(c, sh) && PortsOk(c, sh) && InRange(c, f) && IsTask(f)
    ensures IsOpen(c, sh, f, TaskChoice(c, sh, f))
  {
    if f.Propagate? && f.k < |c.net.out[f.v]| {
      assert IsEdge(c.net, f.v, f.k);
      assert HasPort(sh, c.net.out[f.v][f.k].dst, c.net.out[f.v][f.k].port);
    }
  }

  lemma CheckIsOpen(c: Config, sh: Shared, f: Frame)
    requires WellFormed(c, sh) && InRange(c, f) && IsCheck(f)
    ensures IsOpen(c, sh, f, CheckChoice(c, sh, f))
  {
  }

  lemma FlushIsOpen(c: Config, sh: Shared, f: Frame)
    requires ValidConfig(c) && WellFormed(c, sh) && InRange(c, f) && !IsTry(f) && !IsTask(f) && !IsCheck(f)
    ensures IsOpen(c, sh, f, FlushChoice(c, sh, f))
  {
    assert f.Cascade? && f.k < |c.net.out[f.v]| ==> IsEdge(c.net, f.v, f.k);
  }

  lemma CanFire(c: Config, sh: Shared, f: Frame) returns (ch: Choice)
    requires ValidConfig(c) && WellFormed(c, sh) && PortsOk(c, sh) && InRange(c, f)
    ensures IsOpen(c, sh, f, ch)
  {
    if IsTry(f) {
      TryIsOpen(c, sh, f);
      ch := TryChoice(c, sh, f);
    } else if IsTask(f) {
      TaskIsOpen(c, sh, f);
      ch := TaskChoice(c, sh, f);
    } else if IsCheck(f) {
      CheckIsOpen(c, sh, f);
      ch := CheckChoice(c, sh, f);
    } else {
      FlushIsOpen(c, sh, f);
      ch := FlushChoice(c, sh, f);
    }
  }

  /** Whatever the threads and callers have done, a thread that is not finished can make a step. */
  lemma CanGoOn(c: Config, run: seq<State>, n: nat, t: nat) returns (a: Action, s': State)
    requires ValidConfig(c) && IsRun(c, run) && n < |run| && t < |run[n].stacks| && run[n].stacks[t] != []
    ensures a.Thread? && a.t == t && NextBy(c, run[n], a, s')
  {
    var s := run[n];
    RunInv(c, run, n);
    TopIsOk(c, s, t);
    var ch := CanFire(c, s.sh, Top(s.stacks[t]));
    a := Thread(t, ch.eff, ch.next, ch.start);
    s' := State(Apply(s.sh, ch.eff), Fired(s.stacks, t, ch.next, ch.start));
  }
}
