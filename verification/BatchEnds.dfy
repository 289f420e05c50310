/**
 A batch comes to rest: every step of a thread lowers a measure, so a run has at most a
 fixed number of steps for every input, scheduling attempt or stop from outside.
 */
module BatchEnds {
  import opened Networks
  import opened Stacks
  import opened BatchEngine
  import opened BatchSteps
  import opened BatchProof
  import Scheduler

  // ---- What is left to do ----

  /** What propagating from edge `k` on can cost: a scheduling attempt on every destination. */
  function EdgeCosts(c: Network, cost: seq<nat>, v: nat, k: nat): nat
    requires v < |c.out| && k <= |c.out[v]|
    decreases |c.out[v]| - k
  {
    if k == |c.out[v]| then 0
    else (if c.out[v][k].dst < |cost| then cost[c.out[v][k].dst] else 0) + 3 + EdgeCosts(c, cost, v, k + 1)
  }

  /** `cost[v]` bounds what a scheduling attempt on node `v` can lead to. */
  predicate CostOk(c: Network, cost: seq<nat>) {
    && |cost| == |c.ports| == |c.out|
    && forall v :: 0 <= v < |cost| ==> cost[v] == |c.out| + 21 + 3 * c.ports[v] + EdgeCosts(c, cost, v, 0)
  }

  function Left(c: Network, cost: seq<nat>, f: Frame): int
    requires |c.ports| == |c.out|
  {
    if !InRange(c, f) then 0
    else
      var n := |c.out|;
      match f
      case Report => 1
      case ReportCas => 2
      case CheckSink(j) => n - j + 3
      case CheckActive => n + 4
      case TaskDec(_) => n + 5
      case FailStop(_) => n + 6
      case TaskStore(_) => n + 6
      case Propagate(v, k) => n + 7 + EdgeCosts(c, cost, v, k)
      case PropagateStop(v) => n + 8 + EdgeCosts(c, cost, v, 0)
      case Success(v) => n + 9 + EdgeCosts(c, cost, v, 0)
      case AfterProcess(v, _) => n + 10 + EdgeCosts(c, cost, v, 0)
      case Process(v) => n + 11 + EdgeCosts(c, cost, v, 0)
      case Gather(v, i) => n + 12 + EdgeCosts(c, cost, v, 0) + (c.ports[v] - i)
      case Task(v) => n + 13 + EdgeCosts(c, cost, v, 0) + c.ports[v]
      case TaskStop(v) => n + 14 + EdgeCosts(c, cost, v, 0) + c.ports[v]
      case TryPost(v) => n + 15 + EdgeCosts(c, cost, v, 0) + c.ports[v]
      case TryInc(v) => n + 16 + EdgeCosts(c, cost, v, 0) + c.ports[v]
      case TryCas(v) => n + 17 + EdgeCosts(c, cost, v, 0) + c.ports[v]
      case TryCount(v, i, read, _) => n + 18 + EdgeCosts(c, cost, v, 0) + c.ports[v] + 2 * (c.ports[v] - i) + One(read.SizeEnq?)
      case TryState(v) => n + 20 + EdgeCosts(c, cost, v, 0) + 3 * c.ports[v]
      case TryStop(v) => n + 21 + EdgeCosts(c, cost, v, 0) + 3 * c.ports[v]
  }

  function LeftW(c: Network, cost: seq<nat>): Frame -> int
    requires |c.ports| == |c.out|
  {
    (f: Frame) => Left(c, cost, f)
  }

  function PacketW(): Port -> int {
    (p: Port) => if p.deq < p.enq then p.enq - p.deq else 0
  }

  function Queues(sh: Shared): seq<seq<Port>> {
    seq(|sh.nodes|, v requires 0 <= v < |sh.nodes| => sh.nodes[v].ports)
  }

  /** Everything that the threads and the queued packets can still lead to. */
  function Measure(c: Network, cost: seq<nat>, s: State): int
    requires |c.ports| == |c.out|
  {
    Total(LeftW(c, cost), s.stacks) + Total(PacketW(), Queues(s.sh))
  }

  // ---- Steps ----

  lemma TryLowers(c: Network, cost: seq<nat>, sh: Shared, f: Frame, eff: Effect, next: Then<Frame>, start: Start<Frame>)
    requires WellFormed(c, sh) && InRange(c, f) && FireTry(c, sh, f, eff, next, start)
    ensures Delta(LeftW(c, cost), f, next, start) < 0 && !eff.Push? && !eff.Pop?
  {
  }

  lemma CheckLowers(c: Network, cost: seq<nat>, sh: Shared, f: Frame, eff: Effect, next: Then<Frame>)
    requires WellFormed(c, sh) && InRange(c, f) && FireCheck(c, sh, f, eff, next)
    ensures Delta(LeftW(c, cost), f, next, NoThread) < 0 && !eff.Push? && !eff.Pop?
  {
  }

  lemma GatherLowers(c: Network, cost: seq<nat>, sh: Shared, f: Frame, eff: Effect, next: Then<Frame>)
    requires WellFormed(c, sh) && InRange(c, f) && FireTask(c, sh, f, eff, next) && f.Gather?
    ensures Delta(LeftW(c, cost), f, next, NoThread) - One(eff.Pop?) < 0 && !eff.Push?
  {
  }

  /** Frames of a task in which nothing moves between queues. */
  predicate Plain(f: Frame) {
    !IsTry(f) && !IsCheck(f) && !f.Gather? && !f.Propagate?
  }

  /** Up to the result of process(), and from there on. */
  predicate Early(f: Frame) {
    f.TaskStop? || f.Task? || f.Process? || f.AfterProcess?
  }

  lemma EarlyLowers(c: Network, cost: seq<nat>, sh: Shared, f: Frame, eff: Effect, next: Then<Frame>)
    requires WellFormed(c, sh) && InRange(c, f) && FireTask(c, sh, f, eff, next) && Plain(f) && Early(f)
    ensures Delta(LeftW(c, cost), f, next, NoThread) < 0
  {
  }

  lemma LateLowers(c: Network, cost: seq<nat>, sh: Shared, f: Frame, eff: Effect, next: Then<Frame>)
    requires WellFormed(c, sh) && InRange(c, f) && FireTask(c, sh, f, eff, next) && Plain(f) && !Early(f)
    ensures Delta(LeftW(c, cost), f, next, NoThread) < 0
  {
  }

  lemma PlainMovesNothing(c: Network, sh: Shared, f: Frame, eff: Effect, next: Then<Frame>)
    requires WellFormed(c, sh) && InRange(c, f) && FireTask(c, sh, f, eff, next) && Plain(f)
    ensures !eff.Push? && !eff.Pop?
  {
  }

  lemma PropagateLowers(c: Network, cost: seq<nat>, sh: Shared, f: Frame, eff: Effect, next: Then<Frame>)
    requires CostOk(c, cost) && WellFormed(c, sh) && InRange(c, f) && FireTask(c, sh, f, eff, next) && f.Propagate?
    requires f.k < |c.out[f.v]| ==> c.out[f.v][f.k].dst < |cost|
    ensures Delta(LeftW(c, cost), f, next, NoThread) + One(eff.Push?) < 0 && !eff.Pop?
  {
    if f.k < |c.out[f.v]| {
      CallLowers(c, cost, f.v, f.k);
    }
  }

  /** Going on after a scheduling attempt on the destination of edge `k`. */
  lemma CallLowers(c: Network, cost: seq<nat>, v: nat, k: nat)
    requires CostOk(c, cost) && v < |c.out| && k < |c.out[v]| && c.out[v][k].dst < |cost|
    ensures Left(c, cost, Propagate(v, k + 1)) + Left(c, cost, TryStop(c.out[v][k].dst)) + 3 == Left(c, cost, Propagate(v, k))
    ensures Left(c, cost, TryStop(c.out[v][k].dst)) >= 0
  {
    var dst := c.out[v][k].dst;
    assert Left(c, cost, TryStop(dst)) == cost[dst];
  }

  /** Only pushes and pops change what is queued. */
  lemma PacketsAfter(sh: Shared, eff: Effect)
    requires Applies(sh, eff)
    ensures Total(PacketW(), Queues(Apply(sh, eff))) <= Total(PacketW(), Queues(sh)) + One(eff.Push?) - One(eff.Pop?)
  {
    var q, q' := Queues(sh), Queues(Apply(sh, eff));
    if eff.Push? || eff.Pop? {
      var v, i := eff.v, eff.i;
      var p' := Apply(sh, eff).nodes[v].ports[i];
      assert q' == q[v := q[v][i := p']];
      TotalUpdate(PacketW(), q, v, q[v][i := p']);
      SumUpdate(PacketW(), q[v], i, p');
    } else {
      assert q' == q;
    }
  }

  /** Every step of a thread lowers the measure. */
  lemma ThreadLowers(c: Network, cost: seq<nat>, s: State, a: Action, s': State)
    requires ValidNetwork(c) && CostOk(c, cost) && NextBy(c, s, a, s') && a.Thread?
    ensures Measure(c, cost, s') < Measure(c, cost, s)
  {
    var f := Top(s.stacks[a.t]);
    TotalFired(LeftW(c, cost), s.stacks, a.t, a.next, a.start);
    PacketsAfter(s.sh, a.eff);
    if IsTry(f) {
      TryLowers(c, cost, s.sh, f, a.eff, a.next, a.start);
    } else if IsCheck(f) {
      CheckLowers(c, cost, s.sh, f, a.eff, a.next);
    } else if f.Propagate? {
      assert f.k < |c.out[f.v]| ==> IsEdge(c, f.v, f.k);
      PropagateLowers(c, cost, s.sh, f, a.eff, a.next);
    } else if f.Gather? {
      GatherLowers(c, cost, s.sh, f, a.eff, a.next);
    } else {
      if Early(f) {
        EarlyLowers(c, cost, s.sh, f, a.eff, a.next);
      } else {
        LateLowers(c, cost, s.sh, f, a.eff, a.next);
      }
      PlainMovesNothing(c, s.sh, f, a.eff, a.next);
    }
  }

  function Most(cost: seq<nat>): (m: nat)
    ensures forall v :: 0 <= v < |cost| ==> cost[v] <= m
  {
    if cost == [] then 0
    else
      var n := |cost| - 1;
      var m := Most(cost[..n]);
      assert forall v :: 0 <= v < n ==> cost[v] == cost[..n][v];
      if cost[n] >= m then cost[n] else m
  }

  /** A step from outside raises it by a bounded amount. */
  lemma OutsideRaises(c: Network, cost: seq<nat>, s: State, a: Action, s': State)
    requires ValidNetwork(c) && CostOk(c, cost) && NextBy(c, s, a, s') && a.Outside?
    ensures Measure(c, cost, s') <= Measure(c, cost, s) + Most(cost) + 1
  {
    TotalStarted(LeftW(c, cost), s.stacks, a.start);
    PacketsAfter(s.sh, a.eff);
    if a.start.NewThread? {
      assert Left(c, cost, a.start.frame) == cost[a.start.frame.v];
    }
  }

  // ---- The cost of an attempt, for a DAG ----

  /** What a scheduling attempt on node `v` can lead to: an execution, and attempts on the nodes after it. */
  function CostFrom(c: Network, rank: seq<nat>, v: nat): nat
    requires ValidNetwork(c) && Ranked(c, rank) && v < |c.out|
    decreases MaxRank(rank) - rank[v], |c.out[v]| + 1
  {
    |c.out| + 21 + 3 * c.ports[v] + EdgeCostsFrom(c, rank, v, 0)
  }

  function EdgeCostsFrom(c: Network, rank: seq<nat>, v: nat, k: nat): nat
    requires ValidNetwork(c) && Ranked(c, rank) && v < |c.out| && k <= |c.out[v]|
    decreases MaxRank(rank) - rank[v], |c.out[v]| - k
  {
    if k == |c.out[v]| then 0
    else
      assert IsEdge(c, v, k);
      var dst := c.out[v][k].dst;
      MaxRankBounds(rank, v);
      MaxRankBounds(rank, dst);
      CostFrom(c, rank, dst) + 3 + EdgeCostsFrom(c, rank, v, k + 1)
  }

  function Costs(c: Network, rank: seq<nat>): seq<nat>
    requires ValidNetwork(c) && Ranked(c, rank)
  {
    seq(|c.out|, v requires 0 <= v < |c.out| => CostFrom(c, rank, v))
  }

  lemma {:induction false} EdgeCostsAgree(c: Network, rank: seq<nat>, v: nat, k: nat)
    requires ValidNetwork(c) && Ranked(c, rank) && v < |c.out| && k <= |c.out[v]|
    ensures EdgeCosts(c, Costs(c, rank), v, k) == EdgeCostsFrom(c, rank, v, k)
    decreases |c.out[v]| - k
  {
    if k < |c.out[v]| {
      assert IsEdge(c, v, k);
      EdgeCostsAgree(c, rank, v, k + 1);
    }
  }

  lemma CostsAreOk(c: Network, rank: seq<nat>)
    requires ValidNetwork(c) && Ranked(c, rank)
    ensures CostOk(c, Costs(c, rank))
  {
    forall v | 0 <= v < |c.out|
      ensures Costs(c, rank)[v] == |c.out| + 21 + 3 * c.ports[v] + EdgeCosts(c, Costs(c, rank), v, 0)
    {
      EdgeCostsAgree(c, rank, v, 0);
    }
  }

  // ---- Runs ----

  /** `acts` are the steps of the run. */
  ghost predicate IsPlayed(c: Network, run: seq<State>, acts: seq<Action>) {
    |run| == |acts| + 1 && forall i :: 0 <= i < |acts| ==> Played(c, run, acts, i)
  }

  ghost predicate Played(c: Network, run: seq<State>, acts: seq<Action>, i: nat)
    requires i < |acts| < |run|
  {
    NextBy(c, run[i], acts[i], run[i + 1])
  }

  /** How many of the first `n` steps come from outside. */
  function Outsides(acts: seq<Action>, n: nat): nat
    requires n <= |acts|
  {
    if n == 0 then 0 else Outsides(acts, n - 1) + if acts[n - 1].Outside? then 1 else 0
  }

  lemma MeasureNonNegative(c: Network, cost: seq<nat>, s: State)
    requires |c.ports| == |c.out|
    ensures Measure(c, cost, s) >= 0
  {
    TotalNonNegative(LeftW(c, cost), s.stacks);
    TotalNonNegative(PacketW(), Queues(s.sh));
  }

  lemma {:induction false} NothingQueued(queues: seq<seq<Port>>)
    requires forall v, i :: 0 <= v < |queues| && 0 <= i < |queues[v]| ==> queues[v][i] == Port(0, 0)
    ensures Total(PacketW(), queues) == 0
  {
    if queues != [] {
      EmptyQueue(queues[0]);
      NothingQueued(queues[1..]);
    }
  }

  lemma {:induction false} EmptyQueue(ports: seq<Port>)
    requires forall i :: 0 <= i < |ports| ==> ports[i] == Port(0, 0)
    ensures Sum(PacketW(), ports) == 0
  {
    if ports != [] {
      EmptyQueue(ports[1..]);
    }
  }

  /** What a step may add to the measure, and one for the step. */
  function Pay(cost: seq<nat>, a: Action): nat {
    if a.Outside? then Most(cost) + 2 else 0
  }

  function Paid(cost: seq<nat>, acts: seq<Action>, n: nat): nat
    requires n <= |acts|
  {
    if n == 0 then 0 else Paid(cost, acts, n - 1) + Pay(cost, acts[n - 1])
  }

  lemma StepIsPaid(c: Network, cost: seq<nat>, run: seq<State>, acts: seq<Action>, i: nat)
    requires ValidNetwork(c) && CostOk(c, cost) && IsPlayed(c, run, acts) && i < |acts|
    ensures Measure(c, cost, run[i + 1]) + 1 <= Measure(c, cost, run[i]) + Pay(cost, acts[i])
  {
    assert Played(c, run, acts, i);
    if acts[i].Thread? {
      ThreadLowers(c, cost, run[i], acts[i], run[i + 1]);
    } else {
      OutsideRaises(c, cost, run[i], acts[i], run[i + 1]);
    }
  }

  /** The steps so far and what is left are paid for by what came from outside. */
  lemma {:induction false} StepsArePaid(c: Network, cost: seq<nat>, run: seq<State>, acts: seq<Action>, n: nat)
    requires ValidNetwork(c) && CostOk(c, cost) && IsPlayed(c, run, acts) && n <= |acts|
    ensures Measure(c, cost, run[n]) + n <= Measure(c, cost, run[0]) + Paid(cost, acts, n)
  {
    if n > 0 {
      StepsArePaid(c, cost, run, acts, n - 1);
      StepIsPaid(c, cost, run, acts, n - 1);
    }
  }

  lemma {:induction false} PaidIs(cost: seq<nat>, acts: seq<Action>, n: nat, limit: nat)
    requires n <= |acts| && limit == Most(cost) + 2
    ensures Paid(cost, acts, n) == Outsides(acts, n) * limit
  {
    if n > 0 {
      PaidIs(cost, acts, n - 1, limit);
      OneMore(Outsides(acts, n - 1), limit);
    }
  }

  lemma OneMore(k: nat, m: nat)
    ensures (k + 1) * m == k * m + m
  {
  }

  lemma NothingLeft(c: Network, cost: seq<nat>, s: State)
    requires Init(c, s)
    ensures Measure(c, cost, s) == 0
  {
    NothingQueued(Queues(s.sh));
  }

  lemma PaidSteps(c: Network, cost: seq<nat>, run: seq<State>, acts: seq<Action>)
    requires ValidNetwork(c) && CostOk(c, cost) && IsPlayed(c, run, acts) && Init(c, run[0])
    ensures |acts| <= Paid(cost, acts, |acts|)
  {
    StepsArePaid(c, cost, run, acts, |acts|);
    MeasureNonNegative(c, cost, run[|acts|]);
    NothingLeft(c, cost, run[0]);
  }

  /** The most steps that one step from outside can lead to, itself included. */
  function Limit(c: Network, rank: seq<nat>): nat
    requires ValidNetwork(c) && Ranked(c, rank)
  {
    Most(Costs(c, rank)) + 2
  }

  lemma BoundedBy(c: Network, cost: seq<nat>, run: seq<State>, acts: seq<Action>, limit: nat)
    requires ValidNetwork(c) && CostOk(c, cost) && IsPlayed(c, run, acts) && Init(c, run[0]) && limit == Most(cost) + 2
    ensures |acts| <= Outsides(acts, |acts|) * limit
  {
    PaidSteps(c, cost, run, acts);
    PaidIs(cost, acts, |acts|, limit);
  }

  /** A batch on a DAG makes at most a fixed number of steps for every step from outside. */
  lemma RunIsBounded(c: Network, rank: seq<nat>, run: seq<State>, acts: seq<Action>, limit: nat)
    requires ValidNetwork(c) && Ranked(c, rank) && IsPlayed(c, run, acts) && Init(c, run[0]) && limit == Limit(c, rank)
    ensures |acts| <= Outsides(acts, |acts|) * limit
  {
    CostsAreOk(c, rank);
    BoundedBy(c, Costs(c, rank), run, acts, limit);
  }

  /** Left alone, a batch makes at most as many steps as its measure says, from wherever it is. */
  lemma AloneIsBounded(c: Network, rank: seq<nat>, run: seq<State>, acts: seq<Action>)
    requires ValidNetwork(c) && Ranked(c, rank) && IsPlayed(c, run, acts) && forall i :: 0 <= i < |acts| ==> acts[i].Thread?
    ensures |acts| <= Measure(c, Costs(c, rank), run[0])
  {
    var cost := Costs(c, rank);
    CostsAreOk(c, rank);
    StepsArePaid(c, cost, run, acts, |acts|);
    MeasureNonNegative(c, cost, run[|acts|]);
    NoneOutside(cost, acts, |acts|);
  }

  lemma {:induction false} NoneOutside(cost: seq<nat>, acts: seq<Action>, n: nat)
    requires n <= |acts| && forall i :: 0 <= i < |acts| ==> acts[i].Thread?
    ensures Paid(cost, acts, n) == 0
  {
    if n > 0 {
      NoneOutside(cost, acts, n - 1);
    }
  }

  // ---- Progress ----

  /** A step the frame can make. */
  datatype Choice = Choice(eff: Effect, next: Then<Frame>, start: Start<Frame>)

  function TryChoice(c: Network, sh: Shared, f: Frame): Choice
    requires WellFormed(c, sh) && InRange(c, f) && IsTry(f)
  {
    var next :=
      match f
      case TryStop(v) => if sh.stop then Return else Goto(TryState(v))
      case TryState(v) => if sh.nodes[v].exec != Waiting then Return else Goto(TryCount(v, 0, SizeEnq, 0))
      case TryCount(v, i, read, ready) =>
        if i == c.ports[v] then
          if Scheduler.BatchSchedules(Scheduler.Context(IsSource(c, v), c.ports[v], ready)) then Goto(TryCas(v)) else Return
        else if read.SizeEnq? then Goto(TryCount(v, i, SizeDeq(sh.nodes[v].ports[i].enq), ready))
        else Goto(TryCount(v, i + 1, SizeEnq, if sh.nodes[v].ports[i].deq < read.e then ready + 1 else ready))
      case TryCas(v) => if sh.nodes[v].exec == Waiting then Goto(TryInc(v)) else Return
      case TryInc(v) => Goto(TryPost(v))
      case TryPost(_) => Return;
    Choice(
      if f.TryCas? && sh.nodes[f.v].exec == Waiting then SetExec(f.v, Ready) else if f.TryInc? then AddActive(1) else Nop,
      next,
      if f.TryPost? then NewThread(TaskStop(f.v)) else NoThread)
  }

  function CheckChoice(c: Network, sh: Shared, f: Frame): Choice
    requires WellFormed(c, sh) && InRange(c, f) && IsCheck(f)
  {
    match f
    case CheckActive => Choice(Nop, if sh.active != 0 then Return else Goto(CheckSink(0)), NoThread)
    case CheckSink(j) =>
      Choice(Nop,
             if j == |c.out| then Goto(ReportCas) else if IsSink(c, j) && sh.nodes[j].executions == 0 then Return else Goto(CheckSink(j + 1)),
             NoThread)
    case ReportCas => if sh.reported then Choice(Nop, Return, NoThread) else Choice(SetReported, Goto(Report), NoThread)
    case Report => Choice(CallBack, Return, NoThread)
  }

  function TaskChoice(c: Network, sh: Shared, f: Frame): Choice
    requires WellFormed(c, sh) && InRange(c, f) && !IsTry(f) && !IsCheck(f)
  {
    match f
    case TaskStop(v) => if sh.stop then Choice(SetExec(v, Waiting), Goto(TaskDec(v)), NoThread) else Choice(Nop, Goto(Task(v)), NoThread)
    case Task(v) =>
      if sh.nodes[v].exec == Ready then Choice(SetExec(v, Executing), Goto(Gather(v, 0)), NoThread) else Choice(Nop, Goto(TaskDec(v)), NoThread)
    case Gather(v, i) =>
      if i == c.ports[v] then Choice(StartRun(v), Goto(Process(v)), NoThread)
      else if sh.nodes[v].ports[i].deq < sh.nodes[v].ports[i].enq then Choice(Pop(v, i, false), Goto(Gather(v, i + 1)), NoThread)
      else Choice(SetExec(v, Failed), Goto(FailStop(v)), NoThread)
    case Process(v) => Choice(Emit(v, {}), Goto(AfterProcess(v, true)), NoThread)
    case AfterProcess(v, ok) =>
      if sh.stop then Choice(SetExec(v, Waiting), Goto(TaskDec(v)), NoThread)
      else if ok then Choice(Nop, Goto(Success(v)), NoThread)
      else Choice(SetExec(v, Failed), Goto(FailStop(v)), NoThread)
    case Success(v) => Choice(CountSuccess(v), Goto(PropagateStop(v)), NoThread)
    case PropagateStop(v) => Choice(Nop, Goto(if sh.stop then TaskStore(v) else Propagate(v, 0)), NoThread)
    case Propagate(v, k) =>
      if k == |c.out[v]| then Choice(Nop, Goto(TaskStore(v)), NoThread)
      else if k in sh.nodes[v].outs then
        Choice(Push(c.out[v][k].dst, c.out[v][k].port), Call(Propagate(v, k + 1), TryStop(c.out[v][k].dst)), NoThread)
      else Choice(Nop, Goto(Propagate(v, k + 1)), NoThread)
    case TaskStore(v) => Choice(SetExec(v, Completed), Goto(TaskDec(v)), NoThread)
    case FailStop(v) => Choice(SetStop(false), Goto(TaskDec(v)), NoThread)
    case TaskDec(v) => Choice(AddActive(-1), Goto(CheckActive), NoThread)
  }

  lemma CanFire(c: Network, sh: Shared, f: Frame) returns (ch: Choice)
    requires ValidNetwork(c) && WellFormed(c, sh) && InRange(c, f)
    ensures Fire(c, sh, f, ch.eff, ch.next, ch.start) && Applies(sh, ch.eff)
  {
    if IsTry(f) {
      ch := TryChoice(c, sh, f);
    } else if IsCheck(f) {
      ch := CheckChoice(c, sh, f);
    } else {
      assert f.Propagate? && f.k < |c.out[f.v]| ==> IsEdge(c, f.v, f.k);
      ch := TaskChoice(c, sh, f);
    }
  }

  /** As long as a batch has not come to rest, some thread can make a step. */
  lemma CanGoOn(c: Network, run: seq<State>, n: nat) returns (a: Action, s': State)
    requires ValidNetwork(c) && IsRun(c, run) && n < |run| && !Quiescent(run[n])
    ensures a.Thread? && NextBy(c, run[n], a, s')
  {
    var s := run[n];
    RunInv(c, run, n);
    var t :| 0 <= t < |s.stacks| && s.stacks[t] != [];
    TopIsOk(c, s, t);
    var ch := CanFire(c, s.sh, Top(s.stacks[t]));
    a := Thread(t, ch.eff, ch.next, ch.start);
    s' := State(Apply(s.sh, ch.eff), Fired(s.stacks, t, ch.next, ch.start));
  }

  lemma Extended(c: Network, run: seq<State>, s: State)
    requires IsRun(c, run) && Next(c, run[|run| - 1], s)
    ensures IsRun(c, run + [s])
  {
    var longer := run + [s];
    forall i | 0 <= i < |longer| - 1
      ensures Linked(c, longer, i)
    {
      if i < |run| - 1 {
        assert Linked(c, run, i);
      }
    }
  }

  /** One more step, with less left to do. */
  lemma OneStep(c: Network, cost: seq<nat>, run: seq<State>) returns (s': State)
    requires ValidNetwork(c) && CostOk(c, cost) && IsRun(c, run) && !Quiescent(run[|run| - 1])
    ensures IsRun(c, run + [s']) && 0 <= Measure(c, cost, s') < Measure(c, cost, run[|run| - 1])
  {
    var n, a := |run| - 1, Outside(Nop, NoThread);
    a, s' := CanGoOn(c, run, n);
    ThreadLowers(c, cost, run[n], a, s');
    MeasureNonNegative(c, cost, s');
    Extended(c, run, s');
  }

  lemma {:induction false} RunsDown(c: Network, cost: seq<nat>, run: seq<State>, left: nat) returns (rest: seq<State>)
    requires ValidNetwork(c) && CostOk(c, cost) && IsRun(c, run) && Measure(c, cost, run[|run| - 1]) == left
    ensures IsRun(c, rest) && run <= rest && Quiescent(rest[|rest| - 1])
    decreases left
  {
    if Quiescent(run[|run| - 1]) {
      rest := run;
    } else {
      var s' := OneStep(c, cost, run);
      rest := RunsDown(c, cost, run + [s'], Measure(c, cost, s'));
    }
  }

  /** From wherever it is, a batch left alone can be run until it has come to rest. */
  lemma ComesToRest(c: Network, rank: seq<nat>, run: seq<State>) returns (rest: seq<State>)
    requires ValidNetwork(c) && Ranked(c, rank) && IsRun(c, run)
    ensures IsRun(c, rest) && run <= rest && Quiescent(rest[|rest| - 1])
  {
    CostsAreOk(c, rank);
    var cost := Costs(c, rank);
    MeasureNonNegative(c, cost, run[|run| - 1]);
    rest := RunsDown(c, cost, run, Measure(c, cost, run[|run| - 1]));
  }
}
