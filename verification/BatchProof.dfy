/** The rest of the batch invariant: queues, scheduling, task counting and the completion report. */
module BatchProof {
  import opened Networks
  import opened Stacks
  import opened BatchEngine
  import opened BatchInvariant
  import opened BatchSteps

  // ---- Queues ----

  /** Why a step completes a node, calls process() or consumes a packet. */
  predicate Caused(sh: Shared, eff: Effect, v: nat)
    requires v < |sh.nodes|
  {
    && (eff == SetExec(v, Completed) ==> sh.nodes[v].executions > 0)
    && (eff == StartRun(v) ==> Fed(sh.nodes[v], |sh.nodes[v].ports|))
    && (eff.Pop? && eff.v == v ==> sh.nodes[v].exec == Executing)
  }

  lemma CausedTask(c: Network, sh: Shared, f: Frame, eff: Effect, next: Then<Frame>, v: nat)
    requires WellFormed(c, sh) && FrameOk(c, sh, f) && FireTask(c, sh, f, eff, next) && Placed(sh, f) && v < |sh.nodes|
    ensures Caused(sh, eff, v)
  {
  }

  lemma DataAfter(c: Network, sh: Shared, eff: Effect, v: nat)
    requires WellFormed(c, sh) && Applies(sh, eff) && v < |sh.nodes| && DataOk(sh, v) && Caused(sh, eff, v)
    requires Idle(ExecAfter(sh, eff, v)) ==> sh.stop || Idle(sh.nodes[v].exec)
    requires Grows(sh, Apply(sh, eff))
    ensures DataOk(Apply(sh, eff), v)
  {
    After(sh, eff, v);
    assert NodeGrows(sh.nodes[v], Apply(sh, eff).nodes[v]);
  }

  lemma DataStep(c: Network, s: State, a: Action, s': State, v: nat)
    requires Inv(c, s) && NextBy(c, s, a, s')
    requires v < |s.sh.nodes| && Grows(s.sh, s'.sh)
    ensures DataOk(s'.sh, v)
  {
    if a.Thread? {
      var f := Top(s.stacks[a.t]);
      TopIsOk(c, s, a.t);
      TopIsPlaced(s, a.t);
      OwnerMoves(c, s.sh, f, a.eff, a.next, a.start, v);
      if IsTry(f) || IsCheck(f) {
        OtherIsOuter(c, s.sh, f, a.eff, a.next, a.start);
      } else {
        CausedTask(c, s.sh, f, a.eff, a.next, v);
      }
    }
    DataAfter(c, s.sh, a.eff, v);
  }

  /** A packet is pushed along an edge by a node that succeeded, or from outside into a source. */
  lemma PushIsFed(c: Network, s: State, a: Action, s': State, u: nat, k: nat)
    requires Inv(c, s) && NextBy(c, s, a, s')
    requires a.eff.Push? && IsEdge(c, u, k) && c.out[u][k] == Edge(a.eff.v, a.eff.i)
    ensures s.sh.nodes[u].executions > 0
  {
    if a.Thread? {
      var f := Top(s.stacks[a.t]);
      TopIsOk(c, s, a.t);
      assert f.Propagate? && c.out[f.v][f.k] == c.out[u][k];
      assert IsEdge(c, f.v, f.k);
    }
  }

  lemma EdgeStep(c: Network, s: State, a: Action, s': State, u: nat, k: nat)
    requires Inv(c, s) && NextBy(c, s, a, s')
    requires WellFormed(c, s'.sh) && Grows(s.sh, s'.sh) && IsEdge(c, u, k)
    requires PortOf(s'.sh, c.out[u][k].dst, c.out[u][k].port).enq > 0
    ensures s'.sh.nodes[u].executions > 0
  {
    var e := c.out[u][k];
    assert NodeGrows(s.sh.nodes[u], s'.sh.nodes[u]);
    if a.eff.Push? && c.out[u][k] == Edge(a.eff.v, a.eff.i) {
      PushIsFed(c, s, a, s', u, k);
    } else {
      EnqAfter(s.sh, a.eff, e.dst, e.port);
    }
  }

  lemma EnqAfter(sh: Shared, eff: Effect, v: nat, i: nat)
    requires Applies(sh, eff) && HasPort(sh, v, i)
    ensures HasPort(Apply(sh, eff), v, i)
    ensures eff != Push(v, i) ==> PortOf(Apply(sh, eff), v, i).enq == PortOf(sh, v, i).enq
  {
  }

  // ---- Scheduling ----

  lemma WaitingBefore(sh: Shared, eff: Effect, v: nat)
    requires v < |sh.nodes| && Applies(sh, eff) && |Apply(sh, eff).nodes| == |sh.nodes|
    requires !(eff.Push? && eff.v == v) && eff != Attempt(v) && DataWaiting(Apply(sh, eff), v)
    requires ExecAfter(sh, eff, v) == Waiting ==> sh.stop || sh.nodes[v].exec == Waiting
    ensures DataWaiting(sh, v) && Enqs(sh.nodes[v]) == Enqs(Apply(sh, eff).nodes[v])
  {
    After(sh, eff, v);
    var n, n' := sh.nodes[v], Apply(sh, eff).nodes[v];
    assert |n.ports| == |n'.ports|;
    forall i | 0 <= i < |n.ports|
      ensures n.ports[i].deq < n.ports[i].enq && n.ports[i].enq == n'.ports[i].enq
    {
      assert n'.ports[i].deq < n'.ports[i].enq;
      EnqAfter(sh, eff, v, i);
    }
  }

  ghost predicate DataMoves(sh: Shared, sh': Shared, f: Frame, next: Then<Frame>, start: Start<Frame>, v: nat)
    requires v < |sh.nodes| == |sh'.nodes|
  {
    DataWaiting(sh', v) ==>
      var w := FreshW(v, Enqs(sh'.nodes[v]));
      || WeightThen(w, next) + WeightStart(w, start) > 0
      || (DataWaiting(sh, v) && Enqs(sh.nodes[v]) == Enqs(sh'.nodes[v]) && w(f) == 0)
  }

  lemma DataTry(c: Network, sh: Shared, f: Frame, eff: Effect, next: Then<Frame>, start: Start<Frame>, v: nat)
    requires WellFormed(c, sh) && FrameOk(c, sh, f) && FireTry(c, sh, f, eff, next, start)
    requires Applies(sh, eff) && v < |sh.nodes| && |Apply(sh, eff).nodes| == |sh.nodes|
    ensures DataMoves(sh, Apply(sh, eff), f, next, start, v)
  {
    if DataWaiting(Apply(sh, eff), v) {
      After(sh, eff, v);
      WaitingBefore(sh, eff, v);
    }
  }

  lemma DataTask(c: Network, sh: Shared, f: Frame, eff: Effect, next: Then<Frame>, v: nat)
    requires WellFormed(c, sh) && FrameOk(c, sh, f) && FireTask(c, sh, f, eff, next)
    requires Applies(sh, eff) && v < |sh.nodes| && Placed(sh, f) && |Apply(sh, eff).nodes| == |sh.nodes|
    ensures DataMoves(sh, Apply(sh, eff), f, next, NoThread, v)
  {
    if DataWaiting(Apply(sh, eff), v) && !(eff.Push? && eff.v == v) {
      WaitingBefore(sh, eff, v);
    }
  }

  lemma DataCheck(c: Network, sh: Shared, f: Frame, eff: Effect, next: Then<Frame>, v: nat)
    requires WellFormed(c, sh) && FrameOk(c, sh, f) && FireCheck(c, sh, f, eff, next)
    requires Applies(sh, eff) && v < |sh.nodes| && |Apply(sh, eff).nodes| == |sh.nodes|
    ensures DataMoves(sh, Apply(sh, eff), f, next, NoThread, v)
  {
    if DataWaiting(Apply(sh, eff), v) {
      WaitingBefore(sh, eff, v);
    }
  }

  lemma ScheduleArithmetic(s: State, a: Action, s': State, v: nat)
    requires Stacked(s, a, s') && v < |s.sh.nodes| == |s'.sh.nodes| && ScheduleOwed(s, v)
    requires a.Thread? ==> DataMoves(s.sh, s'.sh, Top(s.stacks[a.t]), a.next, a.start, v)
    requires a.Outside? ==>
               || a.start == NewThread(TryStop(v))
               || (DataWaiting(s'.sh, v) ==> DataWaiting(s.sh, v) && Enqs(s.sh.nodes[v]) == Enqs(s'.sh.nodes[v]))
    ensures ScheduleOwed(s', v)
  {
    Move(FreshW(v, Enqs(s'.sh.nodes[v])), s, a, s');
    TotalNonNegative(FreshW(v, Enqs(s'.sh.nodes[v])), s.stacks);
  }

  lemma ScheduleStep(c: Network, s: State, a: Action, s': State, v: nat)
    requires Inv(c, s) && NextBy(c, s, a, s') && WellFormed(c, s'.sh) && v < |s.sh.nodes|
    ensures ScheduleOwed(s', v)
  {
    match a {
      case Thread(t, eff, next, start) =>
        var f := Top(s.stacks[t]);
        TopIsOk(c, s, t);
        TopIsPlaced(s, t);
        if IsTry(f) {
          DataTry(c, s.sh, f, eff, next, start, v);
        } else if IsCheck(f) {
          DataCheck(c, s.sh, f, eff, next, v);
        } else {
          DataTask(c, s.sh, f, eff, next, v);
        }
      case Outside(eff, start) =>
        if DataWaiting(s'.sh, v) && !(eff.Push? && eff.v == v) && eff != Attempt(v) {
          WaitingBefore(s.sh, eff, v);
        }
    }
    ScheduleArithmetic(s, a, s', v);
  }

  // ---- Outputs are sent ----

  /** A success starts the propagation, which goes on until it has sent the output or found a stop. */
  ghost predicate SendMoves(c: Network, sh: Shared, f: Frame, eff: Effect, next: Then<Frame>, start: Start<Frame>, u: nat, k: nat)
    requires u < |sh.nodes| && IsEdge(c, u, k)
  {
    && (eff == CountSuccess(u) ==> WeightThen(SendW(u, k), next) > 0)
    && (eff.Emit? ==> f == Process(eff.v))
    && (k in sh.nodes[u].outs ==> sh.stop || eff == Push(c.out[u][k].dst, c.out[u][k].port) || Delta(SendW(u, k), f, next, start) >= 0)
  }

  lemma SendTask(c: Network, sh: Shared, f: Frame, eff: Effect, next: Then<Frame>, u: nat, k: nat)
    requires WellFormed(c, sh) && InRange(c, f) && FireTask(c, sh, f, eff, next) && u < |sh.nodes| && IsEdge(c, u, k)
    ensures SendMoves(c, sh, f, eff, next, NoThread, u, k)
  {
  }

  lemma SendOther(c: Network, sh: Shared, f: Frame, eff: Effect, next: Then<Frame>, start: Start<Frame>, u: nat, k: nat)
    requires Outer()(f) && AllThen(Outer(), next) && AllStart(Outer(), start) && u < |sh.nodes| && IsEdge(c, u, k)
    requires !eff.CountSuccess? && !eff.Emit?
    ensures SendMoves(c, sh, f, eff, next, start, u, k)
  {
  }

  lemma SendArithmetic(c: Network, s: State, a: Action, s': State, u: nat, k: nat)
    requires Stacked(s, a, s') && Applies(s.sh, a.eff) && s'.sh == Apply(s.sh, a.eff) && u < |s.sh.nodes| == |s'.sh.nodes|
    requires IsEdge(c, u, k) && HasPort(s.sh, c.out[u][k].dst, c.out[u][k].port) && SentOwed(c, s, u, k)
    requires a.Thread? ==> SendMoves(c, s.sh, Top(s.stacks[a.t]), a.eff, a.next, a.start, u, k)
    requires a.Outside? ==> !a.eff.CountSuccess? && !a.eff.Emit?
    requires a.eff.Emit? && a.eff.v == u ==> s.sh.nodes[u].executions == 0
    ensures SentOwed(c, s', u, k)
  {
    After(s.sh, a.eff, u);
    Move(SendW(u, k), s, a, s');
    TotalNonNegative(SendW(u, k), s.stacks);
    TotalNonNegative(SendW(u, k), s'.stacks);
    SentStays(s.sh, a.eff, c.out[u][k].dst, c.out[u][k].port);
  }

  lemma SentStays(sh: Shared, eff: Effect, v: nat, i: nat)
    requires Applies(sh, eff) && HasPort(sh, v, i)
    ensures HasPort(Apply(sh, eff), v, i)
    ensures PortOf(sh, v, i).enq > 0 || eff == Push(v, i) ==> PortOf(Apply(sh, eff), v, i).enq > 0
  {
  }

  /** Outputs are chosen before the success is counted. */
  lemma EmitIsFirst(s: State, t: nat, u: nat)
    requires u < |s.sh.nodes| && OwnerOk(s, u) && t < |s.stacks| && s.stacks[t] != [] && Top(s.stacks[t]) == Process(u)
    ensures s.sh.nodes[u].executions == 0
  {
    TotalAtLeast(AfterW(u), s.stacks, t);
  }

  lemma SendStep(c: Network, s: State, a: Action, s': State, u: nat, k: nat)
    requires Inv(c, s) && NextBy(c, s, a, s') && WellFormed(c, s'.sh) && IsEdge(c, u, k)
    ensures SentOwed(c, s', u, k)
  {
    if a.Thread? {
      var f := Top(s.stacks[a.t]);
      TopIsOk(c, s, a.t);
      if IsTry(f) || IsCheck(f) {
        OtherIsOuter(c, s.sh, f, a.eff, a.next, a.start);
        SendOther(c, s.sh, f, a.eff, a.next, a.start, u, k);
      } else {
        SendTask(c, s.sh, f, a.eff, a.next, u, k);
      }
      if a.eff.Emit? && a.eff.v == u {
        EmitIsFirst(s, a.t, u);
      }
    }
    SendArithmetic(c, s, a, s', u, k);
  }

  // ---- Gathers have their packets ----

  /** Only a gather takes packets out of the ports of its node. */
  lemma PopIsGather(c: Network, sh: Shared, f: Frame, eff: Effect, next: Then<Frame>, start: Start<Frame>)
    requires WellFormed(c, sh) && InRange(c, f) && Fire(c, sh, f, eff, next, start) && eff.Pop?
    ensures f.Gather? && f.v == eff.v
  {
  }

  /** What an effect leaves of the packets of a node. */
  lemma PacketsStay(c: Network, sh: Shared, eff: Effect, f: Frame)
    requires WellFormed(c, sh) && Applies(sh, eff) && WellFormed(c, Apply(sh, eff)) && Grows(sh, Apply(sh, eff))
    requires GatherOk(c, sh, f) && !(eff.Pop? && f.Gather? && eff.v == f.v)
    ensures GatherOk(c, Apply(sh, eff), f)
  {
    if f.Gather? && f.v < |sh.nodes| {
      forall j | 0 <= j < |sh.nodes[f.v].ports|
        ensures Apply(sh, eff).nodes[f.v].ports[j].deq == sh.nodes[f.v].ports[j].deq
      {
      }
      assert NodeGrows(sh.nodes[f.v], Apply(sh, eff).nodes[f.v]);
    }
  }

  /** A frame other than the stepping one keeps its packets, because a node has one owner. */
  lemma OtherGather(c: Network, s: State, a: Action, s': State, t: nat, i: nat)
    requires Inv(c, s) && NextBy(c, s, a, s') && WellFormed(c, s'.sh) && Grows(s.sh, s'.sh)
    requires t < |s.stacks| && i < |s.stacks[t]| && !(a.Thread? && t == a.t && i == |s.stacks[t]| - 1)
    ensures GatherOk(c, s'.sh, s.stacks[t][i])
  {
    var g := s.stacks[t][i];
    assert GatherOkAt(c, s.sh)(g) && FrameOkAt(c, s.sh)(g);
    PopsElsewhere(c, s, a, s', t, i);
    PacketsStay(c, s.sh, a.eff, g);
  }

  lemma PopsElsewhere(c: Network, s: State, a: Action, s': State, t: nat, i: nat)
    requires Inv(c, s) && NextBy(c, s, a, s')
    requires t < |s.stacks| && i < |s.stacks[t]| && !(a.Thread? && t == a.t && i == |s.stacks[t]| - 1)
    ensures !(a.eff.Pop? && s.stacks[t][i].Gather? && a.eff.v == s.stacks[t][i].v)
  {
    var g := s.stacks[t][i];
    if a.eff.Pop? && g.Gather? && a.eff.v == g.v {
      PopIsGather(c, s.sh, Top(s.stacks[a.t]), a.eff, a.next, a.start);
      TwoOwners(s, t, i, a.t, |s.stacks[a.t]| - 1, g.v);
    }
  }

  lemma TwoOwners(s: State, t: nat, i: nat, u: nat, j: nat, v: nat)
    requires v < |s.sh.nodes| && OwnerOk(s, v) && t < |s.stacks| && i < |s.stacks[t]| && u < |s.stacks| && j < |s.stacks[u]|
    requires Owner(s.stacks[t][i]) && s.stacks[t][i].v == v && Owner(s.stacks[u][j]) && s.stacks[u][j].v == v
    ensures t == u && i == j
  {
    if t < u || (t == u && i < j) {
      TotalTwo(OwnW(v), s.stacks, t, i, u, j);
    } else if u < t || (t == u && j < i) {
      TotalTwo(OwnW(v), s.stacks, u, j, t, i);
    }
  }

  /** A gather starts with all its packets and goes on with the rest of them. */
  lemma NewGather(c: Network, sh: Shared, f: Frame, eff: Effect, next: Then<Frame>)
    requires WellFormed(c, sh) && FrameOk(c, sh, f) && GatherOk(c, sh, f) && FireTask(c, sh, f, eff, next)
    requires Applies(sh, eff) && WellFormed(c, Apply(sh, eff)) && (sh.stop ==> Excused(c, sh))
    requires f.Task? ==> DataOk(sh, f.v)
    ensures AllThen(GatherOkAt(c, Apply(sh, eff)), next)
  {
  }

  lemma NoGather(c: Network, sh: Shared, sh': Shared, f: Frame, eff: Effect, next: Then<Frame>, start: Start<Frame>)
    requires WellFormed(c, sh) && WellFormed(c, sh') && InRange(c, f) && Fire(c, sh, f, eff, next, start)
    ensures AllStart(GatherOkAt(c, sh'), start)
    ensures IsTry(f) || IsCheck(f) ==> AllThen(GatherOkAt(c, sh'), next)
  {
  }

  lemma NewGathers(c: Network, s: State, a: Action, s': State)
    requires Inv(c, s) && NextBy(c, s, a, s') && WellFormed(c, s'.sh) && a.Thread?
    ensures AllThen(GatherOkAt(c, s'.sh), a.next) && AllStart(GatherOkAt(c, s'.sh), a.start)
  {
    var f := Top(s.stacks[a.t]);
    TopIsOk(c, s, a.t);
    NoGather(c, s.sh, s'.sh, f, a.eff, a.next, a.start);
    if !IsTry(f) && !IsCheck(f) {
      assert DataOk(s.sh, f.v);
      NewGather(c, s.sh, f, a.eff, a.next);
    }
  }

  lemma OldGathers(c: Network, s: State, a: Action, s': State)
    requires Inv(c, s) && NextBy(c, s, a, s') && WellFormed(c, s'.sh) && Grows(s.sh, s'.sh)
    ensures AllBut(GatherOkAt(c, s'.sh), s.stacks, if a.Thread? then a.t else -1)
  {
    forall t, i | 0 <= t < |s.stacks| && 0 <= i < |s.stacks[t]| && !(a.Thread? && t == a.t && i == |s.stacks[t]| - 1)
      ensures GatherOkAt(c, s'.sh)(s.stacks[t][i])
    {
      OtherGather(c, s, a, s', t, i);
    }
  }

  lemma GatherStep(c: Network, s: State, a: Action, s': State)
    requires Inv(c, s) && NextBy(c, s, a, s') && WellFormed(c, s'.sh) && Grows(s.sh, s'.sh)
    ensures AllFrames(GatherOkAt(c, s'.sh), s'.stacks)
  {
    OldGathers(c, s, a, s');
    if a.Thread? {
      NewGathers(c, s, a, s');
      AllReplaced(GatherOkAt(c, s'.sh), s.stacks, a.t, a.next, a.start);
    } else {
      AllStarted(GatherOkAt(c, s'.sh), s.stacks, a.start);
    }
  }

  /** The engine stops itself only after a failure. */
  lemma StopIsFail(c: Network, sh: Shared, f: Frame, eff: Effect, next: Then<Frame>, start: Start<Frame>)
    requires WellFormed(c, sh) && InRange(c, f) && Fire(c, sh, f, eff, next, start) && eff.SetStop?
    ensures f.FailStop?
  {
  }

  lemma StopAfter(c: Network, sh: Shared, eff: Effect)
    requires Applies(sh, eff) && (sh.stop ==> Excused(c, sh)) && (eff.SetStop? ==> eff.asked || Excused(c, sh))
    ensures Apply(sh, eff).stop ==> Excused(c, Apply(sh, eff))
  {
  }

  /** A stop has a reason. */
  lemma StopStep(c: Network, s: State, a: Action, s': State)
    requires Inv(c, s) && NextBy(c, s, a, s')
    ensures s'.sh.stop ==> Excused(c, s'.sh)
  {
    if a.Thread? && a.eff.SetStop? {
      TopIsOk(c, s, a.t);
      StopIsFail(c, s.sh, Top(s.stacks[a.t]), a.eff, a.next, a.start);
    }
    StopAfter(c, s.sh, a.eff);
  }

  // ---- Task counting and the report ----

  lemma ActiveTry(c: Network, sh: Shared, f: Frame, eff: Effect, next: Then<Frame>, start: Start<Frame>)
    requires WellFormed(c, sh) && InRange(c, f) && FireTry(c, sh, f, eff, next, start)
    ensures Delta(TaskW(), f, next, start) == ActiveChange(eff)
  {
  }

  lemma ActiveTask(c: Network, sh: Shared, f: Frame, eff: Effect, next: Then<Frame>)
    requires WellFormed(c, sh) && InRange(c, f) && FireTask(c, sh, f, eff, next)
    ensures Delta(TaskW(), f, next, NoThread) == ActiveChange(eff)
  {
  }

  lemma ActiveCheck(c: Network, sh: Shared, f: Frame, eff: Effect, next: Then<Frame>)
    requires WellFormed(c, sh) && InRange(c, f) && FireCheck(c, sh, f, eff, next)
    ensures Delta(TaskW(), f, next, NoThread) == ActiveChange(eff)
  {
  }

  function Reports(eff: Effect): int {
    One(eff.CallBack?)
  }

  /** A report is made after a won exchange, with all sinks done. */
  ghost predicate ReportMoves(c: Network, sh: Shared, f: Frame, eff: Effect, next: Then<Frame>, start: Start<Frame>)
    requires |sh.nodes| == |c.out|
  {
    && Delta(ReportW(), f, next, start) + Reports(eff) == One(eff.SetReported?)
    && (eff.SetReported? ==> !sh.reported && SinksDone(c, sh, |sh.nodes|))
  }

  /** The last task to finish starts a check, and a check that finds all sinks done reports. */
  ghost predicate CheckMoves(c: Network, sh: Shared, f: Frame, eff: Effect, next: Then<Frame>, start: Start<Frame>)
    requires |sh.nodes| == |c.out|
  {
    && (eff.AddActive? && eff.d < 0 ==> Delta(CheckW(), f, next, start) > 0)
    && (sh.active == 0 && SinksDone(c, sh, |sh.nodes|) && Delta(CheckW(), f, next, start) < 0 ==> sh.reported || eff.SetReported?)
    && (eff.CountSuccess? ==> f.Success?)
  }

  function AttemptFrames(): Frame -> bool {
    (f: Frame) => IsTry(f) || f.TaskStop?
  }

  lemma TryIsAttempt(c: Network, sh: Shared, f: Frame, eff: Effect, next: Then<Frame>, start: Start<Frame>)
    requires WellFormed(c, sh) && InRange(c, f) && FireTry(c, sh, f, eff, next, start)
    ensures AttemptFrames()(f) && AllThen(AttemptFrames(), next) && AllStart(AttemptFrames(), start)
    ensures eff.Nop? || eff.SetExec? || eff == AddActive(1)
  {
  }

  lemma CheckAttempt(c: Network, sh: Shared, f: Frame, eff: Effect, next: Then<Frame>, start: Start<Frame>)
    requires AttemptFrames()(f) && AllThen(AttemptFrames(), next) && AllStart(AttemptFrames(), start) && |sh.nodes| == |c.out|
    requires eff.Nop? || eff.SetExec? || eff == AddActive(1)
    ensures ReportMoves(c, sh, f, eff, next, start) && CheckMoves(c, sh, f, eff, next, start)
  {
  }

  lemma CheckTask(c: Network, sh: Shared, f: Frame, eff: Effect, next: Then<Frame>)
    requires WellFormed(c, sh) && InRange(c, f) && FireTask(c, sh, f, eff, next)
    ensures CheckMoves(c, sh, f, eff, next, NoThread)
  {
  }

  function NoReport(): Frame -> bool {
    (f: Frame) => !f.Report?
  }

  lemma TaskIsSilent(c: Network, sh: Shared, f: Frame, eff: Effect, next: Then<Frame>)
    requires WellFormed(c, sh) && InRange(c, f) && FireTask(c, sh, f, eff, next)
    ensures NoReport()(f) && AllThen(NoReport(), next) && !eff.SetReported? && !eff.CallBack?
  {
  }

  lemma ReportTask(c: Network, sh: Shared, f: Frame, eff: Effect, next: Then<Frame>)
    requires NoReport()(f) && AllThen(NoReport(), next) && !eff.SetReported? && !eff.CallBack? && |sh.nodes| == |c.out|
    ensures ReportMoves(c, sh, f, eff, next, NoThread)
  {
  }

  lemma CheckCheck(c: Network, sh: Shared, f: Frame, eff: Effect, next: Then<Frame>)
    requires WellFormed(c, sh) && FrameOk(c, sh, f) && FireCheck(c, sh, f, eff, next)
    ensures ReportMoves(c, sh, f, eff, next, NoThread) && CheckMoves(c, sh, f, eff, next, NoThread)
  {
    if f.CheckSink? && f.j < |c.out| {
      assert IsSink(c, f.j) && sh.nodes[f.j].executions == 0 ==> !SinksDone(c, sh, |sh.nodes|);
    }
  }

  lemma ReportAfter(c: Network, sh: Shared, eff: Effect)
    requires WellFormed(c, sh) && Applies(sh, eff) && WellFormed(c, Apply(sh, eff)) && Grows(sh, Apply(sh, eff))
    ensures Apply(sh, eff).active == sh.active + ActiveChange(eff)
    ensures Apply(sh, eff).reported == (sh.reported || eff.SetReported?)
    ensures Apply(sh, eff).callbacks == sh.callbacks + Reports(eff)
    ensures SinksDone(c, sh, |sh.nodes|) ==> SinksDone(c, Apply(sh, eff), |sh.nodes|)
    ensures !eff.CountSuccess? && SinksDone(c, Apply(sh, eff), |sh.nodes|) ==> SinksDone(c, sh, |sh.nodes|)
  {
    var sh' := Apply(sh, eff);
    forall v | 0 <= v < |sh.nodes|
      ensures sh.nodes[v].executions <= sh'.nodes[v].executions
      ensures !eff.CountSuccess? ==> sh.nodes[v].executions == sh'.nodes[v].executions
    {
      After(sh, eff, v);
    }
  }

  /** A step as the counting sees it. */
  ghost predicate Counted(c: Network, s: State, a: Action, s': State) {
    && Stacked(s, a, s') && WellFormed(c, s.sh) && WellFormed(c, s'.sh)
    && Applies(s.sh, a.eff) && s'.sh == Apply(s.sh, a.eff) && Grows(s.sh, s'.sh)
    && (a.Outside? ==>
          && (a.start.NewThread? ==> a.start.frame.TryStop?)
          && (a.eff.Attempt? || a.eff.Push? || a.eff.SetStop?))
  }

  lemma ActiveArithmetic(c: Network, s: State, a: Action, s': State)
    requires Counted(c, s, a, s') && ReportOk(c, s)
    requires a.Thread? ==> Delta(TaskW(), Top(s.stacks[a.t]), a.next, a.start) == ActiveChange(a.eff)
    ensures s'.sh.active == Total(TaskW(), s'.stacks)
  {
    ReportAfter(c, s.sh, a.eff);
    Move(TaskW(), s, a, s');
  }

  lemma CallArithmetic(c: Network, s: State, a: Action, s': State)
    requires Counted(c, s, a, s') && ReportOk(c, s)
    requires a.Thread? ==> ReportMoves(c, s.sh, Top(s.stacks[a.t]), a.eff, a.next, a.start)
    ensures s'.sh.callbacks + Total(ReportW(), s'.stacks) == One(s'.sh.reported)
    ensures s'.sh.reported ==> SinksDone(c, s'.sh, |s'.sh.nodes|)
  {
    ReportAfter(c, s.sh, a.eff);
    Move(ReportW(), s, a, s');
  }

  /** A success is counted by a running task, so the task counter is not zero. */
  lemma SuccessIsActive(c: Network, s: State, a: Action, s': State)
    requires Counted(c, s, a, s') && ReportOk(c, s) && a.Thread? && Top(s.stacks[a.t]).Success?
    ensures s.sh.active > 0
  {
    Move(TaskW(), s, a, s');
  }

  lemma CheckArithmetic(c: Network, s: State, a: Action, s': State)
    requires Counted(c, s, a, s') && ReportOk(c, s)
    requires a.Thread? ==> CheckMoves(c, s.sh, Top(s.stacks[a.t]), a.eff, a.next, a.start)
    requires CountSinks(c, |c.out|) > 0 && SinksDone(c, s'.sh, |s'.sh.nodes|) && s'.sh.active == 0 && !s'.sh.reported
    requires s'.sh.active == Total(TaskW(), s'.stacks)
    ensures Total(CheckW(), s'.stacks) > 0
  {
    ReportAfter(c, s.sh, a.eff);
    Move(CheckW(), s, a, s');
    TotalNonNegative(CheckW(), s'.stacks);
    TotalNonNegative(TaskW(), s.stacks);
    if a.eff.CountSuccess? {
      SuccessIsActive(c, s, a, s');
    }
  }

  lemma ReportStep(c: Network, s: State, a: Action, s': State)
    requires Inv(c, s) && NextBy(c, s, a, s') && WellFormed(c, s'.sh) && Grows(s.sh, s'.sh)
    ensures ReportOk(c, s')
  {
    match a {
      case Thread(t, eff, next, start) =>
        var f := Top(s.stacks[t]);
        TopIsOk(c, s, t);
        if IsTry(f) {
          ActiveTry(c, s.sh, f, eff, next, start);
          TryIsAttempt(c, s.sh, f, eff, next, start);
          CheckAttempt(c, s.sh, f, eff, next, start);
        } else if IsCheck(f) {
          ActiveCheck(c, s.sh, f, eff, next);
          CheckCheck(c, s.sh, f, eff, next);
        } else {
          ActiveTask(c, s.sh, f, eff, next);
          CheckTask(c, s.sh, f, eff, next);
          TaskIsSilent(c, s.sh, f, eff, next);
          ReportTask(c, s.sh, f, eff, next);
        }
      case Outside(_, _) =>
    }
    ActiveArithmetic(c, s, a, s');
    CallArithmetic(c, s, a, s');
    if CountSinks(c, |c.out|) > 0 && SinksDone(c, s'.sh, |s'.sh.nodes|) && s'.sh.active == 0 && !s'.sh.reported {
      CheckArithmetic(c, s, a, s');
    }
  }

  // ---- All together ----

  lemma InvStep(c: Network, s: State, a: Action, s': State)
    requires Inv(c, s) && NextBy(c, s, a, s')
    ensures Inv(c, s')
  {
    EffectGrows(c, s.sh, a.eff);
    FramesStep(c, s, a, s');
    GatherStep(c, s, a, s');
    StopStep(c, s, a, s');
    forall v | 0 <= v < |s'.sh.nodes|
      ensures OwnerOk(s', v) && DataOk(s'.sh, v) && ScheduleOwed(s', v)
    {
      OwnerStep(c, s, a, s', v);
      DataStep(c, s, a, s', v);
      ScheduleStep(c, s, a, s', v);
    }
    forall u, k | IsEdge(c, u, k)
      ensures SentOwed(c, s', u, k)
    {
      SendStep(c, s, a, s', u, k);
    }
    forall u, k | IsEdge(c, u, k) && PortOf(s'.sh, c.out[u][k].dst, c.out[u][k].port).enq > 0
      ensures s'.sh.nodes[u].executions > 0
    {
      EdgeStep(c, s, a, s', u, k);
    }
    ReportStep(c, s, a, s');
  }

  lemma {:induction false} RunInv(c: Network, run: seq<State>, n: nat)
    requires ValidNetwork(c) && IsRun(c, run) && n < |run|
    ensures Inv(c, run[n])
  {
    if n == 0 {
      InitInv(c, run[0]);
    } else {
      RunInv(c, run, n - 1);
      assert Linked(c, run, n - 1);
      InvNext(c, run[n - 1], run[n]);
    }
  }

  lemma InvNext(c: Network, s: State, s': State)
    requires Inv(c, s) && Next(c, s, s')
    ensures Inv(c, s')
  {
    var a :| NextBy(c, s, a, s');
    InvStep(c, s, a, s');
  }
}
