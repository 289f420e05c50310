/** Every step of a batch execution keeps its invariant. */
module BatchSteps {
  import opened Networks
  import opened Stacks
  import opened BatchEngine
  import opened BatchInvariant

  // ---- How a step changes a weighted sum ----

  /** The part of a step that is about threads only. */
  ghost predicate Stacked(s: State, a: Action, s': State) {
    match a
    case Thread(t, _, next, start) => t < |s.stacks| && s.stacks[t] != [] && s'.stacks == Fired(s.stacks, t, next, start)
    case Outside(_, start) => s'.stacks == s.stacks + Started(start)
  }

  function Lost(w: Frame -> int, s: State, a: Action): int {
    match a
    case Thread(t, _, _, _) => if t < |s.stacks| && s.stacks[t] != [] then w(Top(s.stacks[t])) else 0
    case Outside(_, _) => 0
  }

  function Gained(w: Frame -> int, a: Action): int {
    match a
    case Thread(_, _, next, start) => WeightThen(w, next) + WeightStart(w, start)
    case Outside(_, start) => WeightStart(w, start)
  }

  lemma Move(w: Frame -> int, s: State, a: Action, s': State)
    requires Stacked(s, a, s')
    ensures Total(w, s'.stacks) == Total(w, s.stacks) - Lost(w, s, a) + Gained(w, a)
    ensures (forall f :: w(f) >= 0) ==> Total(w, s.stacks) >= Lost(w, s, a) && Total(w, s.stacks) >= 0
  {
    match a {
      case Thread(t, _, next, start) =>
        TotalFired(w, s.stacks, t, next, start);
        if forall f :: w(f) >= 0 {
          TotalAtLeast(w, s.stacks, t);
        }
      case Outside(_, start) =>
        TotalStarted(w, s.stacks, start);
        if forall f :: w(f) >= 0 {
          TotalNonNegative(w, s.stacks);
        }
    }
  }

  // ---- Growth, and what the frames know ----

  /** Successes and accepted packets are never taken back. */
  predicate Grows(sh: Shared, sh': Shared) {
    && |sh.nodes| == |sh'.nodes|
    && (sh.stop ==> sh'.stop) && (sh.failed ==> sh'.failed) && (sh.asked ==> sh'.asked) && (sh.discarded ==> sh'.discarded)
    && forall v :: 0 <= v < |sh.nodes| ==> NodeGrows(sh.nodes[v], sh'.nodes[v])
  }

  predicate NodeGrows(n: Node, n': Node) {
    && |n.ports| == |n'.ports|
    && n.executions <= n'.executions
    && forall i :: 0 <= i < |n.ports| ==> n.ports[i].enq <= n'.ports[i].enq
  }

  lemma PortGrows(c: Network, sh: Shared, eff: Effect)
    requires WellFormed(c, sh) && Applies(sh, eff) && (eff.Pop? || eff.Push?)
    ensures WellFormed(c, Apply(sh, eff)) && Grows(sh, Apply(sh, eff))
  {
  }

  lemma OneNodeGrows(c: Network, sh: Shared, eff: Effect)
    requires WellFormed(c, sh) && Applies(sh, eff) && OnNode(eff)
    ensures WellFormed(c, Apply(sh, eff)) && Grows(sh, Apply(sh, eff))
  {
    OneNode(sh, eff);
  }

  lemma EffectGrows(c: Network, sh: Shared, eff: Effect)
    requires WellFormed(c, sh) && Applies(sh, eff)
    ensures WellFormed(c, Apply(sh, eff)) && Grows(sh, Apply(sh, eff))
  {
    if eff.Pop? || eff.Push? {
      PortGrows(c, sh, eff);
    } else if OnNode(eff) {
      OneNodeGrows(c, sh, eff);
    } else {
      SharedEffect(sh, eff);
    }
  }

  lemma FrameStays(c: Network, sh: Shared, sh': Shared, f: Frame)
    requires WellFormed(c, sh) && WellFormed(c, sh') && Grows(sh, sh')
    requires FrameOk(c, sh, f)
    ensures FrameOk(c, sh', f)
  {
    if !IsCheck(f) {
      assert NodeGrows(sh.nodes[f.v], sh'.nodes[f.v]);
    } else {
      forall w | 0 <= w < |sh.nodes|
        ensures sh.nodes[w].executions <= sh'.nodes[w].executions
      {
        assert NodeGrows(sh.nodes[w], sh'.nodes[w]);
      }
    }
  }

  lemma OldFramesOk(c: Network, sh: Shared, sh': Shared, stacks: seq<seq<Frame>>)
    requires WellFormed(c, sh) && WellFormed(c, sh') && Grows(sh, sh')
    requires AllFrames(FrameOkAt(c, sh), stacks)
    ensures AllFrames(FrameOkAt(c, sh'), stacks)
  {
    forall t, i | 0 <= t < |stacks| && 0 <= i < |stacks[t]|
      ensures FrameOkAt(c, sh')(stacks[t][i])
    {
      assert FrameOkAt(c, sh)(stacks[t][i]);
      FrameStays(c, sh, sh', stacks[t][i]);
    }
  }

  lemma PropagateFramesOk(c: Network, sh: Shared, sh': Shared, f: Frame, eff: Effect, next: Then<Frame>)
    requires ValidNetwork(c) && WellFormed(c, sh) && FrameOk(c, sh, f) && f.Propagate?
    requires FireTask(c, sh, f, eff, next) && Applies(sh, eff) && sh' == Apply(sh, eff) && WellFormed(c, sh')
    ensures AllThen(FrameOkAt(c, sh'), next)
  {
    assert f.k < |c.out[f.v]| ==> IsEdge(c, f.v, f.k);
  }

  lemma GatherFramesOk(c: Network, sh: Shared, sh': Shared, f: Frame, eff: Effect, next: Then<Frame>)
    requires ValidNetwork(c) && WellFormed(c, sh) && FrameOk(c, sh, f) && f.Gather? && GatherOk(c, sh, f)
    requires FireTask(c, sh, f, eff, next) && Applies(sh, eff) && sh' == Apply(sh, eff) && WellFormed(c, sh')
    ensures AllThen(FrameOkAt(c, sh'), next)
  {
  }

  /** Frames of a task before the result of process() is known. */
  predicate Early(f: Frame) {
    f.TaskStop? || f.Task? || f.Process?
  }

  lemma EarlyFramesOk(c: Network, sh: Shared, sh': Shared, f: Frame, eff: Effect, next: Then<Frame>)
    requires ValidNetwork(c) && WellFormed(c, sh) && FrameOk(c, sh, f) && Early(f)
    requires FireTask(c, sh, f, eff, next) && Applies(sh, eff) && sh' == Apply(sh, eff) && WellFormed(c, sh') && Grows(sh, sh')
    ensures AllThen(FrameOkAt(c, sh'), next)
  {
    assert NodeGrows(sh.nodes[f.v], sh'.nodes[f.v]);
  }

  lemma LateFramesOk(c: Network, sh: Shared, sh': Shared, f: Frame, eff: Effect, next: Then<Frame>)
    requires ValidNetwork(c) && WellFormed(c, sh) && FrameOk(c, sh, f) && !f.Propagate? && !f.Gather? && !Early(f)
    requires FireTask(c, sh, f, eff, next) && Applies(sh, eff) && sh' == Apply(sh, eff) && WellFormed(c, sh')
    ensures AllThen(FrameOkAt(c, sh'), next)
  {
  }

  lemma TryFramesOk(c: Network, sh: Shared, sh': Shared, f: Frame, eff: Effect, next: Then<Frame>, start: Start<Frame>)
    requires ValidNetwork(c) && WellFormed(c, sh) && FrameOk(c, sh, f)
    requires FireTry(c, sh, f, eff, next, start) && Applies(sh, eff) && sh' == Apply(sh, eff) && WellFormed(c, sh')
    ensures AllThen(FrameOkAt(c, sh'), next) && AllStart(FrameOkAt(c, sh'), start)
  {
  }

  lemma CheckFramesOk(c: Network, sh: Shared, sh': Shared, f: Frame, eff: Effect, next: Then<Frame>)
    requires ValidNetwork(c) && WellFormed(c, sh) && FrameOk(c, sh, f)
    requires FireCheck(c, sh, f, eff, next) && Applies(sh, eff) && sh' == Apply(sh, eff) && WellFormed(c, sh')
    ensures AllThen(FrameOkAt(c, sh'), next)
  {
  }

  lemma TopIsOk(c: Network, s: State, t: nat)
    requires Inv(c, s) && t < |s.stacks| && s.stacks[t] != []
    ensures FrameOk(c, s.sh, Top(s.stacks[t])) && GatherOk(c, s.sh, Top(s.stacks[t]))
  {
    assert FrameOkAt(c, s.sh)(s.stacks[t][|s.stacks[t]| - 1]);
    assert GatherOkAt(c, s.sh)(s.stacks[t][|s.stacks[t]| - 1]);
  }

  lemma NewFramesOk(c: Network, sh: Shared, sh': Shared, f: Frame, eff: Effect, next: Then<Frame>, start: Start<Frame>)
    requires ValidNetwork(c) && WellFormed(c, sh) && FrameOk(c, sh, f) && GatherOk(c, sh, f) && Fire(c, sh, f, eff, next, start)
    requires Applies(sh, eff) && sh' == Apply(sh, eff) && WellFormed(c, sh') && Grows(sh, sh')
    ensures AllThen(FrameOkAt(c, sh'), next) && AllStart(FrameOkAt(c, sh'), start)
  {
    if IsTry(f) {
      TryFramesOk(c, sh, sh', f, eff, next, start);
    } else if IsCheck(f) {
      CheckFramesOk(c, sh, sh', f, eff, next);
    } else if f.Propagate? {
      PropagateFramesOk(c, sh, sh', f, eff, next);
    } else if f.Gather? {
      GatherFramesOk(c, sh, sh', f, eff, next);
    } else if Early(f) {
      EarlyFramesOk(c, sh, sh', f, eff, next);
    } else {
      LateFramesOk(c, sh, sh', f, eff, next);
    }
  }

  lemma FramesStep(c: Network, s: State, a: Action, s': State)
    requires Inv(c, s) && NextBy(c, s, a, s')
    requires WellFormed(c, s'.sh) && Grows(s.sh, s'.sh)
    ensures AllFrames(FrameOkAt(c, s'.sh), s'.stacks)
  {
    OldFramesOk(c, s.sh, s'.sh, s.stacks);
    match a {
      case Thread(t, eff, next, start) =>
        TopIsOk(c, s, t);
        NewFramesOk(c, s.sh, s'.sh, Top(s.stacks[t]), eff, next, start);
        AllFired(FrameOkAt(c, s'.sh), s.stacks, t, next, start);
      case Outside(eff, start) =>
        AllStarted(FrameOkAt(c, s'.sh), s.stacks, start);
    }
  }

  // ---- Ownership and at-most-once ----

  /** What owning or pending frames say about the state word. */
  predicate Placed(sh: Shared, f: Frame) {
    && (Pending(f) ==> f.v < |sh.nodes| && sh.nodes[f.v].exec == Ready)
    && (Owner(f) ==> f.v < |sh.nodes| && sh.nodes[f.v].exec == Executing)
  }

  lemma TopIsPlaced(s: State, t: nat)
    requires t < |s.stacks| && s.stacks[t] != []
    requires forall v :: 0 <= v < |s.sh.nodes| ==> OwnerOk(s, v)
    requires !IsCheck(Top(s.stacks[t])) ==> Top(s.stacks[t]).v < |s.sh.nodes|
    ensures Placed(s.sh, Top(s.stacks[t]))
  {
    var f := Top(s.stacks[t]);
    if !IsCheck(f) {
      TotalAtLeast(PendW(f.v), s.stacks, t);
      TotalAtLeast(OwnW(f.v), s.stacks, t);
      assert OwnerOk(s, f.v);
    }
  }

  function ExecAfter(sh: Shared, eff: Effect, v: nat): Exec
    requires v < |sh.nodes|
  {
    if eff.SetExec? && eff.v == v then eff.x else sh.nodes[v].exec
  }

  function ActiveChange(eff: Effect): int {
    if eff.AddActive? then eff.d else 0
  }

  /** What one effect leaves of a node. */
  predicate NodeAfter(n: Node, n': Node, eff: Effect, v: nat) {
    && n'.exec == (if eff.SetExec? && eff.v == v then eff.x else n.exec)
    && n'.runs == n.runs + One(eff == StartRun(v))
    && n'.executions == n.executions + One(eff == CountSuccess(v))
    && n'.attempted == (n.attempted || eff == Attempt(v))
    && n'.outs == (if eff.Emit? && eff.v == v then eff.outs else n.outs)
  }

  lemma PortEffect(sh: Shared, eff: Effect, v: nat)
    requires v < |sh.nodes| && Applies(sh, eff) && (eff.Pop? || eff.Push?)
    ensures |Apply(sh, eff).nodes| == |sh.nodes| && Apply(sh, eff).stop == sh.stop
    ensures NodeAfter(sh.nodes[v], Apply(sh, eff).nodes[v], eff, v)
  {
  }

  /** The effect is on a node and leaves its ports alone. */
  predicate OnNode(eff: Effect) {
    eff.SetExec? || eff.StartRun? || eff.Emit? || eff.CountSuccess? || eff.Attempt?
  }

  function NodeWith(n: Node, eff: Effect): Node
    requires OnNode(eff)
  {
    match eff
    case SetExec(_, x) => n.(exec := x)
    case StartRun(_) => n.(runs := n.runs + 1)
    case Emit(_, outs) => n.(outs := outs)
    case CountSuccess(_) => n.(executions := n.executions + 1)
    case Attempt(_) => n.(attempted := true)
  }

  lemma OneNode(sh: Shared, eff: Effect)
    requires Applies(sh, eff) && OnNode(eff)
    ensures eff.v < |sh.nodes| && Apply(sh, eff).nodes == sh.nodes[eff.v := NodeWith(sh.nodes[eff.v], eff)]
    ensures Apply(sh, eff).stop == sh.stop
  {
  }

  lemma NodeEffect(sh: Shared, eff: Effect, v: nat)
    requires v < |sh.nodes| && Applies(sh, eff) && OnNode(eff)
    ensures |Apply(sh, eff).nodes| == |sh.nodes| && Apply(sh, eff).stop == sh.stop
    ensures NodeAfter(sh.nodes[v], Apply(sh, eff).nodes[v], eff, v)
  {
    OneNode(sh, eff);
  }

  lemma SharedEffect(sh: Shared, eff: Effect)
    requires Applies(sh, eff) && !OnNode(eff) && !eff.Pop? && !eff.Push?
    ensures Apply(sh, eff).nodes == sh.nodes && Apply(sh, eff).stop == (sh.stop || eff.SetStop?)
  {
  }

  lemma After(sh: Shared, eff: Effect, v: nat)
    requires v < |sh.nodes| && Applies(sh, eff)
    ensures |Apply(sh, eff).nodes| == |sh.nodes|
    ensures Apply(sh, eff).stop == (sh.stop || eff.SetStop?)
    ensures Apply(sh, eff).nodes[v].exec == ExecAfter(sh, eff, v)
    ensures Apply(sh, eff).nodes[v].runs == sh.nodes[v].runs + One(eff == StartRun(v))
    ensures Apply(sh, eff).nodes[v].executions == sh.nodes[v].executions + One(eff == CountSuccess(v))
    ensures Apply(sh, eff).nodes[v].attempted == (sh.nodes[v].attempted || eff == Attempt(v))
    ensures Apply(sh, eff).nodes[v].outs == if eff.Emit? && eff.v == v then eff.outs else sh.nodes[v].outs
  {
    if eff.Pop? || eff.Push? {
      PortEffect(sh, eff, v);
    } else if OnNode(eff) {
      NodeEffect(sh, eff, v);
    } else {
      SharedEffect(sh, eff);
    }
  }

  ghost predicate OwnMoves(sh: Shared, f: Frame, eff: Effect, next: Then<Frame>, start: Start<Frame>, v: nat)
    requires v < |sh.nodes|
  {
    Delta(OwnW(v), f, next, start) == One(ExecAfter(sh, eff, v) == Executing) - One(sh.nodes[v].exec == Executing)
  }

  ghost predicate PendMoves(sh: Shared, f: Frame, eff: Effect, next: Then<Frame>, start: Start<Frame>, v: nat)
    requires v < |sh.nodes|
  {
    Delta(PendW(v), f, next, start) == One(ExecAfter(sh, eff, v) == Ready) - One(sh.nodes[v].exec == Ready)
  }

  lemma ExecTry(c: Network, sh: Shared, f: Frame, eff: Effect, next: Then<Frame>, start: Start<Frame>, v: nat)
    requires WellFormed(c, sh) && InRange(c, f) && FireTry(c, sh, f, eff, next, start)
    requires Placed(sh, f) && v < |sh.nodes|
    ensures OwnMoves(sh, f, eff, next, start, v) && PendMoves(sh, f, eff, next, start, v)
  {
  }

  lemma OwnTask(c: Network, sh: Shared, f: Frame, eff: Effect, next: Then<Frame>, v: nat)
    requires WellFormed(c, sh) && InRange(c, f) && FireTask(c, sh, f, eff, next)
    requires Placed(sh, f) && v < |sh.nodes|
    ensures OwnMoves(sh, f, eff, next, NoThread, v)
  {
  }

  lemma PendTask(c: Network, sh: Shared, f: Frame, eff: Effect, next: Then<Frame>, v: nat)
    requires WellFormed(c, sh) && InRange(c, f) && FireTask(c, sh, f, eff, next)
    requires Placed(sh, f) && v < |sh.nodes|
    ensures PendMoves(sh, f, eff, next, NoThread, v)
  {
  }

  /** A success is counted by a frame that called process(). */
  ghost predicate AfterMoves(f: Frame, eff: Effect, next: Then<Frame>, start: Start<Frame>, v: nat)
  {
    Delta(AfterW(v), f, next, start) <= One(eff == StartRun(v)) - One(eff == CountSuccess(v))
  }

  /** process() starts from a frame past the stop check. */
  ghost predicate RunMoves(sh: Shared, f: Frame, eff: Effect, next: Then<Frame>, start: Start<Frame>, v: nat)
  {
    && (eff == StartRun(v) ==> f.Gather? && f.v == v && next == Goto(Process(v)) && start == NoThread)
    && (Delta(BeforeW(v), f, next, start) > 0 ==> f == TaskStop(v) && !sh.stop)
  }

  /** A node is idle again only after a stop, and failed only until the stop is set. */
  ghost predicate FailMoves(sh: Shared, f: Frame, eff: Effect, next: Then<Frame>, start: Start<Frame>, v: nat)
    requires v < |sh.nodes|
  {
    && (Idle(ExecAfter(sh, eff, v)) ==> sh.stop || Idle(sh.nodes[v].exec))
    && (ExecAfter(sh, eff, v) == Failed && sh.nodes[v].exec != Failed ==> Delta(FailW(v), f, next, start) > 0)
    && (Delta(FailW(v), f, next, start) < 0 ==> eff.SetStop?)
  }

  lemma RunTask(c: Network, sh: Shared, f: Frame, eff: Effect, next: Then<Frame>, v: nat)
    requires WellFormed(c, sh) && InRange(c, f) && FireTask(c, sh, f, eff, next)
    ensures RunMoves(sh, f, eff, next, NoThread, v)
  {
  }

  lemma AfterTask(c: Network, sh: Shared, f: Frame, eff: Effect, next: Then<Frame>, v: nat)
    requires WellFormed(c, sh) && InRange(c, f) && FireTask(c, sh, f, eff, next)
    ensures AfterMoves(f, eff, next, NoThread, v)
  {
  }

  lemma FailTask(c: Network, sh: Shared, f: Frame, eff: Effect, next: Then<Frame>, v: nat)
    requires WellFormed(c, sh) && InRange(c, f) && FireTask(c, sh, f, eff, next) && v < |sh.nodes|
    ensures FailMoves(sh, f, eff, next, NoThread, v)
  {
  }

  /** Frames of a scheduling attempt or a completion check neither run nor fail a node. */
  function Outer(): Frame -> bool {
    (f: Frame) => IsTry(f) || IsCheck(f) || f.TaskStop?
  }

  lemma OtherIsOuter(c: Network, sh: Shared, f: Frame, eff: Effect, next: Then<Frame>, start: Start<Frame>)
    requires WellFormed(c, sh) && InRange(c, f) && (IsTry(f) || IsCheck(f)) && Fire(c, sh, f, eff, next, start)
    ensures Outer()(f) && AllThen(Outer(), next) && AllStart(Outer(), start)
    ensures eff.Nop? || eff.AddActive? || eff.SetReported? || eff.CallBack? || (f.TryCas? && eff == SetExec(f.v, Ready) && sh.nodes[f.v].exec == Waiting)
    ensures IsCheck(f) ==> !eff.SetExec? && start == NoThread && (next.Goto? ==> IsCheck(next.next)) && !next.Call?
  {
  }

  lemma RunOther(sh: Shared, f: Frame, eff: Effect, next: Then<Frame>, start: Start<Frame>, v: nat)
    requires Outer()(f) && AllThen(Outer(), next) && AllStart(Outer(), start)
    requires !eff.StartRun?
    ensures RunMoves(sh, f, eff, next, start, v)
  {
  }

  lemma AfterOther(f: Frame, eff: Effect, next: Then<Frame>, start: Start<Frame>, v: nat)
    requires Outer()(f) && AllThen(Outer(), next) && AllStart(Outer(), start)
    requires !eff.StartRun? && !eff.CountSuccess?
    ensures AfterMoves(f, eff, next, start, v)
  {
  }

  lemma FailOther(sh: Shared, f: Frame, eff: Effect, next: Then<Frame>, start: Start<Frame>, v: nat)
    requires Outer()(f) && AllThen(Outer(), next) && AllStart(Outer(), start) && v < |sh.nodes|
    requires eff.SetExec? ==> eff.x == Ready && eff.v < |sh.nodes| && sh.nodes[eff.v].exec == Waiting
    ensures FailMoves(sh, f, eff, next, start, v)
  {
  }

  lemma ExecCheck(sh: Shared, f: Frame, eff: Effect, next: Then<Frame>, v: nat)
    requires IsCheck(f) && !eff.SetExec? && (next.Goto? ==> IsCheck(next.next)) && !next.Call? && v < |sh.nodes|
    ensures OwnMoves(sh, f, eff, next, NoThread, v) && PendMoves(sh, f, eff, next, NoThread, v)
  {
  }

  lemma OwnerMoves(c: Network, sh: Shared, f: Frame, eff: Effect, next: Then<Frame>, start: Start<Frame>, v: nat)
    requires WellFormed(c, sh) && InRange(c, f) && Fire(c, sh, f, eff, next, start) && Placed(sh, f) && v < |sh.nodes|
    ensures OwnMoves(sh, f, eff, next, start, v) && PendMoves(sh, f, eff, next, start, v)
    ensures AfterMoves(f, eff, next, start, v) && RunMoves(sh, f, eff, next, start, v) && FailMoves(sh, f, eff, next, start, v)
  {
    if IsTry(f) || IsCheck(f) {
      OtherIsOuter(c, sh, f, eff, next, start);
      RunOther(sh, f, eff, next, start, v);
      AfterOther(f, eff, next, start, v);
      FailOther(sh, f, eff, next, start, v);
      if IsTry(f) {
        ExecTry(c, sh, f, eff, next, start, v);
      } else {
        ExecCheck(sh, f, eff, next, v);
      }
    } else {
      OwnTask(c, sh, f, eff, next, v);
      PendTask(c, sh, f, eff, next, v);
      AfterTask(c, sh, f, eff, next, v);
      RunTask(c, sh, f, eff, next, v);
      FailTask(c, sh, f, eff, next, v);
    }
  }

  /** While a frame is about to call process(), it is the only one for its node. */
  lemma BeforeAlone(s: State, t: nat, v: nat)
    requires t < |s.stacks| && s.stacks[t] != [] && v < |s.sh.nodes| && OwnerOk(s, v)
    requires Top(s.stacks[t]).Gather? && Top(s.stacks[t]).v == v && s.sh.nodes[v].exec == Executing
    ensures Total(BeforeW(v), s.stacks) == 1
  {
    TotalAdds(OwnW(v), PendW(v), BusyW(v), s.stacks);
    TotalAlone(BeforeW(v), BusyW(v), s.stacks, t);
  }

  /** A step as the counting sees it: what it does to the threads and to one node. */
  ghost predicate Moved(s: State, a: Action, s': State, v: nat) {
    && Stacked(s, a, s') && Applies(s.sh, a.eff) && s'.sh == Apply(s.sh, a.eff) && v < |s.sh.nodes| == |s'.sh.nodes|
    && (a.Outside? ==>
          && (a.start.NewThread? ==> a.start.frame.TryStop?)
          && (a.eff.Attempt? || a.eff.Push? || a.eff.SetStop?))
  }

  lemma OwnArithmetic(s: State, a: Action, s': State, v: nat)
    requires Moved(s, a, s', v) && OwnerOk(s, v)
    requires a.Thread? ==> OwnMoves(s.sh, Top(s.stacks[a.t]), a.eff, a.next, a.start, v)
    ensures Total(OwnW(v), s'.stacks) == One(s'.sh.nodes[v].exec == Executing)
  {
    After(s.sh, a.eff, v);
    Move(OwnW(v), s, a, s');
  }

  lemma PendArithmetic(s: State, a: Action, s': State, v: nat)
    requires Moved(s, a, s', v) && OwnerOk(s, v)
    requires a.Thread? ==> PendMoves(s.sh, Top(s.stacks[a.t]), a.eff, a.next, a.start, v)
    ensures Total(PendW(v), s'.stacks) == One(s'.sh.nodes[v].exec == Ready)
  {
    After(s.sh, a.eff, v);
    Move(PendW(v), s, a, s');
  }

  lemma RunArithmetic(s: State, a: Action, s': State, v: nat)
    requires Moved(s, a, s', v) && OwnerOk(s, v)
    requires a.Thread? ==>
               var f := Top(s.stacks[a.t]);
               Placed(s.sh, f) && RunMoves(s.sh, f, a.eff, a.next, a.start, v) && FailMoves(s.sh, f, a.eff, a.next, a.start, v)
    ensures s'.sh.nodes[v].runs <= 1
    ensures s'.sh.nodes[v].runs > 0 ==> Total(BeforeW(v), s'.stacks) == 0 && (s'.sh.stop || !Idle(s'.sh.nodes[v].exec))
  {
    After(s.sh, a.eff, v);
    Move(BeforeW(v), s, a, s');
    TotalNonNegative(BeforeW(v), s'.stacks);
    if a.Thread? && a.eff == StartRun(v) {
      BeforeAlone(s, a.t, v);
    }
  }

  lemma AfterArithmetic(s: State, a: Action, s': State, v: nat)
    requires Moved(s, a, s', v) && OwnerOk(s, v)
    requires a.Thread? ==> AfterMoves(Top(s.stacks[a.t]), a.eff, a.next, a.start, v)
    ensures s'.sh.nodes[v].executions + Total(AfterW(v), s'.stacks) <= s'.sh.nodes[v].runs
  {
    After(s.sh, a.eff, v);
    Move(AfterW(v), s, a, s');
  }

  lemma FailArithmetic(s: State, a: Action, s': State, v: nat)
    requires Moved(s, a, s', v) && OwnerOk(s, v)
    requires a.Thread? ==> FailMoves(s.sh, Top(s.stacks[a.t]), a.eff, a.next, a.start, v)
    ensures s'.sh.nodes[v].exec == Failed ==> s'.sh.stop || Total(FailW(v), s'.stacks) > 0
  {
    After(s.sh, a.eff, v);
    Move(FailW(v), s, a, s');
  }

  lemma OwnerStep(c: Network, s: State, a: Action, s': State, v: nat)
    requires Inv(c, s) && NextBy(c, s, a, s')
    requires WellFormed(c, s'.sh) && v < |s.sh.nodes|
    ensures OwnerOk(s', v)
  {
    if a.Thread? {
      TopIsOk(c, s, a.t);
      TopIsPlaced(s, a.t);
      OwnerMoves(c, s.sh, Top(s.stacks[a.t]), a.eff, a.next, a.start, v);
    }
    OwnArithmetic(s, a, s', v);
    PendArithmetic(s, a, s', v);
    RunArithmetic(s, a, s', v);
    AfterArithmetic(s, a, s', v);
    FailArithmetic(s, a, s', v);
  }
}
