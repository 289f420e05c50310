/** Steps keep ownership: who executes a node, who emits its output, who counts as a task. */
module StreamOwner {
  import opened Stacks
  import opened StreamEngine
  import opened StreamInvariant
  import opened StreamSteps

  /** What owning or pending frames say about the state word. */
  predicate Placed(sh: Shared, f: Frame) {
    && (f.TryInc? || f.TryPost? || f.Task? ==> f.v < |sh.nodes| && sh.nodes[f.v].exec == Ready)
    && (Owner(f) ==> f.v < |sh.nodes| && sh.nodes[f.v].exec == Executing)
  }

  lemma TopIsPlaced(s: State, t: nat)
    requires t < |s.stacks| && s.stacks[t] != []
    requires forall v :: 0 <= v < |s.sh.nodes| ==> OwnerOk(s, v)
    requires var f := Top(s.stacks[t]); !f.ReachExchange? && !f.ReachCallback? ==> f.v < |s.sh.nodes|
    ensures Placed(s.sh, Top(s.stacks[t]))
  {
    var f := Top(s.stacks[t]);
    if !f.ReachExchange? && !f.ReachCallback? {
      TotalAtLeast(PendW(f.v), s.stacks, t);
      TotalAtLeast(OwnW(f.v), s.stacks, t);
      assert OwnerOk(s, f.v);
    }
  }

  // ---- The task counter ----

  function ActiveChange(eff: Effect): int {
    if eff.AddActive? then eff.d else 0
  }

  lemma ActiveTry(c: Config, sh: Shared, f: Frame, eff: Effect, next: Then<Frame>, start: Start<Frame>)
    requires WellFormed(c, sh) && InRange(c, f) && FireTry(c, sh, f, eff, next, start)
    ensures Delta(TaskW(), f, next, start) == ActiveChange(eff)
  {
  }

  lemma ActiveTask(c: Config, sh: Shared, f: Frame, eff: Effect, next: Then<Frame>)
    requires WellFormed(c, sh) && InRange(c, f) && FireTask(c, sh, f, eff, next)
    ensures Delta(TaskW(), f, next, NoThread) == ActiveChange(eff)
  {
  }

  lemma ActiveCheck(c: Config, sh: Shared, f: Frame, eff: Effect, next: Then<Frame>)
    requires WellFormed(c, sh) && InRange(c, f) && (FireCheck(c, sh, f, eff, next) || FireFlush(c, sh, f, eff, next))
    ensures Delta(TaskW(), f, next, NoThread) == ActiveChange(eff)
  {
  }

  // ---- The state word ----

  function ExecAfter(sh: Shared, eff: Effect, v: nat): Exec
    requires v < |sh.nodes|
  {
    if eff.SetExec? && eff.v == v then eff.x else sh.nodes[v].exec
  }

  predicate PropagatedAfter(sh: Shared, eff: Effect, v: nat)
    requires v < |sh.nodes|
  {
    eff == MarkFlush(v) || sh.nodes[v].propagated
  }

  lemma After(sh: Shared, eff: Effect, v: nat)
    requires v < |sh.nodes| && Applies(sh, eff)
    ensures Apply(sh, eff).active == sh.active + ActiveChange(eff)
    ensures |Apply(sh, eff).nodes| == |sh.nodes|
    ensures Apply(sh, eff).nodes[v].exec == ExecAfter(sh, eff, v)
    ensures Apply(sh, eff).nodes[v].propagated == PropagatedAfter(sh, eff, v)
  {
  }

  ghost predicate OwnMoves(sh: Shared, f: Frame, eff: Effect, next: Then<Frame>, start: Start<Frame>, v: nat)
    requires v < |sh.nodes|
  {
    Delta(OwnW(v), f, next, start) == One(ExecAfter(sh, eff, v) == Executing) - One(sh.nodes[v].exec == Executing)
  }

  ghost predicate PendMoves(sh: Shared, f: Frame, eff: Effect, next: Then<Frame>, start: Start<Frame>, v: nat)
    requires v < |sh.nodes|
  {
    Delta(PendW(v), f, next, start) == One(ExecAfter(sh, eff, v) == Ready) - One(sh.nodes[v].exec == Ready)
  }

  ghost predicate ExecMoves(sh: Shared, f: Frame, eff: Effect, next: Then<Frame>, start: Start<Frame>, v: nat)
    requires v < |sh.nodes|
  {
    OwnMoves(sh, f, eff, next, start, v) && PendMoves(sh, f, eff, next, start, v)
  }

  lemma ExecTry(c: Config, sh: Shared, f: Frame, eff: Effect, next: Then<Frame>, start: Start<Frame>, v: nat)
    requires WellFormed(c, sh) && InRange(c, f) && FireTry(c, sh, f, eff, next, start)
    requires Placed(sh, f) && v < |sh.nodes|
    ensures ExecMoves(sh, f, eff, next, start, v)
  {
  }

  lemma OwnTask(c: Config, sh: Shared, f: Frame, eff: Effect, next: Then<Frame>, v: nat)
    requires WellFormed(c, sh) && InRange(c, f) && FireTask(c, sh, f, eff, next)
    requires Placed(sh, f) && v < |sh.nodes|
    ensures OwnMoves(sh, f, eff, next, NoThread, v)
  {
  }

  lemma PendTask(c: Config, sh: Shared, f: Frame, eff: Effect, next: Then<Frame>, v: nat)
    requires WellFormed(c, sh) && InRange(c, f) && FireTask(c, sh, f, eff, next)
    requires Placed(sh, f) && v < |sh.nodes|
    ensures PendMoves(sh, f, eff, next, NoThread, v)
  {
  }

  lemma ExecCheck(c: Config, sh: Shared, f: Frame, eff: Effect, next: Then<Frame>, v: nat)
    requires WellFormed(c, sh) && InRange(c, f) && FireCheck(c, sh, f, eff, next)
    requires Placed(sh, f) && v < |sh.nodes|
    ensures ExecMoves(sh, f, eff, next, NoThread, v)
  {
  }

  lemma OwnFlush(c: Config, sh: Shared, f: Frame, eff: Effect, next: Then<Frame>, v: nat)
    requires WellFormed(c, sh) && InRange(c, f) && FireFlush(c, sh, f, eff, next)
    requires Placed(sh, f) && v < |sh.nodes|
    ensures OwnMoves(sh, f, eff, next, NoThread, v)
  {
  }

  lemma PendFlush(c: Config, sh: Shared, f: Frame, eff: Effect, next: Then<Frame>, v: nat)
    requires WellFormed(c, sh) && InRange(c, f) && FireFlush(c, sh, f, eff, next)
    requires Placed(sh, f) && v < |sh.nodes|
    ensures PendMoves(sh, f, eff, next, NoThread, v)
  {
  }

  // ---- Packets in hand, flushes and cascades ----

  /** A frame that holds no packet and emits, flushes and cascades nothing. */
  predicate Quiet(f: Frame) {
    && !f.Gather? && !f.Process? && !f.Propagate? && !f.Flush? && !f.FlushStore? && !f.Cascade?
    && !f.RecordSink? && !f.ReachExchange? && !f.ReachCallback?
  }

  function QuietFrame(): Frame -> bool {
    (f: Frame) => Quiet(f)
  }

  lemma QuietStep(c: Config, sh: Shared, f: Frame, eff: Effect, next: Then<Frame>, start: Start<Frame>)
    requires WellFormed(c, sh) && InRange(c, f)
    requires FireTry(c, sh, f, eff, next, start) || (start == NoThread && FireCheck(c, sh, f, eff, next))
    ensures Quiet(f) && AllThen(QuietFrame(), next) && AllStart(QuietFrame(), start)
    ensures eff.Nop? || eff.SetExec? || eff.AddActive?
  {
  }

  /** A packet is held, processed or emitted only by a gather that popped it. */
  ghost predicate ProcMoves(sh: Shared, f: Frame, next: Then<Frame>, start: Start<Frame>, v: nat)
    requires v < |sh.nodes|
  {
    sh.nodes[v].propagated && ProcW(v)(f) == 0 ==> Delta(ProcW(v), f, next, start) == 0
  }

  /** A flush starts only by a won exchange, a cascade only when the flush is done. */
  ghost predicate FlushMoves(sh: Shared, f: Frame, eff: Effect, next: Then<Frame>, start: Start<Frame>, v: nat)
    requires v < |sh.nodes|
  {
    MarkMoves(sh, f, eff, next, start, v) && CascadeMoves(f, next, start, v)
  }

  ghost predicate MarkMoves(sh: Shared, f: Frame, eff: Effect, next: Then<Frame>, start: Start<Frame>, v: nat)
    requires v < |sh.nodes|
  {
    && (Delta(FlushW(v), f, next, start) > 0 ==> eff == MarkFlush(v))
    && (eff == MarkFlush(v) ==> f.Claimed? && f.v == v && !sh.nodes[v].propagated && next == Goto(Flush(v)) && start == NoThread)
  }

  ghost predicate CascadeMoves(f: Frame, next: Then<Frame>, start: Start<Frame>, v: nat) {
    Delta(CascadeW(v), f, next, start) > 0 ==> f == FlushStore(v)
  }

  lemma QuietProc(sh: Shared, f: Frame, next: Then<Frame>, start: Start<Frame>, v: nat)
    requires v < |sh.nodes|
    requires Quiet(f) && AllThen(QuietFrame(), next) && AllStart(QuietFrame(), start)
    ensures ProcMoves(sh, f, next, start, v)
  {
  }

  lemma QuietFlush(sh: Shared, f: Frame, eff: Effect, next: Then<Frame>, start: Start<Frame>, v: nat)
    requires v < |sh.nodes|
    requires Quiet(f) && AllThen(QuietFrame(), next) && AllStart(QuietFrame(), start) && !eff.MarkFlush?
    ensures FlushMoves(sh, f, eff, next, start, v)
  {
  }

  lemma ProcTask(c: Config, sh: Shared, f: Frame, eff: Effect, next: Then<Frame>, v: nat)
    requires WellFormed(c, sh) && InRange(c, f) && FireTask(c, sh, f, eff, next) && v < |sh.nodes|
    requires Applies(sh, eff) && (sh.nodes[v].propagated ==> AllDrained(sh, v))
    ensures ProcMoves(sh, f, next, NoThread, v)
  {
  }

  lemma MarkTask(c: Config, sh: Shared, f: Frame, eff: Effect, next: Then<Frame>, v: nat)
    requires WellFormed(c, sh) && InRange(c, f) && FireTask(c, sh, f, eff, next) && v < |sh.nodes|
    ensures MarkMoves(sh, f, eff, next, NoThread, v)
  {
  }

  lemma CascadeTask(c: Config, sh: Shared, f: Frame, eff: Effect, next: Then<Frame>, v: nat)
    requires WellFormed(c, sh) && InRange(c, f) && FireTask(c, sh, f, eff, next)
    ensures CascadeMoves(f, next, NoThread, v)
  {
  }

  lemma FlushTask(c: Config, sh: Shared, f: Frame, eff: Effect, next: Then<Frame>, v: nat)
    requires WellFormed(c, sh) && InRange(c, f) && FireTask(c, sh, f, eff, next) && v < |sh.nodes|
    ensures FlushMoves(sh, f, eff, next, NoThread, v)
  {
    MarkTask(c, sh, f, eff, next, v);
    CascadeTask(c, sh, f, eff, next, v);
  }

  lemma ProcFlush(c: Config, sh: Shared, f: Frame, eff: Effect, next: Then<Frame>, v: nat)
    requires WellFormed(c, sh) && InRange(c, f) && FireFlush(c, sh, f, eff, next) && v < |sh.nodes|
    ensures ProcMoves(sh, f, next, NoThread, v)
  {
  }

  lemma FlushFlush(c: Config, sh: Shared, f: Frame, eff: Effect, next: Then<Frame>, v: nat)
    requires WellFormed(c, sh) && InRange(c, f) && FireFlush(c, sh, f, eff, next) && v < |sh.nodes|
    ensures FlushMoves(sh, f, eff, next, NoThread, v)
  {
  }

  ghost predicate EmitMoves(sh: Shared, f: Frame, eff: Effect, next: Then<Frame>, start: Start<Frame>, v: nat)
    requires v < |sh.nodes|
  {
    ProcMoves(sh, f, next, start, v) && FlushMoves(sh, f, eff, next, start, v)
  }

  // ---- All of it for one step ----

  lemma OwnerMoves(c: Config, sh: Shared, f: Frame, eff: Effect, next: Then<Frame>, start: Start<Frame>, v: nat)
    requires WellFormed(c, sh) && InRange(c, f) && Fire(c, sh, f, eff, next, start) && v < |sh.nodes|
    requires Placed(sh, f) && Applies(sh, eff) && (sh.nodes[v].propagated ==> AllDrained(sh, v))
    ensures ExecMoves(sh, f, eff, next, start, v) && EmitMoves(sh, f, eff, next, start, v)
  {
    if IsTry(f) {
      ExecTry(c, sh, f, eff, next, start, v);
      QuietStep(c, sh, f, eff, next, start);
      QuietProc(sh, f, next, start, v);
      QuietFlush(sh, f, eff, next, start, v);
    } else if IsTask(f) {
      OwnTask(c, sh, f, eff, next, v);
      PendTask(c, sh, f, eff, next, v);
      ProcTask(c, sh, f, eff, next, v);
      FlushTask(c, sh, f, eff, next, v);
    } else if IsCheck(f) {
      ExecCheck(c, sh, f, eff, next, v);
      QuietStep(c, sh, f, eff, next, start);
      QuietProc(sh, f, next, start, v);
      QuietFlush(sh, f, eff, next, start, v);
    } else {
      OwnFlush(c, sh, f, eff, next, v);
      PendFlush(c, sh, f, eff, next, v);
      ProcFlush(c, sh, f, eff, next, v);
      FlushFlush(c, sh, f, eff, next, v);
    }
  }

  lemma OwnArithmetic(s: State, a: Action, s': State, v: nat)
    requires Stacked(s, a, s') && Applies(s.sh, a.eff) && s'.sh == Apply(s.sh, a.eff)
    requires v < |s.sh.nodes| == |s'.sh.nodes| && Total(OwnW(v), s.stacks) == One(s.sh.nodes[v].exec == Executing)
    requires a.Thread? ==> OwnMoves(s.sh, Top(s.stacks[a.t]), a.eff, a.next, a.start, v)
    requires a.Outside? ==> !a.eff.SetExec? && (a.frame.TryState? || a.frame.TryCas? || a.frame.Check?)
    ensures Total(OwnW(v), s'.stacks) == One(s'.sh.nodes[v].exec == Executing)
  {
    After(s.sh, a.eff, v);
    Move(OwnW(v), s, a, s');
  }

  lemma PendArithmetic(s: State, a: Action, s': State, v: nat)
    requires Stacked(s, a, s') && Applies(s.sh, a.eff) && s'.sh == Apply(s.sh, a.eff)
    requires v < |s.sh.nodes| == |s'.sh.nodes| && Total(PendW(v), s.stacks) == One(s.sh.nodes[v].exec == Ready)
    requires a.Thread? ==> PendMoves(s.sh, Top(s.stacks[a.t]), a.eff, a.next, a.start, v)
    requires a.Outside? ==> !a.eff.SetExec? && (a.frame.TryState? || a.frame.TryCas? || a.frame.Check?)
    ensures Total(PendW(v), s'.stacks) == One(s'.sh.nodes[v].exec == Ready)
  {
    After(s.sh, a.eff, v);
    Move(PendW(v), s, a, s');
  }

  /** The top frame that owns a node is the only one at work for it. */
  lemma OwnerAlone(s: State, t: nat, v: nat)
    requires t < |s.stacks| && s.stacks[t] != [] && v < |s.sh.nodes| && OwnerOk(s, v)
    requires Owns(Top(s.stacks[t]), v) && Placed(s.sh, Top(s.stacks[t]))
    ensures Total(ProcW(v), s.stacks) == ProcW(v)(Top(s.stacks[t]))
    ensures Total(FlushW(v), s.stacks) == FlushW(v)(Top(s.stacks[t]))
  {
    TotalAlone(ProcW(v), OwnW(v), s.stacks, t);
    TotalAlone(FlushW(v), OwnW(v), s.stacks, t);
  }

  lemma ProcArithmetic(s: State, a: Action, s': State, v: nat)
    requires Stacked(s, a, s') && Applies(s.sh, a.eff) && s'.sh == Apply(s.sh, a.eff)
    requires v < |s.sh.nodes| == |s'.sh.nodes| && OwnerOk(s, v)
    requires a.Thread? ==>
               var f := Top(s.stacks[a.t]);
               Placed(s.sh, f) && EmitMoves(s.sh, f, a.eff, a.next, a.start, v)
    requires a.Outside? ==> !a.eff.MarkFlush? && (a.frame.TryState? || a.frame.TryCas? || a.frame.Check?)
    ensures s'.sh.nodes[v].propagated ==> Total(ProcW(v), s'.stacks) == 0
  {
    After(s.sh, a.eff, v);
    Move(ProcW(v), s, a, s');
    if a.Thread? && Owns(Top(s.stacks[a.t]), v) {
      OwnerAlone(s, a.t, v);
    }
  }

  /** A closed node stays closed. */
  lemma StaysClosed(s: State, a: Action, s': State, u: nat)
    requires Stacked(s, a, s') && Applies(s.sh, a.eff) && s'.sh == Apply(s.sh, a.eff)
    requires u < |s.sh.nodes| == |s'.sh.nodes| && Closed(s, u)
    requires a.Thread? ==> FlushMoves(s.sh, Top(s.stacks[a.t]), a.eff, a.next, a.start, u)
    requires a.Outside? ==> a.frame.TryState? || a.frame.TryCas? || a.frame.Check?
    ensures Closed(s', u)
  {
    After(s.sh, a.eff, u);
    Move(FlushW(u), s, a, s');
    TotalNonNegative(FlushW(u), s'.stacks);
  }

  /** A node closes when its flush is stored. */
  lemma Closes(s: State, a: Action, s': State, v: nat)
    requires Stacked(s, a, s') && Applies(s.sh, a.eff) && s'.sh == Apply(s.sh, a.eff) && a.Thread?
    requires v < |s.sh.nodes| == |s'.sh.nodes| && OwnerOk(s, v) && s.sh.nodes[v].propagated
    requires Top(s.stacks[a.t]) == FlushStore(v) && Placed(s.sh, FlushStore(v))
    requires FlushMoves(s.sh, FlushStore(v), a.eff, a.next, a.start, v) && Delta(CascadeW(v), FlushStore(v), a.next, a.start) > 0
    requires Total(CascadeW(v), s.stacks) == 0
    ensures Closed(s', v)
  {
    After(s.sh, a.eff, v);
    Move(FlushW(v), s, a, s');
    OwnerAlone(s, a.t, v);
    TotalNonNegative(FlushW(v), s'.stacks);
  }

  lemma CascadeArithmetic(s: State, a: Action, s': State, v: nat)
    requires Stacked(s, a, s') && Applies(s.sh, a.eff) && s'.sh == Apply(s.sh, a.eff)
    requires v < |s.sh.nodes| == |s'.sh.nodes| && OwnerOk(s, v)
    requires a.Thread? ==>
               var f := Top(s.stacks[a.t]);
               && Placed(s.sh, f) && FlushMoves(s.sh, f, a.eff, a.next, a.start, v)
               && (f == FlushStore(v) ==> s.sh.nodes[v].propagated)
    requires a.Outside? ==> !a.eff.MarkFlush? && (a.frame.TryState? || a.frame.TryCas? || a.frame.Check?)
    ensures Total(CascadeW(v), s'.stacks) > 0 ==> Closed(s', v)
  {
    Move(CascadeW(v), s, a, s');
    TotalNonNegative(CascadeW(v), s.stacks);
    if Total(CascadeW(v), s.stacks) > 0 {
      StaysClosed(s, a, s', v);
    } else if Total(CascadeW(v), s'.stacks) > 0 {
      Closes(s, a, s', v);
    }
  }

  lemma OwnerArithmetic(s: State, a: Action, s': State, v: nat)
    requires Stacked(s, a, s') && Applies(s.sh, a.eff) && s'.sh == Apply(s.sh, a.eff)
    requires v < |s.sh.nodes| == |s'.sh.nodes| && OwnerOk(s, v)
    requires a.Thread? ==>
               var f := Top(s.stacks[a.t]);
               && Placed(s.sh, f)
               && ExecMoves(s.sh, f, a.eff, a.next, a.start, v) && EmitMoves(s.sh, f, a.eff, a.next, a.start, v)
               && (f == FlushStore(v) ==> s.sh.nodes[v].propagated)
    requires a.Outside? ==> !a.eff.SetExec? && !a.eff.MarkFlush? && (a.frame.TryState? || a.frame.TryCas? || a.frame.Check?)
    ensures OwnerOk(s', v)
  {
    OwnArithmetic(s, a, s', v);
    PendArithmetic(s, a, s', v);
    ProcArithmetic(s, a, s', v);
    CascadeArithmetic(s, a, s', v);
  }

  lemma OwnerStep(c: Config, s: State, a: Action, s': State, v: nat)
    requires Inv(c, s) && NextBy(c, s, a, s')
    requires WellFormed(c, s'.sh) && v < |s.sh.nodes|
    ensures OwnerOk(s', v)
  {
    if a.Thread? {
      TopIsOk(c, s, a.t);
      TopIsPlaced(s, a.t);
      OwnerMoves(c, s.sh, Top(s.stacks[a.t]), a.eff, a.next, a.start, v);
    }
    OwnerArithmetic(s, a, s', v);
  }

  lemma ActiveMoves(c: Config, sh: Shared, f: Frame, eff: Effect, next: Then<Frame>, start: Start<Frame>)
    requires WellFormed(c, sh) && InRange(c, f) && Fire(c, sh, f, eff, next, start)
    ensures Delta(TaskW(), f, next, start) == ActiveChange(eff)
  {
    if IsTry(f) {
      ActiveTry(c, sh, f, eff, next, start);
    } else if IsTask(f) {
      ActiveTask(c, sh, f, eff, next);
    } else {
      ActiveCheck(c, sh, f, eff, next);
    }
  }

  lemma ActiveArithmetic(s: State, a: Action, s': State)
    requires Stacked(s, a, s') && Applies(s.sh, a.eff) && s'.sh == Apply(s.sh, a.eff)
    requires s.sh.active == Total(TaskW(), s.stacks)
    requires a.Thread? ==> Delta(TaskW(), Top(s.stacks[a.t]), a.next, a.start) == ActiveChange(a.eff)
    requires a.Outside? ==> !a.eff.AddActive? && (a.frame.TryState? || a.frame.TryCas? || a.frame.Check?)
    ensures s'.sh.active == Total(TaskW(), s'.stacks)
  {
    Move(TaskW(), s, a, s');
  }

  lemma ActiveStep(c: Config, s: State, a: Action, s': State)
    requires Inv(c, s) && NextBy(c, s, a, s')
    ensures s'.sh.active == Total(TaskW(), s'.stacks)
  {
    if a.Thread? {
      ActiveMoves(c, s.sh, Top(s.stacks[a.t]), a.eff, a.next, a.start);
    }
    ActiveArithmetic(s, a, s');
  }
}
