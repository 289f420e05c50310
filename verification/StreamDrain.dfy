/**
 A source is scheduled as soon as one of its ports holds data, so it never stops with data
 queued, whichever of its ports are latched.
 */
module StreamDrain {
  import opened Stacks
  import opened Networks
  import opened StreamEngine
  import opened StreamInvariant
  import opened StreamSteps
  import opened StreamOwner
  import opened StreamProof
  import opened StreamResults

  // ---- The invariant ----

  /** Frames that will schedule the source `v` if its port `j` holds data, `enq` being what the port accepted so far. */
  predicate FreshSource(f: Frame, v: nat, j: nat, enq: nat) {
    match f
    case TryState(u) => u == v
    case TryScan(u, _, _) => u == v
    case TryCount(u, i, read, _, ready) =>
      u == v && (ready > 0 || i < j || (i == j && ((read.DrainDeq? || read.SizeDeq?) ==> read.e == enq)))
    case TryCas(u) => u == v
    case Check(u, retry) => u == v && retry
    case CheckScan(u, retry, _, _) => u == v && retry
    case _ => false
  }

  function SourceW(v: nat, j: nat, enq: nat): Frame -> int {
    (f: Frame) => One(FreshSource(f, v, j, enq))
  }

  predicate SourceWaiting(c: Config, sh: Shared, v: nat, j: nat) {
    && IsSource(c.net, v) && HasPort(sh, v, j)
    && sh.nodes[v].exec == Waiting && PortOf(sh, v, j).deq < PortOf(sh, v, j).enq
  }

  /** A waiting source with data on a port has someone who will schedule it. */
  predicate SourceOwed(c: Config, s: State, v: nat, j: nat) {
    !c.mayDefer && SourceWaiting(c, s.sh, v, j) ==> Total(SourceW(v, j, PortOf(s.sh, v, j).enq), s.stacks) > 0
  }

  // ---- Steps ----

  ghost predicate SourceMoves(c: Config, sh: Shared, sh': Shared, f: Frame, next: Then<Frame>, start: Start<Frame>, v: nat, j: nat) {
    !c.mayDefer && SourceWaiting(c, sh', v, j) ==>
      var w := SourceW(v, j, PortOf(sh', v, j).enq);
      || WeightThen(w, next) + WeightStart(w, start) > 0
      || (SourceWaiting(c, sh, v, j) && PortOf(sh, v, j).enq == PortOf(sh', v, j).enq && w(f) == 0)
  }

  /** What one effect leaves of a port. */
  lemma PortAfter(sh: Shared, eff: Effect, v: nat, j: nat)
    requires Applies(sh, eff)
    ensures HasPort(Apply(sh, eff), v, j) <==> HasPort(sh, v, j)
    ensures HasPort(sh, v, j) ==> Apply(sh, eff).nodes[v].exec == ExecAfter(sh, eff, v)
    ensures HasPort(sh, v, j) && !(eff.Push? && eff.v == v) ==>
              && PortOf(Apply(sh, eff), v, j).enq == PortOf(sh, v, j).enq
              && PortOf(Apply(sh, eff), v, j).deq >= PortOf(sh, v, j).deq
  {
  }

  lemma SourceTry(c: Config, sh: Shared, f: Frame, eff: Effect, next: Then<Frame>, start: Start<Frame>, v: nat, j: nat)
    requires WellFormed(c, sh) && FrameOk(c, sh, f) && FireTry(c, sh, f, eff, next, start) && Applies(sh, eff)
    ensures SourceMoves(c, sh, Apply(sh, eff), f, next, start, v, j)
  {
    PortAfter(sh, eff, v, j);
  }

  lemma SourceTask(c: Config, sh: Shared, f: Frame, eff: Effect, next: Then<Frame>, v: nat, j: nat)
    requires WellFormed(c, sh) && FrameOk(c, sh, f) && FireTask(c, sh, f, eff, next) && Applies(sh, eff) && Placed(sh, f)
    ensures SourceMoves(c, sh, Apply(sh, eff), f, next, NoThread, v, j)
  {
    PortAfter(sh, eff, v, j);
  }

  lemma SourceCheck(c: Config, sh: Shared, f: Frame, eff: Effect, next: Then<Frame>, v: nat, j: nat)
    requires WellFormed(c, sh) && FrameOk(c, sh, f) && FireCheck(c, sh, f, eff, next) && Applies(sh, eff)
    ensures SourceMoves(c, sh, Apply(sh, eff), f, next, NoThread, v, j)
  {
    PortAfter(sh, eff, v, j);
  }

  lemma SourceFlush(c: Config, sh: Shared, f: Frame, eff: Effect, next: Then<Frame>, v: nat, j: nat)
    requires WellFormed(c, sh) && PortsOk(c, sh) && FrameOk(c, sh, f) && FireFlush(c, sh, f, eff, next) && Applies(sh, eff)
    ensures SourceMoves(c, sh, Apply(sh, eff), f, next, NoThread, v, j)
  {
    PortAfter(sh, eff, v, j);
    if f.LoserStore? && f.v == v && HasPort(sh, v, j) {
      assert AllDrained(sh, v);
      assert sh.nodes[v].ports[j].Drained();
    }
  }

  lemma SourceArithmetic(c: Config, s: State, a: Action, s': State, v: nat, j: nat)
    requires Stacked(s, a, s') && SourceOwed(c, s, v, j)
    requires a.Thread? ==> SourceMoves(c, s.sh, s'.sh, Top(s.stacks[a.t]), a.next, a.start, v, j)
    requires a.Outside? ==>
               || a.frame == TryState(v)
               || (SourceWaiting(c, s'.sh, v, j) ==> SourceWaiting(c, s.sh, v, j) && PortOf(s.sh, v, j).enq == PortOf(s'.sh, v, j).enq)
    ensures SourceOwed(c, s', v, j)
  {
    if SourceWaiting(c, s'.sh, v, j) {
      Move(SourceW(v, j, PortOf(s'.sh, v, j).enq), s, a, s');
    }
  }

  lemma SourceStep(c: Config, s: State, a: Action, s': State, v: nat, j: nat)
    requires Inv(c, s) && NextBy(c, s, a, s') && SourceOwed(c, s, v, j)
    ensures SourceOwed(c, s', v, j)
  {
    PortAfter(s.sh, a.eff, v, j);
    if a.Thread? {
      var f := Top(s.stacks[a.t]);
      TopIsOk(c, s, a.t);
      TopIsPlaced(s, a.t);
      if IsTry(f) {
        SourceTry(c, s.sh, f, a.eff, a.next, a.start, v, j);
      } else if IsTask(f) {
        SourceTask(c, s.sh, f, a.eff, a.next, v, j);
      } else if IsCheck(f) {
        SourceCheck(c, s.sh, f, a.eff, a.next, v, j);
      } else {
        SourceFlush(c, s.sh, f, a.eff, a.next, v, j);
      }
    }
    SourceArithmetic(c, s, a, s', v, j);
  }

  lemma {:induction false} RunOwed(c: Config, run: seq<State>, n: nat, v: nat, j: nat)
    requires ValidConfig(c) && IsRun(c, run) && n < |run|
    ensures SourceOwed(c, run[n], v, j)
  {
    if n == 0 {
      if HasPort(run[0].sh, v, j) {
        assert run[0].sh.nodes[v].ports[j] == Port(0, 0, false);
      }
    } else {
      RunOwed(c, run, n - 1, v, j);
      RunInv(c, run, n - 1);
      assert Linked(c, run, n - 1);
      var a :| NextBy(c, run[n - 1], a, run[n]);
      SourceStep(c, run[n - 1], a, run[n], v, j);
    }
  }

  /** With no step in progress a waiting source has nothing queued on any port, latched or not. */
  lemma SourceDrains(c: Config, run: seq<State>, n: nat, v: nat)
    requires ValidConfig(c) && IsRun(c, run) && n < |run| && Quiescent(run[n]) && !c.mayDefer
    requires v < |run[n].sh.nodes| && IsSource(c.net, v) && run[n].sh.nodes[v].exec == Waiting
    ensures forall j :: 0 <= j < |run[n].sh.nodes[v].ports| ==> run[n].sh.nodes[v].ports[j].enq == run[n].sh.nodes[v].ports[j].deq
  {
    var s := run[n];
    RunInv(c, run, n);
    forall j | 0 <= j < |s.sh.nodes[v].ports|
      ensures s.sh.nodes[v].ports[j].enq == s.sh.nodes[v].ports[j].deq
    {
      RunOwed(c, run, n, v, j);
      TotalIdle(SourceW(v, j, PortOf(s.sh, v, j).enq), s.stacks);
    }
  }

  // ---- End of stream without joins ----

  /** Every port of every source has been signalled. */
  predicate AllSignalled(c: Config, sh: Shared) {
    forall v, i :: 0 <= v < |sh.nodes| && 0 <= i < |sh.nodes[v].ports| && IsSource(c.net, v) ==> sh.nodes[v].ports[i].latched
  }

  /** Only sources have more than one input port. */
  predicate JoinFree(c: Config) {
    forall v :: 0 <= v < |c.net.ports| && !IsSource(c.net, v) ==> c.net.ports[v] == 1
  }

  predicate PortsBounded(c: Config) {
    forall v :: 0 <= v < |c.net.ports| ==> 0 < c.net.ports[v] <= MAX_EOS_PORTS
  }

  /**
   Without joins nothing is left behind: if every node but the sources has one input port
   and nodes reschedule themselves, then once every source port is signalled and no step is
   in progress, every queue is empty, every node has flushed once and the notification has
   been given once.
   */
  lemma JoinFreeCompletes(c: Config, run: seq<State>, n: nat, rank: seq<nat>)
    requires ValidConfig(c) && IsRun(c, run) && n < |run| && Quiescent(run[n])
    requires Ranked(c.net, rank) && Covered(c.net) && |c.net.ports| > 0 && c.autoReschedule && !c.mayDefer
    requires PortsBounded(c) && JoinFree(c) && AllSignalled(c, run[n].sh)
    ensures AtEndOfStream(run[n])
  {
    RunInv(c, run, n);
    forall v | 0 <= v < |run[n].sh.nodes|
      ensures run[n].sh.nodes[v].propagated
    {
      JoinFreeFlush(c, run, n, rank, v);
    }
    AllFlushedNotifies(c, run[n], rank);
  }

  lemma {:induction false} JoinFreeFlush(c: Config, run: seq<State>, n: nat, rank: seq<nat>, v: nat)
    requires ValidConfig(c) && IsRun(c, run) && n < |run| && Quiescent(run[n])
    requires Ranked(c.net, rank) && Covered(c.net) && c.autoReschedule && !c.mayDefer && WellFormed(c, run[n].sh)
    requires PortsBounded(c) && JoinFree(c) && AllSignalled(c, run[n].sh)
    requires v < |run[n].sh.nodes|
    ensures run[n].sh.nodes[v].propagated
    decreases rank[v]
  {
    if !IsSource(c.net, v) {
      assert IsFed(c.net, v, 0);
      var u, k :| IsEdge(c.net, u, k) && c.net.out[u][k] == Edge(v, 0);
      JoinFreeFlush(c, run, n, rank, u);
      RunInv(c, run, n);
      LatchedDownstream(c, run[n], u, k);
    }
    LatchedFlushes(c, run, n, v);
  }

  /** With no step in progress a source, or a node with one port, all of whose ports are latched has flushed. */
  lemma LatchedFlushes(c: Config, run: seq<State>, n: nat, v: nat)
    requires ValidConfig(c) && IsRun(c, run) && n < |run| && Quiescent(run[n]) && c.autoReschedule && !c.mayDefer
    requires v < |run[n].sh.nodes| && run[n].sh.nodes[v].ports != [] && (IsSource(c.net, v) || |run[n].sh.nodes[v].ports| == 1)
    requires forall i :: 0 <= i < |run[n].sh.nodes[v].ports| ==> run[n].sh.nodes[v].ports[i].latched
    ensures run[n].sh.nodes[v].propagated
  {
    var s := run[n];
    RunInv(c, run, n);
    Idle(s, v);
    assert OwnerOk(s, v);
    if s.sh.nodes[v].exec == Waiting {
      if IsSource(c.net, v) {
        SourceDrains(c, run, n, v);
      } else {
        NoLostWakeupSingle(c, run, n, v);
      }
      assert AllDrained(s.sh, v);
      NoMissedFlush(c, run, n, v);
    }
  }
}
