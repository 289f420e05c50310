/**
 A node waits for all of its inputs: when a scheduling attempt on a node with upstream edges
 goes on to claim it, the same attempt has found every input port drained or holding data.
 */
module StreamReady {
  import opened Stacks
  import opened Networks
  import opened StreamEngine
  import opened StreamInvariant
  import opened StreamSteps
  import opened StreamProof

  // ---- Attempts ----

  /** Thread `t` is counting the ready ports of node `v`. */
  predicate Counting(s: State, t: nat, v: nat) {
    t < |s.stacks| && s.stacks[t] != [] && Top(s.stacks[t]).TryCount? && Top(s.stacks[t]).v == v
  }

  /** From state `m` to state `n` the thread is in one and the same count. */
  ghost predicate SameCount(run: seq<State>, m: int, n: nat, t: nat, v: nat)
    requires n < |run|
  {
    0 <= m <= n && forall l :: m <= l <= n ==> Counting(run[l], t, v)
  }

  /** The port is closed and empty, or holds data. */
  predicate Settles(s: State, v: nat, j: nat) {
    HasPort(s.sh, v, j) && (PortOf(s.sh, v, j).Drained() || PortOf(s.sh, v, j).deq < PortOf(s.sh, v, j).enq)
  }

  /** The count looked at port `j` in a state in which it was drained or held data. */
  ghost predicate Saw(run: seq<State>, n: nat, t: nat, v: nat, j: nat)
    requires n < |run|
  {
    exists m :: SameCount(run, m, n, t, v) && SawAt(run[m], t, v, j)
  }

  predicate SawAt(s: State, t: nat, v: nat, j: nat) {
    Counting(s, t, v) && Top(s.stacks[t]).i == j && Settles(s, v, j)
  }

  /** The ports looked at so far that were not drained. */
  function Looked(f: Frame): int
    requires f.TryCount?
  {
    if f.read.SizeEnq? || f.read.SizeDeq? then f.expected - 1 else f.expected
  }

  /** A count in which everything that was not drained was ready has seen that of every port so far. */
  ghost predicate CountOk(run: seq<State>, n: nat, t: nat)
    requires n < |run|
  {
    t < |run[n].stacks| && run[n].stacks[t] != [] && Top(run[n].stacks[t]).TryCount? ==>
      var f := Top(run[n].stacks[t]);
      && f.ready <= Looked(f)
      && (f.read.SizeDeq? ==> HasPort(run[n].sh, f.v, f.i) && f.read.e <= PortOf(run[n].sh, f.v, f.i).enq)
      && (f.ready == Looked(f) ==> forall j: nat :: j < f.i ==> Saw(run, n, t, f.v, j))
  }

  ghost predicate CountsOk(run: seq<State>, n: nat)
    requires n < |run|
  {
    TopOnly(run[n].stacks) && forall t: nat :: CountOk(run, n, t)
  }

  /** Counting is the last thing on a stack: nothing waits inside it. */
  ghost predicate TopOnly(stacks: seq<seq<Frame>>) {
    forall t, i :: 0 <= t < |stacks| && 0 <= i < |stacks[t]| - 1 ==> !stacks[t][i].TryCount?
  }

  // ---- Steps ----

  lemma SawStays(run: seq<State>, n: nat, t: nat, v: nat, j: nat)
    requires n + 1 < |run| && Saw(run, n, t, v, j) && Counting(run[n + 1], t, v)
    ensures Saw(run, n + 1, t, v, j)
  {
    var m :| SameCount(run, m, n, t, v) && SawAt(run[m], t, v, j);
    assert SameCount(run, m, n + 1, t, v);
  }

  lemma SawNow(run: seq<State>, n: nat, t: nat, v: nat, j: nat)
    requires n + 1 < |run| && SawAt(run[n], t, v, j) && Counting(run[n + 1], t, v)
    ensures Saw(run, n + 1, t, v, j)
  {
    assert SameCount(run, n, n + 1, t, v);
  }

  function NoCount(): Frame -> bool {
    (f: Frame) => !f.TryCount?
  }

  lemma TaskCountsNothing(c: Config, sh: Shared, f: Frame, eff: Effect, next: Then<Frame>)
    requires WellFormed(c, sh) && InRange(c, f) && FireTask(c, sh, f, eff, next)
    ensures AllThen(NoCount(), next)
  {
  }

  lemma CheckCountsNothing(c: Config, sh: Shared, f: Frame, eff: Effect, next: Then<Frame>)
    requires WellFormed(c, sh) && InRange(c, f) && FireCheck(c, sh, f, eff, next)
    ensures AllThen(NoCount(), next)
  {
  }

  lemma FlushCountsNothing(c: Config, sh: Shared, f: Frame, eff: Effect, next: Then<Frame>)
    requires WellFormed(c, sh) && InRange(c, f) && FireFlush(c, sh, f, eff, next)
    ensures AllThen(NoCount(), next)
  {
  }

  /** An attempt starts a count, or takes the next look of one. */
  lemma TryCounts(c: Config, sh: Shared, f: Frame, eff: Effect, next: Then<Frame>, start: Start<Frame>)
    requires WellFormed(c, sh) && InRange(c, f) && FireTry(c, sh, f, eff, next, start)
    ensures !next.Call? && AllStart(NoCount(), start)
    ensures next.Goto? && next.next.TryCount? ==> eff == Nop && (IsStart(next.next) || IsNextLook(sh, f, next.next))
  {
  }

  predicate IsStart(g: Frame) {
    g.TryCount? && g.i == 0 && g.read == AtLatch && g.expected == 0 && g.ready == 0
  }

  predicate IsNextLook(sh: Shared, f: Frame, g: Frame) {
    f.TryCount? && HasPort(sh, f.v, f.i) && g == CountNext(PortOf(sh, f.v, f.i), f.v, f.i, f.read, f.expected, f.ready)
  }

  /** Only the last frame of a call may be a count, and it comes from a count or starts one. */
  lemma CountComesFrom(c: Config, sh: Shared, f: Frame, eff: Effect, next: Then<Frame>, start: Start<Frame>)
    requires WellFormed(c, sh) && InRange(c, f) && Fire(c, sh, f, eff, next, start)
    ensures next.Call? ==> AllThen(NoCount(), next)
    ensures AllStart(NoCount(), start)
    ensures next.Goto? && next.next.TryCount? ==> eff == Nop && (IsStart(next.next) || IsNextLook(sh, f, next.next))
  {
    if IsTry(f) {
      TryCounts(c, sh, f, eff, next, start);
    } else if IsTask(f) {
      TaskCountsNothing(c, sh, f, eff, next);
    } else if IsCheck(f) {
      CheckCountsNothing(c, sh, f, eff, next);
    } else {
      FlushCountsNothing(c, sh, f, eff, next);
    }
  }

  lemma TopOnlyStep(c: Config, s: State, a: Action, s': State)
    requires NextBy(c, s, a, s') && TopOnly(s.stacks)
    ensures TopOnly(s'.stacks)
  {
    if a.Thread? {
      CountComesFrom(c, s.sh, Top(s.stacks[a.t]), a.eff, a.next, a.start);
    }
    forall t, i | 0 <= t < |s'.stacks| && 0 <= i < |s'.stacks[t]| - 1
      ensures !s'.stacks[t][i].TryCount?
    {
      if t < |s.stacks| && i < |s.stacks[t]| - 1 {
        assert !s.stacks[t][i].TryCount?;
      }
    }
  }

  lemma EnqGrows(sh: Shared, eff: Effect, v: nat, i: nat)
    requires Applies(sh, eff) && HasPort(sh, v, i)
    ensures HasPort(Apply(sh, eff), v, i) && PortOf(sh, v, i).enq <= PortOf(Apply(sh, eff), v, i).enq
  {
  }

  /** A step of another thread, or from outside, leaves a count as it is. */
  lemma OthersCount(c: Config, run: seq<State>, n: nat, a: Action, t: nat)
    requires n + 1 < |run| && NextBy(c, run[n], a, run[n + 1]) && CountOk(run, n, t)
    requires t < |run[n].stacks| && run[n + 1].stacks[t] == run[n].stacks[t]
    ensures CountOk(run, n + 1, t)
  {
    if run[n].stacks[t] != [] && Top(run[n].stacks[t]).TryCount? {
      var f := Top(run[n].stacks[t]);
      if f.read.SizeDeq? {
        EnqGrows(run[n].sh, a.eff, f.v, f.i);
      }
      if f.ready == Looked(f) {
        var after := n + 1;
        forall j: nat | j < f.i
          ensures Saw(run, after, t, f.v, j)
        {
          SawStays(run, n, t, f.v, j);
        }
      }
    }
  }

  /** What the next look adds: a port that is not drained is expected, and it is ready if it holds data. */
  lemma LookAdds(c: Config, sh: Shared, f: Frame)
    requires WellFormed(c, sh) && PortsOk(c, sh) && FrameOk(c, sh, f) && f.TryCount? && HasPort(sh, f.v, f.i)
    requires f.read.SizeDeq? ==> f.read.e <= PortOf(sh, f.v, f.i).enq
    ensures var p := PortOf(sh, f.v, f.i);
            var g := CountNext(p, f.v, f.i, f.read, f.expected, f.ready);
            && g.TryCount? && g.v == f.v && (g.read.SizeDeq? ==> g.i == f.i && g.read.e <= p.enq)
            && (g.i == f.i ==> g.ready == f.ready && Looked(g) == Looked(f))
            && (g.i != f.i ==>
                  && g.i == f.i + 1 && g.ready - f.ready <= Looked(g) - Looked(f)
                  && (g.ready - f.ready == Looked(g) - Looked(f) ==> p.Drained() || p.deq < p.enq))
  {
  }

  /** The next look of a count. */
  lemma LookCounts(c: Config, run: seq<State>, n: nat, t: nat)
    requires n + 1 < |run| && Inv(c, run[n]) && CountOk(run, n, t)
    requires t < |run[n].stacks| && run[n].stacks[t] != [] && Top(run[n].stacks[t]).TryCount?
    requires var f := Top(run[n].stacks[t]);
             && HasPort(run[n].sh, f.v, f.i) && run[n + 1].sh == run[n].sh
             && t < |run[n + 1].stacks| && run[n + 1].stacks[t] != []
             && Top(run[n + 1].stacks[t]) == CountNext(PortOf(run[n].sh, f.v, f.i), f.v, f.i, f.read, f.expected, f.ready)
    ensures CountOk(run, n + 1, t)
  {
    var f, g := Top(run[n].stacks[t]), Top(run[n + 1].stacks[t]);
    TopIsOk(c, run[n], t);
    LookAdds(c, run[n].sh, f);
    if g.ready == Looked(g) {
      var after := n + 1;
      forall j: nat | j < g.i
        ensures Saw(run, after, t, g.v, j)
      {
        if j < f.i {
          SawStays(run, n, t, f.v, j);
        } else {
          SawNow(run, n, t, f.v, j);
        }
      }
    }
  }

  /** A count that was not there before was gone to by the stepping thread. */
  lemma OwnCount(s: State, a: Action, s': State, t: nat)
    requires a.Thread? && a.t < |s.stacks| && s.stacks[a.t] != [] && s'.stacks == Fired(s.stacks, a.t, a.next, a.start) && TopOnly(s.stacks)
    requires (a.next.Call? ==> AllThen(NoCount(), a.next)) && AllStart(NoCount(), a.start)
    requires t < |s'.stacks| && s'.stacks[t] != [] && Top(s'.stacks[t]).TryCount? && !(t < |s.stacks| && s'.stacks[t] == s.stacks[t])
    ensures t == a.t && a.next.Goto? && Top(s'.stacks[t]) == a.next.next
  {
  }

  lemma NewCount(c: Config, run: seq<State>, n: nat, a: Action, t: nat)
    requires n + 1 < |run| && Inv(c, run[n]) && NextBy(c, run[n], a, run[n + 1]) && TopOnly(run[n].stacks) && CountOk(run, n, t)
    requires a.Thread? && t < |run[n + 1].stacks| && run[n + 1].stacks[t] != [] && Top(run[n + 1].stacks[t]).TryCount?
    requires !(t < |run[n].stacks| && run[n + 1].stacks[t] == run[n].stacks[t])
    ensures CountOk(run, n + 1, t)
  {
    CountComesFrom(c, run[n].sh, Top(run[n].stacks[a.t]), a.eff, a.next, a.start);
    OwnCount(run[n], a, run[n + 1], t);
    if !IsStart(a.next.next) {
      LookCounts(c, run, n, t);
    }
  }

  lemma CountStep(c: Config, run: seq<State>, n: nat, a: Action, t: nat)
    requires n + 1 < |run| && Inv(c, run[n]) && NextBy(c, run[n], a, run[n + 1]) && TopOnly(run[n].stacks) && CountOk(run, n, t)
    ensures CountOk(run, n + 1, t)
  {
    var s, s' := run[n], run[n + 1];
    if t < |s'.stacks| && s'.stacks[t] != [] && Top(s'.stacks[t]).TryCount? {
      if t < |s.stacks| && s'.stacks[t] == s.stacks[t] {
        OthersCount(c, run, n, a, t);
      } else if a.Thread? {
        NewCount(c, run, n, a, t);
      }
    }
  }

  lemma StepCounts(c: Config, run: seq<State>, n: nat)
    requires ValidConfig(c) && IsRun(c, run) && n + 1 < |run|
    requires CountsOk(run, n)
    ensures CountsOk(run, n + 1)
  {
    RunInv(c, run, n);
    assert Linked(c, run, n);
    var after, a :| after == n + 1 && NextBy(c, run[n], a, run[after]);
    TopOnlyStep(c, run[n], a, run[after]);
    forall t: nat
      ensures CountOk(run, after, t)
    {
      assert CountOk(run, n, t);
      CountStep(c, run, n, a, t);
    }
  }

  lemma {:induction false} RunCounts(c: Config, run: seq<State>, n: nat)
    requires ValidConfig(c) && IsRun(c, run) && n < |run|
    ensures CountsOk(run, n)
  {
    if n > 0 {
      RunCounts(c, run, n - 1);
      StepCounts(c, run, n - 1);
    }
  }

  // ---- The result ----

  /**
   Wherever a count on a node with upstream edges goes on to claim the node, that same count
   has looked at every input port in a state in which it was drained or held data.
   */
  lemma WaitsForInputs(c: Config, run: seq<State>, n: nat, a: Action, v: nat)
    requires ValidConfig(c) && IsRun(c, run) && n + 1 < |run| && NextBy(c, run[n], a, run[n + 1])
    requires a.Thread? && Counting(run[n], a.t, v) && a.next == Goto(TryCas(v)) && !IsSource(c.net, v)
    ensures v < |run[n].sh.nodes| && forall j: nat :: j < |run[n].sh.nodes[v].ports| ==> Saw(run, n, a.t, v, j)
  {
    RunInv(c, run, n);
    RunCounts(c, run, n);
    assert CountOk(run, n, a.t);
    TopIsOk(c, run[n], a.t);
  }
}
