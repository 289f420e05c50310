/**
 Steps keep what is owed: a node due for its flush has a thread that will look, a
 waiting node with data has a thread that will schedule it, and a flushed node has a
 thread that will latch the ports it feeds.
 */
module StreamOwed {
  import opened Stacks
  import opened Networks
  import opened StreamEngine
  import opened StreamInvariant
  import opened StreamSteps
  import opened StreamOwner

  // ---- How the ports of one node change ----

  predicate Touches(eff: Effect, v: nat) {
    (eff.Pop? || eff.Push? || eff.Latch?) && eff.v == v
  }

  lemma PortsAfter(sh: Shared, eff: Effect, v: nat)
    requires v < |sh.nodes| && Applies(sh, eff)
    ensures |Apply(sh, eff).nodes| == |sh.nodes|
    ensures |Apply(sh, eff).nodes[v].ports| == |sh.nodes[v].ports|
    ensures !Touches(eff, v) ==> Apply(sh, eff).nodes[v].ports == sh.nodes[v].ports
    ensures (eff.Pop? || eff.Push?) && eff.v == v && !PortOf(sh, v, eff.i).latched ==> !AllDrained(Apply(sh, eff), v)
    ensures !(eff.Push? && eff.v == v) ==> Enqs(Apply(sh, eff).nodes[v]) == Enqs(sh.nodes[v])
  {
    var sh' := Apply(sh, eff);
    if (eff.Pop? || eff.Push?) && eff.v == v && !PortOf(sh, v, eff.i).latched {
      assert !sh'.nodes[v].ports[eff.i].Drained();
    }
  }

  // ---- The flush ----

  predicate Busy(x: Exec) {
    x == Ready || x == Executing
  }

  predicate Due(sh: Shared, v: nat) {
    AllDrained(sh, v) && !sh.nodes[v].propagated
  }

  ghost predicate DueMoves(sh: Shared, sh': Shared, f: Frame, next: Then<Frame>, start: Start<Frame>, v: nat)
    requires v < |sh.nodes| == |sh'.nodes|
  {
    Due(sh', v) && !Busy(sh'.nodes[v].exec) ==>
      || Delta(WitnessW(v), f, next, start) > 0
      || (&& Due(sh, v) && sh.nodes[v].exec == sh'.nodes[v].exec
          && (|| (sh.nodes[v].exec == Completed && Delta(SecondCasW(v), f, next, start) > 0)
              || (Delta(WitnessW(v), f, next, start) == 0 && (sh.nodes[v].exec == Completed ==> Delta(SecondCasW(v), f, next, start) >= 0))))
  }

  lemma DueTry(c: Config, sh: Shared, f: Frame, eff: Effect, next: Then<Frame>, start: Start<Frame>, v: nat)
    requires WellFormed(c, sh) && InRange(c, f) && FireTry(c, sh, f, eff, next, start)
    requires Applies(sh, eff) && v < |sh.nodes|
    ensures DueMoves(sh, Apply(sh, eff), f, next, start, v)
  {
    After(sh, eff, v);
    PortsAfter(sh, eff, v);
  }

  lemma DueTask(c: Config, sh: Shared, f: Frame, eff: Effect, next: Then<Frame>, v: nat)
    requires WellFormed(c, sh) && FrameOk(c, sh, f) && FireTask(c, sh, f, eff, next)
    requires Applies(sh, eff) && v < |sh.nodes| && Placed(sh, f)
    requires (eff.Push? || (eff.Pop? && f.Propagate?)) ==> !PortOf(sh, eff.v, eff.i).latched
    ensures DueMoves(sh, Apply(sh, eff), f, next, NoThread, v)
  {
    After(sh, eff, v);
    PortsAfter(sh, eff, v);
  }

  lemma DueCheck(c: Config, sh: Shared, f: Frame, eff: Effect, next: Then<Frame>, v: nat)
    requires WellFormed(c, sh) && PortsOk(c, sh) && FrameOk(c, sh, f) && FireCheck(c, sh, f, eff, next)
    requires Applies(sh, eff) && v < |sh.nodes|
    ensures DueMoves(sh, Apply(sh, eff), f, next, NoThread, v)
  {
    After(sh, eff, v);
    PortsAfter(sh, eff, v);
    if Due(sh, v) && f.CheckScan? && f.v == v {
      assert sh.nodes[v].ports[f.i].Drained();
    }
  }

  lemma DueFlush(c: Config, sh: Shared, f: Frame, eff: Effect, next: Then<Frame>, v: nat)
    requires WellFormed(c, sh) && FrameOk(c, sh, f) && FireFlush(c, sh, f, eff, next)
    requires Applies(sh, eff) && v < |sh.nodes|
    ensures DueMoves(sh, Apply(sh, eff), f, next, NoThread, v)
  {
    After(sh, eff, v);
    PortsAfter(sh, eff, v);
  }

  lemma DueArithmetic(s: State, a: Action, s': State, v: nat)
    requires Stacked(s, a, s') && v < |s.sh.nodes| == |s'.sh.nodes| && FlushOwed(s, v)
    requires a.Thread? ==> DueMoves(s.sh, s'.sh, Top(s.stacks[a.t]), a.next, a.start, v)
    requires a.Outside? ==>
               || (a.frame.Check? && a.frame.v == v)
               || (s'.sh.nodes[v].exec == s.sh.nodes[v].exec && (Due(s'.sh, v) ==> Due(s.sh, v)))
    ensures FlushOwed(s', v)
  {
    Move(WitnessW(v), s, a, s');
    Move(SecondCasW(v), s, a, s');
  }

  // ---- Scheduling ----

  /** Data that is there after a pop or a latch was there before. */
  lemma DataBefore(c: Config, sh: Shared, eff: Effect, v: nat)
    requires v < |sh.nodes| && Applies(sh, eff) && |Apply(sh, eff).nodes| == |sh.nodes|
    requires !eff.SetExec? && !eff.Push? && DataWaiting(c, Apply(sh, eff), v)
    ensures DataWaiting(c, sh, v)
  {
    var n, n' := sh.nodes[v], Apply(sh, eff).nodes[v];
    forall i | 0 <= i < |n.ports|
      ensures !n.ports[i].latched && n.ports[i].deq < n.ports[i].enq
    {
      assert !n'.ports[i].latched && n'.ports[i].deq < n'.ports[i].enq;
    }
  }

  ghost predicate DataMoves(c: Config, sh: Shared, sh': Shared, f: Frame, next: Then<Frame>, start: Start<Frame>, v: nat)
    requires v < |sh.nodes| == |sh'.nodes|
  {
    !c.mayDefer && DataWaiting(c, sh', v) ==>
      var w := FreshW(v, Enqs(sh'.nodes[v]));
      || WeightThen(w, next) + WeightStart(w, start) > 0
      || (DataWaiting(c, sh, v) && Enqs(sh.nodes[v]) == Enqs(sh'.nodes[v]) && w(f) == 0)
  }

  lemma DataTry(c: Config, sh: Shared, f: Frame, eff: Effect, next: Then<Frame>, start: Start<Frame>, v: nat)
    requires WellFormed(c, sh) && FrameOk(c, sh, f) && FireTry(c, sh, f, eff, next, start)
    requires Applies(sh, eff) && v < |sh.nodes|
    ensures DataMoves(c, sh, Apply(sh, eff), f, next, start, v)
  {
    After(sh, eff, v);
    PortsAfter(sh, eff, v);
  }

  lemma DataTask(c: Config, sh: Shared, f: Frame, eff: Effect, next: Then<Frame>, v: nat)
    requires WellFormed(c, sh) && FrameOk(c, sh, f) && FireTask(c, sh, f, eff, next)
    requires Applies(sh, eff) && v < |sh.nodes| && Placed(sh, f)
    ensures DataMoves(c, sh, Apply(sh, eff), f, next, NoThread, v)
  {
    After(sh, eff, v);
    PortsAfter(sh, eff, v);
    if !eff.SetExec? && !eff.Push? && DataWaiting(c, Apply(sh, eff), v) {
      DataBefore(c, sh, eff, v);
    }
  }

  lemma DataCheck(c: Config, sh: Shared, f: Frame, eff: Effect, next: Then<Frame>, v: nat)
    requires WellFormed(c, sh) && FrameOk(c, sh, f) && FireCheck(c, sh, f, eff, next)
    requires Applies(sh, eff) && v < |sh.nodes|
    ensures DataMoves(c, sh, Apply(sh, eff), f, next, NoThread, v)
  {
    After(sh, eff, v);
    PortsAfter(sh, eff, v);
  }

  lemma DataFlush(c: Config, sh: Shared, f: Frame, eff: Effect, next: Then<Frame>, v: nat)
    requires WellFormed(c, sh) && PortsOk(c, sh) && FrameOk(c, sh, f) && FireFlush(c, sh, f, eff, next)
    requires Applies(sh, eff) && v < |sh.nodes|
    ensures DataMoves(c, sh, Apply(sh, eff), f, next, NoThread, v)
  {
    After(sh, eff, v);
    PortsAfter(sh, eff, v);
    if !eff.SetExec? && !eff.Push? && DataWaiting(c, Apply(sh, eff), v) {
      DataBefore(c, sh, eff, v);
    }
    if f.LoserStore? && f.v == v {
      assert AllDrained(sh, v);
      assert sh.nodes[v].ports[0].latched;
    }
  }

  lemma DataArithmetic(c: Config, s: State, a: Action, s': State, v: nat)
    requires Stacked(s, a, s') && v < |s.sh.nodes| == |s'.sh.nodes| && ScheduleOwed(c, s, v)
    requires a.Thread? ==> DataMoves(c, s.sh, s'.sh, Top(s.stacks[a.t]), a.next, a.start, v)
    requires a.Outside? ==>
               || (a.frame.TryState? && a.frame.v == v)
               || (DataWaiting(c, s'.sh, v) ==> DataWaiting(c, s.sh, v) && Enqs(s.sh.nodes[v]) == Enqs(s'.sh.nodes[v]))
    ensures ScheduleOwed(c, s', v)
  {
    Move(FreshW(v, Enqs(s'.sh.nodes[v])), s, a, s');
  }

  // ---- Scheduling a node with one input port ----

  ghost predicate SingleMoves(c: Config, sh: Shared, sh': Shared, f: Frame, next: Then<Frame>, start: Start<Frame>, v: nat)
    requires v < |sh.nodes| == |sh'.nodes|
  {
    !c.mayDefer && SingleWaiting(sh', v) ==>
      var w := SingleW(v, sh'.nodes[v].ports[0].enq);
      || WeightThen(w, next) + WeightStart(w, start) > 0
      || (SingleWaiting(sh, v) && sh.nodes[v].ports[0].enq == sh'.nodes[v].ports[0].enq && w(f) == 0)
  }

  /** What one effect leaves of the only port of a node. */
  lemma SingleAfter(sh: Shared, eff: Effect, v: nat)
    requires v < |sh.nodes| && Applies(sh, eff)
    ensures |Apply(sh, eff).nodes| == |sh.nodes|
    ensures Apply(sh, eff).nodes[v].exec == ExecAfter(sh, eff, v)
    ensures |Apply(sh, eff).nodes[v].ports| == |sh.nodes[v].ports|
    ensures |sh.nodes[v].ports| == 1 && !(eff.Push? && eff.v == v) ==>
              && Apply(sh, eff).nodes[v].ports[0].enq == sh.nodes[v].ports[0].enq
              && Apply(sh, eff).nodes[v].ports[0].deq >= sh.nodes[v].ports[0].deq
  {
  }

  lemma SingleTry(c: Config, sh: Shared, f: Frame, eff: Effect, next: Then<Frame>, start: Start<Frame>, v: nat)
    requires WellFormed(c, sh) && FrameOk(c, sh, f) && FireTry(c, sh, f, eff, next, start)
    requires Applies(sh, eff) && v < |sh.nodes|
    ensures SingleMoves(c, sh, Apply(sh, eff), f, next, start, v)
  {
    SingleAfter(sh, eff, v);
  }

  lemma SingleTask(c: Config, sh: Shared, f: Frame, eff: Effect, next: Then<Frame>, v: nat)
    requires WellFormed(c, sh) && FrameOk(c, sh, f) && FireTask(c, sh, f, eff, next)
    requires Applies(sh, eff) && v < |sh.nodes| && Placed(sh, f)
    ensures SingleMoves(c, sh, Apply(sh, eff), f, next, NoThread, v)
  {
    SingleAfter(sh, eff, v);
  }

  lemma SingleCheck(c: Config, sh: Shared, f: Frame, eff: Effect, next: Then<Frame>, v: nat)
    requires WellFormed(c, sh) && FrameOk(c, sh, f) && FireCheck(c, sh, f, eff, next)
    requires Applies(sh, eff) && v < |sh.nodes|
    ensures SingleMoves(c, sh, Apply(sh, eff), f, next, NoThread, v)
  {
    SingleAfter(sh, eff, v);
  }

  lemma SingleFlush(c: Config, sh: Shared, f: Frame, eff: Effect, next: Then<Frame>, v: nat)
    requires WellFormed(c, sh) && PortsOk(c, sh) && FrameOk(c, sh, f) && FireFlush(c, sh, f, eff, next)
    requires Applies(sh, eff) && v < |sh.nodes|
    ensures SingleMoves(c, sh, Apply(sh, eff), f, next, NoThread, v)
  {
    SingleAfter(sh, eff, v);
    if f.LoserStore? && f.v == v {
      assert AllDrained(sh, v);
    }
  }

  lemma SingleArithmetic(c: Config, s: State, a: Action, s': State, v: nat)
    requires Stacked(s, a, s') && v < |s.sh.nodes| == |s'.sh.nodes| && SingleOwed(c, s, v)
    requires a.Thread? ==> SingleMoves(c, s.sh, s'.sh, Top(s.stacks[a.t]), a.next, a.start, v)
    requires a.Outside? ==>
               || (a.frame.TryState? && a.frame.v == v)
               || (SingleWaiting(s'.sh, v) ==>
                     SingleWaiting(s.sh, v) && s.sh.nodes[v].ports[0].enq == s'.sh.nodes[v].ports[0].enq)
    ensures SingleOwed(c, s', v)
  {
    if SingleWaiting(s'.sh, v) {
      Move(SingleW(v, s'.sh.nodes[v].ports[0].enq), s, a, s');
    }
  }

  // ---- The cascade ----

  ghost predicate LaterMoves(c: Config, sh: Shared, f: Frame, eff: Effect, next: Then<Frame>, start: Start<Frame>, u: nat, k: nat)
    requires u < |sh.nodes| && IsEdge(c.net, u, k)
  {
    PropagatedAfter(sh, eff, u) ==>
      || c.net.out[u][k].port >= MAX_EOS_PORTS
      || eff == Latch(c.net.out[u][k].dst, c.net.out[u][k].port)
      || (if sh.nodes[u].propagated then Delta(LaterW(u, k), f, next, start) >= 0
          else WeightThen(LaterW(u, k), next) + WeightStart(LaterW(u, k), start) > 0)
  }

  lemma LaterQuiet(c: Config, sh: Shared, f: Frame, eff: Effect, next: Then<Frame>, start: Start<Frame>, u: nat, k: nat)
    requires u < |sh.nodes| && IsEdge(c.net, u, k)
    requires Quiet(f) && AllThen(QuietFrame(), next) && AllStart(QuietFrame(), start) && !eff.MarkFlush?
    ensures LaterMoves(c, sh, f, eff, next, start, u, k)
  {
  }

  lemma LaterTask(c: Config, sh: Shared, f: Frame, eff: Effect, next: Then<Frame>, u: nat, k: nat)
    requires WellFormed(c, sh) && InRange(c, f) && FireTask(c, sh, f, eff, next)
    requires u < |sh.nodes| && IsEdge(c.net, u, k)
    ensures LaterMoves(c, sh, f, eff, next, NoThread, u, k)
  {
  }

  lemma LaterFlush(c: Config, sh: Shared, f: Frame, eff: Effect, next: Then<Frame>, u: nat, k: nat)
    requires WellFormed(c, sh) && InRange(c, f) && FireFlush(c, sh, f, eff, next)
    requires u < |sh.nodes| && IsEdge(c.net, u, k)
    ensures LaterMoves(c, sh, f, eff, next, NoThread, u, k)
  {
  }

  lemma LaterArithmetic(c: Config, s: State, a: Action, s': State, u: nat, k: nat)
    requires Stacked(s, a, s') && Applies(s.sh, a.eff) && s'.sh == Apply(s.sh, a.eff)
    requires Grows(s.sh, s'.sh)
    requires u < |s.sh.nodes| == |s'.sh.nodes| && IsEdge(c.net, u, k) && CascadeOwed(c, s, u, k)
    requires HasPort(s.sh, c.net.out[u][k].dst, c.net.out[u][k].port)
    requires a.Thread? ==> LaterMoves(c, s.sh, Top(s.stacks[a.t]), a.eff, a.next, a.start, u, k)
    requires a.Outside? ==> !a.eff.MarkFlush?
    ensures CascadeOwed(c, s', u, k)
  {
    After(s.sh, a.eff, u);
    Move(LaterW(u, k), s, a, s');
    var e := c.net.out[u][k];
    assert NodeGrows(s.sh.nodes[e.dst], s'.sh.nodes[e.dst]);
    assert PortGrows(PortOf(s.sh, e.dst, e.port), PortOf(s'.sh, e.dst, e.port));
  }

  /** A port gets latched by the cascade of the one node that feeds it, or from outside on a source. */
  lemma LatchIsFed(c: Config, s: State, a: Action, s': State, u: nat, k: nat)
    requires Inv(c, s) && NextBy(c, s, a, s')
    requires a.eff.Latch? && IsEdge(c.net, u, k) && c.net.out[u][k] == Edge(a.eff.v, a.eff.i)
    ensures Closed(s, u)
  {
    if a.Thread? {
      var f := Top(s.stacks[a.t]);
      LatchIsCascade(c, s.sh, f, a.eff, a.next, a.start);
      assert f.v == u;
      TotalAtLeast(CascadeW(u), s.stacks, a.t);
      assert OwnerOk(s, u);
    }
  }

  lemma LatchIsCascade(c: Config, sh: Shared, f: Frame, eff: Effect, next: Then<Frame>, start: Start<Frame>)
    requires WellFormed(c, sh) && InRange(c, f) && Fire(c, sh, f, eff, next, start) && eff.Latch?
    ensures f.Cascade? && IsEdge(c.net, f.v, f.k) && c.net.out[f.v][f.k] == Edge(eff.v, eff.i)
  {
  }
}
