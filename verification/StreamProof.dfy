/** The invariant of the streaming engine holds in every state of every run. */
module StreamProof {
  import opened Stacks
  import opened Networks
  import opened StreamEngine
  import opened StreamInvariant
  import opened StreamSteps
  import opened StreamOwner
  import opened StreamOwed
  import opened StreamSinks

  lemma DueStep(c: Config, s: State, a: Action, s': State, v: nat)
    requires Inv(c, s) && NextBy(c, s, a, s')
    requires WellFormed(c, s'.sh) && v < |s.sh.nodes|
    ensures FlushOwed(s', v)
  {
    PushIsUnlatched(c, s, a, s');
    match a {
      case Thread(t, eff, next, start) =>
        var f := Top(s.stacks[t]);
        TopIsOk(c, s, t);
        TopIsPlaced(s, t);
        if IsTry(f) {
          DueTry(c, s.sh, f, eff, next, start, v);
        } else if IsTask(f) {
          DueTask(c, s.sh, f, eff, next, v);
        } else if IsCheck(f) {
          DueCheck(c, s.sh, f, eff, next, v);
        } else {
          DueFlush(c, s.sh, f, eff, next, v);
        }
      case Outside(eff, frame) =>
        After(s.sh, eff, v);
        PortsAfter(s.sh, eff, v);
    }
    DueArithmetic(s, a, s', v);
  }

  lemma DataStep(c: Config, s: State, a: Action, s': State, v: nat)
    requires Inv(c, s) && NextBy(c, s, a, s')
    requires WellFormed(c, s'.sh) && v < |s.sh.nodes|
    ensures ScheduleOwed(c, s', v)
  {
    match a {
      case Thread(t, eff, next, start) =>
        var f := Top(s.stacks[t]);
        TopIsOk(c, s, t);
        TopIsPlaced(s, t);
        if IsTry(f) {
          DataTry(c, s.sh, f, eff, next, start, v);
        } else if IsTask(f) {
          DataTask(c, s.sh, f, eff, next, v);
        } else if IsCheck(f) {
          DataCheck(c, s.sh, f, eff, next, v);
        } else {
          DataFlush(c, s.sh, f, eff, next, v);
        }
      case Outside(eff, frame) =>
        PortsAfter(s.sh, eff, v);
        if !eff.Push? && DataWaiting(c, s'.sh, v) {
          DataBefore(c, s.sh, eff, v);
        }
    }
    DataArithmetic(c, s, a, s', v);
  }

  lemma SingleStep(c: Config, s: State, a: Action, s': State, v: nat)
    requires Inv(c, s) && NextBy(c, s, a, s')
    requires WellFormed(c, s'.sh) && v < |s.sh.nodes|
    ensures SingleOwed(c, s', v)
  {
    SingleAfter(s.sh, a.eff, v);
    if a.Thread? {
      var f := Top(s.stacks[a.t]);
      TopIsOk(c, s, a.t);
      TopIsPlaced(s, a.t);
      if IsTry(f) {
        SingleTry(c, s.sh, f, a.eff, a.next, a.start, v);
      } else if IsTask(f) {
        SingleTask(c, s.sh, f, a.eff, a.next, v);
      } else if IsCheck(f) {
        SingleCheck(c, s.sh, f, a.eff, a.next, v);
      } else {
        SingleFlush(c, s.sh, f, a.eff, a.next, v);
      }
    }
    SingleArithmetic(c, s, a, s', v);
  }

  lemma LaterStep(c: Config, s: State, a: Action, s': State, u: nat, k: nat)
    requires Inv(c, s) && NextBy(c, s, a, s')
    requires WellFormed(c, s'.sh) && Grows(s.sh, s'.sh) && IsEdge(c.net, u, k)
    ensures CascadeOwed(c, s', u, k)
  {
    if a.Thread? {
      var f := Top(s.stacks[a.t]);
      if IsTask(f) {
        LaterTask(c, s.sh, f, a.eff, a.next, u, k);
      } else if !IsTry(f) && !IsCheck(f) {
        LaterFlush(c, s.sh, f, a.eff, a.next, u, k);
      } else {
        QuietStep(c, s.sh, f, a.eff, a.next, a.start);
        LaterQuiet(c, s.sh, f, a.eff, a.next, a.start, u, k);
      }
    }
    LaterArithmetic(c, s, a, s', u, k);
  }

  lemma FlushMovesStep(c: Config, s: State, a: Action, s': State, u: nat)
    requires Inv(c, s) && NextBy(c, s, a, s') && a.Thread? && u < |s.sh.nodes|
    ensures FlushMoves(s.sh, Top(s.stacks[a.t]), a.eff, a.next, a.start, u)
  {
    var f := Top(s.stacks[a.t]);
    if IsTask(f) {
      FlushTask(c, s.sh, f, a.eff, a.next, u);
    } else if !IsTry(f) && !IsCheck(f) {
      FlushFlush(c, s.sh, f, a.eff, a.next, u);
    } else {
      QuietStep(c, s.sh, f, a.eff, a.next, a.start);
      QuietFlush(s.sh, f, a.eff, a.next, a.start, u);
    }
  }

  lemma OnlyLatchLatches(sh: Shared, eff: Effect, v: nat, i: nat)
    requires Applies(sh, eff) && HasPort(sh, v, i) && HasPort(Apply(sh, eff), v, i)
    ensures PortOf(Apply(sh, eff), v, i).latched ==> PortOf(sh, v, i).latched || eff == Latch(v, i)
  {
  }

  lemma LatchedStep(c: Config, s: State, a: Action, s': State, u: nat, k: nat)
    requires Inv(c, s) && NextBy(c, s, a, s')
    requires WellFormed(c, s'.sh) && IsEdge(c.net, u, k)
    requires PortOf(s'.sh, c.net.out[u][k].dst, c.net.out[u][k].port).latched
    ensures Closed(s', u)
  {
    var e := c.net.out[u][k];
    if !PortOf(s.sh, e.dst, e.port).latched {
      OnlyLatchLatches(s.sh, a.eff, e.dst, e.port);
      LatchIsFed(c, s, a, s', u, k);
    }
    if a.Thread? {
      FlushMovesStep(c, s, a, s', u);
    }
    StaysClosed(s, a, s', u);
  }

  lemma SinkMovesStep(c: Config, sh: Shared, f: Frame, eff: Effect, next: Then<Frame>, start: Start<Frame>)
    requires WellFormed(c, sh) && FrameOk(c, sh, f) && Fire(c, sh, f, eff, next, start)
    ensures SinkMoves(c, f, eff, next, start) && ReachMoves(c, sh, f, eff, next, start)
    ensures eff.MarkFlush? ==> eff.v < |sh.nodes| && !sh.nodes[eff.v].propagated
  {
    if IsTask(f) {
      SinkTask(c, sh, f, eff, next);
      ReachTask(c, sh, f, eff, next);
      ReachElsewhere(c, sh, f, eff, next, start);
    } else if !IsTry(f) && !IsCheck(f) {
      SinkFlush(c, sh, f, eff, next);
      ReachFlush(c, sh, f, eff, next);
    } else {
      QuietStep(c, sh, f, eff, next, start);
      SinkQuiet(c, f, eff, next, start);
      ReachElsewhere(c, sh, f, eff, next, start);
    }
  }

  lemma SinkStep(c: Config, s: State, a: Action, s': State)
    requires Inv(c, s) && NextBy(c, s, a, s') && WellFormed(c, s'.sh)
    ensures SinksOk(c, s')
  {
    if a.Thread? {
      TopIsOk(c, s, a.t);
      SinkMovesStep(c, s.sh, Top(s.stacks[a.t]), a.eff, a.next, a.start);
    }
    SinkArithmetic(c, s, a, s');
  }

  /** Every step keeps the invariant. */
  lemma InvStep(c: Config, s: State, a: Action, s': State)
    requires Inv(c, s) && NextBy(c, s, a, s')
    ensures Inv(c, s')
  {
    PushIsUnlatched(c, s, a, s');
    EffectGrows(c, s.sh, a.eff);
    FramesStep(c, s, a, s');
    PortsStep(c, s, a, s');
    ActiveStep(c, s, a, s');
    SinkStep(c, s, a, s');
    forall v | 0 <= v < |s'.sh.nodes|
      ensures OwnerOk(s', v) && FlushOwed(s', v) && ScheduleOwed(c, s', v) && SingleOwed(c, s', v)
    {
      NodeStep(c, s, a, s', v);
    }
    forall u, k | IsEdge(c.net, u, k)
      ensures CascadeOwed(c, s', u, k)
      ensures PortOf(s'.sh, c.net.out[u][k].dst, c.net.out[u][k].port).latched ==> Closed(s', u)
    {
      EdgeStep(c, s, a, s', u, k);
    }
  }

  lemma NodeStep(c: Config, s: State, a: Action, s': State, v: nat)
    requires Inv(c, s) && NextBy(c, s, a, s') && WellFormed(c, s'.sh) && Grows(s.sh, s'.sh) && v < |s.sh.nodes|
    ensures OwnerOk(s', v) && FlushOwed(s', v) && ScheduleOwed(c, s', v) && SingleOwed(c, s', v)
  {
    OwnerStep(c, s, a, s', v);
    DueStep(c, s, a, s', v);
    DataStep(c, s, a, s', v);
    SingleStep(c, s, a, s', v);
  }

  lemma EdgeStep(c: Config, s: State, a: Action, s': State, u: nat, k: nat)
    requires Inv(c, s) && NextBy(c, s, a, s') && WellFormed(c, s'.sh) && Grows(s.sh, s'.sh) && IsEdge(c.net, u, k)
    ensures CascadeOwed(c, s', u, k)
    ensures PortOf(s'.sh, c.net.out[u][k].dst, c.net.out[u][k].port).latched ==> Closed(s', u)
  {
    LaterStep(c, s, a, s', u, k);
    if PortOf(s'.sh, c.net.out[u][k].dst, c.net.out[u][k].port).latched {
      LatchedStep(c, s, a, s', u, k);
    }
  }

  /** The invariant holds in every state of every run. */
  lemma {:induction false} RunInv(c: Config, run: seq<State>, i: nat)
    requires ValidConfig(c) && IsRun(c, run) && i < |run|
    ensures Inv(c, run[i])
  {
    if i == 0 {
      InitInv(c, run[0]);
    } else {
      RunInv(c, run, i - 1);
      assert Linked(c, run, i - 1);
      InvNext(c, run[i - 1], run[i]);
    }
  }

  lemma InvNext(c: Config, s: State, s': State)
    requires Inv(c, s) && Next(c, s, s')
    ensures Inv(c, s')
  {
    var a :| NextBy(c, s, a, s');
    InvStep(c, s, a, s');
  }
}
