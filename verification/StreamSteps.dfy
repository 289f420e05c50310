/** Every step of the streaming engine keeps its invariant. */
module StreamSteps {
  import opened Stacks
  import opened Networks
  import opened StreamEngine
  import opened StreamInvariant

  // ---- How a step changes a weighted sum ----

  function Lost(w: Frame -> int, s: State, a: Action): int {
    match a
    case Thread(t, _, _, _) => if t < |s.stacks| && s.stacks[t] != [] then w(Top(s.stacks[t])) else 0
    case Outside(_, _) => 0
  }

  function Gained(w: Frame -> int, a: Action): int {
    match a
    case Thread(_, _, next, start) => WeightThen(w, next) + WeightStart(w, start)
    case Outside(_, frame) => w(frame)
  }

  /** The part of a step that is about threads only. */
  ghost predicate Stacked(s: State, a: Action, s': State) {
    match a
    case Thread(t, _, next, start) => t < |s.stacks| && s.stacks[t] != [] && s'.stacks == Fired(s.stacks, t, next, start)
    case Outside(_, frame) => s'.stacks == s.stacks + Started(NewThread(frame))
  }

  lemma Move(w: Frame -> int, s: State, a: Action, s': State)
    requires Stacked(s, a, s')
    ensures Total(w, s'.stacks) == Total(w, s.stacks) - Lost(w, s, a) + Gained(w, a)
    ensures (forall f :: w(f) >= 0) ==> Total(w, s.stacks) >= Lost(w, s, a) && Total(w, s.stacks) >= 0
  {
    match a {
      case Thread(t, _, next, start) =>
        TotalFired(w, s.stacks, t, next, start);
        if forall f :: w(f) >= 0 {
          TotalAtLeast(w, s.stacks, t);
        }
      case Outside(_, frame) =>
        TotalStarted(w, s.stacks, NewThread(frame));
        if forall f :: w(f) >= 0 {
          TotalNonNegative(w, s.stacks);
        }
    }
  }

  // ---- What a step leaves alone in the shared state ----

  /** Latches and flush marks only get set, and a latched port takes no more packets. */
  predicate Grows(sh: Shared, sh': Shared) {
    && |sh.nodes| == |sh'.nodes|
    && forall v :: 0 <= v < |sh.nodes| ==> NodeGrows(sh.nodes[v], sh'.nodes[v])
  }

  predicate NodeGrows(n: Node, n': Node) {
    && |n.ports| == |n'.ports|
    && (n.propagated ==> n'.propagated)
    && forall i :: 0 <= i < |n.ports| ==> PortGrows(n.ports[i], n'.ports[i])
  }

  predicate PortGrows(p: Port, p': Port) {
    p.latched ==> p'.latched && p'.enq == p.enq && (p.deq == p.enq ==> p'.deq == p.deq)
  }

  /** A node with a frame emitting its output is not closed. */
  lemma EmitterIsOpen(s: State, t: nat)
    requires t < |s.stacks| && s.stacks[t] != [] && Top(s.stacks[t]).Propagate?
    requires Top(s.stacks[t]).v < |s.sh.nodes| && OwnerOk(s, Top(s.stacks[t]).v)
    ensures !Closed(s, Top(s.stacks[t]).v)
  {
    var u := Top(s.stacks[t]).v;
    TotalAtLeast(FlushW(u), s.stacks, t);
    TotalAtLeast(ProcW(u), s.stacks, t);
  }

  /** A step only pushes to, and a producer only evicts from, a port that is not latched. */
  lemma PushIsUnlatched(c: Config, s: State, a: Action, s': State)
    requires Inv(c, s) && NextBy(c, s, a, s')
    ensures a.eff.Push? ==> !PortOf(s.sh, a.eff.v, a.eff.i).latched
    ensures a.eff.Pop? && a.Thread? && Top(s.stacks[a.t]).Propagate? ==> !PortOf(s.sh, a.eff.v, a.eff.i).latched
  {
    if a.Thread? && Top(s.stacks[a.t]).Propagate? && (a.eff.Push? || a.eff.Pop?) {
      EmitterIsOpen(s, a.t);
      EmitEdge(c, s.sh, Top(s.stacks[a.t]), a.eff, a.next, a.start);
    }
  }

  lemma EmitEdge(c: Config, sh: Shared, f: Frame, eff: Effect, next: Then<Frame>, start: Start<Frame>)
    requires WellFormed(c, sh) && InRange(c, f) && Fire(c, sh, f, eff, next, start)
    requires f.Propagate? && (eff.Push? || eff.Pop?)
    ensures IsEdge(c.net, f.v, f.k) && eff.v == c.net.out[f.v][f.k].dst && eff.i == c.net.out[f.v][f.k].port
  {
  }

  lemma EffectGrows(c: Config, sh: Shared, eff: Effect)
    requires WellFormed(c, sh) && Applies(sh, eff)
    requires eff.Push? ==> !PortOf(sh, eff.v, eff.i).latched
    ensures WellFormed(c, Apply(sh, eff)) && Grows(sh, Apply(sh, eff))
  {
  }

  // ---- What the frames know ----

  lemma FrameStays(c: Config, sh: Shared, sh': Shared, f: Frame)
    requires WellFormed(c, sh) && WellFormed(c, sh') && Grows(sh, sh')
    requires FrameOk(c, sh, f)
    ensures FrameOk(c, sh', f)
  {
    if !f.ReachExchange? && !f.ReachCallback? {
      assert NodeGrows(sh.nodes[f.v], sh'.nodes[f.v]);
    }
  }

  ghost predicate NextFramesOk(c: Config, sh: Shared, next: Then<Frame>)
    requires WellFormed(c, sh)
  {
    AllThen(FrameOkAt(c, sh), next)
  }

  lemma TryFramesOk(c: Config, sh: Shared, sh': Shared, f: Frame, eff: Effect, next: Then<Frame>, start: Start<Frame>)
    requires ValidConfig(c) && WellFormed(c, sh) && PortsOk(c, sh) && FrameOk(c, sh, f)
    requires FireTry(c, sh, f, eff, next, start) && Applies(sh, eff) && sh' == Apply(sh, eff) && WellFormed(c, sh')
    ensures NextFramesOk(c, sh', next) && AllStart(FrameOkAt(c, sh'), start)
  {
  }

  lemma TaskFramesOk(c: Config, sh: Shared, sh': Shared, f: Frame, eff: Effect, next: Then<Frame>)
    requires ValidConfig(c) && WellFormed(c, sh) && PortsOk(c, sh) && FrameOk(c, sh, f) && !f.Propagate?
    requires FireTask(c, sh, f, eff, next) && Applies(sh, eff) && sh' == Apply(sh, eff) && WellFormed(c, sh')
    ensures NextFramesOk(c, sh', next)
  {
  }

  lemma PropagateFramesOk(c: Config, sh: Shared, sh': Shared, f: Frame, eff: Effect, next: Then<Frame>)
    requires ValidConfig(c) && WellFormed(c, sh) && PortsOk(c, sh) && FrameOk(c, sh, f) && f.Propagate?
    requires FireTask(c, sh, f, eff, next) && Applies(sh, eff) && sh' == Apply(sh, eff) && WellFormed(c, sh')
    ensures NextFramesOk(c, sh', next)
  {
    assert f.k < |c.net.out[f.v]| ==> IsEdge(c.net, f.v, f.k);
  }

  lemma CheckFramesOk(c: Config, sh: Shared, sh': Shared, f: Frame, eff: Effect, next: Then<Frame>)
    requires ValidConfig(c) && WellFormed(c, sh) && PortsOk(c, sh) && FrameOk(c, sh, f)
    requires FireCheck(c, sh, f, eff, next) && Applies(sh, eff) && sh' == Apply(sh, eff) && WellFormed(c, sh')
    ensures NextFramesOk(c, sh', next)
  {
  }

  lemma CascadeFramesOk(c: Config, sh: Shared, sh': Shared, f: Frame, eff: Effect, next: Then<Frame>)
    requires ValidConfig(c) && WellFormed(c, sh) && FrameOk(c, sh, f) && f.Cascade?
    requires FireFlush(c, sh, f, eff, next) && Applies(sh, eff) && sh' == Apply(sh, eff) && WellFormed(c, sh')
    ensures NextFramesOk(c, sh', next)
  {
    assert f.k < |c.net.out[f.v]| ==> IsEdge(c.net, f.v, f.k);
  }

  lemma FlushFramesOk(c: Config, sh: Shared, sh': Shared, f: Frame, eff: Effect, next: Then<Frame>)
    requires ValidConfig(c) && WellFormed(c, sh) && PortsOk(c, sh) && FrameOk(c, sh, f) && !f.Cascade?
    requires FireFlush(c, sh, f, eff, next) && Applies(sh, eff) && sh' == Apply(sh, eff) && WellFormed(c, sh')
    ensures NextFramesOk(c, sh', next)
  {
  }

  lemma TopIsOk(c: Config, s: State, t: nat)
    requires Inv(c, s) && t < |s.stacks| && s.stacks[t] != []
    ensures FrameOk(c, s.sh, Top(s.stacks[t]))
  {
    assert FrameOkAt(c, s.sh)(s.stacks[t][|s.stacks[t]| - 1]);
  }

  lemma NewFramesOk(c: Config, sh: Shared, sh': Shared, f: Frame, eff: Effect, next: Then<Frame>, start: Start<Frame>)
    requires ValidConfig(c) && WellFormed(c, sh) && PortsOk(c, sh) && FrameOk(c, sh, f)
    requires Fire(c, sh, f, eff, next, start) && Applies(sh, eff) && sh' == Apply(sh, eff) && WellFormed(c, sh')
    ensures NextFramesOk(c, sh', next) && AllStart(FrameOkAt(c, sh'), start)
  {
    if IsTry(f) {
      TryFramesOk(c, sh, sh', f, eff, next, start);
    } else if f.Propagate? {
      PropagateFramesOk(c, sh, sh', f, eff, next);
    } else if IsTask(f) {
      TaskFramesOk(c, sh, sh', f, eff, next);
    } else if IsCheck(f) {
      CheckFramesOk(c, sh, sh', f, eff, next);
    } else if f.Cascade? {
      CascadeFramesOk(c, sh, sh', f, eff, next);
    } else {
      FlushFramesOk(c, sh, sh', f, eff, next);
    }
  }

  lemma OldFramesOk(c: Config, sh: Shared, sh': Shared, stacks: seq<seq<Frame>>)
    requires WellFormed(c, sh) && WellFormed(c, sh') && Grows(sh, sh')
    requires AllFrames(FrameOkAt(c, sh), stacks)
    ensures AllFrames(FrameOkAt(c, sh'), stacks)
  {
    forall t, i | 0 <= t < |stacks| && 0 <= i < |stacks[t]|
      ensures FrameOkAt(c, sh')(stacks[t][i])
    {
      assert FrameOkAt(c, sh)(stacks[t][i]);
      FrameStays(c, sh, sh', stacks[t][i]);
    }
  }

  lemma FramesStep(c: Config, s: State, a: Action, s': State)
    requires Inv(c, s) && NextBy(c, s, a, s')
    requires WellFormed(c, s'.sh) && Grows(s.sh, s'.sh)
    ensures AllFrames(FrameOkAt(c, s'.sh), s'.stacks)
  {
    OldFramesOk(c, s.sh, s'.sh, s.stacks);
    match a {
      case Thread(t, eff, next, start) =>
        TopIsOk(c, s, t);
        NewFramesOk(c, s.sh, s'.sh, Top(s.stacks[t]), eff, next, start);
        AllFired(FrameOkAt(c, s'.sh), s.stacks, t, next, start);
      case Outside(eff, frame) =>
        AllStarted(FrameOkAt(c, s'.sh), s.stacks, NewThread(frame));
    }
  }

  // ---- Ports, flush marks and the task counter ----

  lemma PortsStep(c: Config, s: State, a: Action, s': State)
    requires Inv(c, s) && NextBy(c, s, a, s')
    requires WellFormed(c, s'.sh) && Grows(s.sh, s'.sh)
    ensures PortsOk(c, s'.sh)
  {
    if a.Thread? {
      TopIsOk(c, s, a.t);
    }
    EffectKeepsPorts(c, s.sh, a.eff);
  }

  lemma EffectKeepsPorts(c: Config, sh: Shared, eff: Effect)
    requires WellFormed(c, sh) && PortsOk(c, sh) && Applies(sh, eff)
    requires WellFormed(c, Apply(sh, eff)) && Grows(sh, Apply(sh, eff))
    requires eff.Latch? ==> eff.i < MAX_EOS_PORTS
    requires eff.MarkFlush? ==> AllDrained(sh, eff.v) && !sh.nodes[eff.v].propagated
    requires eff.SetExec? && eff.x == Completed ==> !c.autoReschedule || sh.nodes[eff.v].propagated
    ensures PortsOk(c, Apply(sh, eff))
  {
    var sh' := Apply(sh, eff);
    forall v | 0 <= v < |sh.nodes| && AllDrained(sh, v)
      ensures AllDrained(sh', v)
    {
      assert NodeGrows(sh.nodes[v], sh'.nodes[v]);
    }
  }
}
