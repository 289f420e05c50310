/**
 What becomes of the outputs: in every streaming run, each output that process() or the flush
 hook had for an edge is put into the destination queue exactly once, or is rejected by a full
 DropTail queue, or is still to be propagated.
 */
module StreamOutputs {
  import opened Stacks
  import opened Networks
  import opened StreamEngine
  import opened StreamInvariant
  import opened StreamSteps
  import opened StreamProof

  // ---- Histories ----

  /** `acts` are the steps of the run. */
  ghost predicate IsPlayed(c: Config, run: seq<State>, acts: seq<Action>) {
    |run| == |acts| + 1 && Init(c, run[0]) && forall i :: 0 <= i < |acts| ==> Played(c, run, acts, i)
  }

  ghost predicate Played(c: Config, run: seq<State>, acts: seq<Action>, i: nat)
    requires i < |acts| < |run|
  {
    NextBy(c, run[i], acts[i], run[i + 1])
  }

  /** The step has an output for edge `k` of node `u`. */
  predicate Emits(a: Action, u: nat, k: nat) {
    a.eff.Emit? && a.eff.v == u && k in a.eff.outs
  }

  /** The step is at edge `k` of node `u`. */
  predicate IsAt(s: State, a: Action, u: nat, k: nat) {
    a.Thread? && a.t < |s.stacks| && s.stacks[a.t] != [] && Top(s.stacks[a.t]).Propagate? && Top(s.stacks[a.t]).v == u && Top(s.stacks[a.t]).k == k
  }

  /** The step puts a packet into the queue at the end of the edge. */
  predicate Sends(s: State, a: Action, u: nat, k: nat) {
    IsAt(s, a, u, k) && a.eff.Push?
  }

  /** The step gives up an output for the edge. */
  predicate Refuses(s: State, a: Action, u: nat, k: nat) {
    IsAt(s, a, u, k) && a.eff == Nop && u < |s.sh.nodes| && k in s.sh.nodes[u].outs
  }

  /** The step is an input from outside for the port. */
  predicate Enters(a: Action, v: nat, i: nat) {
    a.Outside? && a.eff.Push? && a.eff.v == v && a.eff.i == i
  }

  function Emitted(acts: seq<Action>, n: nat, u: nat, k: nat): int
    requires n <= |acts|
  {
    if n == 0 then 0 else Emitted(acts, n - 1, u, k) + One(Emits(acts[n - 1], u, k))
  }

  function Sent(run: seq<State>, acts: seq<Action>, n: nat, u: nat, k: nat): int
    requires n <= |acts| <= |run|
  {
    if n == 0 then 0 else Sent(run, acts, n - 1, u, k) + One(Sends(run[n - 1], acts[n - 1], u, k))
  }

  function Refused(run: seq<State>, acts: seq<Action>, n: nat, u: nat, k: nat): int
    requires n <= |acts| <= |run|
  {
    if n == 0 then 0 else Refused(run, acts, n - 1, u, k) + One(Refuses(run[n - 1], acts[n - 1], u, k))
  }

  function Entered(acts: seq<Action>, n: nat, v: nat, i: nat): int
    requires n <= |acts|
  {
    if n == 0 then 0 else Entered(acts, n - 1, v, i) + One(Enters(acts[n - 1], v, i))
  }

  /** Frames that have yet to come to edge `k` of node `u`. */
  function AheadW(u: nat, k: nat): Frame -> int {
    (f: Frame) => One(f.Propagate? && f.v == u && f.k <= k)
  }

  /** The output that is still to be propagated. */
  function Owed(s: State, u: nat, k: nat): int
    requires u < |s.sh.nodes|
  {
    if k in s.sh.nodes[u].outs then Total(AheadW(u, k), s.stacks) else 0
  }

  // ---- Steps ----

  function OutsAfter(sh: Shared, eff: Effect, u: nat): set<nat>
    requires u < |sh.nodes|
  {
    if eff.Emit? && eff.v == u then eff.outs else sh.nodes[u].outs
  }

  lemma OutsChange(sh: Shared, eff: Effect, u: nat)
    requires u < |sh.nodes| && Applies(sh, eff)
    ensures |Apply(sh, eff).nodes| == |sh.nodes| && Apply(sh, eff).nodes[u].outs == OutsAfter(sh, eff, u)
  {
  }

  /** What one step of a frame moves towards edge `k`. */
  ghost predicate AheadMoves(sh: Shared, f: Frame, eff: Effect, next: Then<Frame>, start: Start<Frame>, u: nat, k: nat)
    requires u < |sh.nodes|
  {
    if eff.Emit? && eff.v == u then
      Delta(AheadW(u, k), f, next, start) == 1 && (f == Process(u) || f == Flush(u))
    else
      Delta(AheadW(u, k), f, next, start) == -One(f.Propagate? && f.v == u && f.k == k && !eff.Pop?)
  }

  lemma AheadTask(c: Config, sh: Shared, f: Frame, eff: Effect, next: Then<Frame>, u: nat, k: nat)
    requires WellFormed(c, sh) && InRange(c, f) && FireTask(c, sh, f, eff, next) && u < |sh.nodes| && IsEdge(c.net, u, k)
    ensures AheadMoves(sh, f, eff, next, NoThread, u, k)
    ensures f.Propagate? && f.v == u && f.k == k ==>
              eff.Push? || eff.Pop? || (eff == Nop && (k in sh.nodes[u].outs ==> Rejects(c, sh, c.net.out[u][k])))
    ensures f.Propagate? && f.v == u && f.k == k && eff.Push? ==> k in sh.nodes[u].outs && Edge(eff.v, eff.i) == c.net.out[u][k]
  {
  }

  lemma AheadFlush(c: Config, sh: Shared, f: Frame, eff: Effect, next: Then<Frame>, u: nat, k: nat)
    requires WellFormed(c, sh) && InRange(c, f) && FireFlush(c, sh, f, eff, next) && u < |sh.nodes| && IsEdge(c.net, u, k)
    ensures AheadMoves(sh, f, eff, next, NoThread, u, k) && !f.Propagate?
  {
  }

  function NoPropagate(): Frame -> bool {
    (f: Frame) => !f.Propagate?
  }

  lemma TryMovesNothing(c: Config, sh: Shared, f: Frame, eff: Effect, next: Then<Frame>, start: Start<Frame>)
    requires WellFormed(c, sh) && InRange(c, f) && FireTry(c, sh, f, eff, next, start)
    ensures NoPropagate()(f) && AllThen(NoPropagate(), next) && AllStart(NoPropagate(), start) && !eff.Emit? && !eff.Push?
  {
  }

  lemma CheckMovesNothing(c: Config, sh: Shared, f: Frame, eff: Effect, next: Then<Frame>)
    requires WellFormed(c, sh) && InRange(c, f) && FireCheck(c, sh, f, eff, next)
    ensures NoPropagate()(f) && AllThen(NoPropagate(), next) && !eff.Emit? && !eff.Push?
  {
  }

  lemma AheadElsewhere(sh: Shared, f: Frame, eff: Effect, next: Then<Frame>, start: Start<Frame>, u: nat, k: nat)
    requires NoPropagate()(f) && AllThen(NoPropagate(), next) && AllStart(NoPropagate(), start) && !eff.Emit? && u < |sh.nodes|
    ensures AheadMoves(sh, f, eff, next, start, u, k)
  {
  }

  lemma AheadStep(c: Config, sh: Shared, f: Frame, eff: Effect, next: Then<Frame>, start: Start<Frame>, u: nat, k: nat)
    requires WellFormed(c, sh) && InRange(c, f) && Fire(c, sh, f, eff, next, start) && u < |sh.nodes| && IsEdge(c.net, u, k)
    ensures AheadMoves(sh, f, eff, next, start, u, k)
    ensures f.Propagate? && f.v == u && f.k == k ==>
              eff.Push? || eff.Pop? || (eff == Nop && (k in sh.nodes[u].outs ==> Rejects(c, sh, c.net.out[u][k])))
    ensures f.Propagate? && f.v == u && f.k == k && eff.Push? ==> k in sh.nodes[u].outs && Edge(eff.v, eff.i) == c.net.out[u][k]
  {
    if IsTry(f) {
      TryMovesNothing(c, sh, f, eff, next, start);
      AheadElsewhere(sh, f, eff, next, start, u, k);
    } else if IsTask(f) {
      AheadTask(c, sh, f, eff, next, u, k);
    } else if IsCheck(f) {
      CheckMovesNothing(c, sh, f, eff, next);
      AheadElsewhere(sh, f, eff, next, start, u, k);
    } else {
      AheadFlush(c, sh, f, eff, next, u, k);
    }
  }

  /** While a hook is at its end no output of the node is being propagated. */
  lemma NoneAhead(s: State, t: nat, u: nat, k: nat)
    requires u < |s.sh.nodes| && OwnerOk(s, u) && t < |s.stacks| && s.stacks[t] != []
    requires Top(s.stacks[t]) == Process(u) || Top(s.stacks[t]) == Flush(u)
    ensures Total(AheadW(u, k), s.stacks) == 0
  {
    TotalAtLeast(OwnW(u), s.stacks, t);
    TotalAlone(AheadW(u, k), OwnW(u), s.stacks, t);
  }

  /** One step keeps the balance of an edge. */
  lemma OwedStep(c: Config, s: State, a: Action, s': State, u: nat, k: nat)
    requires Inv(c, s) && NextBy(c, s, a, s') && IsEdge(c.net, u, k)
    ensures u < |s.sh.nodes| == |s'.sh.nodes|
    ensures Owed(s', u, k) == Owed(s, u, k) + One(Emits(a, u, k)) - One(Sends(s, a, u, k)) - One(Refuses(s, a, u, k))
  {
    OutsChange(s.sh, a.eff, u);
    Move(AheadW(u, k), s, a, s');
    if a.Thread? {
      var f := Top(s.stacks[a.t]);
      TopIsOk(c, s, a.t);
      AheadStep(c, s.sh, f, a.eff, a.next, a.start, u, k);
      if a.eff.Emit? && a.eff.v == u {
        assert OwnerOk(s, u);
        NoneAhead(s, a.t, u, k);
      }
    }
  }

  lemma PlayedRun(c: Config, run: seq<State>, acts: seq<Action>)
    requires IsPlayed(c, run, acts)
    ensures IsRun(c, run)
  {
    forall i | 0 <= i < |run| - 1
      ensures Linked(c, run, i)
    {
      assert Played(c, run, acts, i);
    }
  }

  /**
   Conservation of outputs: at every moment, what node `u` has had for edge `k` is what was
   put into the queue at its end, what was refused there, and what is still on its way.
   */
  lemma {:induction false} OutputsConserved(c: Config, run: seq<State>, acts: seq<Action>, n: nat, u: nat, k: nat)
    requires ValidConfig(c) && IsPlayed(c, run, acts) && n <= |acts| && IsEdge(c.net, u, k)
    ensures u < |run[n].sh.nodes|
    ensures Emitted(acts, n, u, k) == Sent(run, acts, n, u, k) + Refused(run, acts, n, u, k) + Owed(run[n], u, k)
  {
    if n > 0 {
      OutputsConserved(c, run, acts, n - 1, u, k);
      PlayedRun(c, run, acts);
      RunInv(c, run, n - 1);
      assert Played(c, run, acts, n - 1);
      OwedStep(c, run[n - 1], acts[n - 1], run[n], u, k);
    }
  }

  // ---- Results ----

  /** With no step in progress nothing is on its way. */
  lemma OutputsArrive(c: Config, run: seq<State>, acts: seq<Action>, u: nat, k: nat)
    requires ValidConfig(c) && IsPlayed(c, run, acts) && IsEdge(c.net, u, k) && Quiescent(run[|acts|])
    ensures Emitted(acts, |acts|, u, k) == Sent(run, acts, |acts|, u, k) + Refused(run, acts, |acts|, u, k)
    ensures !c.dropTail ==> Emitted(acts, |acts|, u, k) == Sent(run, acts, |acts|, u, k)
  {
    OutputsConserved(c, run, acts, |acts|, u, k);
    TotalIdle(AheadW(u, k), run[|acts|].stacks);
    if !c.dropTail {
      NoneRefused(c, run, acts, |acts|, u, k);
    }
  }

  /** An output is refused only by a full DropTail queue. */
  lemma RefusedIsFull(c: Config, run: seq<State>, acts: seq<Action>, i: nat, u: nat, k: nat)
    requires ValidConfig(c) && IsPlayed(c, run, acts) && i < |acts| && IsEdge(c.net, u, k) && Refuses(run[i], acts[i], u, k)
    ensures Rejects(c, run[i].sh, c.net.out[u][k])
  {
    PlayedRun(c, run, acts);
    RunInv(c, run, i);
    assert Played(c, run, acts, i);
    TopIsOk(c, run[i], acts[i].t);
    AheadStep(c, run[i].sh, Top(run[i].stacks[acts[i].t]), acts[i].eff, acts[i].next, acts[i].start, u, k);
  }

  lemma {:induction false} NoneRefused(c: Config, run: seq<State>, acts: seq<Action>, n: nat, u: nat, k: nat)
    requires ValidConfig(c) && IsPlayed(c, run, acts) && n <= |acts| && IsEdge(c.net, u, k) && !c.dropTail
    ensures Refused(run, acts, n, u, k) == 0
  {
    if n > 0 {
      NoneRefused(c, run, acts, n - 1, u, k);
      if Refuses(run[n - 1], acts[n - 1], u, k) {
        RefusedIsFull(c, run, acts, n - 1, u, k);
      }
    }
  }

  /** An output that has come to its edge can be sent on, after a process() as after a flush, unless a full DropTail queue refuses it. */
  lemma CanBeSent(c: Config, run: seq<State>, n: nat, t: nat) returns (a: Action, s': State)
    requires ValidConfig(c) && IsRun(c, run) && n < |run| && t < |run[n].stacks| && run[n].stacks[t] != []
    requires var f := Top(run[n].stacks[t]);
             f.Propagate? && IsEdge(c.net, f.v, f.k) && f.v < |run[n].sh.nodes| && f.k in run[n].sh.nodes[f.v].outs
    ensures var f := Top(run[n].stacks[t]);
            NextBy(c, run[n], a, s') && if Rejects(c, run[n].sh, c.net.out[f.v][f.k]) && !Accepts(c, run[n].sh, c.net.out[f.v][f.k])
                                        then Refuses(run[n], a, f.v, f.k) else Sends(run[n], a, f.v, f.k)
  {
    var s, f := run[n], Top(run[n].stacks[t]);
    RunInv(c, run, n);
    TopIsOk(c, s, t);
    var e := c.net.out[f.v][f.k];
    if Accepts(c, s.sh, e) {
      a := Thread(t, Push(e.dst, e.port, 0), Call(Propagate(f.v, f.k + 1, f.flush), TryState(e.dst)), NoThread);
    } else {
      a := Thread(t, Nop, Goto(Propagate(f.v, f.k + 1, f.flush)), NoThread);
    }
    s' := State(Apply(s.sh, a.eff), Fired(s.stacks, t, a.next, NoThread));
  }

  // ---- Queues ----

  /** A packet is pushed by a propagation along the edge into the port, or from outside. */
  lemma PushComesFrom(c: Config, s: State, a: Action, s': State, u: nat, k: nat)
    requires Inv(c, s) && NextBy(c, s, a, s') && IsEdge(c.net, u, k)
    ensures a.eff.Push? && Edge(a.eff.v, a.eff.i) == c.net.out[u][k] <==>
            Sends(s, a, u, k) || Enters(a, c.net.out[u][k].dst, c.net.out[u][k].port)
  {
    if a.Thread? {
      var f := Top(s.stacks[a.t]);
      TopIsOk(c, s, a.t);
      AheadStep(c, s.sh, f, a.eff, a.next, a.start, u, k);
      if a.eff.Push? {
        PushIsPropagate(c, s.sh, f, a.eff, a.next, a.start);
        assert IsEdge(c.net, f.v, f.k);
      }
    }
  }

  lemma PushIsPropagate(c: Config, sh: Shared, f: Frame, eff: Effect, next: Then<Frame>, start: Start<Frame>)
    requires WellFormed(c, sh) && InRange(c, f) && Fire(c, sh, f, eff, next, start) && eff.Push?
    ensures f.Propagate? && IsEdge(c.net, f.v, f.k) && Edge(eff.v, eff.i) == c.net.out[f.v][f.k]
  {
  }

  lemma EnqCounts(sh: Shared, eff: Effect, v: nat, i: nat)
    requires Applies(sh, eff) && HasPort(sh, v, i)
    ensures HasPort(Apply(sh, eff), v, i)
    ensures PortOf(Apply(sh, eff), v, i).enq == PortOf(sh, v, i).enq + One(eff.Push? && eff.v == v && eff.i == i)
  {
  }

  /** The queue of a fed port has accepted what was sent along its edge and what came from outside, and nothing else. */
  lemma {:induction false} QueueCounts(c: Config, run: seq<State>, acts: seq<Action>, n: nat, u: nat, k: nat)
    requires ValidConfig(c) && IsPlayed(c, run, acts) && n <= |acts| && IsEdge(c.net, u, k)
    ensures var e := c.net.out[u][k];
            && HasPort(run[n].sh, e.dst, e.port)
            && PortOf(run[n].sh, e.dst, e.port).enq == Sent(run, acts, n, u, k) + Entered(acts, n, e.dst, e.port)
  {
    if n > 0 {
      QueueCounts(c, run, acts, n - 1, u, k);
      PlayedRun(c, run, acts);
      RunInv(c, run, n - 1);
      assert Played(c, run, acts, n - 1);
      PushComesFrom(c, run[n - 1], acts[n - 1], run[n], u, k);
      EnqCounts(run[n - 1].sh, acts[n - 1].eff, c.net.out[u][k].dst, c.net.out[u][k].port);
    }
  }
}
