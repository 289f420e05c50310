/** The counters that KeepLatest works on are those of the concurrent ring. */
module RingWindow {
  import opened MpmcRing
  import opened RingResults
  import K = KeepLatest

  predicate Unpublished(phase: Phase) {
    phase.Claimed? || phase.Written?
  }

  function RingOf<T>(s: State<T>): K.Ring {
    K.Ring(s.enq, s.deq, set p: nat | p < |s.phases| && Unpublished(s.phases[p]))
  }

  /** What each step of a thread is on the counters: a claim, a publication, a removal, or nothing. */
  lemma StepIsWindowStep<T>(s: State<T>, t: nat, ch: Choice<T>)
    requires Inv(s) && CanStep(s, t, ch)
    ensures var s' := Step(s, t, ch);
            var r, r', before, after := RingOf(s), RingOf(s'), s.threads[t], s'.threads[t];
            if before.PushChecked? && after.PushClaimed? then K.Claims(r, r', |s.cells|)
            else if before.PushWritten? then before.pos in r.unpublished && K.Publishes(r, r', before.pos)
            else if before.PopChecked? && after.PopClaimed? then K.Takes(r, r')
            else r' == r
  {
    var s' := Step(s, t, ch);
    var before := s.threads[t];
    assert ThreadOk(s, t);
    if before.PushChecked? && s'.threads[t].PushClaimed? {
      ClaimHasRoom(s, t);
      assert s'.phases[..s.enq] == s.phases;
      assert RingOf(s').unpublished == RingOf(s).unpublished + {s.enq};
    } else if before.PushWritten? {
      assert RingOf(s').unpublished == RingOf(s).unpublished - {before.pos};
    } else {
      assert RingOf(s').unpublished == RingOf(s).unpublished;
    }
  }

  /** A claim is made only below the capacity. */
  lemma ClaimHasRoom<T>(s: State<T>, t: nat)
    requires Inv(s) && t < |s.threads| && s.threads[t].PushChecked? && s.enq == s.threads[t].pos
    ensures s.enq - s.deq < |s.cells|
  {
    assert ThreadOk(s, t);
    var lap := s.enq - |s.cells|;
    if lap >= 0 {
      assert PhaseOk(s, lap);
    }
  }

  /** A pop, and so an eviction, fails only when the head cannot be taken. */
  lemma EvictionFails<T(!new)>(run: seq<State<T>>, n: nat, t: nat, ch: Choice<T>)
    requires IsRun(run) && n < |run| && CanStep(run[n], t, ch)
    requires IsPopping(run[n].threads[t]) && !run[n].threads[t].PopTaken? && !IsPopping(Step(run[n], t, ch).threads[t])
    ensures !K.CanTake(RingOf(run[n]))
  {
    EmptyOnlyIf(run, n, t, ch);
  }
}
