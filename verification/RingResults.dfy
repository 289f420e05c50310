/** The ring refines a bounded FIFO queue, in every interleaving of any number of threads. */
module RingResults {
  import Multiples
  import opened MpmcRing

  /** The abstract queue: what has been claimed by producers and not by consumers, oldest first. */
  function Contents<T>(s: State<T>): seq<T>
    requires s.deq <= s.enq <= |s.log|
  {
    s.log[s.deq..s.enq]
  }

  /** One step of a bounded FIFO: nothing, an append below the bound, or taking the oldest. */
  ghost predicate FifoStep<T(!new)>(q: seq<T>, q': seq<T>, capacity: nat) {
    || q' == q
    || (|q| < capacity && exists x :: q' == q + [x])
    || (|q| > 0 && q' == q[1..])
  }

  /** Every step is a step of a bounded FIFO: a push takes effect when it claims, a pop when it claims. */
  lemma RefinesFifo<T(!new)>(run: seq<State<T>>, n: nat)
    requires IsRun(run) && n + 1 < |run|
    ensures Inv(run[n]) && Inv(run[n + 1]) && |run[n + 1].cells| == |run[n].cells|
    ensures FifoStep(Contents(run[n]), Contents(run[n + 1]), |run[n].cells|)
    ensures |Contents(run[n])| <= |run[n].cells|
  {
    RunInv(run, n);
    RunInv(run, n + 1);
    assert Linked(run, n);
    var t, ch :| CanStep(run[n], t, ch) && run[n + 1] == Step(run[n], t, ch);
    FifoEffect(run[n], t, ch);
  }

  /** Which step has which effect on the abstract queue. */
  lemma FifoEffect<T(!new)>(s: State<T>, t: nat, ch: Choice<T>)
    requires Inv(s) && CanStep(s, t, ch) && Inv(Step(s, t, ch))
    ensures var s' := Step(s, t, ch);
            if !Owns(s.threads[t]) && s'.threads[t].PushClaimed? then
              && Contents(s') == Contents(s) + [s'.threads[t].item] && |Contents(s)| < |s.cells|
              && s.threads[t].PushChecked? && s.threads[t].item == s'.threads[t].item
            else if !Owns(s.threads[t]) && s'.threads[t].PopClaimed? then
              && |Contents(s)| > 0 && Contents(s') == Contents(s)[1..]
              && s'.threads[t].pos == s.deq && s.log[s.deq] == Contents(s)[0]
            else
              Contents(s') == Contents(s)
    ensures FifoStep(Contents(s), Contents(Step(s, t, ch)), |s.cells|)
  {
    var s' := Step(s, t, ch);
    assert ThreadOk(s, t);
    if !Owns(s.threads[t]) && s'.threads[t].PushClaimed? {
      assert Contents(s') == Contents(s) + [s'.threads[t].item];
    } else if !Owns(s.threads[t]) && s'.threads[t].PopClaimed? {
      assert Contents(s') == Contents(s)[1..];
    }
  }

  /** A pop returns the value that was pushed at its position, and no position is returned twice. */
  lemma PopReturnsPushed<T(!new)>(run: seq<State<T>>, n: nat, t: nat)
    requires IsRun(run) && n < |run| && t < |run[n].threads| && run[n].threads[t].PopTaken?
    ensures var pos := run[n].threads[t].pos;
            pos < |run[n].log| && run[n].threads[t].item == run[n].log[pos] && pos !in run[n].got
  {
    RunInv(run, n);
    var s := run[n];
    assert ThreadOk(s, t);
    assert PhaseOk(s, s.threads[t].pos);
  }

  /** What a position was pushed with, and what it returned, never changes. */
  lemma {:induction false} HistoryGrows<T(!new)>(run: seq<State<T>>, i: nat, j: nat)
    requires IsRun(run) && i <= j < |run|
    ensures run[i].log <= run[j].log
    ensures forall p :: p in run[i].got ==> p in run[j].got && run[j].got[p] == run[i].got[p]
    decreases j - i
  {
    if i < j {
      HistoryGrows(run, i, j - 1);
      RunInv(run, j - 1);
      assert Linked(run, j - 1);
      HistoryStep(run[j - 1], run[j]);
    }
  }

  lemma HistoryStep<T(!new)>(s: State<T>, s': State<T>)
    requires Inv(s) && Next(s, s')
    ensures s.log <= s'.log
    ensures forall p :: p in s.got ==> p in s'.got && s'.got[p] == s.got[p]
  {
    var t: nat, ch :| CanStep(s, t, ch) && s' == Step(s, t, ch);
    if s.threads[t].PopTaken? {
      assert ThreadOk(s, t);
      assert PhaseOk(s, s.threads[t].pos);
    }
  }

  /** No two threads ever work on the same cell. */
  lemma OneOwner<T(!new)>(run: seq<State<T>>, n: nat, t: nat, u: nat)
    requires IsRun(run) && n < |run| && t < |run[n].threads| && u < |run[n].threads| && t != u
    requires Owns(run[n].threads[t]) && Owns(run[n].threads[u])
    ensures |run[n].cells| > 0
    ensures run[n].threads[t].pos % |run[n].cells| != run[n].threads[u].pos % |run[n].cells|
  {
    RunInv(run, n);
    var s := run[n];
    OwnedInWindow(s, t);
    OwnedInWindow(s, u);
    assert ThreadOk(s, t) && ThreadOk(s, u);
    if s.threads[t].pos % |s.cells| == s.threads[u].pos % |s.cells| {
      SameCell(s.threads[t].pos, s.threads[u].pos, |s.cells|);
    }
  }

  predicate IsPushing<T>(thread: Thread<T>) {
    thread.PushStart? || thread.PushLoaded? || thread.PushChecked? || thread.PushClaimed? || thread.PushWritten?
  }

  predicate IsPopping<T>(thread: Thread<T>) {
    thread.PopStart? || thread.PopLoaded? || thread.PopChecked? || thread.PopClaimed? || thread.PopTaken?
  }

  /** The queue is full, or the slot of the position one lap back is still being emptied. */
  predicate NoRoom<T>(s: State<T>) {
    var lap := s.enq - |s.cells|;
    lap >= 0 && (s.deq == lap || (s.deq > lap && lap < |s.phases| && (s.phases[lap].Taken? || s.phases[lap].Emptied?)))
  }

  /** The queue is empty, or its head is still being filled. */
  predicate NoItem<T>(s: State<T>) {
    s.deq == s.enq || (s.deq < s.enq == |s.phases| && (s.phases[s.deq].Claimed? || s.phases[s.deq].Written?))
  }

  /**
   Wherever a push is, unless it has filled its slot, a step ends it only if there is no room;
   losing a race for a position does not.
   */
  lemma FullOnlyIf<T(!new)>(run: seq<State<T>>, n: nat, t: nat, ch: Choice<T>)
    requires IsRun(run) && n < |run| && CanStep(run[n], t, ch)
    requires IsPushing(run[n].threads[t]) && !run[n].threads[t].PushWritten? && !IsPushing(Step(run[n], t, ch).threads[t])
    ensures NoRoom(run[n])
  {
    RunInv(run, n);
    var s := run[n];
    assert ThreadOk(s, t);
    PushSees(s, s.threads[t].pos);
    var lap := s.enq - |s.cells|;
    assert lap >= 0 && PhaseOk(s, lap);
  }

  /** Wherever a pop is, unless it has emptied its slot, a step ends it only if there is no item to take. */
  lemma EmptyOnlyIf<T(!new)>(run: seq<State<T>>, n: nat, t: nat, ch: Choice<T>)
    requires IsRun(run) && n < |run| && CanStep(run[n], t, ch)
    requires IsPopping(run[n].threads[t]) && !run[n].threads[t].PopTaken? && !IsPopping(Step(run[n], t, ch).threads[t])
    ensures NoItem(run[n])
  {
    RunInv(run, n);
    var s := run[n];
    assert ThreadOk(s, t);
    PopSees(s, s.threads[t].pos);
    if s.deq < s.enq {
      assert PhaseOk(s, s.deq);
    }
  }

  ghost predicate Quiescent<T>(s: State<T>) {
    forall t :: 0 <= t < |s.threads| ==> s.threads[t].Idle?
  }

  /**
   Conservation: with no call in progress, the positions returned are exactly those below the
   dequeue counter, each with the value pushed there, and the rest is the queue.
   */
  lemma QuietConserves<T(!new)>(run: seq<State<T>>, n: nat)
    requires IsRun(run) && n < |run| && Quiescent(run[n])
    ensures run[n].deq <= run[n].enq == |run[n].log|
    ensures forall p: nat :: p in run[n].got <==> p < run[n].deq
    ensures forall p :: 0 <= p < run[n].deq ==> p in run[n].got && run[n].got[p] == run[n].log[p]
    ensures run[n].log == run[n].log[..run[n].deq] + Contents(run[n])
  {
    RunInv(run, n);
    var s := run[n];
    forall p | 0 <= p < s.enq
      ensures s.phases[p].Published? || s.phases[p].Released?
    {
      assert PhaseOk(s, p);
    }
    forall p: nat
      ensures p in s.got <==> p < s.deq
      ensures p < s.deq ==> s.got[p] == s.log[p]
    {
      if p < s.enq {
        assert PhaseOk(s, p);
      }
    }
  }

  /** With no call in progress the tag at the tail says whether the queue is full. */
  lemma TailTag<T>(s: State<T>)
    requires Inv(s) && Quiescent(s)
    ensures CellAt(s, s.enq).sequence == s.enq <==> |Contents(s)| < |s.cells|
    ensures CellAt(s, s.enq).sequence < s.enq <==> |Contents(s)| == |s.cells|
  {
    var lap := s.enq - |s.cells|;
    Multiples.NextLap(s.enq, |s.cells|);
    assert CellOk(s, lap);
    if lap >= 0 {
      assert PhaseOk(s, lap);
    }
  }

  /** And the tag at the head says whether it is empty. */
  lemma HeadTag<T>(s: State<T>)
    requires Inv(s) && Quiescent(s)
    ensures CellAt(s, s.deq).sequence == s.deq + 1 <==> |Contents(s)| > 0
    ensures CellAt(s, s.deq).sequence < s.deq + 1 <==> |Contents(s)| == 0
    ensures |Contents(s)| > 0 ==> CellAt(s, s.deq).data == Contents(s)[0]
  {
    if s.deq < s.enq {
      assert PhaseOk(s, s.deq) && CellOk(s, s.deq);
    } else {
      TailTag(s);
    }
  }

  /**
   With no other call in progress tryPush fails exactly when the queue is full and tryPop
   exactly when it is empty, and the head cell holds the oldest value.
   */
  lemma QuietAnswers<T(!new)>(run: seq<State<T>>, n: nat)
    requires IsRun(run) && n < |run| && Quiescent(run[n])
    ensures var s := run[n];
            && |s.cells| > 0 && s.deq <= s.enq <= |s.log|
            && (CellAt(s, s.enq).sequence == s.enq <==> |Contents(s)| < |s.cells|)
            && (CellAt(s, s.enq).sequence < s.enq <==> |Contents(s)| == |s.cells|)
            && (CellAt(s, s.deq).sequence == s.deq + 1 <==> |Contents(s)| > 0)
            && (CellAt(s, s.deq).sequence < s.deq + 1 <==> |Contents(s)| == 0)
            && (|Contents(s)| > 0 ==> CellAt(s, s.deq).data == Contents(s)[0])
  {
    RunInv(run, n);
    TailTag(run[n]);
    HeadTag(run[n]);
  }
}
