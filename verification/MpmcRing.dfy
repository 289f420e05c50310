/**
 The bounded multi-producer multi-consumer ring of src/lock_free_queue.hpp.

 Any number of threads run tryPush and tryPop; every step performs one access to a shared
 variable, so a slot is claimed, filled and published (claimed, emptied and released) in
 separate steps.  Positions are unbounded.  `log` and `phases` are history: the value that
 was claimed for each enqueue position, and how far its slot has got; `got` records what
 each dequeue position returned.
 */
module MpmcRing {
  import opened Multiples

  datatype Cell<T> = Cell(sequence: int, data: T)

  /** What has happened to the slot of one position, and which thread is at it. */
  datatype Phase =
    | Claimed(owner: nat)
    | Written(owner: nat)
    | Published
    | Taken(owner: nat)
    | Emptied(owner: nat)
    | Released

  /** Where a thread is in tryPush or tryPop. */
  datatype Thread<T> =
    | Idle
    | PushStart(item: T)
    | PushLoaded(item: T, pos: nat)
    | PushChecked(item: T, pos: nat)
    | PushClaimed(item: T, pos: nat)
    | PushWritten(pos: nat)
    | PopStart
    | PopLoaded(pos: nat)
    | PopChecked(pos: nat)
    | PopClaimed(pos: nat)
    | PopTaken(pos: nat, item: T)

  datatype State<T> = State(
    cells: seq<Cell<T>>,
    enq: nat,
    deq: nat,
    threads: seq<Thread<T>>,
    log: seq<T>,
    phases: seq<Phase>,
    got: map<nat, T>)

  /** What a thread is asked to do next; `Spurious` lets a weak compare-exchange fail. */
  datatype Choice<T> = Push(item: T) | Pop | Go | Spurious

  predicate WellFormed<T>(s: State<T>) {
    |s.cells| >= 2 && |s.log| == |s.phases| == s.enq
  }

  function CellAt<T>(s: State<T>, pos: int): Cell<T>
    requires |s.cells| > 0
  {
    s.cells[pos % |s.cells|]
  }

  function WithCell<T>(s: State<T>, pos: int, cell: Cell<T>): State<T>
    requires |s.cells| > 0
  {
    s.(cells := s.cells[pos % |s.cells| := cell])
  }

  predicate CanStep<T>(s: State<T>, t: nat, ch: Choice<T>) {
    && WellFormed(s) && t < |s.threads|
    && (s.threads[t].Idle? <==> ch.Push? || ch.Pop?)
    && (ch.Spurious? ==> s.threads[t].PushChecked? || s.threads[t].PopChecked?)
  }

  /** One step of thread `t`. */
  function Step<T>(s: State<T>, t: nat, ch: Choice<T>): State<T>
    requires CanStep(s, t, ch)
  {
    match s.threads[t]
    case Idle => At(s, t, if ch.Push? then PushStart(ch.item) else PopStart)
    case PushStart(x) => At(s, t, PushLoaded(x, s.enq))
    case PushLoaded(x, pos) =>
      var diff := CellAt(s, pos).sequence - pos;
      At(s, t, if diff == 0 then PushChecked(x, pos) else if diff < 0 then Idle else PushStart(x))
    case PushChecked(x, pos) =>
      if s.enq == pos && ch.Go? then
        At(s, t, PushClaimed(x, pos)).(enq := pos + 1, log := s.log + [x], phases := s.phases + [Claimed(t)])
      else
        At(s, t, PushLoaded(x, s.enq))
    case PushClaimed(x, pos) =>
      InPhase(At(WithCell(s, pos, CellAt(s, pos).(data := x)), t, PushWritten(pos)), pos, Written(t))
    case PushWritten(pos) =>
      InPhase(At(WithCell(s, pos, CellAt(s, pos).(sequence := pos + 1)), t, Idle), pos, Published)
    case PopStart => At(s, t, PopLoaded(s.deq))
    case PopLoaded(pos) =>
      var diff := CellAt(s, pos).sequence - (pos + 1);
      At(s, t, if diff == 0 then PopChecked(pos) else if diff < 0 then Idle else PopStart)
    case PopChecked(pos) =>
      if s.deq == pos && ch.Go? then
        InPhase(At(s, t, PopClaimed(pos)).(deq := pos + 1), pos, Taken(t))
      else
        At(s, t, PopLoaded(s.deq))
    case PopClaimed(pos) => InPhase(At(s, t, PopTaken(pos, CellAt(s, pos).data)), pos, Emptied(t))
    case PopTaken(pos, x) =>
      InPhase(At(WithCell(s, pos, CellAt(s, pos).(sequence := pos + |s.cells|)), t, Idle), pos, Released)
      .(got := s.got[pos := x])
  }

  function At<T>(s: State<T>, t: nat, thread: Thread<T>): State<T>
    requires t < |s.threads|
  {
    s.(threads := s.threads[t := thread])
  }

  function InPhase<T>(s: State<T>, pos: nat, phase: Phase): State<T>
  {
    if pos < |s.phases| then s.(phases := s.phases[pos := phase]) else s
  }

  predicate Init<T>(s: State<T>) {
    && |s.cells| >= 2
    && (forall i :: 0 <= i < |s.cells| ==> s.cells[i].sequence == i)
    && s.enq == s.deq == 0 && s.log == [] && s.phases == [] && s.got == map[]
    && (forall t :: 0 <= t < |s.threads| ==> s.threads[t] == Idle)
  }

  ghost predicate Next<T(!new)>(s: State<T>, s': State<T>) {
    exists t, ch :: CanStep(s, t, ch) && s' == Step(s, t, ch)
  }

  ghost predicate IsRun<T(!new)>(run: seq<State<T>>) {
    && run != []
    && Init(run[0])
    && forall i :: 0 <= i < |run| - 1 ==> Linked(run, i)
  }

  ghost predicate Linked<T(!new)>(run: seq<State<T>>, i: nat)
    requires i < |run| - 1
  {
    Next(run[i], run[i + 1])
  }

  // ---- Positions and cells ----

  /** Two positions less than one lap apart share a cell only if they are equal. */
  lemma SameCell(p: int, q: int, cap: int)
    requires cap > 0 && p % cap == q % cap && -cap < p - q < cap
    ensures p == q
  {
    Divides(cap, p / cap, 0, q / cap, p - q);
  }

  // ---- The invariant ----

  /** The phase of a position of the current lap; cells never used yet count as released by the lap before. */
  function PhaseAt<T>(s: State<T>, p: int): Phase
    requires p < |s.phases|
  {
    if p < 0 then Released else s.phases[p]
  }

  function SequenceFor(phase: Phase, p: int, cap: nat): int {
    match phase
    case Claimed(_) => p
    case Written(_) => p
    case Published => p + 1
    case Taken(_) => p + 1
    case Emptied(_) => p + 1
    case Released => p + cap
  }

  predicate HoldsData(phase: Phase) {
    phase.Written? || phase.Published? || phase.Taken?
  }

  /** The cell of a position in the last lap before `enq`. */
  ghost predicate CellOk<T>(s: State<T>, p: int)
    requires WellFormed(s) && p < s.enq
  {
    && CellAt(s, p).sequence == SequenceFor(PhaseAt(s, p), p, |s.cells|)
    && (HoldsData(PhaseAt(s, p)) ==> CellAt(s, p).data == s.log[p])
  }

  predicate InWindow<T>(s: State<T>, p: int) {
    s.enq - |s.cells| <= p < s.enq
  }

  /** What a phase says about the counters and the thread at work. */
  ghost predicate PhaseOk<T>(s: State<T>, p: nat)
    requires WellFormed(s) && p < s.enq
  {
    && (p < s.deq <==> s.phases[p].Taken? || s.phases[p].Emptied? || s.phases[p].Released?)
    && (p < s.enq - |s.cells| ==> s.phases[p].Released?)
    && (s.phases[p].Released? <==> p in s.got)
    && (p in s.got ==> s.got[p] == s.log[p])
    && match s.phases[p]
       case Claimed(t) => t < |s.threads| && s.threads[t] == PushClaimed(s.log[p], p)
       case Written(t) => t < |s.threads| && s.threads[t] == PushWritten(p)
       case Taken(t) => t < |s.threads| && s.threads[t] == PopClaimed(p)
       case Emptied(t) => t < |s.threads| && s.threads[t] == PopTaken(p, s.log[p])
       case _ => true
  }

  /** What a thread knows. */
  ghost predicate ThreadOk<T>(s: State<T>, t: nat)
    requires WellFormed(s) && t < |s.threads|
  {
    match s.threads[t]
    case PushLoaded(_, pos) => pos <= s.enq
    case PushChecked(_, pos) => pos <= s.enq && (pos == s.enq ==> PhaseAt(s, pos - |s.cells|) == Released)
    case PushClaimed(x, pos) => pos < s.enq && s.phases[pos] == Claimed(t)
    case PushWritten(pos) => pos < s.enq && s.phases[pos] == Written(t)
    case PopLoaded(pos) => pos <= s.deq
    case PopChecked(pos) => pos <= s.deq && (pos == s.deq ==> pos < s.enq && s.phases[pos] == Published)
    case PopClaimed(pos) => pos < s.enq && s.phases[pos] == Taken(t)
    case PopTaken(pos, x) => pos < s.enq && s.phases[pos] == Emptied(t)
    case _ => true
  }

  ghost predicate Inv<T>(s: State<T>) {
    && WellFormed(s)
    && s.deq <= s.enq <= s.deq + |s.cells|
    && (forall p :: InWindow(s, p) ==> CellOk(s, p))
    && (forall p :: 0 <= p < s.enq ==> PhaseOk(s, p))
    && (forall t :: 0 <= t < |s.threads| ==> ThreadOk(s, t))
    && (forall p :: p in s.got ==> p < s.enq)
  }

  lemma InitInv<T>(s: State<T>)
    requires Init(s)
    ensures Inv(s)
  {
    forall p | InWindow(s, p)
      ensures CellOk(s, p)
    {
      NextLap(p + |s.cells|, |s.cells|);
    }
  }

  /** The position of the last lap that uses the cell of an older position. */
  lemma LastLap<T>(s: State<T>, pos: nat) returns (p: int)
    requires Inv(s) && pos <= s.enq
    ensures InWindow(s, p) && CellAt(s, p) == CellAt(s, pos)
    ensures pos == s.enq ==> p == pos - |s.cells|
    ensures pos < s.enq ==> p >= pos && (p == pos || p >= pos + |s.cells|)
  {
    var cap := |s.cells|;
    p := pos;
    if pos == s.enq {
      p := pos - cap;
      NextLap(pos, cap);
    } else {
      while p < s.enq - cap
        invariant pos <= p < s.enq && p % cap == pos % cap && (p == pos || p >= pos + cap)
      {
        NextLap(p + cap, cap);
        p := p + cap;
      }
    }
  }

  // ---- Steps ----

  predicate Owns<T>(thread: Thread<T>) {
    thread.PushClaimed? || thread.PushWritten? || thread.PopClaimed? || thread.PopTaken?
  }

  /** A step that only moves a thread between places where it owns no slot. */
  lemma LocalStep<T>(s: State<T>, t: nat, thread: Thread<T>)
    requires Inv(s) && t < |s.threads| && !Owns(s.threads[t]) && !Owns(thread)
    requires ThreadOk(At(s, t, thread), t)
    ensures Inv(At(s, t, thread))
  {
    var s' := At(s, t, thread);
    forall p | InWindow(s', p)
      ensures CellOk(s', p)
    {
      assert InWindow(s, p) && CellOk(s, p);
    }
    forall p | 0 <= p < s'.enq
      ensures PhaseOk(s', p)
    {
      assert PhaseOk(s, p);
    }
    forall u | 0 <= u < |s'.threads|
      ensures ThreadOk(s', u)
    {
      assert ThreadOk(s, u);
    }
  }

  /** The sequence number a producer reads tells it whether the slot of the next position is free. */
  lemma PushSees<T>(s: State<T>, pos: nat)
    requires Inv(s) && pos <= s.enq
    ensures pos == s.enq && CellAt(s, pos).sequence == pos ==> PhaseAt(s, pos - |s.cells|) == Released
    ensures CellAt(s, pos).sequence < pos ==> pos == s.enq && PhaseAt(s, pos - |s.cells|) != Released
  {
    var p := LastLap(s, pos);
    assert CellOk(s, p);
  }

  /** The sequence number a consumer reads tells it whether the slot of the next position is published. */
  lemma PopSees<T>(s: State<T>, pos: nat)
    requires Inv(s) && pos <= s.deq
    ensures pos == s.deq && CellAt(s, pos).sequence == pos + 1 ==> pos < s.enq && s.phases[pos] == Published
    ensures CellAt(s, pos).sequence < pos + 1 ==> pos == s.deq && (pos < s.enq ==> s.phases[pos] != Published)
  {
    var p := LastLap(s, pos);
    assert CellOk(s, p);
    if 0 <= pos < s.enq {
      assert PhaseOk(s, pos);
    }
  }

  lemma ClaimPush<T>(s: State<T>, t: nat)
    requires Inv(s) && t < |s.threads| && s.threads[t].PushChecked? && s.enq == s.threads[t].pos
    ensures Inv(Step(s, t, Go))
  {
    var s' := Step(s, t, Go);
    var cap := |s.cells|;
    assert ThreadOk(s, t);
    NextLap(s.enq, cap);
    assert CellOk(s, s.enq - cap);
    forall p | InWindow(s', p)
      ensures CellOk(s', p)
    {
      if p < s.enq {
        assert CellOk(s, p);
      }
    }
    if s.enq >= cap {
      assert PhaseOk(s, s.enq - cap);
    }
    forall p | 0 <= p < s'.enq
      ensures PhaseOk(s', p)
    {
      if p < s.enq {
        assert PhaseOk(s, p);
      }
    }
    forall u | 0 <= u < |s'.threads|
      ensures ThreadOk(s', u)
    {
      assert ThreadOk(s, u);
    }
  }

  /** Claiming the head changes its phase and the dequeue counter, and no cell. */
  ghost predicate HeadStep<T>(s: State<T>, s': State<T>, t: nat)
    requires WellFormed(s) && t < |s.threads| && s.deq < s.enq
  {
    && s'.cells == s.cells && s'.enq == s.enq && s'.log == s.log && s'.got == s.got
    && s'.deq == s.deq + 1
    && s'.phases == s.phases[s.deq := Taken(t)]
    && s'.threads == s.threads[t := PopClaimed(s.deq)]
  }

  lemma HeadPhases<T>(s: State<T>, s': State<T>, t: nat, p: nat)
    requires WellFormed(s) && t < |s.threads| && s.deq < s.enq && HeadStep(s, s', t)
    requires p < s.enq && PhaseOk(s, p) && s.phases[s.deq] == Published && !Owns(s.threads[t])
    ensures PhaseOk(s', p)
  {
  }

  lemma HeadThreads<T>(s: State<T>, s': State<T>, t: nat, u: nat)
    requires WellFormed(s) && t < |s.threads| && s.deq < s.enq && HeadStep(s, s', t)
    requires u < |s.threads| && ThreadOk(s, u) && s.phases[s.deq] == Published
    ensures ThreadOk(s', u)
  {
  }

  lemma ClaimPop<T>(s: State<T>, t: nat)
    requires Inv(s) && t < |s.threads| && s.threads[t].PopChecked? && s.deq == s.threads[t].pos
    ensures Inv(Step(s, t, Go))
  {
    var s' := Step(s, t, Go);
    assert ThreadOk(s, t);
    forall p | InWindow(s', p)
      ensures CellOk(s', p)
    {
      assert InWindow(s, p) && CellOk(s, p);
    }
    forall p | 0 <= p < s'.enq
      ensures PhaseOk(s', p)
    {
      HeadPhases(s, s', t, p);
    }
    forall u | 0 <= u < |s'.threads|
      ensures ThreadOk(s', u)
    {
      HeadThreads(s, s', t, u);
    }
  }

  /** A step that works on an owned slot: its own cell, its own phase and nothing else. */
  ghost predicate SlotStep<T>(s: State<T>, s': State<T>, t: nat, pos: nat, cell: Cell<T>, phase: Phase, thread: Thread<T>)
    requires WellFormed(s) && t < |s.threads| && pos < s.enq
  {
    && s'.cells == s.cells[pos % |s.cells| := cell]
    && s'.phases == s.phases[pos := phase]
    && s'.threads == s.threads[t := thread]
    && s'.enq == s.enq && s'.deq == s.deq && s'.log == s.log
    && s'.got == (if phase.Released? then s.got[pos := s.log[pos]] else s.got)
  }

  lemma SlotCells<T>(s: State<T>, s': State<T>, t: nat, pos: nat, cell: Cell<T>, phase: Phase, thread: Thread<T>, p: int)
    requires WellFormed(s) && t < |s.threads| && pos < s.enq && SlotStep(s, s', t, pos, cell, phase, thread) && WellFormed(s')
    requires InWindow(s, pos) && InWindow(s, p) && p != pos && CellOk(s, p)
    ensures CellOk(s', p)
  {
    if p % |s.cells| == pos % |s.cells| {
      SameCell(p, pos, |s.cells|);
    }
  }

  lemma SlotPhases<T>(s: State<T>, s': State<T>, t: nat, pos: nat, cell: Cell<T>, phase: Phase, thread: Thread<T>, p: nat)
    requires WellFormed(s) && t < |s.threads| && pos < s.enq && SlotStep(s, s', t, pos, cell, phase, thread) && WellFormed(s')
    requires Owns(s.threads[t]) && s.threads[t].pos == pos && p < s.enq && p != pos && PhaseOk(s, p)
    ensures PhaseOk(s', p)
  {
  }

  lemma SlotThreads<T>(s: State<T>, s': State<T>, t: nat, pos: nat, cell: Cell<T>, phase: Phase, thread: Thread<T>, u: nat)
    requires WellFormed(s) && t < |s.threads| && pos < s.enq && SlotStep(s, s', t, pos, cell, phase, thread) && WellFormed(s')
    requires PhaseOk(s, pos) && ThreadOk(s, t) && Owns(s.threads[t]) && s.threads[t].pos == pos
    requires !s.phases[pos].Published? && !s.phases[pos].Released?
    requires u < |s.threads| && u != t && ThreadOk(s, u)
    ensures ThreadOk(s', u)
  {
  }

  lemma SlotStepOk<T>(s: State<T>, s': State<T>, t: nat, pos: nat, cell: Cell<T>, phase: Phase, thread: Thread<T>)
    requires Inv(s) && t < |s.threads| && pos < s.enq && SlotStep(s, s', t, pos, cell, phase, thread)
    requires InWindow(s, pos) && Owns(s.threads[t]) && s.threads[t].pos == pos
    requires WellFormed(s') && CellOk(s', pos) && PhaseOk(s', pos) && ThreadOk(s', t)
    requires !s.phases[pos].Published? && !s.phases[pos].Released?
    ensures Inv(s')
  {
    forall p | InWindow(s', p)
      ensures CellOk(s', p)
    {
      assert InWindow(s, p) && CellOk(s, p);
      if p != pos {
        SlotCells(s, s', t, pos, cell, phase, thread, p);
      }
    }
    forall p | 0 <= p < s'.enq
      ensures PhaseOk(s', p)
    {
      if p != pos {
        SlotPhases(s, s', t, pos, cell, phase, thread, p);
      }
    }
    forall u | 0 <= u < |s'.threads|
      ensures ThreadOk(s', u)
    {
      if u != t {
        SlotThreads(s, s', t, pos, cell, phase, thread, u);
      }
    }
  }

  lemma OwnedInWindow<T>(s: State<T>, t: nat)
    requires Inv(s) && t < |s.threads| && Owns(s.threads[t])
    ensures s.threads[t].pos < s.enq && InWindow(s, s.threads[t].pos)
    ensures CellOk(s, s.threads[t].pos) && PhaseOk(s, s.threads[t].pos)
  {
    assert ThreadOk(s, t);
    assert PhaseOk(s, s.threads[t].pos);
  }

  lemma OwnedStep<T>(s: State<T>, t: nat)
    requires Inv(s) && t < |s.threads| && Owns(s.threads[t])
    ensures Inv(Step(s, t, Go))
  {
    OwnedInWindow(s, t);
    assert ThreadOk(s, t);
    var s' := Step(s, t, Go);
    var pos := s.threads[t].pos;
    SlotStepOk(s, s', t, pos, CellAt(s', pos), s'.phases[pos], s'.threads[t]);
  }

  lemma InvStep<T>(s: State<T>, t: nat, ch: Choice<T>)
    requires Inv(s) && CanStep(s, t, ch)
    ensures Inv(Step(s, t, ch))
  {
    assert ThreadOk(s, t);
    var thread := s.threads[t];
    if Owns(thread) {
      OwnedStep(s, t);
    } else if thread.PushChecked? && s.enq == thread.pos && ch.Go? {
      ClaimPush(s, t);
    } else if thread.PopChecked? && s.deq == thread.pos && ch.Go? {
      ClaimPop(s, t);
    } else {
      if thread.PushLoaded? {
        PushSees(s, thread.pos);
      } else if thread.PopLoaded? {
        PopSees(s, thread.pos);
      }
      LocalStep(s, t, Step(s, t, ch).threads[t]);
    }
  }

  lemma {:induction false} RunInv<T(!new)>(run: seq<State<T>>, n: nat)
    requires IsRun(run) && n < |run|
    ensures Inv(run[n])
  {
    if n == 0 {
      InitInv(run[0]);
    } else {
      RunInv(run, n - 1);
      assert Linked(run, n - 1);
      var t, ch :| CanStep(run[n - 1], t, ch) && run[n] == Step(run[n - 1], t, ch);
      InvStep(run[n - 1], t, ch);
    }
  }
}
