/**
 The statistics of LockFreeNodeQueue in src/lock_free_queue.hpp, over the concurrent ring:
 any number of threads push, pop, evict and clear in any interleaving, and count what they
 did in a step of its own after the ring operation has finished, as they do when statistics
 are tracked.  Every drop policy is a sequence of such calls.
 */
module CountedRing {
  import opened Stacks
  import opened MpmcRing
  import opened RingResults

  /** Why an item left the queue: a consumer took it, an overflow evicted it, or clear() discarded it. */
  datatype Reason = Popped | Dropped | Cleared

  /** The call a thread is in, whether it has claimed its position, or the count it owes. */
  datatype Call =
    | Free
    | Pushing(claimed: bool)
    | Taking(reason: Reason, claimed: bool)
    | OwesPush
    | OwesTake(reason: Reason)

  /** `taken` is history: the reason for which each dequeue position was claimed. */
  datatype Queue<T> = Queue(ring: State<T>, calls: seq<Call>, pushed: nat, popped: nat, dropped: nat, taken: seq<Reason>)

  /** What a thread is asked to do next: to begin a call, to go on with it, or to count. */
  datatype Order<T> = Put(item: T) | Take(reason: Reason) | Continue(spurious: bool) | Count

  function ChoiceOf<T>(order: Order<T>): Choice<T> {
    match order
    case Put(x) => Push(x)
    case Take(_) => Pop
    case Continue(spurious) => if spurious then Spurious else Go
    case Count => Go
  }

  predicate Owes(call: Call) {
    call.OwesPush? || call.OwesTake?
  }

  predicate CanAct<T>(q: Queue<T>, t: nat, order: Order<T>) {
    && |q.calls| == |q.ring.threads| && t < |q.calls|
    && (order.Count? <==> Owes(q.calls[t]))
    && (!order.Count? ==> CanStep(q.ring, t, ChoiceOf(order)))
  }

  /** The call after a step of the ring took its thread from `before` to `after`. */
  function CallAfter<T>(call: Call, order: Order<T>, before: Thread<T>, after: Thread<T>): Call {
    match before
    case Idle => if order.Take? then Taking(order.reason, false) else Pushing(false)
    case PushWritten(_) => OwesPush
    case PopTaken(_, _) => if call.Taking? then OwesTake(call.reason) else call
    case _ =>
      if after.Idle? then Free
      else if after.PushClaimed? then Pushing(true)
      else if after.PopClaimed? && call.Taking? then call.(claimed := true)
      else call
  }

  function Act<T>(q: Queue<T>, t: nat, order: Order<T>): Queue<T>
    requires CanAct(q, t, order)
  {
    if order.Count? then Counted(q, t)
    else
      var ring := Step(q.ring, t, ChoiceOf(order));
      q.(ring := ring,
         calls := q.calls[t := CallAfter(q.calls[t], order, q.ring.threads[t], ring.threads[t])],
         taken := if ring.deq > q.ring.deq && q.calls[t].Taking? then q.taken + [q.calls[t].reason] else q.taken)
  }

  /** The step that counts; what clear() discards is not counted. */
  function Counted<T>(q: Queue<T>, t: nat): Queue<T>
    requires t < |q.calls|
  {
    var free := q.calls[t := Free];
    match q.calls[t]
    case OwesPush => q.(calls := free, pushed := q.pushed + 1)
    case OwesTake(Popped) => q.(calls := free, popped := q.popped + 1)
    case OwesTake(Dropped) => q.(calls := free, dropped := q.dropped + 1)
    case _ => q.(calls := free)
  }

  predicate Fresh<T>(q: Queue<T>) {
    && Init(q.ring) && |q.calls| == |q.ring.threads| && q.pushed == q.popped == q.dropped == 0 && q.taken == []
    && forall t :: 0 <= t < |q.calls| ==> q.calls[t] == Free
  }

  ghost predicate Acts<T(!new)>(q: Queue<T>, q': Queue<T>) {
    exists t, order :: CanAct(q, t, order) && q' == Act(q, t, order)
  }

  ghost predicate IsHistory<T(!new)>(run: seq<Queue<T>>) {
    && run != [] && Fresh(run[0])
    && forall i :: 0 <= i < |run| - 1 ==> Joined(run, i)
  }

  ghost predicate Joined<T(!new)>(run: seq<Queue<T>>, i: nat)
    requires i < |run| - 1
  {
    Acts(run[i], run[i + 1])
  }

  // ---- The invariant ----

  /** Pushes that took effect and have not been counted. */
  function PushW(): Call -> int {
    (c: Call) => One((c.Pushing? && c.claimed) || c.OwesPush?)
  }

  /** Removals that took effect and have not been counted. */
  function TakeW(reason: Reason): Call -> int {
    (c: Call) => One(((c.Taking? && c.claimed) || c.OwesTake?) && c.reason == reason)
  }

  function CountOf(taken: seq<Reason>, reason: Reason): nat {
    if taken == [] then 0 else CountOf(taken[..|taken| - 1], reason) + if taken[|taken| - 1] == reason then 1 else 0
  }

  /** A call and the place its thread has got to. */
  predicate CallOk<T>(call: Call, thread: Thread<T>) {
    match thread
    case Idle => call.Free? || Owes(call)
    case PushStart(_) => call == Pushing(false)
    case PushLoaded(_, _) => call == Pushing(false)
    case PushChecked(_, _) => call == Pushing(false)
    case PushClaimed(_, _) => call == Pushing(true)
    case PushWritten(_) => call == Pushing(true)
    case PopStart => call.Taking? && !call.claimed
    case PopLoaded(_) => call.Taking? && !call.claimed
    case PopChecked(_) => call.Taking? && !call.claimed
    case PopClaimed(_) => call.Taking? && call.claimed
    case PopTaken(_, _) => call.Taking? && call.claimed
  }

  ghost predicate Balanced<T>(q: Queue<T>) {
    && q.pushed + Sum(PushW(), q.calls) == q.ring.enq
    && q.popped + Sum(TakeW(Popped), q.calls) == CountOf(q.taken, Popped)
    && q.dropped + Sum(TakeW(Dropped), q.calls) == CountOf(q.taken, Dropped)
    && |q.taken| == q.ring.deq
  }

  ghost predicate CountInv<T>(q: Queue<T>) {
    && Inv(q.ring) && |q.calls| == |q.ring.threads|
    && (forall t :: 0 <= t < |q.calls| ==> CallOk(q.calls[t], q.ring.threads[t]))
    && Balanced(q)
  }

  lemma {:induction false} NoneOwed(w: Call -> int, calls: seq<Call>)
    requires w(Free) == 0 && forall t :: 0 <= t < |calls| ==> calls[t] == Free
    ensures Sum(w, calls) == 0
  {
    if calls != [] {
      NoneOwed(w, calls[1..]);
    }
  }

  lemma OneTaken(taken: seq<Reason>, reason: Reason, r: Reason)
    ensures CountOf(taken + [reason], r) == CountOf(taken, r) + if reason == r then 1 else 0
  {
    assert (taken + [reason])[..|taken|] == taken;
  }

  /** What a step of the ring does to its counters and to one thread. */
  lemma RingMoves<T>(s: State<T>, t: nat, ch: Choice<T>)
    requires CanStep(s, t, ch) && Inv(s)
    ensures var s' := Step(s, t, ch);
            var before, after := s.threads[t], s'.threads[t];
            && s'.threads == s.threads[t := after]
            && s'.enq == s.enq + One(before.PushChecked? && after.PushClaimed?)
            && s'.deq == s.deq + One(before.PopChecked? && after.PopClaimed?)
  {
    assert ThreadOk(s, t);
  }

  /** The call follows its thread. */
  lemma CallFollows<T>(q: Queue<T>, t: nat, order: Order<T>)
    requires CanAct(q, t, order) && !order.Count? && Inv(q.ring) && CallOk(q.calls[t], q.ring.threads[t])
    ensures CallOk(Act(q, t, order).calls[t], Act(q, t, order).ring.threads[t])
  {
  }

  lemma CallsFollow<T>(q: Queue<T>, t: nat, order: Order<T>)
    requires CountInv(q) && CanAct(q, t, order)
    ensures forall u :: 0 <= u < |q.calls| ==> CallOk(Act(q, t, order).calls[u], Act(q, t, order).ring.threads[u])
  {
    var q' := Act(q, t, order);
    if !order.Count? {
      RingMoves(q.ring, t, ChoiceOf(order));
      CallFollows(q, t, order);
    }
    forall u | 0 <= u < |q.calls|
      ensures CallOk(q'.calls[u], q'.ring.threads[u])
    {
      assert CallOk(q.calls[u], q.ring.threads[u]);
    }
  }

  /** What is owed changes with what has taken effect. */
  lemma OwedFollows<T>(q: Queue<T>, t: nat, order: Order<T>)
    requires CanAct(q, t, order) && !order.Count? && Inv(q.ring) && CallOk(q.calls[t], q.ring.threads[t])
    ensures var q' := Act(q, t, order);
            var call, call' := q.calls[t], q'.calls[t];
            && PushW()(call') - PushW()(call) == q'.ring.enq - q.ring.enq
            && (q'.ring.deq == q.ring.deq ==> q'.taken == q.taken && forall r :: TakeW(r)(call') == TakeW(r)(call))
            && (q'.ring.deq != q.ring.deq ==>
                  && q'.ring.deq == q.ring.deq + 1 && call.Taking? && q'.taken == q.taken + [call.reason]
                  && forall r :: TakeW(r)(call') - TakeW(r)(call) == One(call.reason == r))
  {
    RingMoves(q.ring, t, ChoiceOf(order));
  }

  lemma RingBalances<T>(q: Queue<T>, t: nat, order: Order<T>)
    requires CountInv(q) && CanAct(q, t, order) && !order.Count?
    ensures Balanced(Act(q, t, order))
  {
    var q' := Act(q, t, order);
    assert CallOk(q.calls[t], q.ring.threads[t]);
    OwedFollows(q, t, order);
    SumUpdate(PushW(), q.calls, t, q'.calls[t]);
    SumUpdate(TakeW(Popped), q.calls, t, q'.calls[t]);
    SumUpdate(TakeW(Dropped), q.calls, t, q'.calls[t]);
    if q.calls[t].Taking? {
      OneTaken(q.taken, q.calls[t].reason, Popped);
      OneTaken(q.taken, q.calls[t].reason, Dropped);
    }
  }

  lemma CountBalances<T>(q: Queue<T>, t: nat)
    requires CountInv(q) && t < |q.calls| && Owes(q.calls[t])
    ensures Balanced(Counted(q, t))
  {
    SumUpdate(PushW(), q.calls, t, Free);
    SumUpdate(TakeW(Popped), q.calls, t, Free);
    SumUpdate(TakeW(Dropped), q.calls, t, Free);
  }

  lemma RingKeeps<T>(q: Queue<T>, t: nat, order: Order<T>)
    requires CountInv(q) && CanAct(q, t, order) && !order.Count?
    ensures CountInv(Act(q, t, order))
  {
    var q' := Act(q, t, order);
    CallsFollow(q, t, order);
    RingBalances(q, t, order);
    InvStep(q.ring, t, ChoiceOf(order));
    assert |q'.calls| == |q'.ring.threads| by {
      RingMoves(q.ring, t, ChoiceOf(order));
    }
  }

  lemma CountStep<T>(q: Queue<T>, t: nat, order: Order<T>)
    requires CountInv(q) && CanAct(q, t, order)
    ensures CountInv(Act(q, t, order))
  {
    if order.Count? {
      CallsFollow(q, t, order);
      CountBalances(q, t);
    } else {
      RingKeeps(q, t, order);
    }
  }

  /** At every moment of every run, each counter lacks exactly the operations that have taken effect and are not counted yet. */
  lemma {:induction false} CountsLag<T(!new)>(run: seq<Queue<T>>, n: nat)
    requires IsHistory(run) && n < |run|
    ensures CountInv(run[n])
  {
    if n == 0 {
      InitInv(run[0].ring);
      NoneOwed(PushW(), run[0].calls);
      NoneOwed(TakeW(Popped), run[0].calls);
      NoneOwed(TakeW(Dropped), run[0].calls);
    } else {
      CountsLag(run, n - 1);
      assert Joined(run, n - 1);
      var t, order :| CanAct(run[n - 1], t, order) && run[n] == Act(run[n - 1], t, order);
      CountStep(run[n - 1], t, order);
    }
  }

  // ---- Conservation ----

  /** No call is in progress and every count is up to date. */
  predicate AtRest<T>(q: Queue<T>) {
    forall t :: 0 <= t < |q.calls| ==> q.calls[t] == Free
  }

  /** The items that left for a reason, in order. */
  function Left<T>(items: seq<T>, taken: seq<Reason>, reason: Reason): seq<T>
    requires |taken| <= |items|
    decreases |taken|
  {
    if taken == [] then []
    else
      var n := |taken| - 1;
      Left(items, taken[..n], reason) + if taken[n] == reason then [items[n]] else []
  }

  lemma {:induction false} LeftCounts<T>(items: seq<T>, taken: seq<Reason>, reason: Reason)
    requires |taken| <= |items|
    ensures |Left(items, taken, reason)| == CountOf(taken, reason)
    decreases |taken|
  {
    if taken != [] {
      LeftCounts(items, taken[..|taken| - 1], reason);
    }
  }

  lemma {:induction false} ReasonsCount(taken: seq<Reason>)
    ensures CountOf(taken, Popped) + CountOf(taken, Dropped) + CountOf(taken, Cleared) == |taken|
  {
    if taken != [] {
      ReasonsCount(taken[..|taken| - 1]);
    }
  }

  function LeftItems<T>(items: seq<T>, taken: seq<Reason>, reason: Reason): multiset<T>
    requires |taken| <= |items|
  {
    multiset(Left(items, taken, reason))
  }

  function Share<T>(x: T, r: Reason, reason: Reason): multiset<T> {
    if r == reason then multiset{x} else multiset{}
  }

  lemma OneLeft<T>(items: seq<T>, taken: seq<Reason>, reason: Reason)
    requires 0 < |taken| <= |items|
    ensures var n := |taken| - 1;
            LeftItems(items, taken, reason) ==
            LeftItems(items, taken[..n], reason) + Share(items[n], taken[n], reason)
  {
  }

  lemma OneShared<T>(a: multiset<T>, b: multiset<T>, c: multiset<T>, x: T, r: Reason)
    ensures (a + Share(x, r, Popped)) + (b + Share(x, r, Dropped)) + (c + Share(x, r, Cleared)) == a + b + c + multiset{x}
  {
  }

  lemma OneItem<T>(items: seq<T>, n: nat)
    requires n < |items|
    ensures multiset(items[..n]) + multiset{items[n]} == multiset(items[..n + 1])
  {
    assert items[..n + 1] == items[..n] + [items[n]];
  }

  lemma MoreLeft<T>(items: seq<T>, taken: seq<Reason>)
    requires 0 < |taken| <= |items|
    ensures var n := |taken| - 1;
            LeftItems(items, taken, Popped) + LeftItems(items, taken, Dropped) + LeftItems(items, taken, Cleared) ==
            LeftItems(items, taken[..n], Popped) + LeftItems(items, taken[..n], Dropped) + LeftItems(items, taken[..n], Cleared)
            + multiset{items[n]}
  {
    var n := |taken| - 1;
    var front := taken[..n];
    OneLeft(items, taken, Popped);
    OneLeft(items, taken, Dropped);
    OneLeft(items, taken, Cleared);
    OneShared(LeftItems(items, front, Popped), LeftItems(items, front, Dropped), LeftItems(items, front, Cleared), items[n], taken[n]);
  }

  /** Every removed item left for one of the reasons. */
  lemma {:induction false} LeftAreTaken<T>(items: seq<T>, taken: seq<Reason>)
    requires |taken| <= |items|
    ensures LeftItems(items, taken, Popped) + LeftItems(items, taken, Dropped) + LeftItems(items, taken, Cleared) == multiset(items[..|taken|])
    decreases |taken|
  {
    if taken != [] {
      LeftAreTaken(items, taken[..|taken| - 1]);
      MoreLeft(items, taken);
      OneItem(items, |taken| - 1);
    }
  }

  /** With no call in progress the counters are exact. */
  lemma RestCounts<T(!new)>(run: seq<Queue<T>>, n: nat)
    requires IsHistory(run) && n < |run| && AtRest(run[n])
    ensures var q := run[n];
            && CountInv(q) && q.pushed == q.ring.enq && |q.taken| == q.ring.deq
            && q.popped == CountOf(q.taken, Popped) && q.dropped == CountOf(q.taken, Dropped)
  {
    CountsLag(run, n);
    NoneOwed(PushW(), run[n].calls);
    NoneOwed(TakeW(Popped), run[n].calls);
    NoneOwed(TakeW(Dropped), run[n].calls);
  }

  /** Every item was popped, dropped, cleared or is queued, each exactly once. */
  ghost predicate Accounted<T>(log: seq<T>, deq: nat, taken: seq<Reason>)
    requires |taken| == deq <= |log|
  {
    multiset(log) == LeftItems(log, taken, Popped) + LeftItems(log, taken, Dropped) + LeftItems(log, taken, Cleared) + multiset(log[deq..])
  }

  lemma AllAccounted<T>(log: seq<T>, deq: nat, taken: seq<Reason>)
    requires |taken| == deq <= |log|
    ensures Accounted(log, deq, taken)
  {
    LeftAreTaken(log, taken);
    assert log == log[..deq] + log[deq..];
    assert multiset(log) == multiset(log[..deq]) + multiset(log[deq..]);
  }

  /**
   Conservation, in every interleaving: with no call in progress, every pushed item was popped,
   dropped, cleared or is queued, each exactly once, the counters say how many, and what was
   handed out at a position is what was pushed there.
   */
  lemma RestConserves<T(!new)>(run: seq<Queue<T>>, n: nat)
    requires IsHistory(run) && n < |run| && AtRest(run[n])
    ensures var q := run[n];
            var s := q.ring;
            && s.deq == |q.taken| <= s.enq == |s.log| && Contents(s) == s.log[s.deq..]
            && Accounted(s.log, s.deq, q.taken)
            && q.pushed == |s.log|
            && q.popped == |Left(s.log, q.taken, Popped)|
            && q.dropped == |Left(s.log, q.taken, Dropped)|
            && forall p :: 0 <= p < s.deq ==> p in s.got && s.got[p] == s.log[p]
  {
    RestCounts(run, n);
    var q := run[n];
    AllAccounted(q.ring.log, q.ring.deq, q.taken);
    LeftCounts(q.ring.log, q.taken, Popped);
    LeftCounts(q.ring.log, q.taken, Dropped);
    RestIsQuiet(q);
  }

  lemma RestIsQuiet<T>(q: Queue<T>)
    requires CountInv(q) && AtRest(q)
    ensures forall p :: 0 <= p < q.ring.deq ==> p in q.ring.got && q.ring.got[p] == q.ring.log[p]
  {
    var s := q.ring;
    forall p | 0 <= p < s.deq
      ensures p in s.got && s.got[p] == s.log[p]
    {
      assert PhaseOk(s, p);
    }
  }

  /** The counters add up to the size of the queue exactly if nothing was cleared. */
  lemma CountersAddUp<T(!new)>(run: seq<Queue<T>>, n: nat)
    requires IsHistory(run) && n < |run| && AtRest(run[n])
    ensures run[n].ring.deq <= run[n].ring.enq <= |run[n].ring.log|
    ensures run[n].pushed == run[n].popped + run[n].dropped + |Contents(run[n].ring)| <==> Cleared !in run[n].taken
  {
    RestCounts(run, n);
    ReasonsCount(run[n].taken);
    NoneCleared(run[n].taken);
  }

  lemma {:induction false} NoneCleared(taken: seq<Reason>)
    ensures CountOf(taken, Cleared) == 0 <==> Cleared !in taken
  {
    if taken != [] {
      NoneCleared(taken[..|taken| - 1]);
    }
  }
}
