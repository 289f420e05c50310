/**
 Concurrent KeepLatest pushes of src/lock_free_queue.hpp, over the two position counters
 of the ring and the set of positions that are claimed but not yet published.

 size() reads the two counters in two steps.  An eviction fails only if the queue is empty
 or its head is not published; the evict loop then gives up and pushes anyway.
 */
module KeepLatest {
  import opened Stacks

  /** The counters of the ring, and the positions that are claimed and not yet published. */
  datatype Ring = Ring(enq: nat, deq: nat, unpublished: set<nat>)

  /** A position is claimed for a push, if the ring is not full. */
  predicate Claims(r: Ring, r': Ring, capacity: nat) {
    r.enq - r.deq < capacity && r' == r.(enq := r.enq + 1, unpublished := r.unpublished + {r.enq})
  }

  predicate Publishes(r: Ring, r': Ring, pos: nat) {
    r' == r.(unpublished := r.unpublished - {pos})
  }

  /** The head can be taken: by a consumer, or by a producer that evicts. */
  predicate CanTake(r: Ring) {
    r.deq < r.enq && r.deq !in r.unpublished
  }

  predicate Takes(r: Ring, r': Ring) {
    CanTake(r) && r' == r.(deq := r.deq + 1)
  }

  /** Where a producer is in pushKeepLatest. */
  datatype Producer =
    | Idle
    | SizeEnq
    | SizeDeq(e: nat)
    | Evict
    | Pushing
    | Publishing(pos: nat)

  /** `broken`: some evict loop gave up on an unpublished head. */
  datatype State = State(ring: Ring, producers: seq<Producer>, broken: bool)

  /** The window size of the queue and the capacity of the ring. */
  datatype Config = Config(keep: nat, capacity: nat) {
    function Target(): nat
      ensures Target() >= 1
    {
      if keep > 0 then keep else 1
    }
  }

  function Size(e: nat, d: nat): nat {
    if e >= d then e - d else 0
  }

  function At(s: State, p: nat, producer: Producer): State
    requires p < |s.producers|
  {
    s.(producers := s.producers[p := producer])
  }

  /** A step of producer `p`. */
  predicate Produces(c: Config, s: State, p: nat, s': State) {
    && p < |s.producers| == |s'.producers|
    && match s.producers[p]
       case Idle => s' == At(s, p, SizeEnq)
       case SizeEnq => s' == At(s, p, SizeDeq(s.ring.enq))
       case SizeDeq(e) => s' == At(s, p, if Size(e, s.ring.deq) >= c.Target() then Evict else Pushing)
       case Evict =>
         if CanTake(s.ring) then
           Takes(s.ring, s'.ring) && s' == At(s, p, SizeEnq).(ring := s'.ring)
         else
           s' == At(s, p, Pushing).(broken := s.broken || s.ring.deq < s.ring.enq)
       case Pushing =>
         || (Claims(s.ring, s'.ring, c.capacity) && s' == At(s, p, Publishing(s.ring.enq)).(ring := s'.ring))
         || Consumes(s, s')
       case Publishing(pos) => Publishes(s.ring, s'.ring, pos) && s' == At(s, p, Idle).(ring := s'.ring)
  }

  /** Somebody takes the head. */
  predicate Consumes(s: State, s': State) {
    Takes(s.ring, s'.ring) && s' == s.(ring := s'.ring)
  }

  /** A consumer takes the head, or a producer makes a step. */
  ghost predicate Next(c: Config, s: State, s': State) {
    || Consumes(s, s')
    || exists p: nat :: Produces(c, s, p, s')
  }

  predicate Init(s: State) {
    && s.ring == Ring(0, 0, {}) && !s.broken
    && forall p :: 0 <= p < |s.producers| ==> s.producers[p] == Idle
  }

  ghost predicate IsRun(c: Config, run: seq<State>) {
    run != [] && Init(run[0]) && Steps(c, run)
  }

  ghost predicate Steps(c: Config, run: seq<State>) {
    forall i :: 0 <= i < |run| - 1 ==> Linked(c, run, i)
  }

  ghost predicate Linked(c: Config, run: seq<State>, i: nat)
    requires i < |run| - 1
  {
    Next(c, run[i], run[i + 1])
  }

  // ---- Counting producers ----

  /** Producers that passed the size test and have yet to claim a slot. */
  function PushingW(): Producer -> int {
    (f: Producer) => One(f.Pushing?)
  }

  /** Producers in the middle of size() that read an enqueue counter of at most `e`. */
  function ReadingW(e: nat): Producer -> int {
    (f: Producer) => One(f.SizeDeq? && f.e <= e)
  }

  function Max(a: int, b: int): int {
    if a >= b then a else b
  }

  /** The queue, the pushes to come, and the producers that may still join them. */
  predicate Bounded(c: Config, s: State, e: nat) {
    s.ring.enq + Sum(PushingW(), s.producers) + Sum(ReadingW(e), s.producers) <= Max(e, s.ring.deq + c.Target() - 1) + |s.producers|
  }

  predicate ProducerOk(c: Config, s: State, p: nat)
    requires p < |s.producers|
  {
    match s.producers[p]
    case SizeDeq(e) => e <= s.ring.enq && Bounded(c, s, e)
    case _ => true
  }

  /** What holds until an evict loop gives up on an unpublished head. */
  predicate Inv(c: Config, s: State) {
    && s.ring.deq <= s.ring.enq
    && s.ring.enq + Sum(PushingW(), s.producers) <= s.ring.deq + c.Target() - 1 + |s.producers|
    && forall p :: 0 <= p < |s.producers| ==> ProducerOk(c, s, p)
  }

  lemma AtMostAll(s: State, e: nat)
    ensures Sum(PushingW(), s.producers) + Sum(ReadingW(e), s.producers) <= |s.producers|
    ensures Sum(PushingW(), s.producers) >= 0 && Sum(ReadingW(e), s.producers) >= 0
  {
    SumPair(PushingW(), ReadingW(e), s.producers);
    SumNonNegative(PushingW(), s.producers);
    SumNonNegative(ReadingW(e), s.producers);
  }

  /** Two weights that never meet sum to at most one per element. */
  lemma {:induction false} SumPair<F>(a: F -> int, b: F -> int, stack: seq<F>)
    requires forall f :: a(f) + b(f) <= 1
    ensures Sum(a, stack) + Sum(b, stack) <= |stack|
  {
    if stack != [] {
      SumPair(a, b, stack[1..]);
    }
  }

  /** A step of one producer that does not move the counters, or moves them together with it. */
  lemma Others(c: Config, s: State, p: nat, f: Producer, e: nat)
    requires p < |s.producers|
    ensures Sum(PushingW(), At(s, p, f).producers) == Sum(PushingW(), s.producers) - PushingW()(s.producers[p]) + PushingW()(f)
    ensures Sum(ReadingW(e), At(s, p, f).producers) == Sum(ReadingW(e), s.producers) - ReadingW(e)(s.producers[p]) + ReadingW(e)(f)
  {
    SumUpdate(PushingW(), s.producers, p, f);
    SumUpdate(ReadingW(e), s.producers, p, f);
  }

  lemma PopKeeps(c: Config, s: State, s': State)
    requires Inv(c, s) && Consumes(s, s')
    ensures Inv(c, s')
  {
    forall p | 0 <= p < |s.producers|
      ensures ProducerOk(c, s', p)
    {
      assert ProducerOk(c, s, p);
    }
  }

  /** A producer that starts reading the size. */
  lemma ReadKeeps(c: Config, s: State, p: nat)
    requires Inv(c, s) && p < |s.producers| && s.producers[p].SizeEnq?
    ensures Inv(c, At(s, p, SizeDeq(s.ring.enq)))
  {
    var s' := At(s, p, SizeDeq(s.ring.enq));
    Others(c, s, p, SizeDeq(s.ring.enq), s.ring.enq);
    forall q | 0 <= q < |s'.producers|
      ensures ProducerOk(c, s', q)
    {
      assert ProducerOk(c, s, q);
      if s'.producers[q].SizeDeq? {
        var e := s'.producers[q].e;
        Others(c, s, p, SizeDeq(s.ring.enq), e);
        AtMostAll(s', e);
      }
    }
  }

  /** A producer that passes the size test. */
  lemma PassKeeps(c: Config, s: State, p: nat)
    requires Inv(c, s) && p < |s.producers| && s.producers[p].SizeDeq? && Size(s.producers[p].e, s.ring.deq) < c.Target()
    ensures Inv(c, At(s, p, Pushing))
  {
    var s' := At(s, p, Pushing);
    var e := s.producers[p].e;
    assert ProducerOk(c, s, p);
    Others(c, s, p, Pushing, e);
    SumNonNegative(ReadingW(e), s'.producers);
    forall q | 0 <= q < |s'.producers|
      ensures ProducerOk(c, s', q)
    {
      assert ProducerOk(c, s, q);
      if s'.producers[q].SizeDeq? {
        var d := s'.producers[q].e;
        Others(c, s, p, Pushing, d);
        if d < e {
          SumStrict(ReadingW(d), ReadingW(e), s.producers, p);
        }
      }
    }
  }

  /** A producer that moves on without passing the size test, or claims the slot it was due. */
  lemma MoveKeeps(c: Config, s: State, s': State, p: nat, f: Producer)
    requires Inv(c, s) && p < |s.producers| && s'.producers == At(s, p, f).producers && s'.ring.deq == s.ring.deq
    requires !f.SizeDeq?
    requires s'.ring.enq + PushingW()(f) == s.ring.enq + PushingW()(s.producers[p])
    requires s'.ring.enq >= s.ring.enq
    ensures Inv(c, s')
  {
    Others(c, s, p, f, 0);
    forall q | 0 <= q < |s'.producers|
      ensures ProducerOk(c, s', q)
    {
      assert ProducerOk(c, s, q);
      if s'.producers[q].SizeDeq? {
        Others(c, s, p, f, s'.producers[q].e);
      }
    }
  }

  /** A producer that pushes because the queue is empty. */
  lemma EmptyKeeps(c: Config, s: State, s': State, p: nat)
    requires Inv(c, s) && p < |s.producers| && s.producers[p].Evict? && s.ring.deq == s.ring.enq
    requires s'.producers == At(s, p, Pushing).producers && s'.ring.deq == s.ring.deq && s'.ring.enq == s.ring.enq
    ensures Inv(c, s')
  {
    AtMostAll(s', 0);
    forall q | 0 <= q < |s'.producers|
      ensures ProducerOk(c, s', q)
    {
      assert ProducerOk(c, s, q);
      if s'.producers[q].SizeDeq? {
        AtMostAll(s', s'.producers[q].e);
      }
    }
  }

  lemma InvStep(c: Config, s: State, s': State)
    requires Inv(c, s) && Next(c, s, s') && !s'.broken
    ensures Inv(c, s')
  {
    if Consumes(s, s') {
      PopKeeps(c, s, s');
    } else {
      var p: nat :| Produces(c, s, p, s');
      match s.producers[p] {
        case Idle => MoveKeeps(c, s, s', p, SizeEnq);
        case SizeEnq => ReadKeeps(c, s, p);
        case SizeDeq(e) =>
          if Size(e, s.ring.deq) >= c.Target() {
            MoveKeeps(c, s, s', p, Evict);
          } else {
            PassKeeps(c, s, p);
          }
        case Evict =>
          if CanTake(s.ring) {
            PopKeeps(c, s, s.(ring := s'.ring));
            MoveKeeps(c, s.(ring := s'.ring), s', p, SizeEnq);
          } else {
            EmptyKeeps(c, s, s', p);
          }
        case Pushing =>
          MoveKeeps(c, s, s', p, Publishing(s.ring.enq));
        case Publishing(_) => MoveKeeps(c, s, s', p, Idle);
      }
    }
  }

  /**
   With P producers the window never exceeds N + P - 1, pushes under way included, as long as
   no evict loop gave up on an unpublished head.
   */
  lemma {:induction false} WindowBound(c: Config, run: seq<State>, n: nat)
    requires IsRun(c, run) && n < |run| && !run[n].broken
    ensures Inv(c, run[n])
    ensures run[n].ring.enq - run[n].ring.deq <= Max(c.keep, 1) + |run[0].producers| - 1
    ensures |run[n].producers| == |run[0].producers|
  {
    if n == 0 {
      NonePushing(run[0].producers);
    } else {
      assert Linked(c, run, n - 1);
      WindowBound(c, run, n - 1);
      InvStep(c, run[n - 1], run[n]);
    }
    SumNonNegative(PushingW(), run[n].producers);
  }

  lemma {:induction false} NonePushing(producers: seq<Producer>)
    requires forall p :: 0 <= p < |producers| ==> producers[p] == Idle
    ensures Sum(PushingW(), producers) == 0
  {
    if producers != [] {
      NonePushing(producers[1..]);
    }
  }

  /** The window never exceeds the capacity. */
  lemma {:induction false} CapacityBound(c: Config, run: seq<State>, n: nat)
    requires IsRun(c, run) && n < |run|
    ensures 0 <= run[n].ring.enq - run[n].ring.deq <= c.capacity
  {
    if n > 0 {
      CapacityBound(c, run, n - 1);
      assert Linked(c, run, n - 1);
    }
  }

  // ---- One producer at a time ----

  /** Nothing is being pushed or published, apart from producer `p`. */
  predicate Quiet(s: State, p: nat) {
    forall q :: 0 <= q < |s.producers| && q != p ==> s.producers[q] == Idle
  }

  /** Producer `p` alone, since the queue had `start` items pushed. */
  predicate SoleOk(c: Config, s: State, p: nat, start: nat)
    requires p < |s.producers|
  {
    && s.ring.deq <= s.ring.enq && start <= s.ring.enq
    && (s.ring.enq > start ==> s.ring.enq <= s.ring.deq + c.Target())
    && s.ring.unpublished == (if s.producers[p].Publishing? then {s.producers[p].pos} else {})
    && (s.producers[p].SizeDeq? ==> s.producers[p].e == s.ring.enq)
    && (s.producers[p].Pushing? ==> s.ring.enq < s.ring.deq + c.Target())
  }

  lemma SoleStep(c: Config, s: State, s': State, p: nat, start: nat)
    requires p < |s.producers| && SoleOk(c, s, p, start) && Quiet(s, p)
    requires Next(c, s, s') && |s'.producers| == |s.producers| && Quiet(s', p)
    ensures SoleOk(c, s', p, start)
    ensures s'.broken == s.broken
  {
    if !Consumes(s, s') {
      var q: nat :| Produces(c, s, q, s');
    }
  }

  /**
   Self-healing: from any state with no push under way, whatever the window has grown to, once
   one producer working alone has pushed an item the window is at most N, and stays so; and
   its evict loop never gives up on an unpublished head.
   */
  lemma {:induction false} SoleProducer(c: Config, run: seq<State>, p: nat, n: nat)
    requires run != [] && Steps(c, run) && n < |run| && p < |run[0].producers|
    requires run[0].ring.deq <= run[0].ring.enq && run[0].ring.unpublished == {} && run[0].producers[p] == Idle
    requires forall i :: 0 <= i < |run| ==> |run[i].producers| == |run[0].producers| && Quiet(run[i], p)
    ensures SoleOk(c, run[n], p, run[0].ring.enq)
    ensures run[n].ring.enq > run[0].ring.enq ==> Size(run[n].ring.enq, run[n].ring.deq) <= Max(c.keep, 1)
    ensures run[n].broken == run[0].broken
  {
    if n > 0 {
      SoleProducer(c, run, p, n - 1);
      assert Linked(c, run, n - 1);
      SoleStep(c, run[n - 1], run[n], p, run[0].ring.enq);
    }
  }

  /** With a single producer and any consumers the window is at most N at every moment. */
  lemma SingleProducer(c: Config, run: seq<State>, n: nat)
    requires IsRun(c, run) && n < |run| && |run[0].producers| == 1
    ensures run[n].ring.enq - run[n].ring.deq <= Max(c.keep, 1) && !run[n].broken
  {
    SameProducers(c, run);
    SoleProducer(c, run, 0, n);
  }

  lemma SameProducers(c: Config, run: seq<State>)
    requires run != [] && Steps(c, run)
    ensures forall i :: 0 <= i < |run| ==> |run[i].producers| == |run[0].producers|
  {
    var i := 1;
    while i < |run|
      invariant 1 <= i <= |run|
      invariant forall j :: 0 <= j < i ==> |run[j].producers| == |run[0].producers|
    {
      assert Linked(c, run, i - 1);
      i := i + 1;
    }
  }

  // ---- Giving up on an unpublished head ----

  lemma Extend(c: Config, run: seq<State>, s: State, p: nat) returns (longer: seq<State>)
    requires IsRun(c, run) && Produces(c, run[|run| - 1], p, s)
    ensures longer == run + [s] && IsRun(c, longer)
  {
    longer := run + [s];
    forall i | 0 <= i < |longer| - 1
      ensures Linked(c, longer, i)
    {
      if i < |run| - 1 {
        assert Linked(c, run, i);
      }
    }
  }

  /** Two producers at work, of `producers` in all. */
  function Two(producers: nat, a: Producer, b: Producer): seq<Producer> {
    seq(producers, q => if q == 0 then a else if q == 1 then b else Idle)
  }

  /** The first producer has claimed the head and stalls; `n` items are in the queue. */
  function Stalled(producers: nat, n: nat, b: Producer, broken: bool): State {
    State(Ring(n, 0, if b.Publishing? then {0, b.pos} else {0}), Two(producers, Publishing(0), b), broken)
  }

  lemma FirstClaims(c: Config, producers: nat) returns (run: seq<State>)
    requires producers >= 2 && c.capacity >= 1
    ensures IsRun(c, run) && |run[0].producers| == producers
    ensures run[|run| - 1] == Stalled(producers, 1, Idle, false)
  {
    var empty := Ring(0, 0, {});
    run := [State(empty, Two(producers, Idle, Idle), false)];
    run := Extend(c, run, State(empty, Two(producers, SizeEnq, Idle), false), 0);
    run := Extend(c, run, State(empty, Two(producers, SizeDeq(0), Idle), false), 0);
    run := Extend(c, run, State(empty, Two(producers, Pushing, Idle), false), 0);
    assert empty.unpublished + {0} == {0};
    run := Extend(c, run, Stalled(producers, 1, Idle, false), 0);
  }

  /** The second producer passes the size test below the window, and from there on because it cannot evict. */
  lemma PassTest(c: Config, before: seq<State>, producers: nat, n: nat, broken: bool) returns (run: seq<State>)
    requires producers >= 2 && 1 <= n
    requires IsRun(c, before) && before[|before| - 1] == Stalled(producers, n, Idle, broken)
    ensures IsRun(c, run) && run[0] == before[0]
    ensures run[|run| - 1] == Stalled(producers, n, Pushing, broken || n >= c.Target())
  {
    run := Extend(c, before, Stalled(producers, n, SizeEnq, broken), 1);
    run := Extend(c, run, Stalled(producers, n, SizeDeq(n), broken), 1);
    if n >= c.Target() {
      run := Extend(c, run, Stalled(producers, n, Evict, broken), 1);
    }
    run := Extend(c, run, Stalled(producers, n, Pushing, broken || n >= c.Target()), 1);
  }

  /** The second producer pushes past the stalled one. */
  lemma PushPastHead(c: Config, before: seq<State>, producers: nat, n: nat, broken: bool) returns (run: seq<State>)
    requires producers >= 2 && 1 <= n < c.capacity
    requires IsRun(c, before) && before[|before| - 1] == Stalled(producers, n, Pushing, broken)
    ensures IsRun(c, run) && run[0] == before[0]
    ensures run[|run| - 1] == Stalled(producers, n + 1, Idle, broken)
  {
    run := Extend(c, before, Stalled(producers, n + 1, Publishing(n), broken), 1);
    assert {0, n} - {n} == {0};
    run := Extend(c, run, Stalled(producers, n + 1, Idle, broken), 1);
  }

  /** While one of at least two producers stalls before it publishes the head, another fills the ring, whatever the window. */
  lemma {:induction false} Overshoot(c: Config, producers: nat, m: nat) returns (run: seq<State>)
    requires producers >= 2 && 1 <= m <= c.capacity
    ensures IsRun(c, run) && |run[0].producers| == producers
    ensures run[|run| - 1] == Stalled(producers, m, Idle, m > Max(c.keep, 1))
  {
    if m == 1 {
      run := FirstClaims(c, producers);
    } else {
      run := Overshoot(c, producers, m - 1);
      run := PassTest(c, run, producers, m - 1, m - 1 > c.Target());
      run := PushPastHead(c, run, producers, m - 1, m > c.Target());
    }
  }

  /** No run with this many producers ever has more than `bound` items in the queue. */
  ghost predicate AlwaysWithin(c: Config, producers: nat, bound: int) {
    forall run: seq<State>, n :: IsRun(c, run) && |run[0].producers| == producers && 0 <= n < |run| ==> WindowOf(run, n) <= bound
  }

  function WindowOf(run: seq<State>, n: nat): int
    requires n < |run|
  {
    run[n].ring.enq - run[n].ring.deq
  }

  lemma {:induction false} NoProducer(c: Config, run: seq<State>, n: nat)
    requires IsRun(c, run) && n < |run| && |run[0].producers| == 0
    ensures run[n].ring.enq == 0 && |run[n].producers| == 0
  {
    if n > 0 {
      NoProducer(c, run, n - 1);
      assert Linked(c, run, n - 1);
    }
  }

  /**
   The documented bound of N + P - 1 holds in every run exactly if there is at most one
   producer or the capacity is no larger than the bound.
   */
  lemma WindowExact(c: Config, producers: nat)
    ensures AlwaysWithin(c, producers, Max(c.keep, 1) + producers - 1) <==> producers <= 1 || c.capacity <= Max(c.keep, 1) + producers - 1
  {
    var bound := Max(c.keep, 1) + producers - 1;
    if producers <= 1 || c.capacity <= bound {
      forall run: seq<State>, n | IsRun(c, run) && |run[0].producers| == producers && 0 <= n < |run|
        ensures WindowOf(run, n) <= bound
      {
        CapacityBound(c, run, n);
        if producers == 0 {
          NoProducer(c, run, n);
        } else if producers == 1 {
          SingleProducer(c, run, n);
        }
      }
    } else {
      var run := Overshoot(c, producers, c.capacity);
      assert WindowOf(run, |run| - 1) > bound;
    }
  }

  /** With two or more producers the capacity is the only bound: it is reached in some run, and no less is a bound. */
  lemma CapacityIsReached(c: Config, producers: nat, bound: int)
    requires producers >= 2 && c.capacity >= 1
    ensures AlwaysWithin(c, producers, bound) <==> c.capacity <= bound
  {
    if c.capacity <= bound {
      forall run: seq<State>, n | IsRun(c, run) && |run[0].producers| == producers && 0 <= n < |run|
        ensures WindowOf(run, n) <= bound
      {
        CapacityBound(c, run, n);
      }
    } else {
      var run := Overshoot(c, producers, c.capacity);
      assert WindowOf(run, |run| - 1) > bound;
    }
  }
}
