/**
 The sleep and wake protocol of src/work_stealing_thread_pool.hpp, while the pool is running.

 Workers pop their own deque from the front, steal from the backs of the others, and sleep
 on a condition variable if they found nothing; publishers push a task, increment the
 counter of unclaimed tasks, pass through the mutex and notify one worker.  A task that
 submits another one is one of the publishers.  The counter is a 64-bit word and may wrap.
 */
module ThreadPool {
  import opened Stacks

  const WRAP: nat := 0x1_0000_0000_0000_0000

  type Task = nat

  datatype Worker =
    | Local
    | Steal(start: nat, i: nat)
    | Found(task: Task)
    | Executing(task: Task)
    | WaitLock
    | HasLock
    | Decided
    | Sleeping

  datatype Publisher = Quiet | Pushed | Added | Notifying

  /** Who holds the global mutex; publishers only pass through it. */
  datatype Mutex = Free | Held(worker: nat)

  /** `next` tasks were pushed so far; `claimed` lists those that were popped and `executed` those that were run, in order. */
  datatype State = State(
    queues: seq<seq<Task>>,
    workers: seq<Worker>,
    publishers: seq<Publisher>,
    counter: nat,
    mutex: Mutex,
    next: Task,
    claimed: seq<Task>,
    executed: seq<Task>)

  predicate WellFormed(s: State) {
    |s.queues| == |s.workers| > 0
  }

  function AtW(s: State, w: nat, worker: Worker): State
    requires w < |s.workers|
  {
    s.(workers := s.workers[w := worker])
  }

  function AtP(s: State, p: nat, publisher: Publisher): State
    requires p < |s.publishers|
  {
    s.(publishers := s.publishers[p := publisher])
  }

  /** Worker `w` takes the task out of queue `q`, which is left with `rest`. */
  function Takes(s: State, w: nat, q: nat, task: Task, rest: seq<Task>): State
    requires w < |s.workers| && q < |s.queues|
  {
    AtW(s, w, Found(task)).(queues := s.queues[q := rest], claimed := s.claimed + [task])
  }

  predicate WorkerStep(s: State, w: nat, s': State) {
    && WellFormed(s) && w < |s.workers|
    && match s.workers[w]
       case Local =>
         var q := s.queues[w];
         if q != [] then s' == Takes(s, w, w, q[0], q[1..])
         else if |s.queues| == 1 then s' == AtW(s, w, WaitLock)
         else exists start :: 0 <= start < |s.queues| && s' == AtW(s, w, Steal(start, 0))
       case Steal(start, i) =>
         if i >= |s.queues| then s' == AtW(s, w, WaitLock)
         else
           var victim := (start + i) % |s.queues|;
           var q := s.queues[victim];
           if victim == w || q == [] then s' == AtW(s, w, Steal(start, i + 1))
           else s' == Takes(s, w, victim, q[|q| - 1], q[..|q| - 1])
       case Found(task) => s' == AtW(s, w, Executing(task)).(counter := (s.counter + WRAP - 1) % WRAP)
       case Executing(task) => s' == AtW(s, w, Local).(executed := s.executed + [task])
       case WaitLock => s.mutex == Free && s' == AtW(s, w, HasLock).(mutex := Held(w))
       case HasLock =>
         if s.counter > 0 then s' == AtW(s, w, Local).(mutex := Free)
         else s' == AtW(s, w, Decided)
       case Decided => s' == AtW(s, w, Sleeping).(mutex := Free)
       // a spurious wakeup
       case Sleeping => s' == AtW(s, w, WaitLock)
  }

  predicate PublisherStep(s: State, p: nat, s': State) {
    && WellFormed(s) && p < |s.publishers|
    && match s.publishers[p]
       case Quiet =>
         exists q :: 0 <= q < |s.queues| &&
           s' == AtP(s, p, Pushed).(queues := s.queues[q := [s.next] + s.queues[q]], next := s.next + 1)
       case Pushed => s' == AtP(s, p, Added).(counter := (s.counter + 1) % WRAP)
       case Added => s.mutex == Free && s' == AtP(s, p, Notifying)
       case Notifying =>
         if exists w :: 0 <= w < |s.workers| && s.workers[w] == Sleeping
         then exists w :: 0 <= w < |s.workers| && s.workers[w] == Sleeping && s' == AtW(AtP(s, p, Quiet), w, WaitLock)
         else s' == AtP(s, p, Quiet)
  }

  ghost predicate Next(s: State, s': State) {
    || (exists w: nat :: WorkerStep(s, w, s'))
    || (exists p: nat :: PublisherStep(s, p, s'))
  }

  predicate Init(s: State) {
    && WellFormed(s) && s.counter == 0 && s.mutex == Free && s.next == 0 && s.claimed == [] && s.executed == []
    && (forall q :: 0 <= q < |s.queues| ==> s.queues[q] == [])
    && (forall w :: 0 <= w < |s.workers| ==> s.workers[w] == Local)
    && (forall p :: 0 <= p < |s.publishers| ==> s.publishers[p] == Quiet)
  }

  ghost predicate IsRun(run: seq<State>) {
    && run != []
    && Init(run[0])
    && forall i :: 0 <= i < |run| - 1 ==> Linked(run, i)
  }

  ghost predicate Linked(run: seq<State>, i: nat)
    requires i < |run| - 1
  {
    Next(run[i], run[i + 1])
  }

  // ---- The invariant ----

  function FoundW(): Worker -> int {
    (f: Worker) => One(f.Found?)
  }

  function PushedW(): Publisher -> int {
    (f: Publisher) => One(f.Pushed?)
  }

  function AnyW(): Task -> int {
    (f: Task) => 1
  }

  function TaskW(id: Task): Task -> int {
    (f: Task) => One(f == id)
  }

  /** Tasks in the deques. */
  function Queued(s: State): int {
    Total(AnyW(), s.queues)
  }

  /** The unclaimed tasks the counter stands for; below zero while a push is not yet counted. */
  function Unclaimed(s: State): int {
    Queued(s) + Sum(FoundW(), s.workers) - Sum(PushedW(), s.publishers)
  }

  /** The worker is asleep, or has made up its mind to sleep. */
  predicate Dozes(worker: Worker) {
    worker == Sleeping || worker == Decided
  }

  predicate AllDoze(s: State) {
    forall w :: 0 <= w < |s.workers| ==> Dozes(s.workers[w])
  }

  predicate MutexOk(s: State) {
    && (s.mutex.Held? ==> s.mutex.worker < |s.workers|)
    && (forall w :: 0 <= w < |s.workers| ==>
          (s.workers[w] == HasLock || s.workers[w] == Decided <==> s.mutex == Held(w)))
  }

  /** Someone will notify a sleeping worker. */
  predicate WakeupDue(s: State) {
    || (exists p :: 0 <= p < |s.publishers| && s.publishers[p] == Added)
    || ((exists p :: 0 <= p < |s.publishers| && s.publishers[p] == Notifying) && s.mutex == Free)
  }

  /** All workers dozing over unclaimed tasks is temporary. */
  predicate WakeupOk(s: State) {
    AllDoze(s) && s.counter != 0 ==> WakeupDue(s)
  }

  /** Every pushed task is in one deque, once, or was claimed, once. */
  ghost predicate TasksOk(s: State) {
    && Queued(s) + |s.claimed| == s.next
    && forall id: Task :: Total(TaskW(id), s.queues) + Sum(TaskW(id), s.claimed) == One(id < s.next)
  }

  /** Workers that hold the task. */
  function HoldsW(id: Task): Worker -> int {
    (f: Worker) => One((f.Found? || f.Executing?) && f.task == id)
  }

  /** A claimed task was run, or is held by exactly one worker. */
  ghost predicate HeldOk(s: State, id: Task) {
    Sum(TaskW(id), s.claimed) == Sum(TaskW(id), s.executed) + Sum(HoldsW(id), s.workers)
  }

  ghost predicate Inv(s: State) {
    && WellFormed(s)
    && MutexOk(s)
    && s.counter == Unclaimed(s) % WRAP
    && WakeupOk(s)
    && TasksOk(s)
    && (forall id: Task :: HeldOk(s, id))
  }

  lemma {:induction false} NoneAtAll<F>(w: F -> int, stack: seq<F>)
    requires forall i :: 0 <= i < |stack| ==> w(stack[i]) == 0
    ensures Sum(w, stack) == 0
  {
    if stack != [] {
      NoneAtAll(w, stack[1..]);
    }
  }

  lemma InitInv(s: State)
    requires Init(s)
    ensures Inv(s)
  {
    NoneAtAll(FoundW(), s.workers);
    NoneAtAll(PushedW(), s.publishers);
    TotalIdle(AnyW(), s.queues);
    forall id: Task
      ensures Total(TaskW(id), s.queues) == 0 && HeldOk(s, id)
    {
      TotalIdle(TaskW(id), s.queues);
      NoneAtAll(HoldsW(id), s.workers);
    }
  }

  // ---- Tasks and the counter ----

  /** Taking a task from either end of a deque. */
  lemma TakeTotal(w: Task -> int, queues: seq<seq<Task>>, q: nat, task: Task, rest: seq<Task>)
    requires q < |queues| && (queues[q] == [task] + rest || queues[q] == rest + [task])
    ensures Total(w, queues[q := rest]) == Total(w, queues) - w(task)
  {
    TotalUpdate(w, queues, q, rest);
    SumOne(w, task);
    if queues[q] == [task] + rest {
      SumConcat(w, [task], rest);
    } else {
      SumConcat(w, rest, [task]);
    }
  }

  /** Pushing a task to the front of a deque. */
  lemma PushTotal(w: Task -> int, queues: seq<seq<Task>>, q: nat, task: Task)
    requires q < |queues|
    ensures Total(w, queues[q := [task] + queues[q]]) == Total(w, queues) + w(task)
  {
    TotalUpdate(w, queues, q, [task] + queues[q]);
    SumOne(w, task);
    SumConcat(w, [task], queues[q]);
  }

  /** What a worker's step does to the deques: nothing, or it takes one task. */
  predicate TookOne(s: State, w: nat, s': State, q: nat, task: Task, rest: seq<Task>)
    requires w < |s.workers|
  {
    && q < |s.queues| && (s.queues[q] == [task] + rest || s.queues[q] == rest + [task])
    && s' == Takes(s, w, q, task, rest) && !s.workers[w].Found?
  }

  lemma WorkerTakes(s: State, w: nat, s': State) returns (q: nat, task: Task, rest: seq<Task>)
    requires WorkerStep(s, w, s')
    ensures TookOne(s, w, s', q, task, rest) || (s'.queues == s.queues && s'.claimed == s.claimed)
    ensures s'.next == s.next && s'.publishers == s.publishers && |s'.workers| == |s.workers|
  {
    q, task, rest := 0, 0, [];
    if s.workers[w].Local? && s.queues[w] != [] {
      q, task, rest := w, s.queues[w][0], s.queues[w][1..];
    } else if s.workers[w].Steal? && s.workers[w].i < |s.queues| {
      var victim := (s.workers[w].start + s.workers[w].i) % |s.queues|;
      if victim != w && s.queues[victim] != [] {
        var queue := s.queues[victim];
        q, task, rest := victim, queue[|queue| - 1], queue[..|queue| - 1];
      }
    }
  }

  lemma TasksAfterTake(s: State, w: nat, s': State, q: nat, task: Task, rest: seq<Task>)
    requires Inv(s) && w < |s.workers| && TookOne(s, w, s', q, task, rest)
    ensures Queued(s') == Queued(s) - 1
    ensures forall id: Task :: Total(TaskW(id), s'.queues) + Sum(TaskW(id), s'.claimed) == One(id < s'.next)
  {
    TakeTotal(AnyW(), s.queues, q, task, rest);
    forall id: Task
      ensures Total(TaskW(id), s'.queues) + Sum(TaskW(id), s'.claimed) == One(id < s'.next)
    {
      TakeTotal(TaskW(id), s.queues, q, task, rest);
      SumConcat(TaskW(id), s.claimed, [task]);
      SumOne(TaskW(id), task);
    }
  }

  lemma TasksAfterPush(s: State, q: nat)
    requires Inv(s) && q < |s.queues|
    ensures var queues := s.queues[q := [s.next] + s.queues[q]];
            && Total(AnyW(), queues) == Queued(s) + 1
            && forall id: Task :: Total(TaskW(id), queues) + Sum(TaskW(id), s.claimed) == One(id < s.next + 1)
  {
    PushTotal(AnyW(), s.queues, q, s.next);
    forall id: Task
      ensures Total(TaskW(id), s.queues[q := [s.next] + s.queues[q]]) + Sum(TaskW(id), s.claimed) == One(id < s.next + 1)
    {
      PushTotal(TaskW(id), s.queues, q, s.next);
    }
  }

  /** The counter after a step, from how many tasks it queued, took and counted. */
  lemma CounterAfter(before: int, after: int, counter: nat, counter': nat)
    requires counter == before % WRAP
    requires (after == before && counter' == counter) || (after == before + 1 && counter' == (counter + 1) % WRAP) ||
             (after == before - 1 && counter' == (counter + WRAP - 1) % WRAP)
    ensures counter' == after % WRAP
  {
  }

  lemma WorkerTasks(s: State, w: nat, s': State)
    requires Inv(s) && WorkerStep(s, w, s')
    ensures TasksOk(s')
    ensures Unclaimed(s') == Unclaimed(s) - One(s.workers[w].Found?)
  {
    SumUpdate(FoundW(), s.workers, w, s'.workers[w]);
    var q, task, rest := WorkerTakes(s, w, s');
    if TookOne(s, w, s', q, task, rest) {
      TasksAfterTake(s, w, s', q, task, rest);
    }
  }

  lemma PublisherTasks(s: State, p: nat, s': State)
    requires Inv(s) && PublisherStep(s, p, s')
    ensures TasksOk(s')
    ensures Unclaimed(s') == Unclaimed(s) + One(s.publishers[p].Pushed?)
  {
    SumUpdate(PushedW(), s.publishers, p, s'.publishers[p]);
    match s.publishers[p] {
      case Quiet =>
        var q :| 0 <= q < |s.queues| &&
          s' == AtP(s, p, Pushed).(queues := s.queues[q := [s.next] + s.queues[q]], next := s.next + 1);
        TasksAfterPush(s, q);
      case Notifying =>
        if w :| 0 <= w < |s.workers| && s.workers[w] == Sleeping && s' == AtW(AtP(s, p, Quiet), w, WaitLock) {
          SumUpdate(FoundW(), s.workers, w, WaitLock);
        }
      case _ =>
    }
  }

  /** A task moves from the worker that claimed it to the history of what was run. */
  lemma WorkerHolds(s: State, w: nat, s': State, id: Task)
    requires WorkerStep(s, w, s') && HeldOk(s, id)
    ensures HeldOk(s', id)
  {
    SumUpdate(HoldsW(id), s.workers, w, s'.workers[w]);
    var q, task, rest := WorkerTakes(s, w, s');
    if TookOne(s, w, s', q, task, rest) {
      OneMoreTask(id, s.claimed, task);
    } else if s.workers[w].Executing? {
      OneMoreTask(id, s.executed, s.workers[w].task);
    }
  }

  lemma OneMoreTask(id: Task, tasks: seq<Task>, task: Task)
    ensures Sum(TaskW(id), tasks + [task]) == Sum(TaskW(id), tasks) + One(task == id)
  {
    assert forall f: Task :: TaskW(id)(f) == One(f == id);
    SumConcat(TaskW(id), tasks, [task]);
    SumOne(TaskW(id), task);
  }

  lemma PublisherHolds(s: State, p: nat, s': State, id: Task)
    requires PublisherStep(s, p, s') && HeldOk(s, id)
    ensures HeldOk(s', id)
  {
    if w :| 0 <= w < |s.workers| && s.workers[w] == Sleeping && s' == AtW(AtP(s, p, Quiet), w, WaitLock) {
      SumUpdate(HoldsW(id), s.workers, w, WaitLock);
    }
  }

  // ---- The mutex and the wakeup ----

  /** A worker dozes off only over a counter that read zero. */
  lemma WorkerWakes(s: State, w: nat, s': State)
    requires WellFormed(s) && MutexOk(s) && WakeupOk(s) && WorkerStep(s, w, s')
    ensures MutexOk(s') && WakeupOk(s')
  {
    if !Dozes(s'.workers[w]) {
      assert !AllDoze(s');
    }
  }

  lemma DueStays(s: State, p: nat, s': State)
    requires p < |s.publishers| == |s'.publishers| && s.publishers[p] != Added && s.publishers[p] != Notifying
    requires s'.mutex == s.mutex && s'.publishers == s.publishers[p := s'.publishers[p]]
    ensures WakeupDue(s) ==> WakeupDue(s')
  {
    forall q | 0 <= q < |s.publishers| && (s.publishers[q] == Added || s.publishers[q] == Notifying)
      ensures s'.publishers[q] == s.publishers[q]
    {
    }
  }

  /** With nobody to notify, all workers dozing means one decided, so a publisher has yet to pass the mutex. */
  lemma NobodySleeps(s: State, p: nat, s': State)
    requires WellFormed(s) && MutexOk(s) && WakeupOk(s) && p < |s.publishers| && s.publishers[p] == Notifying
    requires !exists w :: 0 <= w < |s.workers| && s.workers[w] == Sleeping
    requires s' == AtP(s, p, Quiet)
    ensures WakeupOk(s')
  {
    if AllDoze(s) && s.counter != 0 {
      assert s.workers[0] == Decided;
      var q :| 0 <= q < |s.publishers| && s.publishers[q] == Added;
      assert s'.publishers[q] == Added;
    }
  }

  lemma PublisherWakes(s: State, p: nat, s': State)
    requires WellFormed(s) && MutexOk(s) && WakeupOk(s) && PublisherStep(s, p, s')
    ensures MutexOk(s') && WakeupOk(s')
  {
    match s.publishers[p] {
      case Quiet => DueStays(s, p, s');
      case Pushed => assert s'.publishers[p] == Added;
      case Added => assert s'.publishers[p] == Notifying;
      case Notifying =>
        if w :| 0 <= w < |s.workers| && s.workers[w] == Sleeping && s' == AtW(AtP(s, p, Quiet), w, WaitLock) {
          assert !Dozes(s'.workers[w]);
        } else {
          NobodySleeps(s, p, s');
        }
    }
  }

  lemma WorkerInv(s: State, w: nat, s': State)
    requires Inv(s) && WorkerStep(s, w, s')
    ensures Inv(s')
  {
    WorkerTasks(s, w, s');
    CounterAfter(Unclaimed(s), Unclaimed(s'), s.counter, s'.counter);
    WorkerWakes(s, w, s');
    forall id: Task
      ensures HeldOk(s', id)
    {
      WorkerHolds(s, w, s', id);
    }
  }

  lemma PublisherInv(s: State, p: nat, s': State)
    requires Inv(s) && PublisherStep(s, p, s')
    ensures Inv(s')
  {
    PublisherTasks(s, p, s');
    CounterAfter(Unclaimed(s), Unclaimed(s'), s.counter, s'.counter);
    PublisherWakes(s, p, s');
    forall id: Task
      ensures HeldOk(s', id)
    {
      PublisherHolds(s, p, s', id);
    }
  }

  lemma {:induction false} RunInv(run: seq<State>, n: nat)
    requires IsRun(run) && n < |run|
    ensures Inv(run[n])
  {
    if n == 0 {
      InitInv(run[0]);
    } else {
      var s, s' := run[n - 1], run[n];
      RunInv(run, n - 1);
      assert Linked(run, n - 1);
      if w: nat :| WorkerStep(s, w, s') {
        WorkerInv(s, w, s');
      } else {
        var p: nat :| PublisherStep(s, p, s');
        PublisherInv(s, p, s');
      }
    }
  }

  // ---- Results ----

  /**
   The counter is the number of tasks queued or popped and not yet counted off, less those
   pushed and not yet counted, as a 64-bit word.
   */
  lemma CounterMeaning(run: seq<State>, n: nat)
    requires IsRun(run) && n < |run|
    ensures run[n].counter == Unclaimed(run[n]) % WRAP
    ensures (forall p :: 0 <= p < |run[n].publishers| ==> run[n].publishers[p] != Pushed) && run[n].next < WRAP - |run[n].workers| ==>
              run[n].counter == Queued(run[n]) + Sum(FoundW(), run[n].workers)
  {
    var s := run[n];
    RunInv(run, n);
    if (forall p :: 0 <= p < |s.publishers| ==> s.publishers[p] != Pushed) && s.next < WRAP - |s.workers| {
      NoneAtAll(PushedW(), s.publishers);
      TotalNonNegative(AnyW(), s.queues);
      SumNonNegative(FoundW(), s.workers);
      AtMostEach(FoundW(), s.workers);
    }
  }

  lemma {:induction false} AtMostEach<F>(w: F -> int, stack: seq<F>)
    requires forall f :: w(f) <= 1
    ensures Sum(w, stack) <= |stack|
  {
    if stack != [] {
      AtMostEach(w, stack[1..]);
    }
  }

  /** Every task is claimed at most once, and a claimed task is in no deque. */
  lemma ClaimedOnce(run: seq<State>, n: nat)
    requires IsRun(run) && n < |run|
    ensures forall i, j :: 0 <= i < j < |run[n].claimed| ==> run[n].claimed[i] != run[n].claimed[j]
    ensures forall i, q :: 0 <= i < |run[n].claimed| && 0 <= q < |run[n].queues| ==> run[n].claimed[i] !in run[n].queues[q]
    ensures |run[n].claimed| <= run[n].next
  {
    var s := run[n];
    RunInv(run, n);
    TotalNonNegative(AnyW(), s.queues);
    forall i, j | 0 <= i < j < |s.claimed|
      ensures s.claimed[i] != s.claimed[j]
    {
      SumTwo(TaskW(s.claimed[i]), s.claimed, i, j);
      TotalNonNegative(TaskW(s.claimed[i]), s.queues);
    }
    forall i, q | 0 <= i < |s.claimed| && 0 <= q < |s.queues|
      ensures s.claimed[i] !in s.queues[q]
    {
      if k :| 0 <= k < |s.queues[q]| && s.queues[q][k] == s.claimed[i] {
        SumAt(TaskW(s.claimed[i]), s.claimed, i);
        SumAt(TaskW(s.claimed[i]), s.queues[q], k);
        TotalAt(TaskW(s.claimed[i]), s.queues, q);
      }
    }
  }

  /** No publisher is in the middle of publishing. */
  predicate NonePublishing(s: State) {
    forall p :: 0 <= p < |s.publishers| ==> s.publishers[p] == Quiet
  }

  /**
   No lost wakeup: with nobody publishing, workers all doze only when every task pushed so far
   has been claimed.  So a non-empty deque means that some worker is awake.
   */
  lemma NoLostWakeup(run: seq<State>, n: nat)
    requires IsRun(run) && n < |run| && NonePublishing(run[n]) && run[n].next < WRAP
    ensures AllDoze(run[n]) ==> |run[n].claimed| == run[n].next && forall q :: 0 <= q < |run[n].queues| ==> run[n].queues[q] == []
    ensures (exists q :: 0 <= q < |run[n].queues| && run[n].queues[q] != []) ==>
              exists w :: 0 <= w < |run[n].workers| && !Dozes(run[n].workers[w])
  {
    var s := run[n];
    RunInv(run, n);
    TotalNonNegative(AnyW(), s.queues);
    if AllDoze(s) {
      NoneAtAll(FoundW(), s.workers);
      NoneAtAll(PushedW(), s.publishers);
      assert Queued(s) == 0;
      forall q | 0 <= q < |s.queues|
        ensures s.queues[q] == []
      {
        TotalAt(AnyW(), s.queues, q);
        if s.queues[q] != [] {
          SumAt(AnyW(), s.queues[q], 0);
        }
      }
    }
  }

  /** Worker `w` has claimed the task and not finished it. */
  predicate IsHeld(s: State, w: int, id: Task) {
    0 <= w < |s.workers| && (s.workers[w] == Found(id) || s.workers[w] == Executing(id))
  }

  ghost predicate OneHolder(s: State, id: Task) {
    forall w, u :: IsHeld(s, w, id) && IsHeld(s, u, id) ==> w == u
  }

  lemma {:induction false} SomeoneHolds(workers: seq<Worker>, id: Task) returns (w: nat)
    requires Sum(HoldsW(id), workers) > 0
    ensures w < |workers| && (workers[w] == Found(id) || workers[w] == Executing(id))
  {
    if HoldsW(id)(workers[0]) > 0 {
      w := 0;
    } else {
      w := SomeoneHolds(workers[1..], id);
      w := w + 1;
    }
  }

  /**
   Every task is run at most once and only if it was claimed, and a claimed task was run or
   is held by exactly one worker, never both.
   */
  lemma ExecutedOnce(run: seq<State>, n: nat)
    requires IsRun(run) && n < |run|
    ensures forall i, j :: 0 <= i < j < |run[n].executed| ==> run[n].executed[i] != run[n].executed[j]
    ensures forall id: Task :: id in run[n].executed ==> id in run[n].claimed && forall w :: !IsHeld(run[n], w, id)
    ensures forall id: Task :: id in run[n].claimed && id !in run[n].executed ==> exists w :: IsHeld(run[n], w, id)
    ensures forall id: Task :: OneHolder(run[n], id)
  {
    var s := run[n];
    RunInv(run, n);
    forall i, j | 0 <= i < j < |s.executed|
      ensures s.executed[i] != s.executed[j]
    {
      SumTwo(TaskW(s.executed[i]), s.executed, i, j);
      AtMostOnce(s, s.executed[i]);
    }
    forall id: Task
      ensures id in s.executed ==> id in s.claimed && forall w :: !IsHeld(s, w, id)
      ensures id in s.claimed && id !in s.executed ==> exists w :: IsHeld(s, w, id)
      ensures OneHolder(s, id)
    {
      OneFate(s, id);
    }
  }

  lemma AtMostOnce(s: State, id: Task)
    requires Inv(s)
    ensures Sum(TaskW(id), s.executed) + Sum(HoldsW(id), s.workers) <= 1
    ensures Sum(TaskW(id), s.executed) >= 0 && Sum(HoldsW(id), s.workers) >= 0
  {
    assert HeldOk(s, id);
    TotalNonNegative(TaskW(id), s.queues);
    SumNonNegative(TaskW(id), s.executed);
    SumNonNegative(HoldsW(id), s.workers);
  }

  lemma Listed(id: Task, tasks: seq<Task>)
    ensures Sum(TaskW(id), tasks) > 0 <==> id in tasks
  {
    assert forall f: Task :: TaskW(id)(f) == One(f == id);
    if id in tasks {
      var i :| 0 <= i < |tasks| && tasks[i] == id;
      SumAt(TaskW(id), tasks, i);
    } else {
      NoneAtAll(TaskW(id), tasks);
    }
  }

  lemma OneFate(s: State, id: Task)
    requires Inv(s)
    ensures id in s.executed ==> id in s.claimed && forall w :: !IsHeld(s, w, id)
    ensures id in s.claimed && id !in s.executed ==> exists w :: IsHeld(s, w, id)
    ensures OneHolder(s, id)
  {
    AtMostOnce(s, id);
    Listed(id, s.executed);
    Listed(id, s.claimed);
    assert HeldOk(s, id);
    forall w | IsHeld(s, w, id)
      ensures Sum(HoldsW(id), s.workers) > 0
    {
      SumAt(HoldsW(id), s.workers, w);
    }
    if id in s.claimed && id !in s.executed {
      var w := SomeoneHolds(s.workers, id);
      assert IsHeld(s, w, id);
    }
    forall w, u | IsHeld(s, w, id) && IsHeld(s, u, id)
      ensures w == u
    {
      if w < u {
        SumTwo(HoldsW(id), s.workers, w, u);
      } else if u < w {
        SumTwo(HoldsW(id), s.workers, u, w);
      }
    }
  }

  /** With nobody publishing and all workers dozing, every task pushed so far has been run, exactly once, and nothing else. */
  lemma AllExecuted(run: seq<State>, n: nat)
    requires IsRun(run) && n < |run| && NonePublishing(run[n]) && run[n].next < WRAP && AllDoze(run[n])
    ensures forall id: Task :: id in run[n].executed <==> id < run[n].next
    ensures forall i, j :: 0 <= i < j < |run[n].executed| ==> run[n].executed[i] != run[n].executed[j]
  {
    var s := run[n];
    RunInv(run, n);
    NoLostWakeup(run, n);
    ExecutedOnce(run, n);
    forall id: Task
      ensures id in s.executed <==> id < s.next
    {
      TotalIdle(TaskW(id), s.queues);
      Listed(id, s.claimed);
      NoneAtAll(HoldsW(id), s.workers);
      Listed(id, s.executed);
      assert HeldOk(s, id);
    }
  }
}
