/**
 What the calls of tryPush and tryPop of src/lock_free_queue.hpp answer, in every
 interleaving: a history of requests and replies over the steps of the ring.
 */
module RingAnswers {
  import opened Options
  import opened MpmcRing
  import opened RingResults

  datatype Request<T> = Put(item: T) | Get

  datatype Answer<T> = Accepted(pos: nat) | Delivered(pos: nat, item: T) | Failed

  datatype Reply<T> = Reply(thread: nat, request: Request<T>, answer: Answer<T>)

  /** `asked` is the request each thread is working on. */
  datatype Talk<T> = Talk(ring: State<T>, asked: seq<Option<Request<T>>>, replies: seq<Reply<T>>)

  /** What a call that ends from here answers. */
  function AnswerFrom<T>(thread: Thread<T>): Answer<T> {
    match thread
    case PushWritten(pos) => Accepted(pos)
    case PopTaken(pos, x) => Delivered(pos, x)
    case _ => Failed
  }

  predicate CanTalk<T>(q: Talk<T>, t: nat, ch: Choice<T>) {
    |q.asked| == |q.ring.threads| && CanStep(q.ring, t, ch)
  }

  /** A step of the ring; one that ends a call adds its reply. */
  function Talks<T>(q: Talk<T>, t: nat, ch: Choice<T>): Talk<T>
    requires CanTalk(q, t, ch)
  {
    var ring := Step(q.ring, t, ch);
    var before, after := q.ring.threads[t], ring.threads[t];
    if before.Idle? then
      Talk(ring, q.asked[t := Some(if ch.Push? then Put(ch.item) else Get)], q.replies)
    else if after.Idle? && q.asked[t].Some? then
      Talk(ring, q.asked[t := None], q.replies + [Reply(t, q.asked[t].value, AnswerFrom(before))])
    else
      q.(ring := ring)
  }

  predicate Silent<T>(q: Talk<T>) {
    Init(q.ring) && |q.asked| == |q.ring.threads| && q.replies == [] && forall t :: 0 <= t < |q.asked| ==> q.asked[t] == None
  }

  ghost predicate TalksTo<T(!new)>(q: Talk<T>, q': Talk<T>) {
    exists t, ch :: CanTalk(q, t, ch) && q' == Talks(q, t, ch)
  }

  ghost predicate IsTalk<T(!new)>(run: seq<Talk<T>>) {
    && run != [] && Silent(run[0])
    && forall i :: 0 <= i < |run| - 1 ==> Follows(run, i)
  }

  ghost predicate Follows<T(!new)>(run: seq<Talk<T>>, i: nat)
    requires i < |run| - 1
  {
    TalksTo(run[i], run[i + 1])
  }

  // ---- The invariant ----

  /** The thread works on the request it was given, with the item it was given. */
  ghost predicate WorksOn<T>(s: State<T>, thread: Thread<T>, asked: Option<Request<T>>) {
    match thread
    case Idle => asked == None
    case PushStart(x) => asked == Some(Put(x))
    case PushLoaded(x, _) => asked == Some(Put(x))
    case PushChecked(x, _) => asked == Some(Put(x))
    case PushClaimed(x, _) => asked == Some(Put(x))
    case PushWritten(pos) => pos < |s.log| && asked == Some(Put(s.log[pos]))
    case _ => asked == Some(Get)
  }

  /** A reply that took effect names a position that holds the item. */
  ghost predicate IsTrue<T>(s: State<T>, r: Reply<T>) {
    match r.answer
    case Accepted(pos) => pos < |s.log| && r.request == Put(s.log[pos])
    case Delivered(pos, x) => pos < |s.log| && r.request == Get && x == s.log[pos]
    case Failed => true
  }

  predicate Pushed(phase: Phase) {
    !phase.Claimed? && !phase.Written?
  }

  /** Some reply accepted an item at this position. */
  predicate AcceptedAt<T>(replies: seq<Reply<T>>, pos: nat) {
    exists i :: 0 <= i < |replies| && AcceptsAt(replies[i], pos)
  }

  predicate AcceptsAt<T>(r: Reply<T>, pos: nat) {
    r.answer.Accepted? && r.answer.pos == pos
  }

  predicate DeliveredAt<T>(replies: seq<Reply<T>>, pos: nat) {
    exists i :: 0 <= i < |replies| && DeliversAt(replies[i], pos)
  }

  predicate DeliversAt<T>(r: Reply<T>, pos: nat) {
    r.answer.Delivered? && r.answer.pos == pos
  }

  /** No position is accepted twice or delivered twice. */
  predicate Once<T>(replies: seq<Reply<T>>) {
    forall i, j :: 0 <= i < j < |replies| ==> !SameEffect(replies[i], replies[j])
  }

  predicate SameEffect<T>(r: Reply<T>, r': Reply<T>) {
    && !r.answer.Failed? && !r'.answer.Failed? && r.answer.pos == r'.answer.pos
    && (r.answer.Accepted? <==> r'.answer.Accepted?)
  }

  ghost predicate TalkInv<T>(q: Talk<T>) {
    && Inv(q.ring) && |q.asked| == |q.ring.threads|
    && (forall t :: 0 <= t < |q.asked| ==> WorksOn(q.ring, q.ring.threads[t], q.asked[t]))
    && (forall i :: 0 <= i < |q.replies| ==> IsTrue(q.ring, q.replies[i]))
    && Once(q.replies)
    && (forall p: nat :: AcceptedAt(q.replies, p) <==> p < q.ring.enq && Pushed(q.ring.phases[p]))
    && (forall p: nat :: DeliveredAt(q.replies, p) <==> p in q.ring.got)
  }

  // ---- Steps ----

  /** What a step of the ring leaves of the log, the phases and the results. */
  lemma RingAfter<T>(s: State<T>, t: nat, ch: Choice<T>)
    requires Inv(s) && CanStep(s, t, ch)
    ensures var s' := Step(s, t, ch);
            var before, after := s.threads[t], s'.threads[t];
            && s.log <= s'.log && |s'.log| == |s'.phases| == s'.enq && s.enq <= s'.enq
            && s'.threads == s.threads[t := after]
            && (forall p: nat :: p < s'.enq ==>
                  (Pushed(s'.phases[p]) <==> (p < s.enq && Pushed(s.phases[p])) || (before.PushWritten? && before.pos == p)))
            && (forall p: nat :: p in s'.got <==> p in s.got || (before.PopTaken? && before.pos == p))
            && (before.PushWritten? ==> before.pos < s.enq && !Pushed(s.phases[before.pos]))
            && (before.PopTaken? ==> before.pos < s.enq && before.pos !in s.got && before.item == s.log[before.pos])
  {
    assert ThreadOk(s, t);
    if Owns(s.threads[t]) {
      assert PhaseOk(s, s.threads[t].pos);
    }
  }

  lemma WorkStays<T>(q: Talk<T>, t: nat, ch: Choice<T>)
    requires TalkInv(q) && CanTalk(q, t, ch)
    ensures WorksOn(Talks(q, t, ch).ring, Talks(q, t, ch).ring.threads[t], Talks(q, t, ch).asked[t])
  {
    assert ThreadOk(q.ring, t);
    assert WorksOn(q.ring, q.ring.threads[t], q.asked[t]);
    if q.ring.threads[t].PushClaimed? {
      assert PhaseOk(q.ring, q.ring.threads[t].pos);
    }
  }

  lemma OthersWork<T>(q: Talk<T>, t: nat, ch: Choice<T>, u: nat)
    requires TalkInv(q) && CanTalk(q, t, ch) && u < |q.asked| && u != t
    ensures WorksOn(Talks(q, t, ch).ring, Talks(q, t, ch).ring.threads[u], Talks(q, t, ch).asked[u])
  {
    RingAfter(q.ring, t, ch);
    assert WorksOn(q.ring, q.ring.threads[u], q.asked[u]);
  }

  lemma RepliesStayTrue<T>(s: State<T>, s': State<T>, replies: seq<Reply<T>>)
    requires s.log <= s'.log && forall i :: 0 <= i < |replies| ==> IsTrue(s, replies[i])
    ensures forall i :: 0 <= i < |replies| ==> IsTrue(s', replies[i])
  {
    forall i | 0 <= i < |replies|
      ensures IsTrue(s', replies[i])
    {
      assert IsTrue(s, replies[i]);
    }
  }

  /** One more reply. */
  lemma MoreReplies<T>(replies: seq<Reply<T>>, r: Reply<T>, p: nat)
    ensures AcceptedAt(replies + [r], p) <==> AcceptedAt(replies, p) || AcceptsAt(r, p)
    ensures DeliveredAt(replies + [r], p) <==> DeliveredAt(replies, p) || DeliversAt(r, p)
  {
    var longer := replies + [r];
    assert longer[|replies|] == r && forall i :: 0 <= i < |replies| ==> longer[i] == replies[i];
    if i :| 0 <= i < |replies| && AcceptsAt(replies[i], p) {
      assert AcceptsAt(longer[i], p);
    }
    if i :| 0 <= i < |replies| && DeliversAt(replies[i], p) {
      assert DeliversAt(longer[i], p);
    }
  }

  /** A new reply does not repeat an old one. */
  lemma OnceMore<T>(replies: seq<Reply<T>>, r: Reply<T>)
    requires Once(replies)
    requires r.answer.Accepted? ==> !AcceptedAt(replies, r.answer.pos)
    requires r.answer.Delivered? ==> !DeliveredAt(replies, r.answer.pos)
    ensures Once(replies + [r])
  {
    var longer := replies + [r];
    forall i, j | 0 <= i < j < |longer|
      ensures !SameEffect(longer[i], longer[j])
    {
      if j == |replies| && r.answer.Accepted? {
        assert !AcceptsAt(replies[i], r.answer.pos);
      } else if j == |replies| && r.answer.Delivered? {
        assert !DeliversAt(replies[i], r.answer.pos);
      }
    }
  }

  /** The step ends a call. */
  predicate Ends<T>(q: Talk<T>, t: nat, ch: Choice<T>)
    requires CanTalk(q, t, ch)
  {
    !q.ring.threads[t].Idle? && Step(q.ring, t, ch).threads[t].Idle?
  }

  /** A call that ends replies to the request it was given, and truthfully. */
  lemma EndsWithReply<T>(q: Talk<T>, t: nat, ch: Choice<T>) returns (r: Reply<T>)
    requires TalkInv(q) && CanTalk(q, t, ch) && Ends(q, t, ch)
    ensures q.asked[t].Some? && r == Reply(t, q.asked[t].value, AnswerFrom(q.ring.threads[t]))
    ensures Talks(q, t, ch).replies == q.replies + [r]
    ensures IsTrue(Step(q.ring, t, ch), r)
    ensures r.answer.Accepted? ==> !AcceptedAt(q.replies, r.answer.pos)
    ensures r.answer.Delivered? ==> !DeliveredAt(q.replies, r.answer.pos)
  {
    assert WorksOn(q.ring, q.ring.threads[t], q.asked[t]);
    r := Reply(t, q.asked[t].value, AnswerFrom(q.ring.threads[t]));
    RingAfter(q.ring, t, ch);
  }

  lemma RepliesStep<T>(q: Talk<T>, t: nat, ch: Choice<T>)
    requires TalkInv(q) && CanTalk(q, t, ch)
    ensures var q' := Talks(q, t, ch);
            && (forall i :: 0 <= i < |q'.replies| ==> IsTrue(q'.ring, q'.replies[i])) && Once(q'.replies)
  {
    var q' := Talks(q, t, ch);
    RingAfter(q.ring, t, ch);
    RepliesStayTrue(q.ring, q'.ring, q.replies);
    if Ends(q, t, ch) {
      var r := EndsWithReply(q, t, ch);
      OnceMore(q.replies, r);
    }
  }

  lemma EffectsStep<T>(q: Talk<T>, t: nat, ch: Choice<T>, p: nat)
    requires TalkInv(q) && CanTalk(q, t, ch)
    ensures var q' := Talks(q, t, ch);
            && (AcceptedAt(q'.replies, p) <==> p < q'.ring.enq <= |q'.ring.phases| && Pushed(q'.ring.phases[p]))
            && (DeliveredAt(q'.replies, p) <==> p in q'.ring.got)
  {
    RingAfter(q.ring, t, ch);
    if Ends(q, t, ch) {
      var r := EndsWithReply(q, t, ch);
      MoreReplies(q.replies, r, p);
    }
  }

  lemma TalkStep<T>(q: Talk<T>, t: nat, ch: Choice<T>)
    requires TalkInv(q) && CanTalk(q, t, ch)
    ensures TalkInv(Talks(q, t, ch))
  {
    var q' := Talks(q, t, ch);
    InvStep(q.ring, t, ch);
    RepliesStep(q, t, ch);
    forall u | 0 <= u < |q'.asked|
      ensures WorksOn(q'.ring, q'.ring.threads[u], q'.asked[u])
    {
      if u == t {
        WorkStays(q, t, ch);
      } else {
        OthersWork(q, t, ch, u);
      }
    }
    forall p: nat
      ensures AcceptedAt(q'.replies, p) <==> p < q'.ring.enq && Pushed(q'.ring.phases[p])
      ensures DeliveredAt(q'.replies, p) <==> p in q'.ring.got
    {
      EffectsStep(q, t, ch, p);
    }
    assert |q'.asked| == |q'.ring.threads| by {
      RingAfter(q.ring, t, ch);
    }
  }

  /**
   In every state of every interleaving: each thread works on the request it was given; an
   accepted item is the one at its position, and a delivered one too; no position is accepted
   or delivered twice; and the positions with a reply are those published and those released.
   */
  lemma {:induction false} TalkRuns<T(!new)>(run: seq<Talk<T>>, n: nat)
    requires IsTalk(run) && n < |run|
    ensures TalkInv(run[n])
  {
    if n == 0 {
      InitInv(run[0].ring);
    } else {
      TalkRuns(run, n - 1);
      assert Follows(run, n - 1);
      var t, ch :| CanTalk(run[n - 1], t, ch) && run[n] == Talks(run[n - 1], t, ch);
      TalkStep(run[n - 1], t, ch);
    }
  }

  // ---- Results ----

  /** The rings of a talk are a run of the ring. */
  function Rings<T>(run: seq<Talk<T>>): seq<State<T>> {
    seq(|run|, i requires 0 <= i < |run| => run[i].ring)
  }

  lemma RingsRun<T(!new)>(run: seq<Talk<T>>)
    requires IsTalk(run)
    ensures IsRun(Rings(run))
  {
    var rings := Rings(run);
    forall i | 0 <= i < |rings| - 1
      ensures Linked(rings, i)
    {
      assert Follows(run, i);
      RingMoves(run[i], run[i + 1]);
    }
  }

  lemma RingMoves<T(!new)>(q: Talk<T>, q': Talk<T>)
    requires TalksTo(q, q')
    ensures Next(q.ring, q'.ring)
  {
    var t, ch :| CanTalk(q, t, ch) && q' == Talks(q, t, ch);
    assert CanStep(q.ring, t, ch) && q'.ring == Step(q.ring, t, ch);
  }

  /**
   Every call that ends has replied, to its own request: a put is refused only if there is no
   room at that moment, and a get fails only if there is no item to take.
   */
  lemma RepliesAreRight<T(!new)>(run: seq<Talk<T>>, n: nat, t: nat, ch: Choice<T>)
    requires IsTalk(run) && n < |run| && CanTalk(run[n], t, ch) && Ends(run[n], t, ch)
    ensures var q, q' := run[n], Talks(run[n], t, ch);
            && q.asked[t].Some? && |q'.replies| == |q.replies| + 1 && q'.replies[..|q.replies|] == q.replies
            && var r := q'.replies[|q.replies|];
               && r.thread == t && r.request == q.asked[t].value && IsTrue(q'.ring, r)
               && (r.request.Put? ==> r.answer.Accepted? || (r.answer.Failed? && NoRoom(q.ring)))
               && (r.request.Get? ==> r.answer.Delivered? || (r.answer.Failed? && NoItem(q.ring)))
  {
    TalkRuns(run, n);
    RingsRun(run);
    var q := run[n];
    assert WorksOn(q.ring, q.ring.threads[t], q.asked[t]);
    var r := EndsWithReply(q, t, ch);
    if r.answer.Failed? {
      if r.request.Put? {
        FullOnlyIf(Rings(run), n, t, ch);
      } else {
        EmptyOnlyIf(Rings(run), n, t, ch);
      }
    }
  }

  /** With no call in progress, every claimed position was accepted and every dequeued one delivered, each by exactly one reply. */
  lemma AllAnswered<T(!new)>(run: seq<Talk<T>>, n: nat)
    requires IsTalk(run) && n < |run| && Quiescent(run[n].ring)
    ensures forall p: nat :: AcceptedAt(run[n].replies, p) <==> p < run[n].ring.enq
    ensures forall p: nat :: DeliveredAt(run[n].replies, p) <==> p < run[n].ring.deq
    ensures Once(run[n].replies)
  {
    TalkRuns(run, n);
    RingsRun(run);
    QuietConserves(Rings(run), n);
    forall p: nat | p < run[n].ring.enq
      ensures Pushed(run[n].ring.phases[p])
    {
      assert PhaseOk(run[n].ring, p);
    }
  }
}
