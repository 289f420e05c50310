/** Steps keep the count of flushed sinks, and the end-of-stream notification with it. */
module StreamSinks {
  import opened Stacks
  import opened Networks
  import opened StreamEngine
  import opened StreamInvariant
  import opened StreamSteps
  import opened StreamOwner

  lemma {:induction false} CountFlushedSame(c: Config, sh: Shared, sh': Shared, n: nat)
    requires n <= |sh.nodes| == |sh'.nodes|
    requires forall v :: 0 <= v < n ==> sh'.nodes[v].propagated == sh.nodes[v].propagated
    ensures CountFlushed(c, sh', n) == CountFlushed(c, sh, n)
  {
    if n > 0 {
      CountFlushedSame(c, sh, sh', n - 1);
    }
  }

  lemma {:induction false} CountFlushedOne(c: Config, sh: Shared, sh': Shared, n: nat, v: nat)
    requires v < n <= |sh.nodes| == |sh'.nodes|
    requires !sh.nodes[v].propagated && sh'.nodes[v].propagated
    requires forall u :: 0 <= u < n && u != v ==> sh'.nodes[u].propagated == sh.nodes[u].propagated
    ensures CountFlushed(c, sh', n) == CountFlushed(c, sh, n) + One(IsSink(c.net, v))
  {
    if v == n - 1 {
      CountFlushedSame(c, sh, sh', n - 1);
    } else {
      CountFlushedOne(c, sh, sh', n - 1, v);
    }
  }

  lemma {:induction false} CountFlushedMost(c: Config, sh: Shared, n: nat)
    requires n <= |sh.nodes|
    ensures CountFlushed(c, sh, n) <= CountSinks(c.net, n)
    ensures CountFlushed(c, sh, n) == CountSinks(c.net, n) ==> forall v :: 0 <= v < n && IsSink(c.net, v) ==> sh.nodes[v].propagated
  {
    if n > 0 {
      CountFlushedMost(c, sh, n - 1);
    }
  }

  /** What a step adds to the number of flushed sinks. */
  function FlushedChange(c: Config, eff: Effect): int {
    if eff.MarkFlush? then One(IsSink(c.net, eff.v)) else 0
  }

  lemma FlushedAfter(c: Config, sh: Shared, eff: Effect)
    requires Applies(sh, eff) && |Apply(sh, eff).nodes| == |sh.nodes|
    requires eff.MarkFlush? ==> !sh.nodes[eff.v].propagated
    ensures CountFlushed(c, Apply(sh, eff), |sh.nodes|) == CountFlushed(c, sh, |sh.nodes|) + FlushedChange(c, eff)
  {
    if eff.MarkFlush? {
      CountFlushedOne(c, sh, Apply(sh, eff), |sh.nodes|, eff.v);
    } else {
      CountFlushedSame(c, sh, Apply(sh, eff), |sh.nodes|);
    }
  }

  ghost predicate SinkMoves(c: Config, f: Frame, eff: Effect, next: Then<Frame>, start: Start<Frame>) {
    One(eff.AddSink?) + Delta(SinkW(c), f, next, start) == FlushedChange(c, eff)
  }

  lemma SinkQuiet(c: Config, f: Frame, eff: Effect, next: Then<Frame>, start: Start<Frame>)
    requires Quiet(f) && AllThen(QuietFrame(), next) && AllStart(QuietFrame(), start) && !eff.MarkFlush? && !eff.AddSink?
    ensures SinkMoves(c, f, eff, next, start)
  {
  }

  lemma SinkTask(c: Config, sh: Shared, f: Frame, eff: Effect, next: Then<Frame>)
    requires WellFormed(c, sh) && InRange(c, f) && FireTask(c, sh, f, eff, next)
    ensures SinkMoves(c, f, eff, next, NoThread)
  {
  }

  lemma SinkFlush(c: Config, sh: Shared, f: Frame, eff: Effect, next: Then<Frame>)
    requires WellFormed(c, sh) && FrameOk(c, sh, f) && FireFlush(c, sh, f, eff, next)
    ensures SinkMoves(c, f, eff, next, NoThread)
  {
  }

  /** This step counts the last sink. */
  predicate LastSink(c: Config, sh: Shared, eff: Effect) {
    var all := CountSinks(c.net, |c.net.out|);
    eff.AddSink? && all > 0 && sh.sinksAtEos + 1 >= all
  }

  /** The exchange and the callback follow the last sink, one at a time. */
  ghost predicate ReachMoves(c: Config, sh: Shared, f: Frame, eff: Effect, next: Then<Frame>, start: Start<Frame>) {
    && Delta(ExchangeW(), f, next, start) == One(LastSink(c, sh, eff)) - One(f.ReachExchange?)
    && Delta(CallbackW(), f, next, start) == One(eff.SetReached?) - One(eff.CallBack?)
    && (eff.SetReached? ==> f.ReachExchange? && !sh.reached)
    && (f.ReachExchange? ==> sh.reached || eff.SetReached?)
  }

  function NoReach(): Frame -> bool {
    (f: Frame) => !f.ReachExchange? && !f.ReachCallback?
  }

  lemma ReachElsewhere(c: Config, sh: Shared, f: Frame, eff: Effect, next: Then<Frame>, start: Start<Frame>)
    requires NoReach()(f) && AllThen(NoReach(), next) && AllStart(NoReach(), start)
    requires !eff.AddSink? && !eff.SetReached? && !eff.CallBack?
    ensures ReachMoves(c, sh, f, eff, next, start)
  {
    assert Delta(ExchangeW(), f, next, start) == 0;
    assert Delta(CallbackW(), f, next, start) == 0;
  }

  lemma ReachTask(c: Config, sh: Shared, f: Frame, eff: Effect, next: Then<Frame>)
    requires WellFormed(c, sh) && InRange(c, f) && FireTask(c, sh, f, eff, next)
    ensures NoReach()(f) && AllThen(NoReach(), next)
    ensures !eff.AddSink? && !eff.SetReached? && !eff.CallBack?
  {
  }

  predicate Recording(f: Frame) {
    f.RecordSink? || f.ReachExchange? || f.ReachCallback?
  }

  lemma ReachRecord(c: Config, sh: Shared, f: Frame, eff: Effect, next: Then<Frame>)
    requires WellFormed(c, sh) && InRange(c, f) && FireFlush(c, sh, f, eff, next) && Recording(f)
    ensures ReachMoves(c, sh, f, eff, next, NoThread)
  {
  }

  /** Before the sink is recorded nothing is notified. */
  lemma FlushIsElsewhere(c: Config, sh: Shared, f: Frame, eff: Effect, next: Then<Frame>)
    requires WellFormed(c, sh) && InRange(c, f) && FireFlush(c, sh, f, eff, next) && !Recording(f)
    ensures NoReach()(f) && AllThen(NoReach(), next) && !eff.AddSink? && !eff.SetReached? && !eff.CallBack?
  {
  }

  lemma ReachFlush(c: Config, sh: Shared, f: Frame, eff: Effect, next: Then<Frame>)
    requires WellFormed(c, sh) && InRange(c, f) && FireFlush(c, sh, f, eff, next)
    ensures ReachMoves(c, sh, f, eff, next, NoThread)
  {
    if Recording(f) {
      ReachRecord(c, sh, f, eff, next);
    } else {
      FlushIsElsewhere(c, sh, f, eff, next);
      ReachElsewhere(c, sh, f, eff, next, NoThread);
    }
  }

  lemma SinkArithmetic(c: Config, s: State, a: Action, s': State)
    requires Stacked(s, a, s') && Applies(s.sh, a.eff) && s'.sh == Apply(s.sh, a.eff)
    requires WellFormed(c, s.sh) && WellFormed(c, s'.sh) && SinksOk(c, s)
    requires a.eff.MarkFlush? ==> !s.sh.nodes[a.eff.v].propagated
    requires a.Thread? ==>
               var f := Top(s.stacks[a.t]);
               SinkMoves(c, f, a.eff, a.next, a.start) && ReachMoves(c, s.sh, f, a.eff, a.next, a.start)
    requires a.Outside? ==>
               && (a.frame.TryState? || a.frame.TryCas? || a.frame.Check?)
               && !a.eff.MarkFlush? && !a.eff.AddSink? && !a.eff.SetReached? && !a.eff.CallBack?
    ensures SinksOk(c, s')
  {
    FlushedAfter(c, s.sh, a.eff);
    CountFlushedMost(c, s'.sh, |s'.sh.nodes|);
    Move(SinkW(c), s, a, s');
    Move(ExchangeW(), s, a, s');
    Move(CallbackW(), s, a, s');
    TotalNonNegative(SinkW(c), s'.stacks);
  }
}
