/**
 A source with several ports stops a batch by itself.  It is scheduled as soon as one of its
 ports holds data, and the gather then fails on the next port; distributeInitialInputs feeds
 no other port than the first.
 */
module BatchCauses {
  import opened Networks
  import opened Stacks
  import opened BatchEngine
  import opened BatchInvariant
  import opened BatchResults

  // ---- Building runs ----

  ghost predicate EndsIn(c: Network, run: seq<State>, s: State) {
    IsRun(c, run) && run[|run| - 1] == s
  }

  ghost predicate Reachable(c: Network, s: State) {
    exists run :: EndsIn(c, run, s)
  }

  lemma Reaches(c: Network, s: State, a: Action, s': State)
    requires Reachable(c, s) && NextBy(c, s, a, s')
    ensures Reachable(c, s')
  {
    var run :| EndsIn(c, run, s);
    var longer := run + [s'];
    forall i | 0 <= i < |longer| - 1
      ensures Linked(c, longer, i)
    {
      if i < |run| - 1 {
        assert Linked(c, run, i);
      } else {
        assert NextBy(c, longer[i], a, longer[i + 1]);
      }
    }
    assert EndsIn(c, longer, s');
  }

  /** One thread at work, beside threads that have ended. */
  function Alone(sh: Shared, ended: seq<seq<Frame>>, f: Frame): State {
    State(sh, ended + [[f]])
  }

  /** The thread at work goes on. */
  lemma Goes(c: Network, sh: Shared, ended: seq<seq<Frame>>, f: Frame, eff: Effect, g: Frame)
    requires Reachable(c, Alone(sh, ended, f)) && WellFormed(c, sh) && Applies(sh, eff) && InRange(c, f)
    requires Fire(c, sh, f, eff, Goto(g), NoThread)
    ensures Reachable(c, Alone(Apply(sh, eff), ended, g))
  {
    var s, s' := Alone(sh, ended, f), Alone(Apply(sh, eff), ended, g);
    assert s.stacks[|ended|] == [f];
    assert [f][..0] + Frames(Goto(g)) == [g];
    assert Fired(s.stacks, |ended|, Goto(g), NoThread) == s'.stacks;
    Reaches(c, s, Thread(|ended|, eff, Goto(g), NoThread), s');
  }

  /** The thread at work ends and starts another one. */
  lemma Starts(c: Network, sh: Shared, ended: seq<seq<Frame>>, f: Frame, g: Frame)
    requires Reachable(c, Alone(sh, ended, f)) && WellFormed(c, sh) && InRange(c, f)
    requires Fire(c, sh, f, Nop, Return, NewThread(g))
    ensures Reachable(c, Alone(sh, ended + [[]], g))
  {
    var s, s' := Alone(sh, ended, f), Alone(sh, ended + [[]], g);
    assert s.stacks[|ended|] == [f];
    assert [f][..0] + Frames(Return) == [];
    assert Fired(s.stacks, |ended|, Return, NewThread(g)) == s'.stacks;
    Reaches(c, s, Thread(|ended|, Nop, Return, NewThread(g)), s');
  }

  // ---- The run ----

  function Fresh(ports: nat): Node {
    Node(Waiting, seq(ports, _ => Port(0, 0)), 0, 0, false, {})
  }

  function Start(c: Network): Shared {
    Shared(seq(|c.ports|, v requires 0 <= v < |c.ports| => Fresh(c.ports[v])), 0, false, false, 0, false, false, false)
  }

  /** Port 0 of the node holds one packet, and nothing else has happened to it. */
  predicate OnePacket(c: Network, sh: Shared, v: nat) {
    && WellFormed(c, sh) && v < |sh.nodes| && |sh.nodes[v].ports| >= 2 && !sh.stop && Undisturbed(sh)
    && sh.nodes[v].ports[0] == Port(1, 0) && forall j :: 1 <= j < |sh.nodes[v].ports| ==> sh.nodes[v].ports[j] == Port(0, 0)
  }

  lemma {:induction false} Counts(c: Network, v: nat, sh: Shared, i: nat)
    requires OnePacket(c, sh, v) && IsSource(c, v) && i <= c.ports[v]
    requires Reachable(c, Alone(sh, [], TryCount(v, i, SizeEnq, if i > 0 then 1 else 0)))
    ensures Reachable(c, Alone(sh, [], TryCas(v)))
    decreases c.ports[v] - i
  {
    var ready := if i > 0 then 1 else 0;
    if i == c.ports[v] {
      Goes(c, sh, [], TryCount(v, i, SizeEnq, ready), Nop, TryCas(v));
    } else {
      var enq := sh.nodes[v].ports[i].enq;
      Goes(c, sh, [], TryCount(v, i, SizeEnq, ready), Nop, TryCount(v, i, SizeDeq(enq), ready));
      Goes(c, sh, [], TryCount(v, i, SizeDeq(enq), ready), Nop, TryCount(v, i + 1, SizeEnq, 1));
      Counts(c, v, sh, i + 1);
    }
  }

  /** An input arrives on the first port, and the source is claimed. */
  lemma IsClaimed(c: Network, v: nat) returns (sh: Shared)
    requires ValidNetwork(c) && v < |c.ports| && IsSource(c, v) && c.ports[v] >= 2
    ensures OnePacket(c, sh, v) && sh.nodes[v].exec == Waiting && Reachable(c, Alone(sh, [], TryCas(v)))
  {
    var none: seq<seq<Frame>> := [];
    var s0 := State(Start(c), none);
    assert Init(c, s0) && EndsIn(c, [s0], s0);
    sh := Apply(s0.sh, Push(v, 0));
    assert none + Started(NewThread(TryStop(v))) == none + [[TryStop(v)]];
    Reaches(c, s0, Outside(Push(v, 0), NewThread(TryStop(v))), Alone(sh, [], TryStop(v)));
    Goes(c, sh, [], TryStop(v), Nop, TryState(v));
    Goes(c, sh, [], TryState(v), Nop, TryCount(v, 0, SizeEnq, 0));
    Counts(c, v, sh, 0);
  }

  /** The claimed source is posted as a task. */
  lemma IsPosted(c: Network, v: nat, sh: Shared) returns (sh': Shared)
    requires OnePacket(c, sh, v) && sh.nodes[v].exec == Waiting && Reachable(c, Alone(sh, [], TryCas(v)))
    ensures OnePacket(c, sh', v) && sh'.nodes[v].exec == Ready && Reachable(c, Alone(sh', [[]], TaskStop(v)))
  {
    Goes(c, sh, [], TryCas(v), SetExec(v, Ready), TryInc(v));
    var sh1 := Apply(sh, SetExec(v, Ready));
    Goes(c, sh1, [], TryInc(v), AddActive(1), TryPost(v));
    sh' := Apply(sh1, AddActive(1));
    Starts(c, sh', [], TryPost(v), TaskStop(v));
    var none: seq<seq<Frame>> := [];
    assert none + [[]] == [[]];
  }

  /** The task starts to gather. */
  lemma IsGathering(c: Network, v: nat, sh: Shared) returns (sh': Shared)
    requires OnePacket(c, sh, v) && sh.nodes[v].exec == Ready && Reachable(c, Alone(sh, [[]], TaskStop(v)))
    ensures OnePacket(c, sh', v) && Reachable(c, Alone(sh', [[]], Gather(v, 0)))
  {
    Goes(c, sh, [[]], TaskStop(v), Nop, Task(v));
    Goes(c, sh, [[]], Task(v), SetExec(v, Executing), Gather(v, 0));
    sh' := Apply(sh, SetExec(v, Executing));
  }

  /** It takes the packet and finds the next port dry. */
  lemma FindsDry(c: Network, v: nat, sh: Shared) returns (sh': Shared)
    requires OnePacket(c, sh, v) && Reachable(c, Alone(sh, [[]], Gather(v, 0)))
    ensures Reachable(c, Alone(sh', [[]], FailStop(v))) && WellFormed(c, sh') && Undisturbed(sh')
  {
    Goes(c, sh, [[]], Gather(v, 0), Pop(v, 0, false), Gather(v, 1));
    var sh1 := Apply(sh, Pop(v, 0, false));
    assert sh1.nodes[v].ports[1] == Port(0, 0);
    assert DryFrom(sh1.nodes[v], 1);
    Goes(c, sh1, [[]], Gather(v, 1), SetExec(v, Failed), FailStop(v));
    sh' := Apply(sh1, SetExec(v, Failed));
  }

  /** A source with two or more ports stops the batch, although nothing disturbed it. */
  lemma SourceStops(c: Network, v: nat) returns (run: seq<State>)
    requires ValidNetwork(c) && v < |c.ports| && IsSource(c, v) && c.ports[v] >= 2
    ensures IsRun(c, run) && run[|run| - 1].sh.stop && Undisturbed(run[|run| - 1].sh)
  {
    var sh := IsClaimed(c, v);
    sh := IsPosted(c, v, sh);
    sh := IsGathering(c, v, sh);
    sh := FindsDry(c, v, sh);
    Goes(c, sh, [[]], FailStop(v), SetStop(false), TaskDec(v));
    var s := Alone(Apply(sh, SetStop(false)), [[]], TaskDec(v));
    run :| EndsIn(c, run, s);
  }

  // ---- The result ----

  /** In every run the batch is stopped only if a process() failed, somebody asked, or a gather discarded a packet. */
  ghost predicate StopsForCause(c: Network) {
    forall run: seq<State>, n :: IsRun(c, run) && 0 <= n < |run| ==> StopExplained(run[n].sh)
  }

  predicate StopExplained(sh: Shared) {
    sh.stop ==> !Undisturbed(sh)
  }

  /** The exact condition for that: no source has more than one port. */
  lemma StopsForCauseIff(c: Network)
    requires ValidNetwork(c)
    ensures StopsForCause(c) <==> SingleSources(c)
  {
    if SingleSources(c) {
      forall run: seq<State>, n | IsRun(c, run) && 0 <= n < |run|
        ensures StopExplained(run[n].sh)
      {
        StopHasCause(c, run, n);
      }
    } else {
      var v :| 0 <= v < |c.ports| && IsSource(c, v) && c.ports[v] > 1;
      var run := SourceStops(c, v);
      assert !StopExplained(run[|run| - 1].sh);
    }
  }
}
