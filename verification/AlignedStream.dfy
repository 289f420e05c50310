/**
 Gathering by frame id until a port runs dry, as the engine does execution after execution:
 over queues with strictly increasing ids it delivers exactly the common ids, in order.
 */
module AlignedStream {
  import opened FrameAlignment
  import opened AlignedGather

  /** A packet that left a queue, delivered or discarded. */
  datatype Out = Out(packet: Packet, delivered: bool)

  /** Every packet has an id, and the ids of each port increase strictly. */
  predicate Increasing(queues: Queues) {
    && (forall i, k :: 0 <= i < |queues| && 0 <= k < |queues[i]| ==> queues[i][k].HasFrameId())
    && (forall i, k, l :: 0 <= i < |queues| && 0 <= k < l < |queues[i]| ==> queues[i][k].id < queues[i][l].id)
  }

  predicate Has(queue: seq<Packet>, x: nat) {
    exists k :: 0 <= k < |queue| && HeadId(queue[k]) == x
  }

  /** Every port has a packet with this id. */
  predicate Common(queues: Queues, x: nat) {
    forall i :: 0 <= i < |queues| ==> Has(queues[i], x)
  }

  function Position(queue: seq<Packet>, x: nat): (k: nat)
    requires Has(queue, x)
    ensures k < |queue| && HeadId(queue[k]) == x
  {
    if HeadId(queue[0]) == x then 0 else 1 + Position(queue[1..], x)
  }

  function Positions(queues: Queues, x: nat): seq<nat>
    requires Common(queues, x)
  {
    seq(|queues|, i requires 0 <= i < |queues| => Position(queues[i], x))
  }

  function Open(n: nat): seq<bool> {
    seq(n, _ => false)
  }

  /** The packets with a common id are an aligned tuple. */
  lemma CommonMatches(queues: Queues, x: nat)
    requires Increasing(queues) && Common(queues, x)
    ensures Matches(FrameId, queues, Open(|queues|), Positions(queues, x))
  {
  }

  lemma IncreasingIsSorted(queues: Queues)
    requires Increasing(queues)
    ensures Sorted(FrameId, queues)
  {
  }

  /** What one successful gather does to the common ids. */
  ghost predicate OneDelivered(queues: Queues, dropped: Queues, delivered: Queues, rest: Queues) {
    && |queues| > 0 && Conserves(queues, dropped, delivered, rest)
    && (forall i :: 0 <= i < |queues| ==> |delivered[i]| == 1)
    && Pairs(FrameId, Heads(delivered))
    && Earliest(FrameId, queues, Open(|queues|), Lengths(dropped))
  }

  /** All ports deliver the same id, from behind what they discarded. */
  lemma SameId(queues: Queues, dropped: Queues, delivered: Queues, rest: Queues, i: nat)
    requires Increasing(queues) && OneDelivered(queues, dropped, delivered, rest) && i < |queues|
    ensures |dropped[i]| < |queues[i]| && queues[i][|dropped[i]|] == delivered[i][0]
    ensures HeadId(delivered[i][0]) == HeadId(delivered[0][0])
  {
    assert queues[i] == dropped[i] + delivered[i] + rest[i] && queues[0] == dropped[0] + delivered[0] + rest[0];
    assert queues[i][|dropped[i]|] == delivered[i][0] && queues[0][|dropped[0]|] == delivered[0][0];
    assert Heads(delivered)[i] == delivered[i][0] && Heads(delivered)[0] == delivered[0][0];
  }

  lemma CommonStep(queues: Queues, dropped: Queues, delivered: Queues, rest: Queues, x: nat)
    requires Increasing(queues) && OneDelivered(queues, dropped, delivered, rest)
    ensures Common(queues, x) <==> x == HeadId(delivered[0][0]) || Common(rest, x)
  {
    var id := HeadId(delivered[0][0]);
    forall i | 0 <= i < |queues|
      ensures |dropped[i]| < |queues[i]| && HeadId(queues[i][|dropped[i]|]) == id
    {
      SameId(queues, dropped, delivered, rest, i);
    }
    if Common(queues, x) && x != id {
      CommonStays(queues, dropped, delivered, rest, x, id);
    }
    if Common(rest, x) {
      CommonBefore(queues, dropped, delivered, rest, x);
    }
    if x == id {
      forall i | 0 <= i < |queues|
        ensures Has(queues[i], id)
      {
        assert HeadId(queues[i][|dropped[i]|]) == id;
      }
    }
  }

  lemma CommonStays(queues: Queues, dropped: Queues, delivered: Queues, rest: Queues, x: nat, id: nat)
    requires Increasing(queues) && OneDelivered(queues, dropped, delivered, rest) && Common(queues, x) && x != id
    requires forall i :: 0 <= i < |queues| ==> |dropped[i]| < |queues[i]| && HeadId(queues[i][|dropped[i]|]) == id
    ensures Common(rest, x)
  {
    CommonMatches(queues, x);
    var at := Positions(queues, x);
    forall i | 0 <= i < |queues|
      ensures Has(rest[i], x)
    {
      assert Lengths(dropped)[i] <= at[i];
      assert queues[i] == dropped[i] + delivered[i] + rest[i];
      assert HeadId(rest[i][at[i] - |dropped[i]| - 1]) == x;
    }
  }

  lemma CommonBefore(queues: Queues, dropped: Queues, delivered: Queues, rest: Queues, x: nat)
    requires Conserves(queues, dropped, delivered, rest) && Common(rest, x)
    ensures Common(queues, x)
  {
    forall i | 0 <= i < |queues|
      ensures Has(queues[i], x)
    {
      var k := Position(rest[i], x);
      assert queues[i] == dropped[i] + delivered[i] + rest[i];
      assert queues[i][|dropped[i]| + |delivered[i]| + k] == rest[i][k];
    }
  }

  // ---- The logs ----

  function Packets(log: seq<Out>): seq<Packet> {
    if log == [] then [] else [log[0].packet] + Packets(log[1..])
  }

  function DeliveredIds(log: seq<Out>): seq<nat> {
    if log == [] then []
    else (if log[0].delivered then [HeadId(log[0].packet)] else []) + DeliveredIds(log[1..])
  }

  function Tagged(packets: seq<Packet>, delivered: bool): (log: seq<Out>)
    ensures Packets(log) == packets
    ensures DeliveredIds(log) == if delivered then Ids(packets) else []
  {
    if packets == [] then [] else [Out(packets[0], delivered)] + Tagged(packets[1..], delivered)
  }

  function Ids(packets: seq<Packet>): seq<nat> {
    if packets == [] then [] else [HeadId(packets[0])] + Ids(packets[1..])
  }

  lemma {:induction false} PacketsConcat(a: seq<Out>, b: seq<Out>)
    ensures Packets(a + b) == Packets(a) + Packets(b)
  {
    if a == [] {
      assert a + b == b;
    } else {
      assert (a + b)[1..] == a[1..] + b;
      PacketsConcat(a[1..], b);
    }
  }

  lemma {:induction false} IdsConcat(a: seq<Out>, b: seq<Out>)
    ensures DeliveredIds(a + b) == DeliveredIds(a) + DeliveredIds(b)
  {
    if a == [] {
      assert a + b == b;
    } else {
      var first := if a[0].delivered then [HeadId(a[0].packet)] else [];
      assert (a + b)[1..] == a[1..] + b;
      IdsConcat(a[1..], b);
      assert first + (DeliveredIds(a[1..]) + DeliveredIds(b)) == (first + DeliveredIds(a[1..])) + DeliveredIds(b);
    }
  }

  lemma PacketsOfThree(log: seq<Out>, a: seq<Out>, b: seq<Out>)
    ensures Packets(log + (a + b)) == Packets(log) + (Packets(a) + Packets(b))
  {
    PacketsConcat(log, a + b);
    PacketsConcat(a, b);
  }

  lemma IdsOfThree(log: seq<Out>, a: seq<Out>, b: seq<Out>)
    ensures DeliveredIds(log + (a + b)) == DeliveredIds(log) + (DeliveredIds(a) + DeliveredIds(b))
  {
    IdsConcat(log, a + b);
    IdsConcat(a, b);
  }

  /** The log of every port after one more gather. */
  function Logged(logs: seq<seq<Out>>, dropped: Queues, delivered: Queues): seq<seq<Out>>
    requires |logs| == |dropped| == |delivered|
  {
    seq(|logs|, i requires 0 <= i < |logs| => logs[i] + (Tagged(dropped[i], false) + Tagged(delivered[i], true)))
  }

  lemma LoggedPackets(logs: seq<seq<Out>>, dropped: Queues, delivered: Queues, i: nat)
    requires i < |logs| == |dropped| == |delivered|
    ensures Packets(Logged(logs, dropped, delivered)[i]) == Packets(logs[i]) + (dropped[i] + delivered[i])
    ensures DeliveredIds(Logged(logs, dropped, delivered)[i]) == DeliveredIds(logs[i]) + Ids(delivered[i])
  {
    PacketsOfThree(logs[i], Tagged(dropped[i], false), Tagged(delivered[i], true));
    IdsOfThree(logs[i], Tagged(dropped[i], false), Tagged(delivered[i], true));
    assert [] + Ids(delivered[i]) == Ids(delivered[i]);
  }

  // ---- Gathering until a port is dry ----

  /** The log of every port and what is left of it make up the port, and the log delivered these ids. */
  predicate LogsOk(queues: Queues, ids: seq<nat>, logs: seq<seq<Out>>, rest: Queues) {
    && |queues| == |logs| == |rest|
    && forall i :: 0 <= i < |queues| ==> queues[i] == Packets(logs[i]) + rest[i] && DeliveredIds(logs[i]) == ids
  }

  /** The delivered ids increase, and are below everything that is left. */
  predicate IdsOk(ids: seq<nat>, rest: Queues) {
    && (forall a, b :: 0 <= a < b < |ids| ==> ids[a] < ids[b])
    && (forall a, i, k :: 0 <= a < |ids| && 0 <= i < |rest| && 0 <= k < |rest[i]| ==> ids[a] < HeadId(rest[i][k]))
  }

  /** What has been delivered so far: below everything left, and nothing common skipped. */
  ghost predicate Progressed(queues: Queues, ids: seq<nat>, logs: seq<seq<Out>>, rest: Queues) {
    && LogsOk(queues, ids, logs, rest) && Increasing(rest) && IdsOk(ids, rest)
    && (forall x :: Common(queues, x) <==> x in ids || Common(rest, x))
  }

  /**
   Repeated gathers deliver exactly the ids common to all ports, each once and in increasing
   order, the same on every port; every packet that left a queue was delivered or discarded.
   */
  method GatherAll(queues: Queues) returns (ids: seq<nat>, logs: seq<seq<Out>>, rest: Queues)
    requires |queues| > 0 && Increasing(queues)
    ensures |logs| == |rest| == |queues|
    ensures forall a, b :: 0 <= a < b < |ids| ==> ids[a] < ids[b]
    ensures forall x :: x in ids <==> Common(queues, x)
    ensures forall i :: 0 <= i < |queues| ==> queues[i] == Packets(logs[i]) + rest[i] && DeliveredIds(logs[i]) == ids
    ensures exists i :: 0 <= i < |rest| && rest[i] == []
  {
    ids, rest := [], queues;
    logs := seq(|queues|, _ => []);
    var ok := true;
    while ok
      invariant Progressed(queues, ids, logs, rest)
      invariant !ok ==> exists i :: 0 <= i < |rest| && rest[i] == []
      decreases ok, |rest[0]|
    {
      IncreasingIsSorted(rest);
      ghost var before := rest;
      var dropped, delivered;
      ok, dropped, delivered, rest := Gather(FrameId, rest, Open(|rest|));
      if ok {
        SuccessIsMatch(before, dropped, delivered, rest);
        DeliveryProgresses(queues, ids, logs, before, dropped, delivered, rest);
        ids := ids + [HeadId(delivered[0][0])];
      } else {
        DryProgresses(queues, ids, logs, before, dropped, delivered, rest);
      }
      logs := Logged(logs, dropped, delivered);
    }
  }

  lemma SuccessIsMatch(queues: Queues, dropped: Queues, delivered: Queues, rest: Queues)
    requires |queues| > 0 && Increasing(queues) && Conserves(queues, dropped, delivered, rest) && Delivers(FrameId, delivered)
    requires forall i :: 0 <= i < |queues| ==> delivered[i] != []
    requires HasMatch(FrameId, queues, Open(|queues|)) ==> Earliest(FrameId, queues, Open(|queues|), Lengths(dropped))
    ensures OneDelivered(queues, dropped, delivered, rest)
  {
    var at := Lengths(dropped);
    forall i | 0 <= i < |queues|
      ensures at[i] < |queues[i]| && Chosen(queues, at)[i] == Head(delivered[i])
    {
      assert queues[i] == dropped[i] + delivered[i] + rest[i];
    }
    assert Chosen(queues, at) == Heads(delivered);
    assert Matches(FrameId, queues, Open(|queues|), at);
    assert !Closed(queues, Open(|queues|), 0);
  }

  /** What is left behind a delivered packet has larger ids. */
  lemma RestIsLarger(queues: Queues, dropped: Queues, delivered: Queues, rest: Queues, i: nat)
    requires Increasing(queues) && Conserves(queues, dropped, delivered, rest) && i < |queues|
    ensures forall k :: 0 <= k < |rest[i]| ==> rest[i][k] in queues[i] && rest[i][k].HasFrameId()
    ensures forall k, l :: 0 <= k < l < |rest[i]| ==> HeadId(rest[i][k]) < HeadId(rest[i][l])
    ensures delivered[i] != [] ==> forall k :: 0 <= k < |rest[i]| ==> HeadId(delivered[i][0]) < HeadId(rest[i][k])
  {
    var d, n := |dropped[i]|, |dropped[i]| + |delivered[i]|;
    assert queues[i] == dropped[i] + delivered[i] + rest[i];
    forall k | 0 <= k < |rest[i]|
      ensures rest[i][k] == queues[i][n + k]
    {
    }
    if delivered[i] != [] {
      assert queues[i][d] == delivered[i][0];
    }
  }

  lemma LogsContinue(queues: Queues, logs: seq<seq<Out>>, before: Queues, dropped: Queues, delivered: Queues, rest: Queues, i: nat)
    requires |queues| == |logs| == |before| && Conserves(before, dropped, delivered, rest) && i < |queues|
    requires queues[i] == Packets(logs[i]) + before[i]
    ensures queues[i] == Packets(Logged(logs, dropped, delivered)[i]) + rest[i]
    ensures DeliveredIds(Logged(logs, dropped, delivered)[i]) == DeliveredIds(logs[i]) + Ids(delivered[i])
  {
    LoggedPackets(logs, dropped, delivered, i);
    assert before[i] == dropped[i] + delivered[i] + rest[i];
  }

  lemma StillIncreasing(queues: Queues, dropped: Queues, delivered: Queues, rest: Queues)
    requires Increasing(queues) && Conserves(queues, dropped, delivered, rest)
    ensures Increasing(rest)
  {
    forall i | 0 <= i < |rest|
      ensures forall k :: 0 <= k < |rest[i]| ==> rest[i][k].HasFrameId()
      ensures forall k, l :: 0 <= k < l < |rest[i]| ==> HeadId(rest[i][k]) < HeadId(rest[i][l])
    {
      RestIsLarger(queues, dropped, delivered, rest, i);
    }
  }

  lemma DeliveredLogs(queues: Queues, ids: seq<nat>, logs: seq<seq<Out>>, before: Queues, dropped: Queues, delivered: Queues, rest: Queues)
    requires LogsOk(queues, ids, logs, before) && Increasing(before) && OneDelivered(before, dropped, delivered, rest)
    ensures LogsOk(queues, ids + [HeadId(delivered[0][0])], Logged(logs, dropped, delivered), rest)
  {
    forall i | 0 <= i < |queues|
      ensures queues[i] == Packets(Logged(logs, dropped, delivered)[i]) + rest[i]
      ensures DeliveredIds(Logged(logs, dropped, delivered)[i]) == ids + [HeadId(delivered[0][0])]
    {
      LogsContinue(queues, logs, before, dropped, delivered, rest, i);
      SameId(before, dropped, delivered, rest, i);
      assert delivered[i] == [delivered[i][0]];
    }
  }

  lemma DeliveredIsNext(ids: seq<nat>, before: Queues, dropped: Queues, delivered: Queues, rest: Queues)
    requires IdsOk(ids, before) && Increasing(before) && OneDelivered(before, dropped, delivered, rest)
    ensures forall a :: 0 <= a < |ids| ==> ids[a] < HeadId(delivered[0][0])
  {
    var d := |dropped[0]|;
    assert before[0] == dropped[0] + delivered[0] + rest[0];
    assert before[0][d] == delivered[0][0];
  }

  lemma DeliveredIsBelow(ids: seq<nat>, before: Queues, dropped: Queues, delivered: Queues, rest: Queues)
    requires IdsOk(ids, before) && Increasing(before) && OneDelivered(before, dropped, delivered, rest)
    ensures IdsOk(ids + [HeadId(delivered[0][0])], rest)
  {
    var id := HeadId(delivered[0][0]);
    DeliveredIsNext(ids, before, dropped, delivered, rest);
    forall i, k | 0 <= i < |rest| && 0 <= k < |rest[i]|
      ensures id < HeadId(rest[i][k])
      ensures forall a :: 0 <= a < |ids| ==> ids[a] < HeadId(rest[i][k])
    {
      RestIsLarger(before, dropped, delivered, rest, i);
      SameId(before, dropped, delivered, rest, i);
      var l :| 0 <= l < |before[i]| && before[i][l] == rest[i][k];
    }
  }

  lemma DeliveryProgresses(queues: Queues, ids: seq<nat>, logs: seq<seq<Out>>, before: Queues, dropped: Queues, delivered: Queues, rest: Queues)
    requires Progressed(queues, ids, logs, before) && OneDelivered(before, dropped, delivered, rest)
    ensures Progressed(queues, ids + [HeadId(delivered[0][0])], Logged(logs, dropped, delivered), rest)
  {
    StillIncreasing(before, dropped, delivered, rest);
    DeliveredLogs(queues, ids, logs, before, dropped, delivered, rest);
    DeliveredIsBelow(ids, before, dropped, delivered, rest);
    forall x
      ensures Common(queues, x) <==> x in ids + [HeadId(delivered[0][0])] || Common(rest, x)
    {
      CommonStep(before, dropped, delivered, rest, x);
    }
  }

  lemma DryProgresses(queues: Queues, ids: seq<nat>, logs: seq<seq<Out>>, before: Queues, dropped: Queues, delivered: Queues, rest: Queues)
    requires |queues| > 0 && Progressed(queues, ids, logs, before) && Conserves(before, dropped, delivered, rest)
    requires forall i :: 0 <= i < |queues| ==> delivered[i] == []
    requires !HasMatch(FrameId, before, Open(|before|)) && !(AllReady(rest, Open(|rest|)) && SomeOpen(rest, Open(|rest|)))
    ensures Progressed(queues, ids, Logged(logs, dropped, delivered), rest)
    ensures exists i :: 0 <= i < |rest| && rest[i] == []
  {
    StillIncreasing(before, dropped, delivered, rest);
    forall i | 0 <= i < |queues|
      ensures queues[i] == Packets(Logged(logs, dropped, delivered)[i]) + rest[i]
      ensures DeliveredIds(Logged(logs, dropped, delivered)[i]) == ids
      ensures forall k :: 0 <= k < |rest[i]| ==> rest[i][k] in before[i]
    {
      LogsContinue(queues, logs, before, dropped, delivered, rest, i);
      RestIsLarger(before, dropped, delivered, rest, i);
    }
    NothingCommon(before, rest);
  }

  /** Without an aligned tuple, and with a dry port, no id is common. */
  lemma NothingCommon(before: Queues, rest: Queues)
    requires |rest| == |before| > 0 && Increasing(before) && !HasMatch(FrameId, before, Open(|before|))
    requires !(AllReady(rest, Open(|rest|)) && SomeOpen(rest, Open(|rest|)))
    ensures forall x :: !Common(before, x) && !Common(rest, x)
    ensures exists i :: 0 <= i < |rest| && rest[i] == []
  {
    assert !Closed(rest, Open(|rest|), 0) && !Closed(before, Open(|before|), 0);
    var dry :| 0 <= dry < |rest| && rest[dry] == [];
    forall x
      ensures !Common(before, x) && !Common(rest, x)
    {
      if Common(before, x) {
        CommonMatches(before, x);
      }
      assert !Has(rest[dry], x);
    }
  }
}
