/**
 The aligned gather of src/frame_alignment.hpp: one loop for all policies, which discards
 heads that can never be paired until the heads of all open ports belong together.

 A port is closed once it is at end of stream and empty; it then pairs with anything.
 */
module AlignedGather {
  import opened FrameAlignment
  import opened Stacks

  type Queues = seq<seq<Packet>>

  predicate Closed(queues: Queues, atEnd: seq<bool>, i: nat)
    requires i < |queues| == |atEnd|
  {
    atEnd[i] && queues[i] == []
  }

  predicate AllReady(queues: Queues, atEnd: seq<bool>)
    requires |queues| == |atEnd|
  {
    forall i :: 0 <= i < |queues| ==> Closed(queues, atEnd, i) || queues[i] != []
  }

  predicate SomeOpen(queues: Queues, atEnd: seq<bool>)
    requires |queues| == |atEnd|
  {
    exists i :: 0 <= i < |queues| && !Closed(queues, atEnd, i)
  }

  function Head(queue: seq<Packet>): Packet {
    if queue == [] then Null else queue[0]
  }

  function Heads(queues: Queues): seq<Packet> {
    seq(|queues|, i requires 0 <= i < |queues| => Head(queues[i]))
  }

  // ---- The policy contract ----

  /** Progress: heads that do not belong together contain one to discard. */
  lemma Progress(policy: Policy, heads: seq<Packet>)
    requires !Pairs(policy, heads)
    ensures exists i :: 0 <= i < |heads| && IsStale(policy, heads, i)
  {
    var i, j :| 0 <= i < |heads| && 0 <= j < |heads| && !Wild(policy, heads[i]) && !Wild(policy, heads[j]) &&
      !Compatible(policy, heads[i], heads[j]);
    match policy {
      case FrameId =>
        assert IsStale(policy, heads, if heads[i].id < heads[j].id then i else j);
      case StreamFrameId =>
        if k :| 0 <= k < |heads| && heads[k].HasFrameId() && Later(heads, heads[k]) {
          assert IsStale(policy, heads, k);
        } else {
          var k := SmallestExists(heads, |heads|, i);
          assert IsStale(policy, heads, k);
        }
      case Timestamp(tolerance) =>
        assert IsStale(policy, heads, if heads[i].time < heads[j].time then i else j);
    }
  }

  lemma {:induction false} SmallestExists(heads: seq<Packet>, n: nat, i: nat) returns (k: nat)
    requires i < n <= |heads| && heads[i].HasFrameId()
    ensures k < n && heads[k].HasFrameId()
    ensures forall j :: 0 <= j < n && heads[j].HasFrameId() ==> !KeyBelow(heads[j], heads[k])
  {
    if i == n - 1 {
      k := i;
      if m :| 0 <= m < n - 1 && heads[m].HasFrameId() {
        k := SmallestExists(heads, n - 1, m);
        if KeyBelow(heads[i], heads[k]) {
          k := i;
        }
      }
    } else {
      k := SmallestExists(heads, n - 1, i);
      if heads[n - 1].HasFrameId() && KeyBelow(heads[n - 1], heads[k]) {
        k := n - 1;
      }
    }
  }

  /** No packet is wild under the policy. */
  predicate Assigned(policy: Policy, queues: Queues) {
    forall i, k :: 0 <= i < |queues| && 0 <= k < |queues[i]| ==> !Wild(policy, queues[i][k])
  }

  /** `y` may follow `x` in a queue sorted by the policy's key. */
  predicate Follows(policy: Policy, x: Packet, y: Packet)
    requires x.Frame? && y.Frame?
  {
    match policy
    case FrameId => x.id <= y.id
    case StreamFrameId => x.time < y.time || (x.time == y.time && !KeyBelow(y, x))
    case Timestamp(_) => x.time <= y.time
  }

  /** What the promise of an optimal gather presupposes of the queues. */
  predicate Sorted(policy: Policy, queues: Queues) {
    && Assigned(policy, queues)
    && (policy.Timestamp? ==> policy.tolerance >= 0)
    && (forall i, k, l :: 0 <= i < |queues| && 0 <= k <= l < |queues[i]| ==> Follows(policy, queues[i][k], queues[i][l]))
    && (policy.StreamFrameId? ==>
          forall i, k, j, l :: 0 <= i < |queues| && 0 <= k < |queues[i]| && 0 <= j < |queues| && 0 <= l < |queues[j]| ==>
            && queues[i][k].time >= 0
            && (Compatible(policy, queues[i][k], queues[j][l]) ==> queues[i][k].time == queues[j][l].time))
  }

  /** A choice of one packet from every port that is not closed. */
  predicate IsTuple(queues: Queues, atEnd: seq<bool>, at: seq<nat>)
    requires |queues| == |atEnd|
  {
    && |at| == |queues|
    && forall i :: 0 <= i < |queues| ==> Closed(queues, atEnd, i) || at[i] < |queues[i]|
  }

  function Chosen(queues: Queues, at: seq<nat>): seq<Packet>
    requires |at| == |queues|
  {
    seq(|queues|, i requires 0 <= i < |queues| => if at[i] < |queues[i]| then queues[i][at[i]] else Null)
  }

  /** An aligned tuple. */
  predicate Matches(policy: Policy, queues: Queues, atEnd: seq<bool>, at: seq<nat>)
    requires |queues| == |atEnd|
  {
    IsTuple(queues, atEnd, at) && Pairs(policy, Chosen(queues, at))
  }

  /** Two packets of a tuple whose ports stand at or before it, when the first is discarded because of the second. */
  lemma HopelessPair(policy: Policy, x: Packet, y: Packet, y': Packet)
    requires !Wild(policy, x) && !Wild(policy, y) && !Wild(policy, y') && Follows(policy, y, y')
    requires match policy
             case FrameId => x.id < y.id
             case StreamFrameId => (x.time < y.time || (x.time == y.time && KeyBelow(x, y))) && (Compatible(policy, x, y') ==> x.time == y'.time)
             case Timestamp(tolerance) => y.time - x.time > tolerance
    ensures !Compatible(policy, x, y')
  {
  }

  /** Which head makes head `i` stale, on queues that presuppose nothing but assigned heads. */
  lemma StaleBecause(policy: Policy, heads: seq<Packet>, i: nat) returns (j: nat)
    requires i < |heads| && IsStale(policy, heads, i) && !Pairs(policy, heads)
    requires policy.Timestamp? ==> policy.tolerance >= 0
    requires policy.StreamFrameId? ==> forall k :: 0 <= k < |heads| && heads[k].HasFrameId() ==> heads[k].time >= 0
    ensures j < |heads| && !Wild(policy, heads[j])
    ensures match policy
            case FrameId => heads[i].id < heads[j].id
            case StreamFrameId => heads[i].time < heads[j].time || (heads[i].time == heads[j].time && KeyBelow(heads[i], heads[j]))
            case Timestamp(tolerance) => heads[j].time - heads[i].time > tolerance
  {
    match policy {
      case FrameId =>
        j :| 0 <= j < |heads| && heads[j].HasFrameId() && heads[i].id < heads[j].id;
      case StreamFrameId =>
        if Later(heads, heads[i]) {
          j :| 0 <= j < |heads| && heads[j].HasFrameId() && heads[j].time > heads[i].time;
        } else {
          j := LargerKey(heads, i);
        }
      case Timestamp(tolerance) =>
        j :| 0 <= j < |heads| && heads[j].Frame? && heads[j].time - heads[i].time > tolerance;
    }
  }

  /** If no head is later than another and they do not belong together, one has a larger key than the smallest. */
  lemma LargerKey(heads: seq<Packet>, i: nat) returns (j: nat)
    requires i < |heads| && IsStale(StreamFrameId, heads, i) && !Pairs(StreamFrameId, heads) && !Later(heads, heads[i])
    ensures j < |heads| && heads[j].HasFrameId() && heads[j].time == heads[i].time && KeyBelow(heads[i], heads[j])
  {
    var a, b :| 0 <= a < |heads| && 0 <= b < |heads| && !Wild(StreamFrameId, heads[a]) && !Wild(StreamFrameId, heads[b]) &&
      !Compatible(StreamFrameId, heads[a], heads[b]);
    assert !Later(heads, heads[a]) && !Later(heads, heads[b]);
    j := if Compatible(StreamFrameId, heads[i], heads[a]) then b else a;
  }

  // ---- The loop ----

  function Lengths(queues: Queues): seq<nat> {
    seq(|queues|, i requires 0 <= i < |queues| => |queues[i]|)
  }

  function LengthW(): seq<Packet> -> int {
    (queue: seq<Packet>) => |queue|
  }

  /** Every queue is what was discarded from it and what is left, in order. */
  predicate Splits(queues: Queues, dropped: Queues, rest: Queues) {
    && |queues| == |dropped| == |rest|
    && forall i :: 0 <= i < |queues| ==> queues[i] == dropped[i] + rest[i]
  }

  /** No aligned tuple contains a discarded packet. */
  ghost predicate NothingLost(policy: Policy, queues: Queues, atEnd: seq<bool>, dropped: Queues)
    requires |queues| == |atEnd| == |dropped|
  {
    forall at :: Matches(policy, queues, atEnd, at) ==> Reaches(queues, dropped, at)
  }

  /** The tuple lies at or behind the heads. */
  predicate Reaches(queues: Queues, dropped: Queues, at: seq<nat>)
    requires |queues| == |dropped| == |at|
  {
    forall i :: 0 <= i < |queues| && at[i] < |queues[i]| ==> |dropped[i]| <= at[i]
  }

  /** Phase A: the heads of all open ports, unless one of them is dry. */
  method PeekAll(queues: Queues, atEnd: seq<bool>) returns (ready: bool, open: nat, heads: seq<Packet>)
    requires |queues| == |atEnd|
    ensures ready == AllReady(queues, atEnd)
    ensures ready ==> heads == Heads(queues) && (open > 0 <==> SomeOpen(queues, atEnd))
  {
    heads, open := [], 0;
    for n := 0 to |queues|
      invariant |heads| == n && forall i :: 0 <= i < n ==> heads[i] == Head(queues[i])
      invariant forall i :: 0 <= i < n ==> Closed(queues, atEnd, i) || queues[i] != []
      invariant open > 0 <==> exists i :: 0 <= i < n && !Closed(queues, atEnd, i)
    {
      if atEnd[n] && queues[n] == [] {
        heads := heads + [Null];
      } else {
        open := open + 1;
        assert !Closed(queues, atEnd, n);
        if queues[n] == [] {
          return false, open, heads;
        }
        heads := heads + [queues[n][0]];
      }
    }
    ready := true;
  }

  /** Phase C: discarding the stale heads. */
  method DropHeads(before: Queues, logged: Queues, stale: seq<nat>) returns (rest: Queues, dropped: Queues)
    requires |before| == |logged| && Ascending(stale, |before|)
    requires forall i :: i in stale ==> before[i] != []
    ensures |rest| == |dropped| == |before|
    ensures forall i :: 0 <= i < |before| ==>
              if i in stale then rest[i] == before[i][1..] && dropped[i] == logged[i] + [before[i][0]]
              else rest[i] == before[i] && dropped[i] == logged[i]
    ensures Sum(LengthW(), rest) == Sum(LengthW(), before) - |stale|
  {
    rest, dropped := before, logged;
    for n := 0 to |stale|
      invariant |rest| == |dropped| == |before|
      invariant forall i :: 0 <= i < |before| ==>
                  if i in stale[..n] then rest[i] == before[i][1..] && dropped[i] == logged[i] + [before[i][0]]
                  else rest[i] == before[i] && dropped[i] == logged[i]
      invariant Sum(LengthW(), rest) == Sum(LengthW(), before) - n
    {
      var i := stale[n];
      assert i in stale && i !in stale[..n];
      assert stale[..n + 1] == stale[..n] + [i];
      SumUpdate(LengthW(), rest, i, rest[i][1..]);
      dropped := dropped[i := dropped[i] + [rest[i][0]]];
      rest := rest[i := rest[i][1..]];
    }
    assert stale[..|stale|] == stale;
  }

  /** Phase B: popping the head of every open port. */
  method PopHeads(before: Queues, atEnd: seq<bool>) returns (rest: Queues, delivered: Queues)
    requires |before| == |atEnd| && AllReady(before, atEnd) && SomeOpen(before, atEnd)
    ensures |rest| == |delivered| == |before|
    ensures forall i :: 0 <= i < |before| ==> before[i] == delivered[i] + rest[i] && |delivered[i]| <= 1
    ensures forall i :: 0 <= i < |before| ==> delivered[i] != [] || Closed(rest, atEnd, i)
    ensures Heads(delivered) == Heads(before)
    ensures exists i :: 0 <= i < |before| && |delivered[i]| == 1
  {
    rest, delivered := [], [];
    for n := 0 to |before|
      invariant |rest| == |delivered| == n
      invariant forall i :: 0 <= i < n ==>
                  if Closed(before, atEnd, i) then rest[i] == [] && delivered[i] == []
                  else rest[i] == before[i][1..] && delivered[i] == [before[i][0]]
    {
      if atEnd[n] && before[n] == [] {
        rest, delivered := rest + [[]], delivered + [[]];
      } else {
        rest, delivered := rest + [before[n][1..]], delivered + [[before[n][0]]];
      }
    }
    ghost var i :| 0 <= i < |before| && !Closed(before, atEnd, i);
    assert |delivered[i]| == 1;
  }

  /** A tuple at or behind the heads that contains a stale head is not aligned. */
  lemma HopelessTuple(policy: Policy, queues: Queues, atEnd: seq<bool>, dropped: Queues, rest: Queues, at: seq<nat>, i: nat)
    requires |queues| == |atEnd| && Splits(queues, dropped, rest) && Sorted(policy, queues)
    requires IsTuple(queues, atEnd, at) && Reaches(queues, dropped, at)
    requires i < |queues| && IsStale(policy, Heads(rest), i) && !Pairs(policy, Heads(rest))
    requires at[i] == |dropped[i]|
    ensures !Pairs(policy, Chosen(queues, at))
  {
    var heads := Heads(rest);
    forall k | 0 <= k < |heads| && heads[k].Frame?
      ensures rest[k] != [] && heads[k] == queues[k][|dropped[k]|]
    {
      assert queues[k] == dropped[k] + rest[k];
    }
    var j := StaleBecause(policy, heads, i);
    assert at[j] < |queues[j]|;
    assert Follows(policy, queues[j][|dropped[j]|], queues[j][at[j]]);
    HopelessPair(policy, heads[i], heads[j], queues[j][at[j]]);
    var chosen := Chosen(queues, at);
    assert !Compatible(policy, chosen[i], chosen[j]);
  }

  /** Every queue is what was discarded, what was delivered and what is left, in order. */
  predicate Conserves(queues: Queues, dropped: Queues, delivered: Queues, rest: Queues) {
    && |queues| == |dropped| == |delivered| == |rest|
    && forall i :: 0 <= i < |queues| ==> queues[i] == dropped[i] + delivered[i] + rest[i]
  }

  /** One packet from every port that delivered, and they belong together. */
  predicate Delivers(policy: Policy, delivered: Queues) {
    && (forall i :: 0 <= i < |delivered| ==> |delivered[i]| <= 1)
    && (exists i :: 0 <= i < |delivered| && |delivered[i]| == 1)
    && Pairs(policy, Heads(delivered))
  }

  /** The delivered tuple is aligned, and no aligned tuple has an earlier packet on any port. */
  ghost predicate Earliest(policy: Policy, queues: Queues, atEnd: seq<bool>, at: seq<nat>)
    requires |queues| == |atEnd| == |at|
  {
    && Matches(policy, queues, atEnd, at)
    && forall other :: Matches(policy, queues, atEnd, other) ==>
         forall i :: 0 <= i < |queues| && at[i] < |queues[i]| ==> at[i] <= other[i]
  }

  /** The queues after more packets arrived on ports that are not at end of stream. */
  predicate Grown(queues: Queues, later: Queues, atEnd: seq<bool>)
    requires |queues| == |atEnd|
  {
    && |later| == |queues|
    && forall i :: 0 <= i < |queues| ==> queues[i] <= later[i] && (atEnd[i] ==> later[i] == queues[i])
  }

  /** Whatever arrives later, no aligned tuple contains a discarded packet. */
  ghost predicate NeverLost(policy: Policy, queues: Queues, atEnd: seq<bool>, dropped: Queues)
    requires |queues| == |atEnd| == |dropped|
  {
    forall later :: Grown(queues, later, atEnd) && Sorted(policy, later) ==> NothingLost(policy, later, atEnd, dropped)
  }

  /** The state of the loop: nothing is lost so far. */
  ghost predicate Ongoing(policy: Policy, queues: Queues, atEnd: seq<bool>, dropped: Queues, rest: Queues)
    requires |queues| == |atEnd|
  {
    Splits(queues, dropped, rest) && NeverLost(policy, queues, atEnd, dropped)
  }

  /** Nothing has been discarded. */
  predicate Untouched(queues: Queues, dropped: Queues, rest: Queues) {
    rest == queues && |dropped| == |queues| && forall i :: 0 <= i < |dropped| ==> dropped[i] == []
  }

  lemma NotYetLost(policy: Policy, queues: Queues, atEnd: seq<bool>, dropped: Queues)
    requires |queues| == |atEnd| && Untouched(queues, dropped, queues)
    ensures Ongoing(policy, queues, atEnd, dropped, queues)
  {
    forall later | Grown(queues, later, atEnd) && Sorted(policy, later)
      ensures NothingLost(policy, later, atEnd, dropped)
    {
      forall at | Matches(policy, later, atEnd, at)
        ensures Reaches(later, dropped, at)
      {
      }
    }
  }

  /** What holds of the later queues holds of the queues as they are. */
  lemma LostNow(policy: Policy, queues: Queues, atEnd: seq<bool>, dropped: Queues)
    requires |queues| == |atEnd| == |dropped| && NeverLost(policy, queues, atEnd, dropped) && Sorted(policy, queues)
    ensures NothingLost(policy, queues, atEnd, dropped)
  {
    assert Grown(queues, queues, atEnd);
  }

  /** There is something to deliver. */
  ghost predicate HasMatch(policy: Policy, queues: Queues, atEnd: seq<bool>)
    requires |queues| == |atEnd|
  {
    SomeOpen(queues, atEnd) && exists at :: Matches(policy, queues, atEnd, at)
  }

  /**
   The gather discards, delivers or leaves every packet, in order.  It fails only with an open
   port that is dry, or with none open; if that is so from the start it leaves everything
   alone.  On sorted queues it delivers the componentwise earliest aligned tuple whenever there
   is one, and what it discards is in no aligned tuple, whatever arrives later.
   */
  method Gather(policy: Policy, queues: Queues, atEnd: seq<bool>)
    returns (ok: bool, dropped: Queues, delivered: Queues, rest: Queues)
    requires |queues| == |atEnd|
    ensures Conserves(queues, dropped, delivered, rest)
    ensures ok ==> Delivers(policy, delivered)
    ensures ok ==> forall i :: 0 <= i < |queues| ==> delivered[i] != [] || Closed(rest, atEnd, i)
    ensures !ok ==> (forall i :: 0 <= i < |queues| ==> delivered[i] == []) && !(AllReady(rest, atEnd) && SomeOpen(rest, atEnd))
    ensures Sorted(policy, queues) && HasMatch(policy, queues, atEnd) ==> ok && Earliest(policy, queues, atEnd, Lengths(dropped))
    ensures NeverLost(policy, queues, atEnd, dropped)
    ensures !(AllReady(queues, atEnd) && SomeOpen(queues, atEnd)) ==> !ok && Untouched(queues, dropped, rest)
    ensures AllReady(queues, atEnd) && SomeOpen(queues, atEnd) && Pairs(policy, Heads(queues)) ==>
              ok && forall i :: 0 <= i < |queues| ==> dropped[i] == []
  {
    rest := queues;
    dropped := seq(|queues|, _ => []);
    delivered := seq(|queues|, _ => []);
    NotYetLost(policy, queues, atEnd, dropped);
    while true
      invariant Looping(policy, queues, atEnd, dropped, rest)
      decreases Sum(LengthW(), rest)
    {
      var ready, open, heads := PeekAll(rest, atEnd);
      if !ready || open == 0 {
        FailureIsRight(policy, queues, atEnd, dropped, rest, delivered);
        return false, dropped, delivered, rest;
      }
      var aligned := Aligned(policy, heads);
      if aligned {
        SuccessIsRight(policy, queues, atEnd, dropped, rest);
        ghost var before := rest;
        rest, delivered := PopHeads(rest, atEnd);
        PopConserves(queues, dropped, before, delivered, rest);
        return true, dropped, delivered, rest;
      }
      rest, dropped := Discard(policy, queues, atEnd, rest, dropped, heads);
    }
  }

  /** The loop goes on after a discard only from heads that were all there and did not belong together. */
  ghost predicate Looping(policy: Policy, queues: Queues, atEnd: seq<bool>, dropped: Queues, rest: Queues)
    requires |queues| == |atEnd|
  {
    && Ongoing(policy, queues, atEnd, dropped, rest)
    && (Untouched(queues, dropped, rest) || (AllReady(queues, atEnd) && SomeOpen(queues, atEnd) && !Pairs(policy, Heads(queues))))
  }

  lemma FailureIsRight(policy: Policy, queues: Queues, atEnd: seq<bool>, dropped: Queues, rest: Queues, delivered: Queues)
    requires |queues| == |atEnd| && Looping(policy, queues, atEnd, dropped, rest)
    requires |delivered| == |queues| && forall i :: 0 <= i < |queues| ==> delivered[i] == []
    requires !(AllReady(rest, atEnd) && SomeOpen(rest, atEnd))
    ensures !(Sorted(policy, queues) && HasMatch(policy, queues, atEnd))
    ensures Conserves(queues, dropped, delivered, rest)
    ensures !(AllReady(queues, atEnd) && SomeOpen(queues, atEnd)) ==> Untouched(queues, dropped, rest)
    ensures !(AllReady(queues, atEnd) && SomeOpen(queues, atEnd) && Pairs(policy, Heads(queues)))
  {
    MatchIsReady(policy, queues, atEnd, dropped, rest);
    forall i | 0 <= i < |queues|
      ensures queues[i] == dropped[i] + delivered[i] + rest[i]
    {
      assert queues[i] == dropped[i] + rest[i];
    }
  }

  lemma SuccessIsRight(policy: Policy, queues: Queues, atEnd: seq<bool>, dropped: Queues, rest: Queues)
    requires |queues| == |atEnd| && Looping(policy, queues, atEnd, dropped, rest)
    requires AllReady(rest, atEnd) && SomeOpen(rest, atEnd) && Pairs(policy, Heads(rest))
    ensures Sorted(policy, queues) && HasMatch(policy, queues, atEnd) ==> Earliest(policy, queues, atEnd, Lengths(dropped))
    ensures AllReady(queues, atEnd) && SomeOpen(queues, atEnd)
    ensures Pairs(policy, Heads(queues)) ==> forall i :: 0 <= i < |queues| ==> dropped[i] == []
  {
    HeadsAreEarliest(policy, queues, atEnd, dropped, rest);
  }

  /** Phase C. */
  method Discard(policy: Policy, ghost queues: Queues, ghost atEnd: seq<bool>, before: Queues, logged: Queues, heads: seq<Packet>)
    returns (rest: Queues, dropped: Queues)
    requires |queues| == |atEnd| && Looping(policy, queues, atEnd, logged, before)
    requires heads == Heads(before) && !Pairs(policy, heads) && AllReady(before, atEnd) && SomeOpen(before, atEnd)
    ensures Looping(policy, queues, atEnd, dropped, rest)
    ensures 0 <= Sum(LengthW(), rest) < Sum(LengthW(), before)
  {
    var stale := Stale(policy, heads);
    Progress(policy, heads);
    assert stale != [];
    assert forall i :: i in stale ==> before[i] != [];
    rest, dropped := DropHeads(before, logged, stale);
    StillSplits(queues, logged, before, dropped, rest, stale);
    forall later | Grown(queues, later, atEnd) && Sorted(policy, later)
      ensures NothingLost(policy, later, atEnd, dropped)
    {
      LaterHeads(queues, later, atEnd, logged, before);
      StillNothingLost(policy, later, atEnd, logged, LeftOf(later, logged), dropped, stale);
    }
    SumNonNegative(LengthW(), rest);
  }

  /** What is left of the later queues. */
  function LeftOf(later: Queues, dropped: Queues): Queues
    requires |later| == |dropped| && forall i :: 0 <= i < |later| ==> |dropped[i]| <= |later[i]|
  {
    seq(|later|, i requires 0 <= i < |later| => later[i][|dropped[i]|..])
  }

  /** With a head on every open port, arrivals do not change the heads. */
  lemma LaterHeads(queues: Queues, later: Queues, atEnd: seq<bool>, dropped: Queues, rest: Queues)
    requires |queues| == |atEnd| && Grown(queues, later, atEnd) && Splits(queues, dropped, rest) && AllReady(rest, atEnd)
    ensures forall i :: 0 <= i < |later| ==> |dropped[i]| <= |later[i]|
    ensures Splits(later, dropped, LeftOf(later, dropped)) && Heads(LeftOf(later, dropped)) == Heads(rest)
  {
    forall i | 0 <= i < |later|
      ensures |dropped[i]| <= |later[i]| && later[i] == dropped[i] + later[i][|dropped[i]|..]
      ensures Head(later[i][|dropped[i]|..]) == Head(rest[i])
    {
      assert queues[i] == dropped[i] + rest[i] && queues[i] <= later[i];
      assert Closed(rest, atEnd, i) || rest[i] != [];
    }
  }

  lemma PopConserves(queues: Queues, dropped: Queues, before: Queues, delivered: Queues, rest: Queues)
    requires Splits(queues, dropped, before) && |delivered| == |rest| == |queues|
    requires forall i :: 0 <= i < |queues| ==> before[i] == delivered[i] + rest[i]
    ensures Conserves(queues, dropped, delivered, rest)
  {
    forall i | 0 <= i < |queues|
      ensures queues[i] == dropped[i] + delivered[i] + rest[i]
    {
      assert before[i] == delivered[i] + rest[i];
    }
  }

  /** As long as there is an aligned tuple, every port that was open has a head. */
  lemma MatchIsReady(policy: Policy, queues: Queues, atEnd: seq<bool>, dropped: Queues, rest: Queues)
    requires |queues| == |atEnd| && Ongoing(policy, queues, atEnd, dropped, rest)
    ensures Sorted(policy, queues) && HasMatch(policy, queues, atEnd) ==>
              AllReady(rest, atEnd) && SomeOpen(rest, atEnd)
  {
    if Sorted(policy, queues) && HasMatch(policy, queues, atEnd) {
      var at :| Matches(policy, queues, atEnd, at);
      LostNow(policy, queues, atEnd, dropped);
      assert Reaches(queues, dropped, at);
      forall i | 0 <= i < |queues|
        ensures Closed(queues, atEnd, i) == Closed(rest, atEnd, i) && (Closed(rest, atEnd, i) || rest[i] != [])
      {
        assert queues[i] == dropped[i] + rest[i];
      }
      var i :| 0 <= i < |queues| && !Closed(queues, atEnd, i);
      assert !Closed(rest, atEnd, i);
    }
  }

  /** If there is an aligned tuple and the heads belong together, they are the earliest one. */
  lemma HeadsAreEarliest(policy: Policy, queues: Queues, atEnd: seq<bool>, dropped: Queues, rest: Queues)
    requires |queues| == |atEnd| && Ongoing(policy, queues, atEnd, dropped, rest) && Pairs(policy, Heads(rest))
    ensures Sorted(policy, queues) && HasMatch(policy, queues, atEnd) ==>
              Earliest(policy, queues, atEnd, Lengths(dropped))
  {
    if Sorted(policy, queues) && HasMatch(policy, queues, atEnd) {
      MatchIsReady(policy, queues, atEnd, dropped, rest);
      LostNow(policy, queues, atEnd, dropped);
      var here := Lengths(dropped);
      forall i | 0 <= i < |queues|
        ensures Closed(queues, atEnd, i) || here[i] < |queues[i]|
        ensures Head(rest[i]) == Chosen(queues, here)[i]
      {
        assert queues[i] == dropped[i] + rest[i];
      }
      assert Heads(rest) == Chosen(queues, here);
      forall other | Matches(policy, queues, atEnd, other)
        ensures forall i :: 0 <= i < |queues| && here[i] < |queues[i]| ==> here[i] <= other[i]
      {
        assert Reaches(queues, dropped, other);
      }
    }
  }

  lemma StillSplits(queues: Queues, logged: Queues, before: Queues, dropped: Queues, rest: Queues, stale: seq<nat>)
    requires Splits(queues, logged, before) && |dropped| == |rest| == |queues|
    requires forall i :: 0 <= i < |queues| ==>
               if i in stale then before[i] != [] && rest[i] == before[i][1..] && dropped[i] == logged[i] + [before[i][0]]
               else rest[i] == before[i] && dropped[i] == logged[i]
    ensures Splits(queues, dropped, rest)
  {
  }

  lemma StillNothingLost(policy: Policy, queues: Queues, atEnd: seq<bool>, logged: Queues, before: Queues, dropped: Queues, stale: seq<nat>)
    requires |queues| == |atEnd| == |dropped| && Splits(queues, logged, before) && Sorted(policy, queues)
    requires NothingLost(policy, queues, atEnd, logged) && !Pairs(policy, Heads(before))
    requires Lists(policy, Heads(before), stale, |queues|)
    requires forall i :: 0 <= i < |queues| ==> |dropped[i]| == |logged[i]| + if i in stale then 1 else 0
    ensures NothingLost(policy, queues, atEnd, dropped)
  {
    forall at | Matches(policy, queues, atEnd, at)
      ensures Reaches(queues, dropped, at)
    {
      assert Reaches(queues, logged, at);
      forall i | 0 <= i < |queues| && at[i] < |queues[i]|
        ensures |dropped[i]| <= at[i]
      {
        if i in stale && at[i] == |logged[i]| {
          HopelessTuple(policy, queues, atEnd, logged, before, at, i);
        }
      }
    }
  }
}
