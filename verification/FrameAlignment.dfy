/**
 The three alignment policies of src/frame_alignment.hpp: when the heads of the input ports
 belong together, and which heads can never be paired.
 */
module FrameAlignment {

  const MIN_TIME: int := -0x8000_0000_0000_0000
  const MAX_TIME: int := 0x7FFF_FFFF_FFFF_FFFF

  type Time = t: int | MIN_TIME <= t <= MAX_TIME witness 0

  const UNASSIGNED: nat := 0

  /** A queued packet; a null packet carries no frame. */
  datatype Packet = Null | Frame(stream: nat, id: nat, time: Time) {
    predicate HasFrameId() {
      Frame? && id != UNASSIGNED
    }
  }

  datatype Policy = FrameId | StreamFrameId | Timestamp(tolerance: int)

  // ---- What the policies mean ----

  /** The packet pairs with anything. */
  predicate Wild(policy: Policy, x: Packet) {
    if policy.Timestamp? then x.Null? else !x.HasFrameId()
  }

  predicate Compatible(policy: Policy, x: Packet, y: Packet)
    requires x.Frame? && y.Frame?
  {
    match policy
    case FrameId => x.id == y.id
    case StreamFrameId => x.stream == y.stream && x.id == y.id
    case Timestamp(tolerance) => x.time - y.time <= tolerance && y.time - x.time <= tolerance
  }

  /** The packets belong together: all that are not wild are compatible. */
  predicate Pairs(policy: Policy, heads: seq<Packet>) {
    forall i, j :: 0 <= i < |heads| && 0 <= j < |heads| && !Wild(policy, heads[i]) && !Wild(policy, heads[j]) ==>
      Compatible(policy, heads[i], heads[j])
  }

  /** The order of (stream, frame). */
  predicate KeyBelow(x: Packet, y: Packet)
    requires x.Frame? && y.Frame?
  {
    x.stream < y.stream || (x.stream == y.stream && x.id < y.id)
  }

  /** Some packet is later than `x`, and than the epoch. */
  predicate Later(heads: seq<Packet>, x: Packet)
    requires x.Frame?
  {
    x.time < 0 || exists j :: 0 <= j < |heads| && heads[j].HasFrameId() && heads[j].time > x.time
  }

  predicate Smallest(heads: seq<Packet>, x: Packet)
    requires x.Frame?
  {
    forall j :: 0 <= j < |heads| && heads[j].HasFrameId() ==> !KeyBelow(heads[j], x)
  }

  /** The head of port `i` is discarded by the policy. */
  predicate IsStale(policy: Policy, heads: seq<Packet>, i: int)
    requires 0 <= i < |heads|
  {
    && !Wild(policy, heads[i])
    && match policy
       case FrameId => exists j :: 0 <= j < |heads| && heads[j].HasFrameId() && heads[i].id < heads[j].id
       case StreamFrameId =>
         if exists j :: 0 <= j < |heads| && heads[j].HasFrameId() && Later(heads, heads[j])
         then Later(heads, heads[i])
         else Smallest(heads, heads[i])
       case Timestamp(tolerance) =>
         exists j :: 0 <= j < |heads| && heads[j].Frame? && heads[j].time - heads[i].time > tolerance
  }

  // ---- FrameId ----

  function HeadId(head: Packet): nat {
    if head.Frame? then head.id else UNASSIGNED
  }

  method NewestId(heads: seq<Packet>) returns (target: nat)
    ensures forall i :: 0 <= i < |heads| ==> HeadId(heads[i]) <= target
    ensures target == UNASSIGNED || exists i :: 0 <= i < |heads| && HeadId(heads[i]) == target
  {
    target := UNASSIGNED;
    for n := 0 to |heads|
      invariant forall i :: 0 <= i < n ==> HeadId(heads[i]) <= target
      invariant target == UNASSIGNED || exists i :: 0 <= i < n && HeadId(heads[i]) == target
    {
      if HeadId(heads[n]) > target {
        target := HeadId(heads[n]);
      }
    }
  }

  method AlignedById(heads: seq<Packet>) returns (ok: bool)
    ensures ok == Pairs(FrameId, heads)
  {
    var target := NewestId(heads);
    for n := 0 to |heads|
      invariant forall i :: 0 <= i < n && heads[i].HasFrameId() ==> heads[i].id == target
    {
      var frame := HeadId(heads[n]);
      if frame != UNASSIGNED && frame != target {
        assert exists i :: 0 <= i < |heads| && HeadId(heads[i]) == target;
        return false;
      }
    }
    return true;
  }

  method StaleById(heads: seq<Packet>) returns (stale: seq<nat>)
    ensures Lists(FrameId, heads, stale, |heads|)
  {
    var target := NewestId(heads);
    stale := [];
    for n := 0 to |heads|
      invariant Lists(FrameId, heads, stale, n)
    {
      var frame := HeadId(heads[n]);
      if frame != UNASSIGNED && frame < target {
        stale := stale + [n];
      }
    }
  }

  /** `stale` lists the discarded ports among the first `n`, in order. */
  ghost predicate Lists(policy: Policy, heads: seq<Packet>, stale: seq<nat>, n: int)
    requires 0 <= n <= |heads|
  {
    && (forall i :: i in stale <==> 0 <= i < n && IsStale(policy, heads, i))
    && Ascending(stale, n)
  }

  /** Strictly increasing ports below `n`. */
  predicate Ascending(ports: seq<nat>, n: int) {
    && (forall a :: 0 <= a < |ports| ==> ports[a] < n)
    && (forall a, b :: 0 <= a < b < |ports| ==> ports[a] < ports[b])
  }

  // ---- Stream and frame ----

  method AlignedByStream(heads: seq<Packet>) returns (ok: bool)
    ensures ok == Pairs(StreamFrameId, heads)
  {
    var haveKey, keyStream, keyFrame := false, 0, UNASSIGNED;
    ghost var first := 0;
    for n := 0 to |heads|
      invariant haveKey ==> 0 <= first < n && heads[first].HasFrameId() && heads[first].stream == keyStream && heads[first].id == keyFrame
      invariant forall i :: 0 <= i < n && heads[i].HasFrameId() ==> haveKey && heads[i].stream == keyStream && heads[i].id == keyFrame
    {
      if heads[n].HasFrameId() {
        if !haveKey {
          haveKey, keyStream, keyFrame := true, heads[n].stream, heads[n].id;
          first := n;
        } else if heads[n].stream != keyStream || heads[n].id != keyFrame {
          assert !Compatible(StreamFrameId, heads[first], heads[n]);
          return false;
        }
      }
    }
    return true;
  }

  method NewestTime(heads: seq<Packet>) returns (newest: Time)
    ensures newest >= 0
    ensures forall i :: 0 <= i < |heads| && heads[i].HasFrameId() ==> (Later(heads, heads[i]) <==> heads[i].time < newest)
  {
    newest := 0;
    for n := 0 to |heads|
      invariant newest >= 0
      invariant forall i :: 0 <= i < n && heads[i].HasFrameId() ==> heads[i].time <= newest
      invariant newest == 0 || exists i :: 0 <= i < n && heads[i].HasFrameId() && heads[i].time == newest
    {
      if heads[n].HasFrameId() && heads[n].time > newest {
        newest := heads[n].time;
      }
    }
  }

  method StaleByStream(heads: seq<Packet>) returns (stale: seq<nat>)
    ensures Lists(StreamFrameId, heads, stale, |heads|)
  {
    var newest := NewestTime(heads);
    stale := [];
    for n := 0 to |heads|
      invariant forall i :: i in stale <==> 0 <= i < n && heads[i].HasFrameId() && Later(heads, heads[i])
      invariant Ascending(stale, n)
    {
      if heads[n].HasFrameId() && heads[n].time < newest {
        stale := stale + [n];
      }
    }
    if stale != [] {
      assert stale[0] in stale;
      return;
    }
    assert forall i :: 0 <= i < |heads| && heads[i].HasFrameId() ==> !Later(heads, heads[i]);
    stale := StaleByKey(heads);
  }

  /** The tie-break: the heads with the smallest (stream, frame). */
  method StaleByKey(heads: seq<Packet>) returns (stale: seq<nat>)
    ensures forall i :: i in stale <==> 0 <= i < |heads| && heads[i].HasFrameId() && Smallest(heads, heads[i])
    ensures Ascending(stale, |heads|)
  {
    var least := |heads|;
    for n := 0 to |heads|
      invariant least == |heads| || (0 <= least < n && heads[least].HasFrameId())
      invariant forall i :: 0 <= i < n && heads[i].HasFrameId() ==> least < |heads| && !KeyBelow(heads[i], heads[least])
    {
      if heads[n].HasFrameId() {
        if least == |heads| || KeyBelow(heads[n], heads[least]) {
          least := n;
        }
      }
    }
    stale := [];
    if least == |heads| {
      return;
    }
    for n := 0 to |heads|
      invariant forall i :: i in stale <==> 0 <= i < n && heads[i].HasFrameId() && Smallest(heads, heads[i])
      invariant Ascending(stale, n)
    {
      if heads[n].HasFrameId() && heads[n].stream == heads[least].stream && heads[n].id == heads[least].id {
        stale := stale + [n];
      }
    }
  }

  // ---- Timestamp ----

  method AlignedByTime(heads: seq<Packet>, tolerance: int) returns (ok: bool)
    ensures ok == Pairs(Timestamp(tolerance), heads)
  {
    var earliest: Time, latest: Time := MAX_TIME, MIN_TIME;
    ghost var e, l := -1, -1;
    for n := 0 to |heads|
      invariant forall i :: 0 <= i < n && heads[i].Frame? ==> earliest <= heads[i].time <= latest
      invariant if earliest > latest then earliest == MAX_TIME && latest == MIN_TIME && forall i :: 0 <= i < n ==> heads[i].Null?
                else 0 <= e < n && 0 <= l < n && heads[e].Frame? && heads[l].Frame? && heads[e].time == earliest && heads[l].time == latest
    {
      if heads[n].Frame? {
        if heads[n].time < earliest || earliest > latest {
          e := n;
        }
        if heads[n].time > latest || earliest > latest {
          l := n;
        }
        earliest := if heads[n].time < earliest then heads[n].time else earliest;
        latest := if heads[n].time > latest then heads[n].time else latest;
      }
    }
    ok := earliest > latest || latest - earliest <= tolerance;
    if !ok {
      assert !Compatible(Timestamp(tolerance), heads[l], heads[e]);
    }
  }

  method StaleByTime(heads: seq<Packet>, tolerance: int) returns (stale: seq<nat>)
    ensures Lists(Timestamp(tolerance), heads, stale, |heads|)
  {
    var latest: Time := MIN_TIME;
    for n := 0 to |heads|
      invariant forall i :: 0 <= i < n && heads[i].Frame? ==> heads[i].time <= latest
      invariant (latest == MIN_TIME && forall i :: 0 <= i < n ==> heads[i].Null?) || exists i :: 0 <= i < n && heads[i].Frame? && heads[i].time == latest
    {
      if heads[n].Frame? && heads[n].time > latest {
        latest := heads[n].time;
      }
    }
    stale := [];
    for n := 0 to |heads|
      invariant Lists(Timestamp(tolerance), heads, stale, n)
    {
      if heads[n].Frame? && latest - heads[n].time > tolerance {
        stale := stale + [n];
      }
    }
  }

  // ---- The policy contract ----

  method Aligned(policy: Policy, heads: seq<Packet>) returns (ok: bool)
    ensures ok == Pairs(policy, heads)
  {
    match policy {
      case FrameId => ok := AlignedById(heads);
      case StreamFrameId => ok := AlignedByStream(heads);
      case Timestamp(tolerance) => ok := AlignedByTime(heads, tolerance);
    }
  }

  method Stale(policy: Policy, heads: seq<Packet>) returns (stale: seq<nat>)
    ensures Lists(policy, heads, stale, |heads|)
  {
    match policy {
      case FrameId => stale := StaleById(heads);
      case StreamFrameId => stale := StaleByStream(heads);
      case Timestamp(tolerance) => stale := StaleByTime(heads, tolerance);
    }
  }
}
