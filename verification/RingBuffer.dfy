/**
 The ring of src/lock_free_queue.hpp, called by one thread at a time.  Without interference
 the first attempt of tryPush and tryPop decides.
 */
module RingBuffer {
  import Multiples
  import opened Options
  import opened PowerOfTwo

  /** The cell of a position in a ring of the given capacity: the remainder, by laps. */
  function Slot(pos: nat, capacity: nat): nat
    requires capacity > 0
    ensures Slot(pos, capacity) < capacity
  {
    if pos < capacity then pos else Slot(pos - capacity, capacity)
  }

  /** Within one lap positions have different cells. */
  lemma {:induction false} SlotsDiffer(p: nat, q: nat, capacity: nat)
    requires p < q < p + capacity
    ensures Slot(p, capacity) != Slot(q, capacity)
  {
    if p >= capacity {
      SlotsDiffer(p - capacity, q - capacity, capacity);
    } else if q >= capacity {
      assert Slot(q, capacity) == q - capacity;
    }
  }

  lemma {:induction false} SlotIsMasked(pos: nat, n: nat)
    ensures Slot(pos, Pow2(n)) == And(pos, Pow2(n) - 1)
  {
    MaskIsRemainder(pos, n);
    SlotIsRemainder(pos, Pow2(n));
  }

  lemma {:induction false} SlotIsRemainder(pos: nat, capacity: nat)
    requires capacity > 0
    ensures Slot(pos, capacity) == pos % capacity
  {
    if pos < capacity {
      Remainder(pos, capacity, 0, pos);
    } else {
      SlotIsRemainder(pos - capacity, capacity);
      Multiples.NextLap(pos, capacity);
    }
  }

  class Ring<T(0)> {
    const capacity: nat
    const sequence: array<int>
    const data: array<T>
    var enq: nat
    var deq: nat
    /** The queued items, oldest first. */
    ghost var contents: seq<T>
    ghost const exponent: nat

    ghost predicate Valid()
      reads this, sequence, data
    {
      && capacity == Pow2(exponent) && capacity >= 2
      && sequence.Length == data.Length == capacity
      && sequence as object != data as object
      && deq <= enq <= deq + capacity
      && Tagged(sequence[..], deq, enq)
      && contents == ItemsFrom(data[..], deq, enq)
    }

    constructor (minCapacity: nat, bits: nat)
      requires 2 <= bits && minCapacity <= Pow2(bits - 1)
      ensures Valid() && contents == []
      ensures capacity >= minCapacity && IsLeastExponent(minCapacity, exponent)
      ensures fresh(sequence) && fresh(data)
    {
      var request := if minCapacity < 2 then 2 else minCapacity;
      Capacity(minCapacity, bits);
      ghost var k := RoundsUp(request, bits);
      var size := RoundUpPowerOf2(request, bits);
      exponent := k;
      capacity := size;
      sequence := new int[size](i => i);
      data := new T[size];
      enq, deq := 0, 0;
      contents := [];
    }

    method TryPush(item: T) returns (ok: bool)
      requires Valid()
      modifies `enq, `contents, sequence, data
      ensures Valid()
      ensures ok == (|old(contents)| < capacity) && |contents| <= capacity
      ensures contents == if ok then old(contents) + [item] else old(contents)
    {
      var pos := enq;
      var i := And(pos, capacity - 1);
      SlotIsMasked(pos, exponent);
      HeadTag(sequence[..], deq, enq);
      if sequence[i] - pos < 0 {
        return false;
      }
      ghost var tags := sequence[..];
      ghost var items := data[..];
      enq := pos + 1;
      data[i] := item;
      sequence[i] := pos + 1;
      contents := contents + [item];
      PushTags(tags, sequence[..], deq, pos, i);
      Appended(items, data[..], deq, pos, i, item);
      return true;
    }

    method TryPop() returns (item: Option<T>)
      requires Valid()
      modifies `deq, `contents, sequence
      ensures Valid()
      ensures item == if old(contents) == [] then None else Some(old(contents)[0])
      ensures contents == if old(contents) == [] then [] else old(contents)[1..]
    {
      var pos := deq;
      var i := And(pos, capacity - 1);
      SlotIsMasked(pos, exponent);
      ghost var tags := sequence[..];
      HeadTag(tags, deq, enq);
      if sequence[i] - (pos + 1) < 0 {
        return None;
      }
      item := Some(data[i]);
      ghost var items := data[..];
      FirstItem(items, pos, enq);
      contents := contents[1..];
      deq := pos + 1;
      sequence[i] := pos + capacity;
      PopTags(tags, sequence[..], pos, enq, i);
      assert data[..] == items;
    }

    method Size() returns (n: nat)
      requires Valid()
      ensures n == |contents|
    {
      n := enq - deq;
    }
  }

  /** The items of positions `deq` to `enq` of a ring buffer. */
  function ItemsFrom<T>(data: seq<T>, deq: nat, enq: nat): (items: seq<T>)
    requires deq <= enq && |data| > 0
    ensures |items| == enq - deq
    decreases enq - deq
  {
    if deq == enq then [] else [data[Slot(deq, |data|)]] + ItemsFrom(data, deq + 1, enq)
  }

  /** Published cells between the counters, released cells for the rest of the lap. */
  predicate Tagged(tags: seq<int>, deq: nat, enq: nat)
    requires |tags| > 0
  {
    forall p :: deq <= p < deq + |tags| ==> tags[Slot(p, |tags|)] == if p < enq then p + 1 else p
  }

  /** What the two ends of the queue see. */
  lemma HeadTag(tags: seq<int>, deq: nat, enq: nat)
    requires |tags| > 0 && deq <= enq <= deq + |tags| && Tagged(tags, deq, enq)
    ensures tags[Slot(deq, |tags|)] == if deq < enq then deq + 1 else deq
    ensures tags[Slot(enq, |tags|)] == if enq < deq + |tags| then enq else deq + 1
  {
  }

  lemma PushTags(tags: seq<int>, tags': seq<int>, deq: nat, enq: nat, i: nat)
    requires deq <= enq < deq + |tags| && Tagged(tags, deq, enq) && i == Slot(enq, |tags|)
    requires tags' == tags[i := enq + 1]
    ensures Tagged(tags', deq, enq + 1)
  {
    OtherSlots(deq, enq, |tags|);
  }

  lemma FirstItem<T>(data: seq<T>, deq: nat, enq: nat)
    requires deq < enq && |data| > 0
    ensures ItemsFrom(data, deq, enq)[0] == data[Slot(deq, |data|)]
    ensures ItemsFrom(data, deq, enq)[1..] == ItemsFrom(data, deq + 1, enq)
  {
  }

  lemma PopTags(tags: seq<int>, tags': seq<int>, deq: nat, enq: nat, i: nat)
    requires deq < enq <= deq + |tags| && Tagged(tags, deq, enq) && i == Slot(deq, |tags|)
    requires tags' == tags[i := deq + |tags|]
    ensures Tagged(tags', deq + 1, enq)
  {
    OtherSlots(deq, deq, |tags|);
  }

  lemma OtherSlots(lo: nat, pos: nat, capacity: nat)
    requires capacity > 0 && lo <= pos < lo + capacity
    ensures forall p :: lo <= p < lo + capacity && p != pos ==> Slot(p, capacity) != Slot(pos, capacity)
  {
    forall p | lo <= p < lo + capacity && p != pos
      ensures Slot(p, capacity) != Slot(pos, capacity)
    {
      if p < pos {
        SlotsDiffer(p, pos, capacity);
      } else {
        SlotsDiffer(pos, p, capacity);
      }
    }
  }

  /** Writing the cell of position `enq` appends an item. */
  lemma {:induction false} Appended<T>(data: seq<T>, data': seq<T>, deq: nat, enq: nat, i: nat, item: T)
    requires |data| > 0 && deq <= enq < deq + |data| && i == Slot(enq, |data|) && data' == data[i := item]
    ensures ItemsFrom(data', deq, enq + 1) == ItemsFrom(data, deq, enq) + [item]
    decreases enq - deq
  {
    if deq < enq {
      SlotsDiffer(deq, enq, |data|);
      Appended(data, data', deq + 1, enq, i, item);
    } else {
      assert ItemsFrom(data', enq + 1, enq + 1) == [];
    }
  }

  lemma Capacity(minCapacity: nat, bits: nat)
    requires 2 <= bits && minCapacity <= Pow2(bits - 1)
    ensures 2 <= Pow2(bits - 1) < Pow2(bits) && minCapacity < Pow2(bits)
  {
    Pow2Monotone(1, bits - 1);
  }
}
