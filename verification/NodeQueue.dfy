/**
 The drop policies of LockFreeNodeQueue in src/lock_free_queue.hpp, called by one thread at
 a time: what each keeps, and that every accepted item is popped, dropped or queued.
 The bounded spin and retry rounds after a failed push all do the same thing, evict and try
 again, and are one loop here.
 */
module NodeQueue {
  import opened Options
  import opened RingBuffer
  import PowerOfTwo

  datatype Policy = DropTail | DropHead | KeepLatest

  /** An item that left the queue, and whether an overflow dropped it. */
  datatype Removal<T> = Removal(item: T, dropped: bool)

  /** The queue, everything it ever accepted, and everything that ever left it, in order. */
  datatype Book<T> = Book(queue: seq<T>, accepted: seq<T>, removed: seq<Removal<T>>)

  // ---- What one call does ----

  /** tryPush. */
  function Admitted<T>(b: Book<T>, capacity: nat, item: T): Book<T> {
    if |b.queue| < capacity then b.(queue := b.queue + [item], accepted := b.accepted + [item]) else b
  }

  /** tryPop, for a consumer or to make room. */
  function Taken<T>(b: Book<T>, drop: bool): Book<T> {
    if b.queue == [] then b else b.(queue := b.queue[1..], removed := b.removed + [Removal(b.queue[0], drop)])
  }

  /** Evicting until fewer than `n` items are left. */
  function Shrunk<T>(b: Book<T>, n: nat): Book<T>
    decreases |b.queue|
  {
    if |b.queue| >= n && b.queue != [] then Shrunk(Taken(b, true), n) else b
  }

  function Forced<T>(b: Book<T>, capacity: nat, item: T): Book<T> {
    if |b.queue| < capacity then Admitted(b, capacity, item) else Admitted(Taken(b, true), capacity, item)
  }

  function Target(keepLatest: nat): nat {
    if keepLatest > 0 then keepLatest else 1
  }

  /** push(), by policy. */
  function Pushed<T>(b: Book<T>, policy: Policy, keepLatest: nat, capacity: nat, item: T): Book<T> {
    match policy
    case DropTail => Admitted(b, capacity, item)
    case DropHead => Forced(b, capacity, item)
    case KeepLatest => Forced(Shrunk(b, Target(keepLatest)), capacity, item)
  }

  // ---- What the policies keep ----

  /** The `n` newest items. */
  function Newest<T>(items: seq<T>, n: nat): seq<T> {
    if |items| <= n then items else items[|items| - n..]
  }

  /** The removals that drop the given items. */
  function Drops<T>(items: seq<T>): seq<Removal<T>> {
    if items == [] then [] else [Removal(items[0], true)] + Drops(items[1..])
  }

  /** What is dropped to keep the `n` newest items. */
  function Overflow<T>(items: seq<T>, n: nat): seq<Removal<T>> {
    if |items| <= n then [] else Drops(items[..|items| - n])
  }

  function Max(a: nat, b: nat): nat {
    if a >= b then a else b
  }

  function Min(a: nat, b: nat): nat {
    if a <= b then a else b
  }

  lemma ForcedKeeps<T>(b: Book<T>, capacity: nat, item: T)
    requires 0 < capacity && |b.queue| <= capacity
    ensures var b' := Forced(b, capacity, item);
            && b'.queue == Newest(b.queue + [item], capacity)
            && b'.accepted == b.accepted + [item]
            && b'.removed == b.removed + Overflow(b.queue + [item], capacity)
  {
    if |b.queue| == capacity {
      assert (b.queue + [item])[..1] == [b.queue[0]];
      assert Drops([b.queue[0]]) == [Removal(b.queue[0], true)];
    }
  }

  lemma {:induction false} ShrunkKeeps<T>(b: Book<T>, n: nat)
    requires n > 0
    ensures Shrunk(b, n).queue == Newest(b.queue, n - 1)
    ensures Shrunk(b, n).accepted == b.accepted
    ensures Shrunk(b, n).removed == b.removed + Overflow(b.queue, n - 1)
    decreases |b.queue|
  {
    if |b.queue| >= n {
      ShrunkKeeps(Taken(b, true), n);
      var k, r := |b.queue| - (n - 1), Removal(b.queue[0], true);
      assert b.queue[..k][1..] == b.queue[1..][..k - 1];
      assert Drops(b.queue[..k]) == [r] + Drops(b.queue[1..][..k - 1]);
      assert b.removed + [r] + Drops(b.queue[1..][..k - 1]) == b.removed + Drops(b.queue[..k]);
    }
  }

  /** KeepLatest with room for what it keeps: shrinking does all the work. */
  lemma KeepsFew<T>(b: Book<T>, n: nat, capacity: nat, item: T)
    requires 0 < n <= capacity
    ensures var b' := Forced(Shrunk(b, n), capacity, item);
            && b'.queue == Newest(b.queue + [item], n)
            && b'.accepted == b.accepted + [item]
            && b'.removed == b.removed + Overflow(b.queue + [item], n)
  {
    ShrunkKeeps(b, n);
    if |b.queue| >= n {
      var k := |b.queue| - (n - 1);
      assert (b.queue + [item])[..k] == b.queue[..k];
      assert (b.queue + [item])[k..] == b.queue[k..] + [item];
    }
  }

  /**
   DropTail rejects when full; DropHead keeps the newest items that fit, KeepLatest the
   newest min(N, capacity), of the old queue and the new item, and both drop exactly the
   older ones, oldest first.
   */
  lemma PoliciesKeep<T>(b: Book<T>, policy: Policy, keepLatest: nat, capacity: nat, item: T)
    requires 0 < capacity && |b.queue| <= capacity
    ensures var b' := Pushed(b, policy, keepLatest, capacity, item);
            var room := if policy.KeepLatest? then Min(Max(keepLatest, 1), capacity) else capacity;
            if policy.DropTail? && |b.queue| == capacity then
              b' == b
            else
              && b'.queue == Newest(b.queue + [item], room)
              && b'.accepted == b.accepted + [item]
              && b'.removed == b.removed + Overflow(b.queue + [item], room)
  {
    match policy {
      case DropTail =>
      case DropHead => ForcedKeeps(b, capacity, item);
      case KeepLatest =>
        var n := Target(keepLatest);
        if n <= capacity {
          KeepsFew(b, n, capacity, item);
        } else {
          assert Shrunk(b, n) == b;
          ForcedKeeps(b, capacity, item);
        }
    }
  }

  // ---- Conservation ----

  function Items<T>(removed: seq<Removal<T>>): seq<T> {
    if removed == [] then [] else Items(removed[..|removed| - 1]) + [removed[|removed| - 1].item]
  }

  function CountOf<T>(removed: seq<Removal<T>>, dropped: bool): nat {
    if removed == [] then 0
    else CountOf(removed[..|removed| - 1], dropped) + (if removed[|removed| - 1].dropped == dropped then 1 else 0)
  }

  /** Every accepted item left the queue, in order, or is still queued. */
  ghost predicate Conserved<T>(b: Book<T>) {
    b.accepted == Items(b.removed) + b.queue
  }

  /** The counters of pushed, popped and dropped items agree with the book. */
  ghost predicate Counted<T>(b: Book<T>, pushed: nat, popped: nat, dropped: nat) {
    pushed == |b.accepted| && popped == CountOf(b.removed, false) && dropped == CountOf(b.removed, true)
  }

  /** One more removal is one more item and one more count. */
  lemma OneRemoval<T>(removed: seq<Removal<T>>, r: Removal<T>)
    ensures Items(removed + [r]) == Items(removed) + [r.item]
    ensures CountOf(removed + [r], true) == CountOf(removed, true) + if r.dropped then 1 else 0
    ensures CountOf(removed + [r], false) == CountOf(removed, false) + if r.dropped then 0 else 1
  {
    assert (removed + [r])[..|removed|] == removed;
  }

  lemma TakenConserves<T>(b: Book<T>, drop: bool)
    requires Conserved(b)
    ensures Conserved(Taken(b, drop))
  {
    if b.queue != [] {
      var first, rest := b.queue[0], b.queue[1..];
      OneRemoval(b.removed, Removal(first, drop));
      assert b.queue == [first] + rest;
      assert Items(b.removed) + ([first] + rest) == (Items(b.removed) + [first]) + rest;
    }
  }

  lemma TakenCounts<T>(b: Book<T>, drop: bool, pushed: nat, popped: nat, dropped: nat)
    ensures b.queue != [] && Counted(b, pushed, popped, dropped) ==>
              Counted(Taken(b, drop), pushed, if drop then popped else popped + 1, if drop then dropped + 1 else dropped)
  {
    if b.queue != [] {
      OneRemoval(b.removed, Removal(b.queue[0], drop));
    }
  }

  lemma AdmittedConserves<T>(b: Book<T>, capacity: nat, item: T, pushed: nat, popped: nat, dropped: nat)
    requires Conserved(b) && |b.queue| < capacity
    ensures Conserved(Admitted(b, capacity, item))
    ensures Counted(b, pushed, popped, dropped) ==> Counted(Admitted(b, capacity, item), pushed + 1, popped, dropped)
  {
  }

  /** As many items were accepted as were popped, dropped and are queued, and the same ones. */
  lemma {:induction false} ConservedCounts<T>(b: Book<T>)
    requires Conserved(b)
    ensures |b.accepted| == CountOf(b.removed, false) + CountOf(b.removed, true) + |b.queue|
    ensures multiset(b.accepted) == multiset(Items(b.removed)) + multiset(b.queue)
  {
    CountsAll(b.removed);
  }

  lemma {:induction false} CountsAll<T>(removed: seq<Removal<T>>)
    ensures |Items(removed)| == |removed| == CountOf(removed, false) + CountOf(removed, true)
  {
    if removed != [] {
      CountsAll(removed[..|removed| - 1]);
    }
  }

  // ---- The queue itself ----

  class NodeQueue<T(0)> {
    const ring: Ring<T>
    const keepLatest: nat
    const track: bool
    var policy: Policy
    var totalPushed: nat
    var totalPopped: nat
    var totalDropped: nat
    var totalRejected: nat
    var peakSize: nat
    ghost var book: Book<T>

    /** The book is that of the ring, and conserved. */
    ghost predicate Kept()
      reads this, ring, ring.sequence, ring.data
    {
      ring.Valid() && book.queue == ring.contents && Conserved(book)
    }

    /** The counters agree with the book as well. */
    ghost predicate Valid()
      reads this, ring, ring.sequence, ring.data
    {
      Kept() && (track ==> Counted(book, totalPushed, totalPopped, totalDropped) && |book.queue| <= peakSize <= ring.capacity)
    }

    constructor (capacity: nat, bits: nat, policy: Policy, keepLatest: nat, track: bool)
      requires 2 <= bits && capacity <= PowerOfTwo.Pow2(bits - 1)
      ensures Valid() && book == Book([], [], [])
      ensures ring.capacity >= capacity
      ensures fresh(ring) && fresh(ring.sequence) && fresh(ring.data)
    {
      ring := new Ring(capacity, bits);
      this.policy, this.keepLatest, this.track := policy, keepLatest, track;
      totalPushed, totalPopped, totalDropped, totalRejected, peakSize := 0, 0, 0, 0, 0;
      book := Book([], [], []);
    }

    /** tryPush and its bookkeeping on success. */
    method Admit(item: T) returns (ok: bool)
      requires Valid()
      modifies `totalPushed, `peakSize, `book, ring, ring.sequence, ring.data
      ensures Valid()
      ensures ok == (|old(book).queue| < ring.capacity)
      ensures book == Admitted(old(book), ring.capacity, item)
    {
      ok := ring.TryPush(item);
      if ok {
        AdmittedConserves(book, ring.capacity, item, totalPushed, totalPopped, totalDropped);
        book := Admitted(book, ring.capacity, item);
        if track {
          UpdatePeakSize();
          totalPushed := totalPushed + 1;
        }
      }
    }

    method UpdatePeakSize()
      requires ring.Valid()
      modifies `peakSize
      ensures peakSize == if |ring.contents| > old(peakSize) then |ring.contents| else old(peakSize)
    {
      var current := ring.Size();
      if current > peakSize {
        peakSize := current;
      }
    }

    /** tryPop of the ring. */
    method Remove(ghost drop: bool) returns (item: Option<T>)
      requires Kept()
      modifies `book, ring, ring.sequence, ring.data
      ensures Kept()
      ensures item == if old(book).queue == [] then None else Some(old(book).queue[0])
      ensures book == Taken(old(book), drop)
    {
      TakenConserves(book, drop);
      item := ring.TryPop();
      book := Taken(book, drop);
    }

    /** Removing the head, by a pop or by an eviction, and counting it. */
    method Take(drop: bool) returns (item: Option<T>)
      requires Valid()
      modifies `totalPopped, `totalDropped, `book, ring, ring.sequence, ring.data
      ensures Valid()
      ensures item == if old(book).queue == [] then None else Some(old(book).queue[0])
      ensures book == Taken(old(book), drop)
    {
      TakenCounts(book, drop, totalPushed, totalPopped, totalDropped);
      item := Remove(drop);
      if item.Some? && track {
        if drop {
          totalDropped := totalDropped + 1;
        } else {
          totalPopped := totalPopped + 1;
        }
      }
    }

    method TryPop() returns (item: Option<T>)
      requires Valid()
      modifies `totalPopped, `totalDropped, `book, ring, ring.sequence, ring.data
      ensures Valid()
      ensures item == if old(book).queue == [] then None else Some(old(book).queue[0])
      ensures book == Taken(old(book), false)
    {
      item := Take(false);
    }

    method PushDropTail(item: T) returns (ok: bool)
      requires Valid()
      modifies `totalPushed, `totalRejected, `peakSize, `book, ring, ring.sequence, ring.data
      ensures Valid()
      ensures ok == (|old(book).queue| < ring.capacity)
      ensures book == Admitted(old(book), ring.capacity, item)
      ensures totalRejected == if ok || !track then old(totalRejected) else old(totalRejected) + 1
    {
      ok := Admit(item);
      if !ok && track {
        totalRejected := totalRejected + 1;
      }
    }

    /** Pushing, and evicting from the head until the push succeeds. */
    method PushDropHead(item: T) returns (ok: bool)
      requires Valid()
      modifies `totalPushed, `totalPopped, `totalDropped, `peakSize, `book, ring, ring.sequence, ring.data
      ensures Valid() && ok
      ensures book == Forced(old(book), ring.capacity, item)
    {
      ok := Admit(item);
      while !ok
        invariant Valid()
        invariant book == if ok then Forced(old(book), ring.capacity, item) else old(book)
        invariant !ok ==> |book.queue| >= ring.capacity
        decreases !ok
      {
        var _ := Take(true);
        ok := Admit(item);
      }
    }

    method PushKeepLatest(item: T) returns (ok: bool)
      requires Valid()
      modifies `totalPushed, `totalPopped, `totalDropped, `peakSize, `book, ring, ring.sequence, ring.data
      ensures Valid() && ok
      ensures book == Forced(Shrunk(old(book), Max(keepLatest, 1)), ring.capacity, item)
    {
      var target := Target(keepLatest);
      var current := ring.Size();
      while current >= target
        invariant Valid()
        invariant current == |book.queue|
        invariant Shrunk(book, target) == Shrunk(old(book), target)
        decreases current
      {
        var evicted := Take(true);
        if evicted.None? {
          break;
        }
        current := ring.Size();
      }
      ok := PushDropHead(item);
    }

    /** push: the item is rejected only by DropTail, and only when the queue is full. */
    method Push(item: T) returns (ok: bool)
      requires Valid()
      modifies this, ring, ring.sequence, ring.data
      ensures Valid() && policy == old(policy)
      ensures ok == !(policy.DropTail? && |old(book).queue| == ring.capacity)
      ensures book == Pushed(old(book), policy, keepLatest, ring.capacity, item)
      ensures totalRejected == if ok || !track then old(totalRejected) else old(totalRejected) + 1
    {
      match policy {
        case DropTail => ok := PushDropTail(item);
        case DropHead => ok := PushDropHead(item);
        case KeepLatest => ok := PushKeepLatest(item);
      }
    }
  }
}
