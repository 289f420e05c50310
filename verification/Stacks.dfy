/**
 Threads as call stacks, and weighted sums over every frame of every stack.

 A thread is a sequence of frames whose last element is the one being executed.  A
 step lets one top frame return, go on to another frame or call one, and may start a
 further thread.  A protocol invariant such as "exactly one thread owns this node" is
 then a statement about a sum of weights, and `TotalFired` says how a step changes any
 such sum.
 */
module Stacks {

  /** How the top frame continues. */
  datatype Then<F> = Return | Goto(next: F) | Call(rest: F, callee: F)

  /** The thread a step starts, if any. */
  datatype Start<F> = NoThread | NewThread(frame: F)

  function Frames<F>(then_: Then<F>): seq<F> {
    match then_
    case Return => []
    case Goto(f) => [f]
    case Call(f, g) => [f, g]
  }

  function Started<F>(start: Start<F>): seq<seq<F>> {
    match start
    case NoThread => []
    case NewThread(f) => [[f]]
  }

  /** The stacks after the top frame of thread `t` continued with `then_`. */
  function Fired<F>(stacks: seq<seq<F>>, t: nat, then_: Then<F>, start: Start<F>): seq<seq<F>>
    requires t < |stacks| && stacks[t] != []
  {
    stacks[t := stacks[t][..|stacks[t]| - 1] + Frames(then_)] + Started(start)
  }

  function Top<F>(stack: seq<F>): F
    requires stack != []
  {
    stack[|stack| - 1]
  }

  function Sum<F>(w: F -> int, stack: seq<F>): int {
    if stack == [] then 0 else w(stack[0]) + Sum(w, stack[1..])
  }

  function Total<F>(w: F -> int, stacks: seq<seq<F>>): int {
    if stacks == [] then 0 else Sum(w, stacks[0]) + Total(w, stacks[1..])
  }

  function WeightThen<F>(w: F -> int, then_: Then<F>): int {
    match then_
    case Return => 0
    case Goto(f) => w(f)
    case Call(f, g) => w(f) + w(g)
  }

  function WeightStart<F>(w: F -> int, start: Start<F>): int {
    match start
    case NoThread => 0
    case NewThread(f) => w(f)
  }

  /** What a step of a frame adds to a sum. */
  function Delta<F>(w: F -> int, f: F, next: Then<F>, start: Start<F>): int {
    WeightThen(w, next) + WeightStart(w, start) - w(f)
  }

  /** A weight of one for the frames that count. */
  function One(b: bool): int {
    if b then 1 else 0
  }

  /** Every frame of every stack satisfies `p`. */
  ghost predicate AllFrames<F>(p: F -> bool, stacks: seq<seq<F>>) {
    forall t, i :: 0 <= t < |stacks| && 0 <= i < |stacks[t]| ==> p(stacks[t][i])
  }

  predicate AllThen<F>(p: F -> bool, then_: Then<F>) {
    match then_
    case Return => true
    case Goto(f) => p(f)
    case Call(f, g) => p(f) && p(g)
  }

  predicate AllStart<F>(p: F -> bool, start: Start<F>) {
    start.NewThread? ==> p(start.frame)
  }

  lemma {:induction false} SumConcat<F>(w: F -> int, a: seq<F>, b: seq<F>)
    ensures Sum(w, a + b) == Sum(w, a) + Sum(w, b)
  {
    if a == [] {
      assert a + b == b;
    } else {
      assert (a + b)[1..] == a[1..] + b;
      SumConcat(w, a[1..], b);
    }
  }

  lemma {:induction false} TotalConcat<F>(w: F -> int, a: seq<seq<F>>, b: seq<seq<F>>)
    ensures Total(w, a + b) == Total(w, a) + Total(w, b)
  {
    if a == [] {
      assert a + b == b;
    } else {
      assert (a + b)[1..] == a[1..] + b;
      TotalConcat(w, a[1..], b);
    }
  }

  lemma SumFrames<F>(w: F -> int, then_: Then<F>)
    ensures Sum(w, Frames(then_)) == WeightThen(w, then_)
  {
    match then_ {
      case Return =>
      case Goto(f) =>
        SumOne(w, f);
      case Call(f, g) =>
        assert Frames(then_) == [f] + [g];
        SumConcat(w, [f], [g]);
        SumOne(w, f);
        SumOne(w, g);
    }
  }

  lemma SumOne<F>(w: F -> int, f: F)
    ensures Sum(w, [f]) == w(f)
    ensures Total(w, [[f]]) == w(f)
  {
    assert [f][1..] == [] && [[f]][1..] == [];
  }

  lemma {:induction false} TotalUpdate<F>(w: F -> int, stacks: seq<seq<F>>, t: nat, stack: seq<F>)
    requires t < |stacks|
    ensures Total(w, stacks[t := stack]) == Total(w, stacks) - Sum(w, stacks[t]) + Sum(w, stack)
  {
    var a, b := stacks[..t], stacks[t + 1..];
    assert stacks == a + ([stacks[t]] + b);
    assert stacks[t := stack] == a + ([stack] + b);
    TotalConcat(w, a, [stacks[t]] + b);
    TotalConcat(w, a, [stack] + b);
    assert ([stacks[t]] + b)[1..] == b && ([stack] + b)[1..] == b;
  }

  /** Starting a thread adds the weight of its frame. */
  lemma TotalStarted<F>(w: F -> int, stacks: seq<seq<F>>, start: Start<F>)
    ensures Total(w, stacks + Started(start)) == Total(w, stacks) + WeightStart(w, start)
  {
    TotalConcat(w, stacks, Started(start));
    if start.NewThread? {
      SumOne(w, start.frame);
    }
  }

  /** One step changes a weighted sum by what it removes and what it adds. */
  lemma TotalFired<F>(w: F -> int, stacks: seq<seq<F>>, t: nat, then_: Then<F>, start: Start<F>)
    requires t < |stacks| && stacks[t] != []
    ensures Total(w, Fired(stacks, t, then_, start))
         == Total(w, stacks) - w(Top(stacks[t])) + WeightThen(w, then_) + WeightStart(w, start)
  {
    var rest, top := stacks[t][..|stacks[t]| - 1], Top(stacks[t]);
    assert Sum(w, stacks[t]) == Sum(w, rest) + w(top) by {
      assert stacks[t] == rest + [top];
      SumConcat(w, rest, [top]);
      SumOne(w, top);
    }
    var stack := rest + Frames(then_);
    assert Sum(w, stack) == Sum(w, rest) + WeightThen(w, then_) by {
      SumConcat(w, rest, Frames(then_));
      SumFrames(w, then_);
    }
    TotalUpdate(w, stacks, t, stack);
    TotalStarted(w, stacks[t := stack], start);
  }

  lemma {:induction false} SumNonNegative<F>(w: F -> int, stack: seq<F>)
    requires forall f :: w(f) >= 0
    ensures Sum(w, stack) >= 0
  {
    if stack != [] {
      SumNonNegative(w, stack[1..]);
    }
  }

  lemma {:induction false} TotalNonNegative<F>(w: F -> int, stacks: seq<seq<F>>)
    requires forall f :: w(f) >= 0
    ensures Total(w, stacks) >= 0
  {
    if stacks != [] {
      SumNonNegative(w, stacks[0]);
      TotalNonNegative(w, stacks[1..]);
    }
  }

  /** A sum of non-negative weights is at least the weight of any one top frame. */
  lemma TotalAtLeast<F>(w: F -> int, stacks: seq<seq<F>>, t: nat)
    requires t < |stacks| && stacks[t] != []
    requires forall f :: w(f) >= 0
    ensures Total(w, stacks) >= w(Top(stacks[t])) >= 0
  {
    TotalFired(w, stacks, t, Return, NoThread);
    TotalNonNegative(w, Fired(stacks, t, Return, NoThread));
  }

  lemma {:induction false} SumOrdered<F>(a: F -> int, b: F -> int, stack: seq<F>)
    requires forall f :: a(f) <= b(f)
    ensures Sum(a, stack) <= Sum(b, stack)
  {
    if stack != [] {
      SumOrdered(a, b, stack[1..]);
    }
  }

  /** Pointwise smaller weights have a smaller sum. */
  lemma {:induction false} TotalOrdered<F>(a: F -> int, b: F -> int, stacks: seq<seq<F>>)
    requires forall f :: a(f) <= b(f)
    ensures Total(a, stacks) <= Total(b, stacks)
  {
    if stacks != [] {
      SumOrdered(a, b, stacks[0]);
      TotalOrdered(a, b, stacks[1..]);
    }
  }

  /** If one top frame makes up all of a sum, a smaller weight has nothing elsewhere either. */
  lemma TotalAlone<F>(small: F -> int, large: F -> int, stacks: seq<seq<F>>, t: nat)
    requires t < |stacks| && stacks[t] != []
    requires forall f :: 0 <= small(f) <= large(f)
    requires Total(large, stacks) == large(Top(stacks[t]))
    ensures Total(small, stacks) == small(Top(stacks[t]))
  {
    TotalFired(small, stacks, t, Return, NoThread);
    TotalFired(large, stacks, t, Return, NoThread);
    TotalOrdered(small, large, Fired(stacks, t, Return, NoThread));
    TotalNonNegative(small, Fired(stacks, t, Return, NoThread));
  }

  lemma {:induction false} SumAt<F>(w: F -> int, stack: seq<F>, i: nat)
    requires i < |stack|
    requires forall f :: w(f) >= 0
    ensures Sum(w, stack) >= w(stack[i])
  {
    SumNonNegative(w, stack[1..]);
    if i > 0 {
      SumAt(w, stack[1..], i - 1);
    }
  }

  lemma {:induction false} SumTwo<F>(w: F -> int, stack: seq<F>, i: nat, j: nat)
    requires i < j < |stack|
    requires forall f :: w(f) >= 0
    ensures Sum(w, stack) >= w(stack[i]) + w(stack[j])
  {
    if i == 0 {
      SumAt(w, stack[1..], j - 1);
    } else {
      SumTwo(w, stack[1..], i - 1, j - 1);
    }
  }

  lemma {:induction false} TotalAt<F>(w: F -> int, stacks: seq<seq<F>>, t: nat)
    requires t < |stacks|
    requires forall f :: w(f) >= 0
    ensures Total(w, stacks) >= Sum(w, stacks[t])
  {
    TotalNonNegative(w, stacks[1..]);
    SumNonNegative(w, stacks[0]);
    if t > 0 {
      TotalAt(w, stacks[1..], t - 1);
    }
  }

  /** Two different frames both count. */
  lemma {:induction false} TotalTwo<F>(w: F -> int, stacks: seq<seq<F>>, t: nat, i: nat, t': nat, i': nat)
    requires t <= t' < |stacks| && i < |stacks[t]| && i' < |stacks[t']|
    requires t == t' ==> i < i'
    requires forall f :: w(f) >= 0
    ensures Total(w, stacks) >= w(stacks[t][i]) + w(stacks[t'][i'])
  {
    if t == t' {
      TotalAt(w, stacks, t);
      SumTwo(w, stacks[t], i, i');
    } else if t == 0 {
      TotalAt(w, stacks[1..], t' - 1);
      SumAt(w, stacks[0], i);
      SumAt(w, stacks[t'], i');
    } else {
      SumNonNegative(w, stacks[0]);
      TotalTwo(w, stacks[1..], t - 1, i, t' - 1, i');
    }
  }

  /** With no frame anywhere every sum is zero. */
  lemma {:induction false} TotalIdle<F>(w: F -> int, stacks: seq<seq<F>>)
    requires forall t :: 0 <= t < |stacks| ==> stacks[t] == []
    ensures Total(w, stacks) == 0
  {
    if stacks != [] {
      TotalIdle(w, stacks[1..]);
    }
  }

  /** Every frame but the top one of thread `t` satisfies `p`. */
  ghost predicate AllBut<F>(p: F -> bool, stacks: seq<seq<F>>, t: int) {
    forall u, i :: 0 <= u < |stacks| && 0 <= i < |stacks[u]| && !(u == t && i == |stacks[u]| - 1) ==> p(stacks[u][i])
  }

  /** What holds of all other frames and of what replaces the top one holds of all frames after the step. */
  lemma AllReplaced<F>(p: F -> bool, stacks: seq<seq<F>>, t: nat, then_: Then<F>, start: Start<F>)
    requires t < |stacks| && stacks[t] != []
    requires AllBut(p, stacks, t) && AllThen(p, then_) && AllStart(p, start)
    ensures AllFrames(p, Fired(stacks, t, then_, start))
  {
    var after := Fired(stacks, t, then_, start);
    forall u, i | 0 <= u < |after| && 0 <= i < |after[u]|
      ensures p(after[u][i])
    {
      if u < |stacks| && !(u == t && i >= |stacks[t]| - 1) {
        assert p(stacks[u][i]);
      }
    }
  }

  /** A property of frames survives a step that only adds frames having it. */
  lemma AllFired<F>(p: F -> bool, stacks: seq<seq<F>>, t: nat, then_: Then<F>, start: Start<F>)
    requires t < |stacks| && stacks[t] != []
    requires AllFrames(p, stacks) && AllThen(p, then_) && AllStart(p, start)
    ensures AllFrames(p, Fired(stacks, t, then_, start))
  {
  }

  lemma AllStarted<F>(p: F -> bool, stacks: seq<seq<F>>, start: Start<F>)
    requires AllFrames(p, stacks) && AllStart(p, start)
    ensures AllFrames(p, stacks + Started(start))
  {
  }

  lemma {:induction false} SumAdds<F>(u: F -> int, v: F -> int, w: F -> int, stack: seq<F>)
    requires forall f :: w(f) == u(f) + v(f)
    ensures Sum(w, stack) == Sum(u, stack) + Sum(v, stack)
  {
    if stack != [] {
      SumAdds(u, v, w, stack[1..]);
    }
  }

  lemma {:induction false} TotalAdds<F>(u: F -> int, v: F -> int, w: F -> int, stacks: seq<seq<F>>)
    requires forall f :: w(f) == u(f) + v(f)
    ensures Total(w, stacks) == Total(u, stacks) + Total(v, stacks)
  {
    if stacks != [] {
      SumAdds(u, v, w, stacks[0]);
      TotalAdds(u, v, w, stacks[1..]);
    }
  }

  lemma {:induction false} SumUpdate<F>(w: F -> int, stack: seq<F>, i: nat, f: F)
    requires i < |stack|
    ensures Sum(w, stack[i := f]) == Sum(w, stack) - w(stack[i]) + w(f)
  {
    if i == 0 {
      assert stack[i := f][1..] == stack[1..];
    } else {
      assert stack[i := f][1..] == stack[1..][i - 1 := f];
      SumUpdate(w, stack[1..], i - 1, f);
    }
  }

  /** A weight that is nowhere larger and smaller at one element has a smaller sum. */
  lemma {:induction false} SumStrict<F>(small: F -> int, large: F -> int, stack: seq<F>, i: nat)
    requires i < |stack| && (forall f :: small(f) <= large(f)) && small(stack[i]) < large(stack[i])
    ensures Sum(small, stack) < Sum(large, stack)
  {
    if i == 0 {
      SumOrdered(small, large, stack[1..]);
    } else {
      SumStrict(small, large, stack[1..], i - 1);
    }
  }
}
