/**
 A group of branches that drop frames together, from src/sync_coordinator.hpp: pending drops,
 the watermark and the cleanup of old drops.  Calls are serialised by the group's mutex.
 */
module SyncGroups {

  const MAX_ID: nat := 0xFFFF_FFFF_FFFF_FFFF

  type Frame = f: int | 0 <= f <= MAX_ID

  /** No frame, and the largest frame id, which also serves as "no minimum yet". */
  const INVALID: Frame := 0
  const END_OF_STREAM: Frame := MAX_ID

  datatype Branch = Branch(processed: Frame, dropped: set<Frame>, pending: set<Frame>)

  /** The state of a group. */
  datatype State = State(branches: map<string, Branch>, globalDrops: set<Frame>, watermark: Frame)

  // ---- Progress ----

  ghost function Max(s: set<Frame>): (m: Frame)
    ensures s == {} ==> m == INVALID
    ensures s != {} ==> m in s
    ensures forall x :: x in s ==> x <= m
  {
    if s == {} then INVALID
    else
      var x :| x in s;
      assert forall y :: y in s && y != x ==> y in s - {x};
      var m := Max(s - {x});
      if s == {x} || x > m then x else m
  }

  ghost function Min(s: set<Frame>): (m: Frame)
    requires s != {}
    ensures m in s
    ensures forall x :: x in s ==> m <= x
  {
    var x :| x in s;
    assert forall y :: y in s && y != x ==> y in s - {x};
    if s == {x} then x
    else
      var m := Min(s - {x});
      if x < m then x else m
  }

  function Larger(a: Frame, b: Frame): Frame {
    if a >= b then a else b
  }

  /** How far a branch has got: the largest frame it processed or dropped. */
  ghost function Progress(b: Branch): Frame {
    Larger(b.processed, Max(b.dropped))
  }

  /** The progress of the branches that have any. */
  ghost function Started(branches: map<string, Branch>): set<Frame> {
    (set id | id in branches :: Progress(branches[id])) - {INVALID}
  }

  /** The slowest branch that has any progress raises the watermark, unless it is at the end-of-stream id. */
  ghost function Raised(watermark: Frame, branches: map<string, Branch>): Frame {
    var slowest := Min(Started(branches) + {END_OF_STREAM});
    if slowest != END_OF_STREAM && slowest > watermark then slowest else watermark
  }

  // ---- What the calls do ----

  function WithProcessed(g: State, id: string, frame: Frame): State
    requires id in g.branches
  {
    var b := g.branches[id];
    g.(branches := g.branches[id := b.(processed := Larger(b.processed, frame))])
  }

  /** reportFrameProcessed. */
  ghost function Processed(g: State, id: string, frame: Frame): State {
    if id !in g.branches then g
    else
      var g' := WithProcessed(g, id, frame);
      g'.(watermark := Raised(g.watermark, g'.branches))
  }

  /** The branch has not processed this frame or a later one. */
  predicate Behind(b: Branch, frame: Frame) {
    b.processed < frame || b.processed == INVALID
  }

  function AfterDrop(b: Branch, isOrigin: bool, frame: Frame): Branch {
    if isOrigin then b.(dropped := b.dropped + {frame})
    else if Behind(b, frame) then b.(pending := b.pending + {frame})
    else b
  }

  /** reportFrameDropped. */
  function Dropped(g: State, id: string, frame: Frame): State {
    if id !in g.branches then g
    else g.(branches := map other | other in g.branches :: AfterDrop(g.branches[other], other == id, frame),
            globalDrops := g.globalDrops + {frame})
  }

  function From(s: set<Frame>, watermark: Frame): set<Frame> {
    set f | f in s && f >= watermark
  }

  /** cleanup. */
  function Cleaned(g: State): State {
    g.(branches := map id | id in g.branches :: g.branches[id].(dropped := From(g.branches[id].dropped, g.watermark)),
       globalDrops := From(g.globalDrops, g.watermark))
  }

  // ---- The watermark ----

  /** The watermark never goes down. */
  lemma WatermarkGrows(g: State, id: string, frame: Frame)
    ensures Processed(g, id, frame).watermark >= g.watermark
    ensures Dropped(g, id, frame).watermark == g.watermark
    ensures Cleaned(g).watermark == g.watermark
  {
  }

  /** The progress of a branch is the largest of its processed frame and its dropped frames. */
  lemma ProgressIsLargest(b: Branch)
    ensures Progress(b) == b.processed || Progress(b) in b.dropped
    ensures Progress(b) >= b.processed && forall f :: f in b.dropped ==> f <= Progress(b)
  {
  }

  /** No branch that has any progress is behind the frame. */
  ghost predicate NoneBehind(branches: map<string, Branch>, frame: Frame) {
    forall id :: id in branches && Progress(branches[id]) != INVALID ==> frame <= Progress(branches[id])
  }

  /** Some branch is exactly there. */
  ghost predicate SomeAt(branches: map<string, Branch>, frame: Frame) {
    exists id :: id in branches && Progress(branches[id]) == frame
  }

  /**
   What a processed report does to the watermark: a new watermark is the progress of the
   slowest branch that has any; the old one stays exactly if such a branch is not ahead of
   it, or none has progress below the end-of-stream id.
   */
  lemma WatermarkIsSlowest(g: State, id: string, frame: Frame)
    requires id in g.branches
    ensures var g' := Processed(g, id, frame);
            && g'.branches.Keys == g.branches.Keys
            && g'.branches[id].processed == (if frame > g.branches[id].processed then frame else g.branches[id].processed)
            && (g'.watermark != g.watermark ==>
                  && g'.watermark > g.watermark && g'.watermark != END_OF_STREAM
                  && SomeAt(g'.branches, g'.watermark) && NoneBehind(g'.branches, g'.watermark))
            && (g'.watermark == g.watermark <==>
                  || (exists other :: other in g'.branches && INVALID < Progress(g'.branches[other]) <= g.watermark)
                  || NoneBehind(g'.branches, END_OF_STREAM))
  {
    var g' := Processed(g, id, frame);
    var started := Started(g'.branches);
    var slowest := Min(started + {END_OF_STREAM});
    forall other | other in g'.branches && Progress(g'.branches[other]) != INVALID
      ensures slowest <= Progress(g'.branches[other])
    {
      assert Progress(g'.branches[other]) in started;
    }
    if slowest != END_OF_STREAM {
      assert slowest in started;
      var other :| other in g'.branches && Progress(g'.branches[other]) == slowest;
    }
  }

  /** Every branch has some progress, none of them less than the watermark. */
  ghost predicate AllAhead(g: State) {
    forall id :: id in g.branches ==> Progress(g.branches[id]) != INVALID && Progress(g.branches[id]) >= g.watermark
  }

  lemma MaxOfMore(s: set<Frame>, x: Frame)
    ensures Max(s + {x}) == Larger(Max(s), x)
  {
  }

  lemma MinOfMore(s: set<Frame>, x: Frame)
    requires s != {}
    ensures Min(s + {x}) == if x < Min(s) then x else Min(s)
  {
  }

  lemma ProcessedKeepsAhead(g: State, id: string, frame: Frame)
    requires AllAhead(g)
    ensures AllAhead(Processed(g, id, frame))
  {
    if id in g.branches {
      var g' := Processed(g, id, frame);
      forall other | other in g'.branches
        ensures Progress(g'.branches[other]) != INVALID && Progress(g'.branches[other]) >= g'.watermark
      {
        assert Progress(g'.branches[other]) >= Progress(g.branches[other]);
        assert Progress(g'.branches[other]) in Started(g'.branches);
      }
    }
  }

  lemma DroppedKeepsAhead(g: State, id: string, frame: Frame)
    requires AllAhead(g)
    ensures AllAhead(Dropped(g, id, frame))
  {
    if id in g.branches {
      var g' := Dropped(g, id, frame);
      forall other | other in g'.branches
        ensures Progress(g'.branches[other]) >= Progress(g.branches[other])
      {
        MaxOfMore(g.branches[other].dropped, frame);
      }
    }
  }

  /** Cleanup leaves the progress of a branch alone if and only if it is not below the watermark, or was processed. */
  lemma CleanupKeepsProgress(g: State, id: string)
    requires id in g.branches
    ensures var b := g.branches[id];
            Progress(Cleaned(g).branches[id]) == Progress(b) <==> Progress(b) >= g.watermark || Progress(b) == b.processed
  {
    var b, b' := g.branches[id], Cleaned(g).branches[id];
    assert b'.dropped == From(b.dropped, g.watermark);
    if b.dropped != {} && Max(b.dropped) >= g.watermark {
      assert Max(b.dropped) in b'.dropped;
    }
  }

  lemma CleanedKeepsAhead(g: State)
    requires AllAhead(g)
    ensures AllAhead(Cleaned(g))
  {
    forall id | id in g.branches
      ensures Progress(Cleaned(g).branches[id]) == Progress(g.branches[id])
    {
      CleanupKeepsProgress(g, id);
    }
  }

  datatype Call = Process(id: string, frame: Frame) | Drop(id: string, frame: Frame) | Cleanup

  ghost function Do(g: State, call: Call): State {
    match call
    case Process(id, frame) => Processed(g, id, frame)
    case Drop(id, frame) => Dropped(g, id, frame)
    case Cleanup => Cleaned(g)
  }

  ghost function DoAll(g: State, calls: seq<Call>): State {
    if calls == [] then g else Do(DoAll(g, calls[..|calls| - 1]), calls[|calls| - 1])
  }

  /**
   Once every branch has progress that is not below the watermark, no sequence of calls takes
   the watermark beyond the slowest branch, or a branch's progress back.
   */
  lemma {:induction false} WatermarkStaysBehind(g: State, calls: seq<Call>)
    requires AllAhead(g)
    ensures AllAhead(DoAll(g, calls))
    ensures DoAll(g, calls).watermark >= g.watermark
    ensures DoAll(g, calls).branches.Keys == g.branches.Keys
    ensures forall id :: id in g.branches ==> Progress(DoAll(g, calls).branches[id]) >= Progress(g.branches[id])
  {
    if calls != [] {
      var before, call := DoAll(g, calls[..|calls| - 1]), calls[|calls| - 1];
      WatermarkStaysBehind(g, calls[..|calls| - 1]);
      OneCall(before, call);
    }
  }

  lemma OneCall(g: State, call: Call)
    requires AllAhead(g)
    ensures AllAhead(Do(g, call)) && Do(g, call).watermark >= g.watermark && Do(g, call).branches.Keys == g.branches.Keys
    ensures forall id :: id in g.branches ==> Progress(Do(g, call).branches[id]) >= Progress(g.branches[id])
  {
    match call {
      case Process(id, frame) => ProcessedKeepsAhead(g, id, frame);
      case Drop(id, frame) =>
        DroppedKeepsAhead(g, id, frame);
        forall other | other in g.branches
          ensures Progress(Dropped(g, id, frame).branches[other]) >= Progress(g.branches[other])
        {
          MaxOfMore(g.branches[other].dropped, frame);
        }
      case Cleanup =>
        CleanedKeepsAhead(g);
        forall id | id in g.branches
          ensures Progress(Cleaned(g).branches[id]) == Progress(g.branches[id])
        {
          CleanupKeepsProgress(g, id);
        }
    }
  }

  /** A new branch: nothing processed, dropped or pending. */
  function Fresh(): Branch {
    Branch(INVALID, {}, {})
  }

  /**
   From the start of a run this fails: a branch without progress does not hold the watermark
   back, and the cleanup then takes away the progress it makes later.
   */
  lemma LateBranchLosesProgress()
    ensures var g := State(map["a" := Fresh(), "b" := Fresh()], {}, INVALID);
            var before := DoAll(g, [Process("a", 5), Drop("b", 1)]);
            && "b" in before.branches && Progress(before.branches["b"]) == 1 < before.watermark
            && Progress(Cleaned(before).branches["b"]) == INVALID
  {
    var g := State(map["a" := Fresh(), "b" := Fresh()], {}, INVALID);
    var g1 := Processed(g, "a", 5);
    assert Progress(g1.branches["a"]) == 5 && Progress(g1.branches["b"]) == INVALID;
    assert Started(g1.branches) == {5};
    assert g1.watermark == 5;
    var g2 := Dropped(g1, "b", 1);
    assert g2.branches["b"].dropped == {1};
    assert From({1}, 5) == {};
    var calls := [Process("a", 5), Drop("b", 1)];
    assert calls[..1] == [Process("a", 5)] && calls[..1][..0] == [];
    assert DoAll(g, calls[..1]) == g1;
  }

  // ---- The group itself ----

  class SyncGroup {
    var branches: map<string, Branch>
    var globalDrops: set<Frame>
    var dropReasons: map<Frame, string>
    var watermark: Frame

    ghost function Value(): State
      reads this
    {
      State(branches, globalDrops, watermark)
    }

    /** There is a reason on record for every drop that is kept. */
    ghost predicate Valid()
      reads this
    {
      dropReasons.Keys == globalDrops
    }

    constructor ()
      ensures Valid() && Value() == State(map[], {}, INVALID)
    {
      branches, globalDrops, dropReasons, watermark := map[], {}, map[], INVALID;
    }

    method AddBranch(id: string)
      requires Valid()
      modifies `branches
      ensures Valid()
      ensures branches == if id in old(branches) then old(branches) else old(branches)[id := Fresh()]
    {
      if id !in branches {
        branches := branches[id := Fresh()];
      }
    }

    method ReportFrameProcessed(id: string, frame: Frame)
      requires Valid()
      modifies `branches, `watermark
      ensures Valid() && Value() == Processed(old(Value()), id, frame)
    {
      if id !in branches {
        return;
      }
      if frame > branches[id].processed {
        branches := branches[id := branches[id].(processed := frame)];
      } else {
        assert branches == branches[id := branches[id]];
      }
      UpdateWatermark();
    }

    /** The branches told to drop the frame are the others that are behind it, each once. */
    method ReportFrameDropped(id: string, frame: Frame, reason: string) returns (affected: seq<string>)
      requires Valid()
      modifies `branches, `globalDrops, `dropReasons
      ensures Valid() && Value() == Dropped(old(Value()), id, frame)
      ensures dropReasons == if id in old(branches) then old(dropReasons)[frame := reason] else old(dropReasons)
      ensures forall other :: other in affected <==> id in old(branches) && other in old(branches) && other != id && Behind(old(branches)[other], frame)
      ensures forall i, j :: 0 <= i < j < |affected| ==> affected[i] != affected[j]
    {
      affected := [];
      if id !in branches {
        return;
      }
      branches := branches[id := branches[id].(dropped := branches[id].dropped + {frame})];
      globalDrops := globalDrops + {frame};
      dropReasons := dropReasons[frame := reason];
      branches, affected := MarkOthers(branches, id, frame);
      assert branches == Dropped(old(Value()), id, frame).branches;
    }

    method GetPendingSyncDrops(id: string) returns (pending: set<Frame>)
      ensures pending == if id in branches then branches[id].pending else {}
    {
      if id !in branches {
        return {};
      }
      return branches[id].pending;
    }

    method Cleanup()
      requires Valid()
      modifies `branches, `globalDrops, `dropReasons
      ensures Valid() && Value() == Cleaned(old(Value()))
      ensures forall f :: f in dropReasons ==> f in old(dropReasons) && dropReasons[f] == old(dropReasons)[f]
    {
      globalDrops := EraseBelow(globalDrops, watermark);
      dropReasons := map f | f in dropReasons && f in globalDrops :: dropReasons[f];
      var left := branches.Keys;
      while left != {}
        invariant left <= branches.Keys == old(branches).Keys
        invariant Valid() && globalDrops == From(old(globalDrops), watermark)
        invariant forall f :: f in dropReasons ==> f in old(dropReasons) && dropReasons[f] == old(dropReasons)[f]
        invariant forall id :: id in branches ==>
                    branches[id] == if id in left then old(branches)[id] else old(branches)[id].(dropped := From(old(branches)[id].dropped, watermark))
        decreases left
      {
        var id :| id in left;
        var kept := EraseBelow(branches[id].dropped, watermark);
        branches := branches[id := branches[id].(dropped := kept)];
        left := left - {id};
      }
      assert branches == Cleaned(old(Value())).branches;
    }

    method UpdateWatermark()
      modifies `watermark
      ensures watermark == Raised(old(watermark), branches)
    {
      var slowest := END_OF_STREAM;
      var left := branches.Keys;
      ghost var seen: set<Frame> := {END_OF_STREAM};
      while left != {}
        invariant left <= branches.Keys && watermark == old(watermark)
        invariant END_OF_STREAM in seen && slowest == Min(seen)
        invariant seen == Started(map id | id in branches && id !in left :: branches[id]) + {END_OF_STREAM}
        decreases left
      {
        var id :| id in left;
        var effective := Effective(branches[id]);
        OneMoreBranch(branches, left, id);
        if effective != INVALID && (slowest == END_OF_STREAM || effective < slowest) {
          slowest := effective;
        }
        if effective != INVALID {
          MinOfMore(seen, effective);
          seen := seen + {effective};
        }
        left := left - {id};
      }
      assert (map id | id in branches && id !in left :: branches[id]) == branches;
      if slowest != END_OF_STREAM && slowest > watermark {
        watermark := slowest;
      }
    }
  }

  /** The other branches that are behind the frame get it as a pending drop. */
  method MarkOthers(before: map<string, Branch>, id: string, frame: Frame) returns (branches: map<string, Branch>, affected: seq<string>)
    ensures branches.Keys == before.Keys
    ensures forall other :: other in before ==>
              branches[other] == if other == id then before[other] else AfterDrop(before[other], false, frame)
    ensures forall other :: other in affected <==> other in before && other != id && Behind(before[other], frame)
    ensures forall i, j :: 0 <= i < j < |affected| ==> affected[i] != affected[j]
  {
    branches, affected := before, [];
    var left := before.Keys;
    while left != {}
      invariant left <= branches.Keys == before.Keys
      invariant forall other :: other in branches ==>
                  branches[other] == if other in left || other == id then before[other] else AfterDrop(before[other], false, frame)
      invariant forall other :: other in affected <==> other in before.Keys - left && other != id && Behind(before[other], frame)
      invariant forall i, j :: 0 <= i < j < |affected| ==> affected[i] != affected[j]
      decreases left
    {
      var other :| other in left;
      if other != id && (branches[other].processed < frame || branches[other].processed == INVALID) {
        branches := branches[other := branches[other].(pending := branches[other].pending + {frame})];
        affected := affected + [other];
      }
      left := left - {other};
    }
  }

  /** Erasing while iterating: what is below the watermark goes. */
  method EraseBelow(s: set<Frame>, watermark: Frame) returns (kept: set<Frame>)
    ensures kept == From(s, watermark)
  {
    kept := s;
    var left := s;
    while left != {}
      invariant left <= s && kept == set f | f in s && (f in left || f >= watermark)
      decreases left
    {
      var f :| f in left;
      if f < watermark {
        kept := kept - {f};
      }
      left := left - {f};
    }
  }

  lemma OneMoreBranch(branches: map<string, Branch>, left: set<string>, id: string)
    requires id in left && left <= branches.Keys
    ensures Started(map other | other in branches && other !in left - {id} :: branches[other]) ==
            Started(map other | other in branches && other !in left :: branches[other]) + ({Progress(branches[id])} - {INVALID})
  {
    var some := map other | other in branches && other !in left :: branches[other];
    var more := map other | other in branches && other !in left - {id} :: branches[other];
    assert more == some[id := branches[id]];
    forall f
      ensures f in Started(more) <==> f in Started(some) + ({Progress(branches[id])} - {INVALID})
    {
      if f in Started(some) {
        var other :| other in some && Progress(some[other]) == f;
        assert other in more && Progress(more[other]) == f;
      }
      assert id in more && Progress(more[id]) == Progress(branches[id]);
    }
  }

  /** The larger of what was processed and every dropped frame. */
  method Effective(b: Branch) returns (effective: Frame)
    ensures effective == Progress(b)
  {
    effective := b.processed;
    var left := b.dropped;
    while left != {}
      invariant left <= b.dropped
      invariant effective == Larger(b.processed, Max(b.dropped - left))
      decreases left
    {
      var dropped :| dropped in left;
      MaxOfMore(b.dropped - left, dropped);
      assert b.dropped - (left - {dropped}) == (b.dropped - left) + {dropped};
      if dropped > effective || effective == INVALID {
        effective := Larger(effective, dropped);
      }
      left := left - {dropped};
    }
    assert b.dropped - left == b.dropped;
  }
}
