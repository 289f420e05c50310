/**
 Drop coordination across the branches between a fork and its join, from
 src/join_aware_sync_strategy.hpp: what shouldDrop answers is determined by the history of
 drops and processed frames.  Calls are serialised by the strategy's mutex.
 */
module JoinSync {
  import opened SyncGroups

  /** A node's place: a branch of a sync group. */
  datatype Member = Member(group: string, branch: string)

  type Mapping = map<string, seq<Member>>

  type Groups = map<string, State>

  function Members(mapping: Mapping, node: string): seq<Member> {
    if node in mapping then mapping[node] else []
  }

  /** One more place of a node, after the ones it has. */
  function Placed(mapping: Mapping, node: string, m: Member): Mapping {
    mapping[node := Members(mapping, node) + [m]]
  }

  /** What is pending on place `m` is one more reason to drop a frame, for this node only. */
  predicate DropsAlso(groups: Groups, before: Mapping, after: Mapping, node: string, m: Member, other: string, frame: Frame) {
    ShouldDrop(groups, Members(after, other), frame) <==>
    ShouldDrop(groups, Members(before, other), frame) || (other == node && IsPending(groups, m, frame))
  }

  lemma PlacedDrops(groups: Groups, mapping: Mapping, node: string, m: Member, other: string, frame: Frame)
    ensures DropsAlso(groups, mapping, Placed(mapping, node, m), node, m, other, frame)
  {
    var before, after := Members(mapping, other), Members(Placed(mapping, node, m), other);
    if other == node {
      assert after == before + [m];
      assert forall k :: 0 <= k < |before| ==> after[k] == before[k];
      assert after[|before|] == m;
    } else {
      assert after == before;
    }
  }

  // ---- What the calls do to the groups ----

  function DropOne(groups: Groups, m: Member, frame: Frame): Groups {
    if m.group in groups then groups[m.group := Dropped(groups[m.group], m.branch, frame)] else groups
  }

  /** reportDrop, for the places of a node in turn. */
  function DropAll(groups: Groups, members: seq<Member>, frame: Frame): Groups {
    if members == [] then groups
    else DropOne(DropAll(groups, members[..|members| - 1], frame), members[|members| - 1], frame)
  }

  ghost function ProcessOne(groups: Groups, m: Member, frame: Frame): Groups {
    if m.group in groups then groups[m.group := Processed(groups[m.group], m.branch, frame)] else groups
  }

  /** markProcessed, for the places of a node in turn. */
  ghost function ProcessAll(groups: Groups, members: seq<Member>, frame: Frame): Groups {
    if members == [] then groups
    else ProcessOne(ProcessAll(groups, members[..|members| - 1], frame), members[|members| - 1], frame)
  }

  predicate IsPending(groups: Groups, m: Member, frame: Frame) {
    m.group in groups && m.branch in groups[m.group].branches && frame in groups[m.group].branches[m.branch].pending
  }

  /** shouldDrop. */
  predicate ShouldDrop(groups: Groups, members: seq<Member>, frame: Frame) {
    exists k :: 0 <= k < |members| && IsPending(groups, members[k], frame)
  }

  // ---- Histories ----

  datatype Event = ReportDrop(node: string, frame: Frame) | MarkProcessed(node: string, frame: Frame)

  ghost function Apply(groups: Groups, mapping: Mapping, e: Event): Groups {
    match e
    case ReportDrop(node, frame) => DropAll(groups, Members(mapping, node), frame)
    case MarkProcessed(node, frame) => ProcessAll(groups, Members(mapping, node), frame)
  }

  ghost function Replay(groups: Groups, mapping: Mapping, events: seq<Event>): Groups {
    if events == [] then groups else Apply(Replay(groups, mapping, events[..|events| - 1]), mapping, events[|events| - 1])
  }

  /** The place exists. */
  predicate Exists(groups: Groups, m: Member) {
    m.group in groups && m.branch in groups[m.group].branches
  }

  /** A drop at this node is a drop on another branch of the same group. */
  predicate Sibling(groups: Groups, members: seq<Member>, m: Member) {
    exists k :: 0 <= k < |members| && members[k].group == m.group && members[k].branch != m.branch && Exists(groups, members[k])
  }

  /** The branch of `m` processed a frame that is not before `frame`. */
  predicate Passed(mapping: Mapping, e: Event, m: Member, frame: Frame) {
    e.MarkProcessed? && m in Members(mapping, e.node) && e.frame >= frame && e.frame != INVALID
  }

  /**
   The frame was dropped on a sibling branch at a moment when this branch had processed
   neither it nor a later frame.
   */
  ghost predicate Told(groups: Groups, mapping: Mapping, events: seq<Event>, m: Member, frame: Frame) {
    exists i :: 0 <= i < |events| && ToldAt(groups, mapping, events, m, frame, i)
  }

  ghost predicate ToldAt(groups: Groups, mapping: Mapping, events: seq<Event>, m: Member, frame: Frame, i: nat)
    requires i < |events|
  {
    && events[i].ReportDrop? && events[i].frame == frame
    && Sibling(groups, Members(mapping, events[i].node), m)
    && forall j :: 0 <= j < i ==> !Passed(mapping, events[j], m, frame)
  }

  // ---- What one call does to one place ----

  ghost predicate SameShape(groups: Groups, groups': Groups) {
    && groups'.Keys == groups.Keys
    && forall g :: g in groups ==> groups'[g].branches.Keys == groups[g].branches.Keys
  }

  lemma {:induction false} DropAllEffect(groups: Groups, members: seq<Member>, frame: Frame, m: Member)
    requires Exists(groups, m)
    ensures SameShape(groups, DropAll(groups, members, frame))
    ensures var b := groups[m.group].branches[m.branch];
            var b' := DropAll(groups, members, frame)[m.group].branches[m.branch];
            && b'.processed == b.processed
            && b'.pending == if Sibling(groups, members, m) && Behind(b, frame) then b.pending + {frame} else b.pending
  {
    if members != [] {
      var front, last := members[..|members| - 1], members[|members| - 1];
      DropAllEffect(groups, front, frame, m);
      assert Sibling(groups, members, m) <==>
             Sibling(groups, front, m) || (last.group == m.group && last.branch != m.branch && Exists(groups, last)) by {
        SiblingMore(groups, members, m);
      }
    }
  }

  lemma SiblingMore(groups: Groups, members: seq<Member>, m: Member)
    requires members != []
    ensures var front, last := members[..|members| - 1], members[|members| - 1];
            Sibling(groups, members, m) <==>
            Sibling(groups, front, m) || (last.group == m.group && last.branch != m.branch && Exists(groups, last))
  {
    var front, last := members[..|members| - 1], members[|members| - 1];
    if Sibling(groups, front, m) {
      var k :| 0 <= k < |front| && front[k].group == m.group && front[k].branch != m.branch && Exists(groups, front[k]);
      assert members[k] == front[k];
    }
  }

  lemma {:induction false} ProcessAllEffect(groups: Groups, members: seq<Member>, frame: Frame, m: Member)
    requires Exists(groups, m)
    ensures SameShape(groups, ProcessAll(groups, members, frame))
    ensures var b := groups[m.group].branches[m.branch];
            var b' := ProcessAll(groups, members, frame)[m.group].branches[m.branch];
            && b'.pending == b.pending
            && b'.processed == if m in members then Larger(b.processed, frame) else b.processed
  {
    if members != [] {
      var front, last := members[..|members| - 1], members[|members| - 1];
      ProcessAllEffect(groups, front, frame, m);
      assert members == front + [last];
    }
  }

  // ---- Histories and states ----

  /** Groups in which nothing has happened yet. */
  ghost predicate Untouched(groups: Groups) {
    forall m :: Exists(groups, m) ==>
      groups[m.group].branches[m.branch].processed == INVALID && groups[m.group].branches[m.branch].pending == {}
  }

  /** A branch is behind a frame exactly if no event of the history took it there. */
  ghost predicate ProcessedIs(mapping: Mapping, events: seq<Event>, m: Member, processed: Frame) {
    forall frame: Frame :: (processed < frame || processed == INVALID) <==> NonePassed(mapping, events, m, frame)
  }

  ghost predicate NonePassed(mapping: Mapping, events: seq<Event>, m: Member, frame: Frame) {
    forall j :: 0 <= j < |events| ==> !Passed(mapping, events[j], m, frame)
  }

  lemma NonePassedMore(mapping: Mapping, events: seq<Event>, e: Event, m: Member, frame: Frame)
    ensures NonePassed(mapping, events + [e], m, frame) <==> NonePassed(mapping, events, m, frame) && !Passed(mapping, e, m, frame)
  {
    var longer := events + [e];
    assert longer[|events|] == e;
    assert forall j :: 0 <= j < |events| ==> longer[j] == events[j];
  }

  lemma ToldMore(groups: Groups, mapping: Mapping, events: seq<Event>, e: Event, m: Member, frame: Frame)
    ensures Told(groups, mapping, events + [e], m, frame) <==>
            || Told(groups, mapping, events, m, frame)
            || (e.ReportDrop? && e.frame == frame && Sibling(groups, Members(mapping, e.node), m) && NonePassed(mapping, events, m, frame))
  {
    var longer := events + [e];
    forall i | 0 <= i < |events|
      ensures ToldAt(groups, mapping, longer, m, frame, i) <==> ToldAt(groups, mapping, events, m, frame, i)
    {
      assert forall j :: 0 <= j <= i ==> longer[j] == events[j];
    }
    assert ToldAt(groups, mapping, longer, m, frame, |events|) <==>
           (e.ReportDrop? && e.frame == frame && Sibling(groups, Members(mapping, e.node), m) && NonePassed(mapping, events, m, frame)) by {
      assert forall j :: 0 <= j < |events| ==> longer[j] == events[j];
    }
    if Told(groups, mapping, events, m, frame) {
      var i :| 0 <= i < |events| && ToldAt(groups, mapping, events, m, frame, i);
      assert ToldAt(groups, mapping, longer, m, frame, i);
    }
  }

  lemma SiblingStays(groups: Groups, groups': Groups, members: seq<Member>, m: Member)
    requires SameShape(groups, groups')
    ensures Sibling(groups', members, m) <==> Sibling(groups, members, m)
  {
    forall k | 0 <= k < |members|
      ensures Exists(groups', members[k]) <==> Exists(groups, members[k])
    {
    }
  }

  /** What the state of a place says about the history, for every history. */
  lemma {:induction false} StateIsHistory(groups: Groups, mapping: Mapping, events: seq<Event>, m: Member)
    requires Untouched(groups) && Exists(groups, m)
    ensures SameShape(groups, Replay(groups, mapping, events))
    ensures var b := Replay(groups, mapping, events)[m.group].branches[m.branch];
            && ProcessedIs(mapping, events, m, b.processed)
            && forall frame: Frame :: frame in b.pending <==> Told(groups, mapping, events, m, frame)
  {
    if events != [] {
      var front, e := events[..|events| - 1], events[|events| - 1];
      assert events == front + [e];
      StateIsHistory(groups, mapping, front, m);
      HistoryStep(groups, mapping, front, e, m);
    }
  }

  lemma HistoryStep(groups: Groups, mapping: Mapping, front: seq<Event>, e: Event, m: Member)
    requires Exists(groups, m) && SameShape(groups, Replay(groups, mapping, front))
    requires var b := Replay(groups, mapping, front)[m.group].branches[m.branch];
             && ProcessedIs(mapping, front, m, b.processed)
             && forall frame: Frame :: frame in b.pending <==> Told(groups, mapping, front, m, frame)
    ensures var after := Apply(Replay(groups, mapping, front), mapping, e);
            && SameShape(groups, after)
            && ProcessedIs(mapping, front + [e], m, after[m.group].branches[m.branch].processed)
            && forall frame: Frame :: frame in after[m.group].branches[m.branch].pending <==> Told(groups, mapping, front + [e], m, frame)
  {
    var before := Replay(groups, mapping, front);
    var members := Members(mapping, e.node);
    assert Exists(before, m);
    forall frame: Frame
      ensures NonePassed(mapping, front + [e], m, frame) <==> NonePassed(mapping, front, m, frame) && !Passed(mapping, e, m, frame)
    {
      NonePassedMore(mapping, front, e, m, frame);
    }
    forall frame: Frame
      ensures Told(groups, mapping, front + [e], m, frame) <==>
              || Told(groups, mapping, front, m, frame)
              || (e.ReportDrop? && e.frame == frame && Sibling(groups, members, m) && NonePassed(mapping, front, m, frame))
    {
      ToldMore(groups, mapping, front, e, m, frame);
    }
    SiblingStays(groups, before, members, m);
    match e {
      case ReportDrop(_, frame) => DropAllEffect(before, members, frame, m);
      case MarkProcessed(_, frame) => ProcessAllEffect(before, members, frame, m);
    }
  }

  /**
   shouldDrop by history: true exactly if, on one of the node's places, a sibling branch
   reported the frame dropped while this branch had processed neither it nor a later one.
   */
  lemma ShouldDropByHistory(groups: Groups, mapping: Mapping, events: seq<Event>, node: string, frame: Frame)
    requires Untouched(groups)
    ensures ShouldDrop(Replay(groups, mapping, events), Members(mapping, node), frame) <==>
            exists k :: 0 <= k < |Members(mapping, node)| && Exists(groups, Members(mapping, node)[k]) &&
              Told(groups, mapping, events, Members(mapping, node)[k], frame)
  {
    var members := Members(mapping, node);
    forall k | 0 <= k < |members|
      ensures IsPending(Replay(groups, mapping, events), members[k], frame) <==>
              Exists(groups, members[k]) && Told(groups, mapping, events, members[k], frame)
    {
      if Exists(groups, members[k]) {
        StateIsHistory(groups, mapping, events, members[k]);
      } else {
        ShapeStays(groups, mapping, events);
      }
    }
  }

  lemma {:induction false} ShapeStays(groups: Groups, mapping: Mapping, events: seq<Event>)
    ensures SameShape(groups, Replay(groups, mapping, events))
  {
    if events != [] {
      var front, e := events[..|events| - 1], events[|events| - 1];
      ShapeStays(groups, mapping, front);
      match e {
        case ReportDrop(node, frame) => DropShape(Replay(groups, mapping, front), Members(mapping, node), frame);
        case MarkProcessed(node, frame) => ProcessShape(Replay(groups, mapping, front), Members(mapping, node), frame);
      }
    }
  }

  lemma {:induction false} DropShape(groups: Groups, members: seq<Member>, frame: Frame)
    ensures SameShape(groups, DropAll(groups, members, frame))
  {
    if members != [] {
      DropShape(groups, members[..|members| - 1], frame);
    }
  }

  lemma {:induction false} ProcessShape(groups: Groups, members: seq<Member>, frame: Frame)
    ensures SameShape(groups, ProcessAll(groups, members, frame))
  {
    if members != [] {
      ProcessShape(groups, members[..|members| - 1], frame);
    }
  }

  /** Once true, it stays true. */
  lemma ShouldDropStays(groups: Groups, mapping: Mapping, events: seq<Event>, more: seq<Event>, node: string, frame: Frame)
    requires Untouched(groups) && ShouldDrop(Replay(groups, mapping, events), Members(mapping, node), frame)
    ensures ShouldDrop(Replay(groups, mapping, events + more), Members(mapping, node), frame)
  {
    var members := Members(mapping, node);
    ShouldDropByHistory(groups, mapping, events, node, frame);
    var k :| 0 <= k < |members| && Exists(groups, members[k]) && Told(groups, mapping, events, members[k], frame);
    var i :| 0 <= i < |events| && ToldAt(groups, mapping, events, members[k], frame, i);
    assert forall j :: 0 <= j <= i ==> (events + more)[j] == events[j];
    assert ToldAt(groups, mapping, events + more, members[k], frame, i);
    assert Told(groups, mapping, events + more, members[k], frame);
    ShouldDropByHistory(groups, mapping, events + more, node, frame);
  }
}
