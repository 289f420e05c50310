/** The strategy object of src/join_aware_sync_strategy.hpp over its sync groups. */
module SyncStrategy {
  import opened SyncGroups
  import opened JoinSync

  class JoinAwareSync {
    var mapping: Mapping
    var groups: map<string, SyncGroup>

    /** Every group is a separate object. */
    ghost predicate Valid()
      reads this, groups.Values
    {
      && (forall g :: g in groups ==> groups[g].Valid())
      && (forall g, h :: g in groups && h in groups && g != h ==> groups[g] != groups[h])
    }

    /** The states of the groups. */
    ghost function States(): Groups
      reads this, groups.Values
    {
      map g | g in groups :: groups[g].Value()
    }

    constructor ()
      ensures Valid() && mapping == map[] && groups == map[]
    {
      mapping, groups := map[], map[];
    }

    /** registerSyncGroup: a group with fresh branches, unless the name is taken. */
    method RegisterSyncGroup(group: string, branchIds: seq<string>)
      requires Valid()
      modifies `groups
      ensures Valid() && (forall g :: g in old(groups) ==> g in groups && groups[g] == old(groups)[g])
      ensures States() == if group in old(groups) then old(States()) else old(States())[group := NewGroup(branchIds)]
    {
      if group in groups {
        return;
      }
      var created := Create(branchIds);
      groups := groups[group := created];
    }

    /** addNodeMapping: the node now also drops what is pending on the new place; no other node is affected. */
    method MapNodeToGroup(node: string, group: string, branch: string)
      requires Valid()
      modifies `mapping
      ensures Valid() && States() == old(States())
      ensures mapping == Placed(old(mapping), node, Member(group, branch))
      ensures forall other, frame: Frame :: DropsAlso(States(), old(mapping), mapping, node, Member(group, branch), other, frame)
    {
      ghost var before, states, m := mapping, States(), Member(group, branch);
      mapping := mapping[node := Members(mapping, node) + [Member(group, branch)]];
      assert States() == states;
      forall other, frame: Frame
        ensures DropsAlso(states, before, mapping, node, m, other, frame)
      {
        PlacedDrops(states, before, node, m, other, frame);
      }
    }

    /** What initialize begins with: no groups and no places. */
    method Clear()
      modifies this
      ensures Valid() && mapping == map[] && groups == map[]
    {
      mapping, groups := map[], map[];
    }

    method DropAt(m: Member, frame: Frame, reason: string)
      requires Valid()
      modifies groups.Values
      ensures Valid()
      ensures States() == DropOne(old(States()), m, frame)
    {
      ghost var before := States();
      if m.group in groups {
        var _ := groups[m.group].ReportFrameDropped(m.branch, frame, reason);
        assert States() == before[m.group := Dropped(before[m.group], m.branch, frame)];
      }
    }

    /** reportDrop: the drop reaches every group of the node; the answer lists the sibling branches, each once. */
    method ReportDrop(node: string, frame: Frame, reason: string) returns (affected: seq<string>)
      requires Valid()
      modifies groups.Values
      ensures Valid()
      ensures States() == DropAll(old(States()), Members(mapping, node), frame)
      ensures forall id :: id in affected <==> IsAffected(States(), Members(mapping, node), id)
      ensures forall i, j :: 0 <= i < j < |affected| ==> affected[i] != affected[j]
    {
      var members := Members(mapping, node);
      ghost var before := States();
      for k := 0 to |members|
        invariant Valid() && States() == DropAll(before, members[..k], frame)
      {
        assert members[..k + 1][..k] == members[..k];
        DropAt(members[k], frame, reason);
      }
      assert members[..|members|] == members;
      affected := Siblings(members);
    }

    method Siblings(members: seq<Member>) returns (affected: seq<string>)
      requires Valid()
      ensures forall id :: id in affected <==> IsAffected(States(), members, id)
      ensures forall i, j :: 0 <= i < j < |affected| ==> affected[i] != affected[j]
    {
      affected := [];
      for k := 0 to |members|
        invariant forall id :: id in affected <==> IsAffected(States(), members[..k], id)
        invariant forall i, j :: 0 <= i < j < |affected| ==> affected[i] != affected[j]
      {
        var m := members[k];
        AffectedMore(States(), members, k);
        if m.group in groups {
          affected := AddOthers(affected, groups[m.group].branches.Keys, m.branch);
        }
      }
      assert members[..|members|] == members;
    }

    method ProcessAt(m: Member, frame: Frame)
      requires Valid()
      modifies groups.Values
      ensures Valid()
      ensures States() == ProcessOne(old(States()), m, frame)
    {
      ghost var before := States();
      if m.group in groups {
        groups[m.group].ReportFrameProcessed(m.branch, frame);
        assert States() == before[m.group := Processed(before[m.group], m.branch, frame)];
      }
    }

    method MarkProcessed(node: string, frame: Frame)
      requires Valid()
      modifies groups.Values
      ensures Valid()
      ensures States() == ProcessAll(old(States()), Members(mapping, node), frame)
    {
      var members := Members(mapping, node);
      ghost var before := States();
      for k := 0 to |members|
        invariant Valid() && States() == ProcessAll(before, members[..k], frame)
      {
        assert members[..k + 1][..k] == members[..k];
        ProcessAt(members[k], frame);
      }
      assert members[..|members|] == members;
    }

    method ShouldDropFrame(node: string, frame: Frame) returns (drop: bool)
      requires Valid()
      ensures drop == ShouldDrop(States(), Members(mapping, node), frame)
    {
      var members := Members(mapping, node);
      for k := 0 to |members|
        invariant forall j :: 0 <= j < k ==> !IsPending(States(), members[j], frame)
      {
        var m := members[k];
        if m.group in groups {
          var pending := groups[m.group].GetPendingSyncDrops(m.branch);
          if frame in pending {
            assert IsPending(States(), members[k], frame);
            return true;
          }
        }
      }
      return false;
    }
  }

  method Create(branchIds: seq<string>) returns (group: SyncGroup)
    ensures fresh(group) && group.Valid() && group.Value() == NewGroup(branchIds)
  {
    group := new SyncGroup();
    for k := 0 to |branchIds|
      invariant group.Valid() && group.Value() == NewGroup(branchIds[..k])
    {
      group.AddBranch(branchIds[k]);
      assert group.branches == NewGroup(branchIds[..k + 1]).branches;
    }
    assert branchIds[..|branchIds|] == branchIds;
  }

  /** A group in which nothing has happened. */
  function NewGroup(branchIds: seq<string>): State {
    State(map id | id in branchIds :: Fresh(), {}, INVALID)
  }

  /** A branch other than the node's own in one of its groups. */
  ghost predicate IsAffected(groups: Groups, members: seq<Member>, id: string) {
    exists k :: 0 <= k < |members| && AffectedBy(groups, members[k], id)
  }

  predicate AffectedBy(groups: Groups, m: Member, id: string) {
    m.group in groups && id in groups[m.group].branches && id != m.branch
  }

  lemma AffectedMore(groups: Groups, members: seq<Member>, k: nat)
    requires k < |members|
    ensures forall id :: IsAffected(groups, members[..k + 1], id) <==> IsAffected(groups, members[..k], id) || AffectedBy(groups, members[k], id)
  {
    forall id
      ensures IsAffected(groups, members[..k + 1], id) <==> IsAffected(groups, members[..k], id) || AffectedBy(groups, members[k], id)
    {
      if IsAffected(groups, members[..k], id) {
        var j :| 0 <= j < k && AffectedBy(groups, members[..k][j], id);
        assert AffectedBy(groups, members[..k + 1][j], id);
      }
      if AffectedBy(groups, members[k], id) {
        assert AffectedBy(groups, members[..k + 1][k], id);
      }
      if IsAffected(groups, members[..k + 1], id) {
        var j :| 0 <= j < k + 1 && AffectedBy(groups, members[..k + 1][j], id);
        assert j < k ==> AffectedBy(groups, members[..k][j], id);
      }
    }
  }

  method AddOthers(before: seq<string>, ids: set<string>, own: string) returns (list: seq<string>)
    requires forall i, j :: 0 <= i < j < |before| ==> before[i] != before[j]
    ensures forall id :: id in list <==> id in before || (id in ids && id != own)
    ensures forall i, j :: 0 <= i < j < |list| ==> list[i] != list[j]
  {
    list := before;
    var left := ids;
    while left != {}
      invariant left <= ids
      invariant forall id :: id in list <==> id in before || (id in ids - left && id != own)
      invariant forall i, j :: 0 <= i < j < |list| ==> list[i] != list[j]
      decreases left
    {
      var id :| id in left;
      if id != own && id !in list {
        list := list + [id];
      }
      left := left - {id};
    }
  }
}
