/** The seeded groups and the lookup every handler starts with. */
module GroupStore {
  import opened Domain

  /** The three groups `$groups` is seeded with; they never change. */
  function SeedGroups(): seq<Group> {
    [ Group(1, "Group 1", [Member(1, "Aliya"), Member(2, "Buhan"), Member(3, "Cheeti")]),
      Group(2, "Group 2", [Member(4, "Divesh"), Member(5, "Ajay"), Member(6, "Ram")]),
      Group(3, "Group 3", [Member(7, "Harh"), Member(8, "Karan"), Member(9, "Raj")]) ]
  }

  /** Position of the first group with id `id`, or `|groups|` when there is none. */
  function FirstIndex(groups: seq<Group>, id: int): (k: nat)
    ensures k <= |groups|
    ensures forall j :: 0 <= j < k ==> groups[j].id != id
    ensures k < |groups| ==> groups[k].id == id
  {
    if groups == [] then 0
    else if groups[0].id == id then 0
    else 1 + FirstIndex(groups[1..], id)
  }

  /** The group `findGroupById` returns: the first match, or null. */
  function FirstGroup(groups: seq<Group>, id: int): (r: Option<Group>)
  {
    var k := FirstIndex(groups, id);
    if k < |groups| then Some(groups[k]) else None
  }

  /** `findGroupById`: a forward scan that returns at the first group whose id
      matches. The list is passed by value, so it cannot be modified. */
  method FindGroupById(groupId: int, groups: seq<Group>) returns (r: Option<Group>)
    ensures r == FirstGroup(groups, groupId)
    ensures r.None? <==> forall i :: 0 <= i < |groups| ==> groups[i].id != groupId
    ensures r.Some? ==> exists i :: 0 <= i < |groups| && groups[i] == r.value && r.value.id == groupId
                                    && forall j :: 0 <= j < i ==> groups[j].id != groupId
  {
    for i := 0 to |groups|
      invariant forall j :: 0 <= j < i ==> groups[j].id != groupId
    {
      if groups[i].id == groupId {
        return Some(groups[i]);
      }
    }
    return None;
  }

  /** `in_array($paid_by, array_column($group['members'], 'id'))`. */
  predicate IsMember(members: seq<Member>, id: int) {
    members != [] && (members[|members| - 1].id == id || IsMember(members[..|members| - 1], id))
  }

  /** Membership means some member carries the id. */
  lemma {:induction false} IsMemberIndex(members: seq<Member>, id: int)
    ensures IsMember(members, id) <==> exists i :: 0 <= i < |members| && members[i].id == id
  {
    if members != [] {
      var front := members[..|members| - 1];
      IsMemberIndex(front, id);
      if IsMember(front, id) {
        var i :| 0 <= i < |front| && front[i].id == id;
        assert members[i] == front[i];
      }
      if exists i :: 0 <= i < |members| && members[i].id == id {
        var i :| 0 <= i < |members| && members[i].id == id;
        if i < |front| { assert front[i] == members[i]; }
      }
    }
  }

  /** Member ids are distinct within each seeded group. */
  ghost predicate UniqueIds(members: seq<Member>) {
    forall i, j :: 0 <= i < j < |members| ==> members[i].id != members[j].id
  }

  /** When group ids are distinct, the lookup finds exactly the group that
      carries the id, wherever it stands in the list. */
  lemma FirstGroupOfDistinct(groups: seq<Group>, k: nat)
    requires k < |groups|
    requires forall i, j :: 0 <= i < j < |groups| ==> groups[i].id != groups[j].id
    ensures FirstGroup(groups, groups[k].id) == Some(groups[k])
  {
  }

  /** The seeded list answers ids 1, 2 and 3 and nothing else. */
  lemma SeedLookup(id: int)
    ensures FirstGroup(SeedGroups(), id).Some? <==> 1 <= id <= 3
    ensures 1 <= id <= 3 ==> FirstGroup(SeedGroups(), id) == Some(SeedGroups()[id - 1])
    ensures forall g :: g in SeedGroups() ==> |g.members| == 3 && UniqueIds(g.members)
  {
    var gs := SeedGroups();
    if 1 <= id <= 3 {
      FirstGroupOfDistinct(gs, id - 1);
    }
  }
}
