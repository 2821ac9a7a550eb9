/** The mock `GroupService` (src/services/groupService.ts): three fixed groups. */
module GroupService {
  import opened Common

  datatype Group = Group(
    id: string, name: string, memberCount: int, description: string,
    nextSession: Option<string>, image: Option<string>)

  function GroupId(g: Group): string
  {
    g.id
  }

  const Groups: seq<Group> := [
    Group("g1", "Morning Cardio Crew", 15, "We run every morning at 7 AM.",
          Some("Tomorrow, 7:00 AM"), None),
    Group("g2", "Keto Warriors", 42, "Support group for Keto diet beginners.",
          Some("Wed, 8:00 PM"), None),
    Group("g3", "Yoga & Chill", 28, "Relaxing yoga sessions for stress relief.",
          Some("Fri, 6:00 PM"), None)
  ]

  /** `getUserGroups`: a copy of the three groups in stored order, for any
      user.  A sequence is a value, so no caller can change the fixture. */
  function GetUserGroups(userId: string): (gs: seq<Group>)
    ensures |gs| == 3
    ensures gs[0].id == "g1" && gs[1].id == "g2" && gs[2].id == "g3"
    ensures DistinctKeys(gs, GroupId)
  {
    Groups[..]
  }

  /** The user id is not consulted. */
  lemma UserGroupsIgnoreUser(a: string, b: string)
    ensures GetUserGroups(a) == GetUserGroups(b)
  {
  }

  /** `getGroupDetails`: the group with that id, or undefined. */
  function GetGroupDetails(groupId: string): (r: Option<Group>)
    ensures r.Some? ==> r.value in Groups && r.value.id == groupId
    ensures r.None? <==> groupId !in {"g1", "g2", "g3"}
  {
    Find(Groups, GroupId, groupId)
  }

  /** Every group a user is shown can be opened by its id. */
  lemma ListedGroupsAreFound(userId: string, i: nat)
    requires i < |GetUserGroups(userId)|
    ensures GetGroupDetails(GetUserGroups(userId)[i].id) == Some(GetUserGroups(userId)[i])
  {
    FindDistinct(Groups, GroupId, i);
  }
}
