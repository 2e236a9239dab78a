/**
 * The group store (frontend/src/store/group.ts): the sample groups and
 * activities, the groups the user belongs to, and joining a group.
 */
module GroupStore {
  import opened JsArray

  datatype Group = Group(id: int, name: string, description: string, members: int, icon: string, isMember: bool)

  datatype ActivityStatus = Confirmed | Pending
  datatype Activity = Activity(id: int, title: string, date: string, time: string, location: string,
                               kind: string, status: ActivityStatus)

  function HasGroupId(id: int): Group -> bool { (g: Group) => g.id == id }
  function IsMember(): Group -> bool { (g: Group) => g.isMember }
  function Join(): Group -> Group { (g: Group) => g.(isMember := true) }

  class GroupStore {
    var groups: seq<Group>
    var activities: seq<Activity>

    constructor(initialGroups: seq<Group>, initialActivities: seq<Activity>)
      ensures groups == initialGroups && activities == initialActivities
    {
      groups := initialGroups;
      activities := initialActivities;
    }

    /** `myGroups`: the groups the user belongs to, in order. */
    function MyGroups(): (r: seq<Group>)
      reads this
      ensures forall j :: 0 <= j < |r| ==> r[j] in groups && r[j].isMember
      ensures forall j :: 0 <= j < |groups| && groups[j].isMember ==> groups[j] in r
    {
      Filter(groups, IsMember())
    }

    /** `joinGroup`: the first group with the id becomes a membership. */
    method JoinGroup(id: int)
      modifies this
      ensures groups == UpdateFirst(old(groups), HasGroupId(id), Join())
      ensures activities == old(activities)
      ensures (exists j :: 0 <= j < |old(groups)| && old(groups)[j].id == id) ==>
        (exists j :: 0 <= j < |MyGroups()| && MyGroups()[j].id == id)
    {
      var i := FindIndex(groups, HasGroupId(id));
      if i > -1 {
        groups := groups[i := groups[i].(isMember := true)];
        assert groups[i] in MyGroups();
      }
    }
  }

  /** Joining an unknown group changes nothing. */
  lemma JoinUnknown(s: seq<Group>, id: int)
    requires forall j :: 0 <= j < |s| ==> s[j].id != id
    ensures UpdateFirst(s, HasGroupId(id), Join()) == s
  {
    UpdateFirstNoMatch(s, HasGroupId(id), Join());
  }

  /** Joining twice is joining once. */
  lemma JoinIdempotent(s: seq<Group>, id: int)
    ensures UpdateFirst(UpdateFirst(s, HasGroupId(id), Join()), HasGroupId(id), Join())
         == UpdateFirst(s, HasGroupId(id), Join())
  {
    UpdateFirstIdempotent(s, HasGroupId(id), Join());
  }
}
