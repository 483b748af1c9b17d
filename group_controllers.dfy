/**
 * The group controllers: create a group, list its members, add members,
 * rename or re-image it, and leave it. The group collection is a field the
 * handlers update in place, as the handlers save the group document; the
 * user collection is read only. `groupInfoUpdated` notifications go through
 * the user → socket map, recorded in `log`.
 */
module GroupControllers {
  import opened Common
  import opened Domain
  import opened Realtime
  import opened GroupPermissions

  const AdminNotFound := "Admin user not found"
  const InvalidMembers := "One or more members are not valid users"
  const GroupNotFound := "Group not found"
  const MemberIdsRequired := "Member IDs are required"
  const NotAMember := "You are not a member of this group"
  const UsersNotFound := "One or more users not found"
  const AllAlreadyMembers := "All users are already members"

  /** A new group document: no picture, no admin, no messages. */
  function NewGroup(id: GroupId, name: string, members: seq<UserId>): Group {
    Group(id, name, "", members, [], [], None)
  }

  /** The member list of `getGroupMembers`: the current user first when present, the others in stored order. */
  function MembersFirst(members: seq<UserId>, userId: UserId): (r: seq<UserId>)
    ensures userId in members ==> |r| > 0 && r[0] == userId && userId !in r[1..]
    ensures userId !in members ==> r == members
    ensures forall x :: x in r <==> x in members
  {
    if userId in members then [userId] + RemoveAll(members, userId) else members
  }

  /** With no repeated member, the reordering is a permutation of the stored members. */
  lemma MembersFirstPermutes(members: seq<UserId>, userId: UserId)
    requires NoDups(members)
    ensures multiset(MembersFirst(members, userId)) == multiset(members)
  {
    if userId in members {
      RemoveAllMultiset(members, userId);
      CountOfDistinct(members, userId);
    }
  }

  /** In a duplicate-free list a present value occurs once. */
  lemma {:induction false} CountOfDistinct(s: seq<UserId>, v: UserId)
    requires NoDups(s) && v in s
    ensures multiset(s)[v] == 1
  {
    assert s == [s[0]] + s[1..];
    if s[0] == v {
      assert v !in s[1..] by {
        forall i | 0 <= i < |s[1..]| ensures s[1..][i] != v {
          assert s[1..][i] == s[i + 1];
        }
      }
    } else {
      assert NoDups(s[1..]) by {
        forall i, j | 0 <= i < j < |s[1..]| ensures s[1..][i] != s[1..][j] {
          assert s[1..][i] == s[i + 1] && s[1..][j] == s[j + 1];
        }
      }
      CountOfDistinct(s[1..], v);
    }
  }

  /** The other members keep their relative order behind the current user. */
  lemma MembersFirstKeepsOthersOrder(members: seq<UserId>, userId: UserId)
    requires userId in members
    ensures MembersFirst(members, userId)[1..] == RemoveAll(members, userId)
  {
  }

  /** `group.members.push` for every found user that is not yet a member, in the order the users were found. */
  function AddNew(existing: seq<UserId>, candidates: seq<UserId>): (r: seq<UserId>)
    decreases |candidates|
    ensures |existing| <= |r| <= |existing| + |candidates| && r[..|existing|] == existing
    ensures forall x :: x in r <==> x in existing || x in candidates
  {
    if candidates == [] then existing
    else
      var init := candidates[..|candidates| - 1];
      var c := candidates[|candidates| - 1];
      assert forall x :: x in candidates <==> x in init || x == c by {
        assert candidates == init + [c];
      }
      var prev := AddNew(existing, init);
      if c in prev then prev else prev + [c]
  }

  /** Adding to a duplicate-free member list is deduplicating the concatenation: nobody is added twice. */
  lemma {:induction false} AddNewIsDedupe(existing: seq<UserId>, candidates: seq<UserId>)
    requires NoDups(existing)
    ensures AddNew(existing, candidates) == Dedupe(existing + candidates)
    decreases |candidates|
  {
    if candidates == [] {
      assert existing + candidates == existing;
      DedupeOfDistinct(existing);
    } else {
      var init := candidates[..|candidates| - 1];
      var c := candidates[|candidates| - 1];
      AddNewIsDedupe(existing, init);
      assert existing + candidates == (existing + init) + [c];
      DedupeSnoc(existing + init, c);
    }
  }

  /** The group with `name` and `image` replaced only where the request gives them. */
  function Retitled(g: Group, name: Option<string>, image: Option<string>): (r: Group)
    ensures r.id == g.id && r.members == g.members && r.admin == g.admin
    ensures r.messages == g.messages && r.lastMessage == g.lastMessage
    ensures name.Some? ==> r.name == name.value
    ensures name.None? ==> r.name == g.name
    ensures image.Some? ==> r.image == image.value
    ensures image.None? ==> r.image == g.image
  {
    g.(name := if name.Some? then name.value else g.name,
       image := if image.Some? then image.value else g.image)
  }

  /**
   * The group after `userId` leaves, or none when nobody is left and the
   * group is deleted. A leaving admin who was the last admin hands the role
   * to the first remaining member.
   */
  function AfterLeave(g: Group, userId: UserId): (r: Option<Group>)
    ensures r.None? <==> forall x :: x in g.members ==> x == userId
    ensures r.Some? ==> r.value.id == g.id && r.value.name == g.name && r.value.image == g.image
    ensures r.Some? ==> userId !in r.value.members && userId !in r.value.admin
    ensures r.Some? ==> forall x :: x in g.members && x != userId ==> x in r.value.members
    ensures r.Some? ==> forall x :: x in r.value.admin ==> x in g.admin || x == r.value.members[0]
    ensures r.Some? && userId in g.admin ==> |r.value.admin| > 0
    ensures r.Some? && userId !in g.admin ==> r.value.admin == g.admin
  {
    var members := RemoveAll(g.members, userId);
    var admin :=
      if userId in g.admin then
        var rest := RemoveAll(g.admin, userId);
        if |rest| == 0 && |members| > 0 then [members[0]] else rest
      else g.admin;
    if |members| == 0 then
      None
    else
      assert members[0] in g.members && members[0] != userId;
      Some(g.(members := members, admin := admin))
  }

  /** The last member leaving deletes the group. */
  lemma LastMemberDeletes(g: Group, userId: UserId)
    requires g.members == [userId]
    ensures AfterLeave(g, userId).None?
  {
  }

  /**
   * The outcome of `addMemberToGroup` on the group at index `k`: 403 for a
   * requester outside the group, 400 when an id names no user, 403 on a
   * blocking conflict, 400 when everyone is already a member; otherwise the
   * new members are appended and the group saved.
   */
  predicate AddOutcome(users: seq<User>, before: seq<Group>, k: nat, userId: UserId, memberIds: seq<UserId>, reply: Reply, after: seq<Group>)
    requires k < |before|
  {
    var g := before[k];
    var valid := Selected(users, memberIds);
    var verdict := BetweenSetsVerdict(users, g.members, memberIds, userId);
    var grown := AddNew(g.members, Ids(valid));
    if userId !in g.members then reply == Reply(403, NotAMember) && after == before
    else if |valid| != |memberIds| then reply == Reply(400, UsersNotFound) && after == before
    else if verdict.Conflict? then reply == Reply(403, verdict.message) && after == before
    else if |grown| == |g.members| then reply == Reply(400, AllAlreadyMembers) && after == before
    else reply == Reply(200, "") && after == before[k := g.(members := grown)]
  }

  class GroupDirectory {
    var users: seq<User>
    var groups: seq<Group>
    var log: seq<Effect>

    constructor(users0: seq<User>, groups0: seq<Group>)
      ensures users == users0 && groups == groups0 && log == []
    {
      users := users0;
      groups := groups0;
      log := [];
    }

    /**
     * `createGroup`: the requester goes in front of the requested ids, the
     * list is deduplicated, every id must name a user, and no two members
     * may block each other. The new group lists its members in the order
     * the user collection returns them.
     */
    method CreateGroup(userId: UserId, name: string, members: seq<UserId>, newId: GroupId) returns (reply: Reply)
      modifies this`groups
      ensures var unique := Dedupe([userId] + members);
        var valid := Selected(users, unique);
        if FindUser(users, userId).None? then reply == Reply(400, AdminNotFound) && groups == old(groups)
        else if |valid| != |unique| then reply == Reply(400, InvalidMembers) && groups == old(groups)
        else if MembersVerdict(users, unique, userId).Conflict? then
          reply == Reply(403, MembersVerdict(users, unique, userId).message) && groups == old(groups)
        else reply == Reply(201, "") && groups == old(groups) + [NewGroup(newId, name, Ids(valid))]
    {
      if FindUser(users, userId).None? {
        return Reply(400, AdminNotFound);
      }
      var unique := Dedupe([userId] + members);
      var valid := Selected(users, unique);
      if |valid| != |unique| {
        return Reply(400, InvalidMembers);
      }
      var verdict := DetectBlockingConflictForMembers(users, unique, userId);
      if verdict.Conflict? {
        return Reply(403, verdict.message);
      }
      groups := groups + [NewGroup(newId, name, Ids(valid))];
      return Reply(201, "");
    }

    /** `getGroupMembers`: the stored member ids, current user first; none for an unknown group. */
    function GroupMembers(groupId: GroupId, userId: UserId): (r: Option<seq<UserId>>)
      reads this
      ensures r.None? <==> FindGroup(groups, groupId).None?
      ensures r.Some? ==> forall x :: x in r.value <==> x in groups[FindGroup(groups, groupId).value].members
      ensures r.Some? && userId in groups[FindGroup(groups, groupId).value].members ==> r.value[0] == userId
    {
      match FindGroup(groups, groupId)
      case None => None
      case Some(k) => Some(MembersFirst(groups[k].members, userId))
    }

    /**
     * `addMemberToGroup`: checks the request, the group, the requester's
     * membership, that every id names a user and that no candidate
     * conflicts with a member; then appends each found user not yet a
     * member, and saves only if someone was added.
     */
    method AddMemberToGroup(groupId: GroupId, userId: UserId, memberIds: seq<UserId>) returns (reply: Reply)
      modifies this`groups
      ensures |memberIds| == 0 ==> reply == Reply(400, MemberIdsRequired) && groups == old(groups)
      ensures |memberIds| > 0 && FindGroup(old(groups), groupId).None? ==> reply == Reply(404, GroupNotFound) && groups == old(groups)
      ensures |memberIds| > 0 && FindGroup(old(groups), groupId).Some? ==>
        AddOutcome(users, old(groups), FindGroup(old(groups), groupId).value, userId, memberIds, reply, groups)
    {
      if |memberIds| == 0 {
        return Reply(400, MemberIdsRequired);
      }
      var found := FindGroup(groups, groupId);
      if found.None? {
        return Reply(404, GroupNotFound);
      }
      var k := found.value;
      var g := groups[k];
      if userId !in g.members {
        return Reply(403, NotAMember);
      }
      var valid := Selected(users, memberIds);
      if |valid| != |memberIds| {
        return Reply(400, UsersNotFound);
      }
      var verdict := DetectBlockingConflictBetweenSets(users, g.members, memberIds, userId);
      if verdict.Conflict? {
        return Reply(403, verdict.message);
      }
      var members, added := AppendNew(g.members, Ids(valid));
      if |added| == 0 {
        return Reply(400, AllAlreadyMembers);
      }
      groups := groups[k := g.(members := members)];
      return Reply(200, "");
    }

    /** The push loop of `addMemberToGroup`: each id not yet in the list is appended, and recorded as added. */
    static method AppendNew(existing: seq<UserId>, ids: seq<UserId>) returns (members: seq<UserId>, added: seq<UserId>)
      ensures members == AddNew(existing, ids) && added == members[|existing|..]
    {
      members := existing;
      added := [];
      var i := 0;
      while i < |ids|
        invariant 0 <= i <= |ids|
        invariant members == AddNew(existing, ids[..i])
        invariant added == members[|existing|..]
      {
        assert ids[..i + 1][..i] == ids[..i];
        if ids[i] !in members {
          members := members + [ids[i]];
          added := added + [ids[i]];
        }
        i := i + 1;
      }
      assert ids[..|ids|] == ids;
    }

    /** `groupInfoUpdated` to every member with a mapped socket, in member order. */
    method NotifyGroupInfo(members: seq<UserId>, registry: map<string, SocketId>, e: Event)
      modifies this`log
      ensures log == old(log) + FanOut(members, registry, "", e)
    {
      var sent: seq<Effect> := [];
      var i := 0;
      while i < |members|
        invariant 0 <= i <= |members|
        invariant log == old(log)
        invariant sent == FanOut(members[..i], registry, "", e)
      {
        FanOutStep(members, i, registry, "", e);
        var sid := Resolve(registry, "", members[i]);
        if sid.Some? {
          sent := sent + [Emit(sid.value, e)];
        }
        i := i + 1;
      }
      assert members[..|members|] == members;
      log := log + sent;
    }

    /**
     * `updateGroupInfo`: a member may set the name and the picture, each
     * only when given; after saving, every member with a socket is told the
     * new name and picture.
     */
    method UpdateGroupInfo(groupId: GroupId, userId: UserId, name: Option<string>, image: Option<string>, registry: map<string, SocketId>)
      returns (reply: Reply)
      modifies this`groups, this`log
      ensures FindGroup(old(groups), groupId).None? ==>
        reply == Reply(404, GroupNotFound) && groups == old(groups) && log == old(log)
      ensures FindGroup(old(groups), groupId).Some? ==>
        var k := FindGroup(old(groups), groupId).value;
        var g := old(groups)[k];
        var g2 := Retitled(g, name, image);
        if userId !in g.members then
          reply == Reply(403, NotAMember) && groups == old(groups) && log == old(log)
        else
          reply == Reply(200, "") && groups == old(groups)[k := g2] &&
          log == old(log) + FanOut(g.members, registry, "", GroupInfoUpdated(g.id, g2.name, g2.image))
    {
      var found := FindGroup(groups, groupId);
      if found.None? {
        return Reply(404, GroupNotFound);
      }
      var k := found.value;
      var g := groups[k];
      if userId !in g.members {
        return Reply(403, NotAMember);
      }
      var g2 := Retitled(g, name, image);
      groups := groups[k := g2];
      NotifyGroupInfo(g2.members, registry, GroupInfoUpdated(g2.id, g2.name, g2.image));
      return Reply(200, "");
    }

    /** `leaveGroup`: remove the member, hand on the admin role if needed, and delete the group when it is empty. */
    method LeaveGroup(groupId: GroupId, userId: UserId) returns (reply: Reply, deleted: bool)
      modifies this`groups
      ensures FindGroup(old(groups), groupId).None? ==> reply == Reply(404, GroupNotFound) && !deleted && groups == old(groups)
      ensures FindGroup(old(groups), groupId).Some? ==>
        var k := FindGroup(old(groups), groupId).value;
        var g := old(groups)[k];
        if userId !in g.members then
          reply == Reply(400, NotAMember) && !deleted && groups == old(groups)
        else
          reply == Reply(200, "") &&
          match AfterLeave(g, userId)
          case None => deleted && groups == old(groups)[..k] + old(groups)[k + 1..]
          case Some(g2) => !deleted && groups == old(groups)[k := g2]
    {
      var found := FindGroup(groups, groupId);
      if found.None? {
        return Reply(404, GroupNotFound), false;
      }
      var k := found.value;
      var g := groups[k];
      if userId !in g.members {
        return Reply(400, NotAMember), false;
      }
      var after := AfterLeave(g, userId);
      if after.None? {
        groups := groups[..k] + groups[k + 1..];
        return Reply(200, ""), true;
      }
      groups := groups[k := after.value];
      return Reply(200, ""), false;
    }
  }

  /** A created group always contains its creator, and only the creator and requested ids. */
  lemma CreatedGroupHasCreator(users: seq<User>, userId: UserId, members: seq<UserId>)
    requires FindUser(users, userId).Some?
    ensures var valid := Selected(users, Dedupe([userId] + members));
      userId in Ids(valid) && forall x :: x in Ids(valid) ==> x == userId || x in members
  {
    var unique := Dedupe([userId] + members);
    var valid := Selected(users, unique);
    var k := FindUser(users, userId).value;
    assert users[k] in valid;
    forall x | x in Ids(valid) ensures x == userId || x in members {
      var i :| 0 <= i < |valid| && Ids(valid)[i] == x;
      assert valid[i] in valid;
      assert x in [userId] + members;
    }
  }

  /** Adding members keeps every old member in place and adds no id twice to a duplicate-free group. */
  lemma AddedMembersAppendOnly(existing: seq<UserId>, found: seq<UserId>)
    requires NoDups(existing)
    ensures var grown := AddNew(existing, found);
      grown[..|existing|] == existing && NoDups(grown) && forall x :: x in grown <==> x in existing || x in found
  {
    AddNewIsDedupe(existing, found);
  }
}
