/**
 * Blocking: a user blocks or unblocks another, and asks whether either has
 * blocked the other. Blocking is one-way and keeps the friendship; it only
 * clears pending friend requests between the two.
 */
module BlockController {
  import opened Common
  import opened Domain
  import opened GroupPermissions

  const BlockedIdRequired := "Blocked user ID is required"
  const CannotBlockYourself := "Cannot block yourself"
  const UserNotFound := "User not found"

  /** The blocker's document after blocking: the id recorded once, the blocked user's pending request dropped. */
  function Blocker(u: User, blockedId: UserId, blockedEmail: string): (r: User)
    ensures r.id == u.id && r.email == u.email && r.friends == u.friends
    ensures blockedId in r.blockedUsers && blockedEmail !in r.friendRequests
    ensures forall x :: x in r.blockedUsers <==> x in u.blockedUsers || x == blockedId
    ensures forall e :: e in r.friendRequests <==> e in u.friendRequests && e != blockedEmail
  {
    u.(blockedUsers := AddIfAbsent(u.blockedUsers, blockedId),
       friendRequests := RemoveAll(u.friendRequests, blockedEmail))
  }

  /** Blocking again adds nothing: the blocked id occurs at most once if it did before. */
  lemma BlockRecordsOnce(u: User, blockedId: UserId, blockedEmail: string)
    requires multiset(u.blockedUsers)[blockedId] <= 1
    ensures multiset(Blocker(u, blockedId, blockedEmail).blockedUsers)[blockedId] == 1
  {
    AddIfAbsentOnce(u.blockedUsers, blockedId);
  }

  /** `blockUser` */
  method BlockUser(dir: UserDirectory, userId: UserId, blockedUserId: UserId) returns (reply: Reply)
    modifies dir
    ensures blockedUserId == "" ==> reply == Reply(400, BlockedIdRequired) && dir.users == old(dir.users)
    ensures blockedUserId != "" && userId == blockedUserId ==> reply == Reply(400, CannotBlockYourself) && dir.users == old(dir.users)
    ensures blockedUserId != "" && userId != blockedUserId ==>
      var i := FindUser(old(dir.users), userId);
      var j := FindUser(old(dir.users), blockedUserId);
      if i.None? || j.None? then reply == Reply(404, UserNotFound) && dir.users == old(dir.users)
      else
        var u := old(dir.users)[i.value];
        var b := old(dir.users)[j.value];
        reply == Reply(200, "") &&
        dir.users == old(dir.users)[i.value := Blocker(u, blockedUserId, b.email)]
                                   [j.value := b.(friendRequests := RemoveAll(b.friendRequests, u.email))]
  {
    if blockedUserId == "" {
      return Reply(400, BlockedIdRequired);
    }
    if userId == blockedUserId {
      return Reply(400, CannotBlockYourself);
    }
    var i := FindUser(dir.users, userId);
    var j := FindUser(dir.users, blockedUserId);
    if i.None? || j.None? {
      return Reply(404, UserNotFound);
    }
    var u := dir.users[i.value];
    var b := dir.users[j.value];
    dir.users := dir.users[i.value := Blocker(u, blockedUserId, b.email)];
    dir.users := dir.users[j.value := b.(friendRequests := RemoveAll(b.friendRequests, u.email))];
    return Reply(200, "");
  }

  /** After a block neither user has a pending request from the other, and both keep their friends. */
  lemma BlockClearsRequestsKeepsFriends(users: seq<User>, userId: UserId, blockedUserId: UserId)
    requires userId != blockedUserId
    requires FindUser(users, userId).Some? && FindUser(users, blockedUserId).Some?
    ensures var i := FindUser(users, userId).value;
      var j := FindUser(users, blockedUserId).value;
      var u := users[i];
      var b := users[j];
      var after := users[i := Blocker(u, blockedUserId, b.email)][j := b.(friendRequests := RemoveAll(b.friendRequests, u.email))];
      i != j && b.email !in after[i].friendRequests && u.email !in after[j].friendRequests &&
      after[i].friends == u.friends && after[j].friends == b.friends && blockedUserId in after[i].blockedUsers &&
      after[j].blockedUsers == b.blockedUsers
  {
  }

  /** `unblockUser`: every occurrence of the id leaves the blocker's list. */
  method UnblockUser(dir: UserDirectory, userId: UserId, blockedUserId: UserId) returns (reply: Reply)
    modifies dir
    ensures blockedUserId == "" ==> reply == Reply(400, BlockedIdRequired) && dir.users == old(dir.users)
    ensures blockedUserId != "" && FindUser(old(dir.users), userId).None? ==>
      reply == Reply(404, UserNotFound) && dir.users == old(dir.users)
    ensures blockedUserId != "" && FindUser(old(dir.users), userId).Some? ==>
      var i := FindUser(old(dir.users), userId).value;
      var u := old(dir.users)[i];
      reply == Reply(200, "") && dir.users == old(dir.users)[i := u.(blockedUsers := RemoveAll(u.blockedUsers, blockedUserId))]
  {
    if blockedUserId == "" {
      return Reply(400, BlockedIdRequired);
    }
    var i := FindUser(dir.users, userId);
    if i.None? {
      return Reply(404, UserNotFound);
    }
    var u := dir.users[i.value];
    dir.users := dir.users[i.value := u.(blockedUsers := RemoveAll(u.blockedUsers, blockedUserId))];
    return Reply(200, "");
  }

  /** Unblocking undoes a block of an id that was not blocked before. */
  lemma UnblockUndoesBlock(u: User, blockedId: UserId, blockedEmail: string)
    requires blockedId !in u.blockedUsers
    ensures RemoveAll(Blocker(u, blockedId, blockedEmail).blockedUsers, blockedId) == u.blockedUsers
  {
    RemoveAllAppend(u.blockedUsers, blockedId, blockedId);
    RemoveAbsent(u.blockedUsers, blockedId);
  }

  /** `checkBlockStatus`: whether I blocked them and whether they blocked me, each read from its own list. */
  datatype BlockStatus = BlockStatus(iBlockedThem: bool, theyBlockedMe: bool)

  function CheckBlockStatus(users: seq<User>, userId: UserId, targetUserId: UserId): (r: Option<BlockStatus>)
    ensures r.None? <==> FindUser(users, userId).None? || FindUser(users, targetUserId).None?
    ensures r.Some? ==> (r.value.iBlockedThem <==> targetUserId in users[FindUser(users, userId).value].blockedUsers)
    ensures r.Some? ==> (r.value.theyBlockedMe <==> userId in users[FindUser(users, targetUserId).value].blockedUsers)
  {
    var i := FindUser(users, userId);
    var j := FindUser(users, targetUserId);
    if i.None? || j.None? then None
    else Some(BlockStatus(targetUserId in users[i.value].blockedUsers, userId in users[j.value].blockedUsers))
  }

  /** With unique ids, the blocked map holds exactly each user's own blocked list. */
  lemma {:induction false} BlockedMapOfUnique(users: seq<User>, k: nat)
    requires UniqueIds(users) && k < |users|
    ensures users[k].id in BlockedMapOf(users)
    ensures BlockedMapOf(users)[users[k].id] == set x | x in users[k].blockedUsers
  {
    var init := users[..|users| - 1];
    if k < |users| - 1 {
      assert init[k] == users[k];
      assert UniqueIds(init) by {
        forall i, j | 0 <= i < j < |init| ensures init[i].id != init[j].id {
          assert init[i] == users[i] && init[j] == users[j];
        }
      }
      BlockedMapOfUnique(init, k);
    }
  }

  /**
   * The status a user sees agrees with the rule that keeps users apart in
   * groups: the pair conflicts exactly when one of the two flags is set.
   */
  lemma BlockStatusAgreesWithGroupRule(users: seq<User>, userId: UserId, targetUserId: UserId)
    requires UniqueIds(users) && CheckBlockStatus(users, userId, targetUserId).Some?
    ensures var st := CheckBlockStatus(users, userId, targetUserId).value;
      var bm := BlockedMapOf(users);
      (st.iBlockedThem <==> HasBlocked(bm, userId, targetUserId)) &&
      (st.theyBlockedMe <==> HasBlocked(bm, targetUserId, userId)) &&
      (Blocks(bm, userId, targetUserId) <==> st.iBlockedThem || st.theyBlockedMe)
  {
    BlockedMapOfUnique(users, FindUser(users, userId).value);
    BlockedMapOfUnique(users, FindUser(users, targetUserId).value);
  }
}
