/**
 * Friend requests, kept as e-mail addresses on the requested user's
 * document: send one, reject one, accept one (both become friends), and
 * list the pending ones newest first.
 */
module FriendRequests {
  import opened Common
  import opened Domain

  const RequestIdRequired := "Friend request ID is required"
  const RequestEmailRequired := "Friend request email is required"
  const FriendEmailRequired := "Friend's email is required"
  const CurrentUserNotFound := "Current user not found"
  const UserNotFound := "User not found"
  const RequestNotFound := "Friend request not found"

  /** `createFriendRequest`: the requester's e-mail is added to the target's requests with `$addToSet`. */
  method CreateFriendRequest(dir: UserDirectory, userId: UserId, friendRequest: string) returns (reply: Reply)
    modifies dir
    ensures friendRequest == "" ==> reply == Reply(400, RequestIdRequired) && dir.users == old(dir.users)
    ensures friendRequest != "" && FindUser(old(dir.users), userId).None? ==>
      reply == Reply(404, CurrentUserNotFound) && dir.users == old(dir.users)
    ensures friendRequest != "" && FindUser(old(dir.users), userId).Some? && FindEmail(old(dir.users), friendRequest).None? ==>
      reply == Reply(404, UserNotFound) && dir.users == old(dir.users)
    ensures friendRequest != "" && FindUser(old(dir.users), userId).Some? && FindEmail(old(dir.users), friendRequest).Some? ==>
      var me := old(dir.users)[FindUser(old(dir.users), userId).value];
      var t := FindEmail(old(dir.users), friendRequest).value;
      var target := old(dir.users)[t];
      reply == Reply(201, "") &&
      dir.users == old(dir.users)[t := target.(friendRequests := AddIfAbsent(target.friendRequests, me.email))]
  {
    if friendRequest == "" {
      return Reply(400, RequestIdRequired);
    }
    var i := FindUser(dir.users, userId);
    if i.None? {
      return Reply(404, CurrentUserNotFound);
    }
    var me := dir.users[i.value];
    var t := FindEmail(dir.users, friendRequest);
    if t.None? {
      return Reply(404, UserNotFound);
    }
    var target := dir.users[t.value];
    dir.users := dir.users[t.value := target.(friendRequests := AddIfAbsent(target.friendRequests, me.email))];
    return Reply(201, "");
  }

  /** `rejectFriendRequest`: every pending request from that address is dropped. */
  method RejectFriendRequest(dir: UserDirectory, userId: UserId, friendRequest: string) returns (reply: Reply)
    modifies dir
    ensures friendRequest == "" ==> reply == Reply(400, RequestEmailRequired) && dir.users == old(dir.users)
    ensures friendRequest != "" && FindUser(old(dir.users), userId).None? ==>
      reply == Reply(404, UserNotFound) && dir.users == old(dir.users)
    ensures friendRequest != "" && FindUser(old(dir.users), userId).Some? ==>
      var i := FindUser(old(dir.users), userId).value;
      var me := old(dir.users)[i];
      reply == Reply(200, "") &&
      dir.users == old(dir.users)[i := me.(friendRequests := RemoveAll(me.friendRequests, friendRequest))]
  {
    if friendRequest == "" {
      return Reply(400, RequestEmailRequired);
    }
    var i := FindUser(dir.users, userId);
    if i.None? {
      return Reply(404, UserNotFound);
    }
    var me := dir.users[i.value];
    dir.users := dir.users[i.value := me.(friendRequests := RemoveAll(me.friendRequests, friendRequest))];
    return Reply(200, "");
  }

  /** The accepting user's document: the request gone, the new friend recorded once. */
  function Accepter(me: User, friendEmail: string): (r: User)
    ensures r.id == me.id && r.email == me.email && r.blockedUsers == me.blockedUsers
    ensures friendEmail !in r.friendRequests && friendEmail in r.friends
    ensures forall e :: e in r.friendRequests <==> e in me.friendRequests && e != friendEmail
    ensures forall e :: e in r.friends <==> e in me.friends || e == friendEmail
  {
    me.(friendRequests := RemoveAll(me.friendRequests, friendEmail),
        friends := AddIfAbsent(me.friends, friendEmail))
  }

  /**
   * The store after an accept. The two documents are saved one after the
   * other, and saving a document writes only the fields changed on it: the
   * accepter's requests and friends, then the new friend's friends.
   */
  function AfterAccept(users: seq<User>, i: nat, j: nat, friendEmail: string): (r: seq<User>)
    requires i < |users| && j < |users|
    ensures |r| == |users|
  {
    var mid := users[i := Accepter(users[i], friendEmail)];
    mid[j := mid[j].(friends := AddIfAbsent(users[j].friends, users[i].email))]
  }

  /**
   * `acceptFriendRequest`. A pending request whose sender no longer has an
   * account fails with a server error before anything is saved.
   */
  method AcceptFriendRequest(dir: UserDirectory, userId: UserId, friendEmail: string) returns (reply: Reply)
    modifies dir
    ensures friendEmail == "" ==> reply == Reply(400, FriendEmailRequired) && dir.users == old(dir.users)
    ensures friendEmail != "" && FindUser(old(dir.users), userId).None? ==>
      reply == Reply(404, UserNotFound) && dir.users == old(dir.users)
    ensures friendEmail != "" && FindUser(old(dir.users), userId).Some? ==>
      var i := FindUser(old(dir.users), userId).value;
      var j := FindEmail(old(dir.users), friendEmail);
      if friendEmail !in old(dir.users)[i].friendRequests then
        reply == Reply(400, RequestNotFound) && dir.users == old(dir.users)
      else if j.None? then
        reply.code == 500 && dir.users == old(dir.users)
      else
        reply == Reply(200, "") && dir.users == AfterAccept(old(dir.users), i, j.value, friendEmail)
  {
    if friendEmail == "" {
      return Reply(400, FriendEmailRequired);
    }
    var i := FindUser(dir.users, userId);
    if i.None? {
      return Reply(404, UserNotFound);
    }
    var j := FindEmail(dir.users, friendEmail);
    var me := dir.users[i.value];
    if friendEmail !in me.friendRequests {
      return Reply(400, RequestNotFound);
    }
    if j.None? {
      return Reply(500, "");
    }
    var friend := dir.users[j.value];
    dir.users := dir.users[i.value := Accepter(me, friendEmail)];
    dir.users := dir.users[j.value := dir.users[j.value].(friends := AddIfAbsent(friend.friends, me.email))];
    return Reply(200, "");
  }

  /** After accepting a request from someone else, each is in the other's friends and the request is gone. */
  lemma AcceptMakesMutualFriends(users: seq<User>, i: nat, j: nat, friendEmail: string)
    requires i < |users| && j < |users| && i != j && users[j].email == friendEmail
    ensures var after := AfterAccept(users, i, j, friendEmail);
      friendEmail in after[i].friends && users[i].email in after[j].friends &&
      friendEmail !in after[i].friendRequests &&
      after[j].friendRequests == users[j].friendRequests &&
      forall k :: 0 <= k < |users| && k != i && k != j ==> after[k] == users[k]
  {
  }

  /** Accepting twice records each friendship once. */
  lemma AcceptAddsNoDuplicates(users: seq<User>, i: nat, j: nat, friendEmail: string)
    requires i < |users| && j < |users| && i != j
    requires NoDups(users[i].friends) && NoDups(users[j].friends)
    ensures var after := AfterAccept(users, i, j, friendEmail);
      NoDups(after[i].friends) && NoDups(after[j].friends)
  {
  }

  /** What `getFriendRequests` answers. */
  datatype RequestsView = NoSuchUser | NoRequests | Requests(senders: seq<Option<User>>)

  /** The user document for each pending address, latest request first; a missing account shows as none. */
  function NewestFirst(emails: seq<string>, users: seq<User>): (r: seq<Option<User>>)
    ensures |r| == |emails|
    ensures forall k :: 0 <= k < |r| ==>
      r[k] == (match FindEmail(users, emails[|emails| - 1 - k])
               case None => None
               case Some(t) => Some(users[t]))
  {
    if emails == [] then []
    else
      var e := emails[|emails| - 1];
      var head := match FindEmail(users, e) case None => None case Some(t) => Some(users[t]);
      [head] + NewestFirst(emails[..|emails| - 1], users)
  }

  /** The request received last is listed first. */
  lemma LatestRequestFirst(emails: seq<string>, e: string, users: seq<User>)
    ensures NewestFirst(emails + [e], users)[0] == (match FindEmail(users, e) case None => None case Some(t) => Some(users[t]))
  {
  }

  /** `getFriendRequests` */
  function GetFriendRequests(users: seq<User>, userId: UserId): (r: RequestsView)
    ensures r.NoSuchUser? <==> FindUser(users, userId).None?
    ensures r.NoRequests? <==> FindUser(users, userId).Some? && users[FindUser(users, userId).value].friendRequests == []
    ensures r.Requests? ==> |r.senders| == |users[FindUser(users, userId).value].friendRequests| > 0
  {
    match FindUser(users, userId)
    case None => NoSuchUser
    case Some(i) =>
      if |users[i].friendRequests| == 0 then NoRequests
      else Requests(NewestFirst(users[i].friendRequests, users))
  }
}
