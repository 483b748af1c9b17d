/**
 * The stored documents the chat system works on: users, direct and group
 * messages, and groups. A collection is a sequence of documents in storage
 * order; a lookup returns the first document that matches, as `findById`
 * and `findOne` do. An empty id matches nothing (`findById(undefined)` is
 * `null`).
 */
module Domain {
  import opened Common

  type UserId = string
  type SocketId = string
  type GroupId = string

  /** A user document: its blocked ids, and friends and pending requests, both kept as e-mail addresses. */
  datatype User = User(
    id: UserId,
    email: string,
    blockedUsers: seq<UserId>,
    friends: seq<string>,
    friendRequests: seq<string>)

  /** A stored chat message; `recipient` is "" for a group message. */
  datatype Message = Message(
    id: nat,
    sender: UserId,
    recipient: UserId,
    messageType: string,
    content: string,
    fileUrl: string,
    timestamp: int)

  /** The snapshot a group keeps of its latest message. */
  datatype LastMessage = LastMessage(content: string, messageType: string, timestamp: int, fileUrl: string)

  datatype Group = Group(
    id: GroupId,
    name: string,
    image: string,
    members: seq<UserId>,
    admin: seq<UserId>,
    messages: seq<nat>,
    lastMessage: Option<LastMessage>)

  /** No two user documents share an id, as MongoDB's `_id` index guarantees. */
  predicate UniqueIds(users: seq<User>) {
    forall i, j :: 0 <= i < j < |users| ==> users[i].id != users[j].id
  }

  /** The user collection; controllers read documents from it and save them back in place. */
  class UserDirectory {
    var users: seq<User>

    constructor(users0: seq<User>)
      ensures users == users0
    {
      users := users0;
    }
  }

  /** An HTTP reply: its status code and, for an error, the error text ("" on success). */
  datatype Reply = Reply(code: nat, error: string)

  /** The ids of some user documents, in order. */
  function Ids(us: seq<User>): (r: seq<UserId>)
    ensures |r| == |us|
    ensures forall k :: 0 <= k < |us| ==> r[k] == us[k].id
    ensures forall u :: u in us ==> u.id in r
  {
    if us == [] then [] else [us[0].id] + Ids(us[1..])
  }

  /** Index of the first user with this id; none for the empty id. */
  function FindUser(users: seq<User>, id: UserId): (r: Option<nat>)
    ensures r.Some? ==> r.value < |users| && users[r.value].id == id && id != ""
    ensures r.Some? ==> forall k :: 0 <= k < r.value ==> users[k].id != id
    ensures r.None? ==> id == "" || forall k :: 0 <= k < |users| ==> users[k].id != id
  {
    if id == "" then None else FirstIndex(users, (u: User) => u.id == id)
  }

  /** Index of the first user with this e-mail; none for the empty address. */
  function FindEmail(users: seq<User>, email: string): (r: Option<nat>)
    ensures r.Some? ==> r.value < |users| && users[r.value].email == email && email != ""
    ensures r.Some? ==> forall k :: 0 <= k < r.value ==> users[k].email != email
    ensures r.None? ==> email == "" || forall k :: 0 <= k < |users| ==> users[k].email != email
  {
    if email == "" then None else FirstIndex(users, (u: User) => u.email == email)
  }

  /** Index of the first group with this id. */
  function FindGroup(groups: seq<Group>, id: GroupId): (r: Option<nat>)
    ensures r.Some? ==> r.value < |groups| && groups[r.value].id == id && id != ""
    ensures r.None? ==> id == "" || forall k :: 0 <= k < |groups| ==> groups[k].id != id
  {
    if id == "" then None else FirstIndex(groups, (g: Group) => g.id == id)
  }
}
