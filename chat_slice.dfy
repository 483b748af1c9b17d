/**
 * The client's chat store: which chats and groups have unread messages,
 * the messages of the open chat, the direct-message contact list (most
 * recent first) and the group list.
 */
module ChatSlice {
  import opened Common

  const SentPhoto := "Đã gửi một ảnh"
  const SentFile := "Đã gửi một tệp"

  /** A user as the client receives it inside a message. */
  datatype Peer = Peer(id: string, profile: string)

  /**
   * A message as the client receives it: a direct message has a recipient,
   * a group message a group id and, when the server sends it, the group.
   */
  datatype ClientMessage = ClientMessage(
    id: string,
    sender: Peer,
    recipient: Option<Peer>,
    groupId: string,
    group: Option<ChatData>,
    messageType: string,
    content: string,
    fileUrl: string,
    timestamp: string,
    createdAt: string)

  /** An open chat, a group of the group list or the profile in the sidebar: its id, its plain fields and its members. */
  datatype ChatData = ChatData(id: string, fields: map<string, string>, members: seq<string>)

  /**
   * The `updates` object of `updateGroupData`: each key it carries with its
   * value, `None` for a key carried as `undefined`; `members` when present.
   */
  datatype GroupUpdate = GroupUpdate(fields: map<string, Option<string>>, members: Option<seq<string>>)

  /** The `lastMessage` a contact of the direct-message list carries. */
  datatype DMPreview = DMPreview(messageId: string, content: string, sender: Peer, messageType: string, fileUrl: string, timestamp: string)

  datatype DMContact = DMContact(peer: Peer, lastMessage: Option<DMPreview>)

  // ---------------------------------------------------------------------
  // Unread markers

  /** `markChatAsUnread` / `markGroupAsUnread`: an id is added once; "" is ignored. */
  function MarkUnread(ids: seq<string>, id: string): (r: seq<string>)
    ensures id == "" || id in ids ==> r == ids
    ensures id != "" && id !in ids ==> r == ids + [id]
    ensures NoDups(ids) ==> NoDups(r)
  {
    if id == "" then ids else AddIfAbsent(ids, id)
  }

  /** `markChatAsRead` / `markGroupAsRead`: the id is dropped; nothing changes when it is absent. */
  function MarkRead(ids: seq<string>, id: string): (r: seq<string>)
    ensures id == "" || id !in ids ==> r == ids
    ensures id != "" ==> id !in r && forall x :: x in r <==> x in ids && x != id
  {
    if id == "" || id !in ids then ids else RemoveAll(ids, id)
  }

  /** Reading a chat right after it was marked unread restores the markers. */
  lemma MarkReadUndoesMarkUnread(ids: seq<string>, id: string)
    requires id !in ids
    ensures MarkRead(MarkUnread(ids, id), id) == ids
  {
    if id != "" {
      RemoveAllUndoesAddIfAbsent(ids, id);
    }
  }

  // ---------------------------------------------------------------------
  // Messages of the open chat

  predicate HasMessage(msgs: seq<ClientMessage>, id: string) {
    exists k :: 0 <= k < |msgs| && msgs[k].id == id
  }

  predicate DistinctMessageIds(msgs: seq<ClientMessage>) {
    forall i, j :: 0 <= i < j < |msgs| ==> msgs[i].id != msgs[j].id
  }

  /** `addMessage`: a message joins the open chat only when no message there has its id. */
  function WithMessage(msgs: seq<ClientMessage>, m: ClientMessage): (r: seq<ClientMessage>)
    ensures HasMessage(msgs, m.id) ==> r == msgs
    ensures !HasMessage(msgs, m.id) ==> r == msgs + [m]
  {
    if HasMessage(msgs, m.id) then msgs else msgs + [m]
  }

  /** Adding messages never puts two messages with one id in the open chat. */
  lemma AddMessageKeepsIdsDistinct(msgs: seq<ClientMessage>, m: ClientMessage)
    requires DistinctMessageIds(msgs)
    ensures DistinctMessageIds(WithMessage(msgs, m))
  {
    if !HasMessage(msgs, m.id) {
      var r := msgs + [m];
      forall i, j | 0 <= i < j < |r| ensures r[i].id != r[j].id {
        if j == |msgs| {
          assert r[i] == msgs[i];
        } else {
          assert r[i] == msgs[i] && r[j] == msgs[j];
        }
      }
    }
  }

  // ---------------------------------------------------------------------
  // Moving an entry to the front

  /** The sequence without its `i`-th entry (`splice(i, 1)`). */
  function Without<T>(s: seq<T>, i: nat): (r: seq<T>)
    requires i < |s|
    ensures |r| == |s| - 1
    ensures forall k :: 0 <= k < i ==> r[k] == s[k]
    ensures forall k :: i <= k < |r| ==> r[k] == s[k + 1]
  {
    s[..i] + s[i + 1..]
  }

  /** Index of the first contact with this id (`findIndex`). */
  function IndexOfContact(cs: seq<DMContact>, id: string): (r: Option<nat>)
    ensures r.Some? ==> r.value < |cs| && cs[r.value].peer.id == id
    ensures r.Some? ==> forall k :: 0 <= k < r.value ==> cs[k].peer.id != id
    ensures r.None? ==> forall k :: 0 <= k < |cs| ==> cs[k].peer.id != id
  {
    FirstIndex(cs, (c: DMContact) => c.peer.id == id)
  }

  /** The preview text: a file reads as a sent photo or a sent file, anything else as its content. */
  function PreviewContent(m: ClientMessage): string {
    if m.messageType == "file" then (if m.fileUrl != "" then SentPhoto else SentFile) else m.content
  }

  /** The `lastMessage` built from a message; its time falls back to `createdAt`, then to `now`. */
  function PreviewOf(m: ClientMessage, now: string): (p: DMPreview)
    ensures p.messageId == m.id && p.sender == m.sender
    ensures m.timestamp != "" ==> p.timestamp == m.timestamp
    ensures m.timestamp == "" && m.createdAt != "" ==> p.timestamp == m.createdAt
  {
    DMPreview(m.id, PreviewContent(m), m.sender, m.messageType, m.fileUrl, OrElse(m.timestamp, OrElse(m.createdAt, now)))
  }

  /** The other side of a direct message, seen from `me`. */
  function OtherParty(me: string, m: ClientMessage): Peer
    requires m.recipient.Some?
  {
    if m.sender.id == me then m.recipient.value else m.sender
  }

  /**
   * `addContactsInDMContacts`: the other side of the message moves to the
   * front with the message as its preview, or enters at the front. Nothing
   * changes without a signed-in user, or when the message has no
   * recipient (the lookup throws and the error is swallowed).
   */
  function UpsertContact(cs: seq<DMContact>, me: Option<string>, m: ClientMessage, now: string): (r: seq<DMContact>)
    ensures me.None? || m.recipient.None? ==> r == cs
    ensures me.Some? && m.recipient.Some? ==>
      var from := OtherParty(me.value, m);
      r != [] && r[0].peer.id == from.id && r[0].lastMessage == Some(PreviewOf(m, now)) &&
      match IndexOfContact(cs, from.id)
      case Some(i) => |r| == |cs| && r[0].peer == cs[i].peer && r[1..] == Without(cs, i)
      case None => |r| == |cs| + 1 && r[0].peer == from && r[1..] == cs
  {
    if me.None? || m.recipient.None? then cs
    else
      var from := OtherParty(me.value, m);
      var lm := PreviewOf(m, now);
      match IndexOfContact(cs, from.id)
      case Some(i) => [cs[i].(lastMessage := Some(lm))] + Without(cs, i)
      case None => [DMContact(from, Some(lm))] + cs
  }

  predicate DistinctContacts(cs: seq<DMContact>) {
    forall i, j :: 0 <= i < j < |cs| ==> cs[i].peer.id != cs[j].peer.id
  }

  /** The contact list never lists one user twice: moving to the front keeps the ids distinct. */
  lemma UpsertKeepsContactsDistinct(cs: seq<DMContact>, me: Option<string>, m: ClientMessage, now: string)
    requires DistinctContacts(cs)
    ensures DistinctContacts(UpsertContact(cs, me, m, now))
  {
    var r := UpsertContact(cs, me, m, now);
    if me.Some? && m.recipient.Some? {
      var from := OtherParty(me.value, m);
      match IndexOfContact(cs, from.id)
      case Some(i) =>
        forall a, b | 0 <= a < b < |r| ensures r[a].peer.id != r[b].peer.id {
          var b' := if b - 1 < i then b - 1 else b;
          assert r[b] == cs[b'];
          if a == 0 {
            assert b' != i;
          } else {
            var a' := if a - 1 < i then a - 1 else a;
            assert r[a] == cs[a'];
          }
        }
      case None =>
        forall a, b | 0 <= a < b < |r| ensures r[a].peer.id != r[b].peer.id {
          assert r[b] == cs[b - 1];
          if a > 0 {
            assert r[a] == cs[a - 1];
          }
        }
    }
  }

  // ---------------------------------------------------------------------
  // Groups

  /** `{ ...data, ...updates }` */
  function Merge(d: ChatData, u: GroupUpdate): (r: ChatData)
    ensures r.id == d.id
    ensures forall k :: k in u.fields ==> (k in r.fields <==> u.fields[k].Some?)
    ensures forall k :: k in u.fields && u.fields[k].Some? ==> r.fields[k] == u.fields[k].value
    ensures forall k :: k !in u.fields ==> (k in r.fields <==> k in d.fields)
    ensures forall k :: k !in u.fields && k in d.fields ==> r.fields[k] == d.fields[k]
    ensures r.members == (if u.members.Some? then u.members.value else d.members)
  {
    var kept := map k | k in d.fields && k !in u.fields :: d.fields[k];
    var given := map k | k in u.fields && u.fields[k].Some? :: u.fields[k].value;
    ChatData(d.id, kept + given, if u.members.Some? then u.members.value else d.members)
  }

  /** Merging the same updates twice is merging them once. */
  lemma MergeIdempotent(d: ChatData, u: GroupUpdate)
    ensures Merge(Merge(d, u), u) == Merge(d, u)
  {
    var m := Merge(d, u);
    var mm := Merge(m, u);
    assert forall k :: k in mm.fields <==> k in m.fields;
    assert mm.fields == m.fields;
  }

  /** The group list of `updateGroupData`: the groups with that id take the updates, the others stay as they are. */
  function UpdateGroups(groups: seq<ChatData>, groupId: string, u: GroupUpdate): (r: seq<ChatData>)
    ensures |r| == |groups|
    ensures forall k :: 0 <= k < |groups| ==> r[k] == (if groups[k].id == groupId then Merge(groups[k], u) else groups[k])
  {
    if groups == [] then []
    else [if groups[0].id == groupId then Merge(groups[0], u) else groups[0]] + UpdateGroups(groups[1..], groupId, u)
  }

  /** Applying the same update twice is applying it once. */
  lemma {:induction false} UpdateGroupsIdempotent(groups: seq<ChatData>, groupId: string, u: GroupUpdate)
    ensures UpdateGroups(UpdateGroups(groups, groupId, u), groupId, u) == UpdateGroups(groups, groupId, u)
  {
    var once := UpdateGroups(groups, groupId, u);
    var twice := UpdateGroups(once, groupId, u);
    forall k | 0 <= k < |groups| ensures twice[k] == once[k] {
      if groups[k].id == groupId {
        MergeIdempotent(groups[k], u);
      }
    }
  }

  predicate HasGroup(groups: seq<ChatData>, id: string) {
    exists k :: 0 <= k < |groups| && groups[k].id == id
  }

  /** `addGroup`: a group is put first only when no group has its id. */
  function WithGroup(groups: seq<ChatData>, g: ChatData): (r: seq<ChatData>)
    ensures HasGroup(groups, g.id) ==> r == groups
    ensures !HasGroup(groups, g.id) ==> r == [g] + groups
  {
    if HasGroup(groups, g.id) then groups else [g] + groups
  }

  /** Index of the first group with this id (`findIndex`). */
  function IndexOfGroup(groups: seq<ChatData>, id: string): (r: Option<nat>)
    ensures r.Some? ==> r.value < |groups| && groups[r.value].id == id
    ensures r.None? ==> !HasGroup(groups, id)
  {
    FirstIndex(groups, (g: ChatData) => g.id == id)
  }

  /** `addGroupInGroupList`: the group the message belongs to moves to the front as it is. */
  function PromoteGroup(groups: seq<ChatData>, groupId: string): (r: seq<ChatData>)
    ensures |r| == |groups| && multiset(r) == multiset(groups)
    ensures !HasGroup(groups, groupId) ==> r == groups
    ensures HasGroup(groups, groupId) ==> r[0].id == groupId
  {
    match IndexOfGroup(groups, groupId)
    case None => groups
    case Some(i) =>
      assert groups == groups[..i] + [groups[i]] + groups[i + 1..];
      [groups[i]] + Without(groups, i)
  }

  /**
   * `sortGroupList`: the group with the given group's id leaves its place
   * and the given group object takes the front; an unknown group leaves
   * the list as it is.
   */
  function GroupToFront(groups: seq<ChatData>, g: ChatData): (r: seq<ChatData>)
    ensures |r| == |groups|
    ensures !HasGroup(groups, g.id) ==> r == groups
    ensures HasGroup(groups, g.id) ==>
      var i := IndexOfGroup(groups, g.id).value;
      r[0] == g && r[1..] == Without(groups, i)
  {
    match IndexOfGroup(groups, g.id)
    case None => groups
    case Some(i) => [g] + Without(groups, i)
  }

  predicate DistinctGroups(groups: seq<ChatData>) {
    forall i, j :: 0 <= i < j < |groups| ==> groups[i].id != groups[j].id
  }

  /** A group already at the front stays there: promoting twice is promoting once. */
  lemma PromoteGroupIdempotent(groups: seq<ChatData>, groupId: string)
    ensures PromoteGroup(PromoteGroup(groups, groupId), groupId) == PromoteGroup(groups, groupId)
  {
    var r := PromoteGroup(groups, groupId);
    if HasGroup(groups, groupId) {
      assert IndexOfGroup(r, groupId) == Some(0);
      assert [r[0]] + Without(r, 0) == r;
    } else {
      assert r == groups;
    }
  }

  /** Replacing a listed group by a group with its id and moving it to the front keeps the ids distinct. */
  lemma GroupToFrontKeepsIdsDistinct(groups: seq<ChatData>, g: ChatData)
    requires DistinctGroups(groups)
    ensures DistinctGroups(GroupToFront(groups, g))
  {
    var r := GroupToFront(groups, g);
    if HasGroup(groups, g.id) {
      var i := IndexOfGroup(groups, g.id).value;
      forall a, b | 0 <= a < b < |r| ensures r[a].id != r[b].id {
        var b' := if b - 1 < i then b - 1 else b;
        assert r[b] == groups[b'];
        if a == 0 {
          assert b' != i;
        } else {
          var a' := if a - 1 < i then a - 1 else a;
          assert r[a] == groups[a'];
        }
      }
    }
  }

  /** Adding a group that is not listed yet keeps the ids distinct. */
  lemma WithGroupKeepsIdsDistinct(groups: seq<ChatData>, g: ChatData)
    requires DistinctGroups(groups)
    ensures DistinctGroups(WithGroup(groups, g))
  {
    var r := WithGroup(groups, g);
    if !HasGroup(groups, g.id) {
      forall a, b | 0 <= a < b < |r| ensures r[a].id != r[b].id {
        assert r[b] == groups[b - 1];
        if a > 0 {
          assert r[a] == groups[a - 1];
        }
      }
    }
  }

  // ---------------------------------------------------------------------
  // The store

  datatype RequestCard = RequestCard(email: string, firstName: string, lastName: string, image: string)

  class ChatStore {
    var selectedChatType: Option<string>
    var selectedChatData: Option<ChatData>
    var selectedChatMessages: seq<ClientMessage>
    var selectedChatMembers: seq<string>
    var unreadChatIds: seq<string>
    var unreadGroupIds: seq<string>
    var directMessagesContacts: seq<DMContact>
    var groups: seq<ChatData>
    var contactOrGroupProfile: Option<ChatData>
    var friendRequests: seq<RequestCard>
    var friendRequestsCount: int

    /** The store's initial state. */
    constructor ()
      ensures selectedChatType.None? && selectedChatData.None? && selectedChatMessages == [] && selectedChatMembers == []
      ensures unreadChatIds == [] && unreadGroupIds == [] && directMessagesContacts == [] && groups == []
      ensures contactOrGroupProfile.None? && friendRequests == [] && friendRequestsCount == 0
    {
      selectedChatType := None;
      selectedChatData := None;
      selectedChatMessages := [];
      selectedChatMembers := [];
      unreadChatIds := [];
      unreadGroupIds := [];
      directMessagesContacts := [];
      groups := [];
      contactOrGroupProfile := None;
      friendRequests := [];
      friendRequestsCount := 0;
    }

    method MarkChatAsUnread(chatId: string)
      modifies this`unreadChatIds
      ensures unreadChatIds == MarkUnread(old(unreadChatIds), chatId)
    {
      unreadChatIds := MarkUnread(unreadChatIds, chatId);
    }

    method MarkChatAsRead(chatId: string)
      modifies this`unreadChatIds
      ensures unreadChatIds == MarkRead(old(unreadChatIds), chatId)
    {
      unreadChatIds := MarkRead(unreadChatIds, chatId);
    }

    method MarkGroupAsUnread(groupId: string)
      modifies this`unreadGroupIds
      ensures unreadGroupIds == MarkUnread(old(unreadGroupIds), groupId)
    {
      unreadGroupIds := MarkUnread(unreadGroupIds, groupId);
    }

    method MarkGroupAsRead(groupId: string)
      modifies this`unreadGroupIds
      ensures unreadGroupIds == MarkRead(old(unreadGroupIds), groupId)
    {
      unreadGroupIds := MarkRead(unreadGroupIds, groupId);
    }

    method AddMessage(m: ClientMessage)
      modifies this`selectedChatMessages
      ensures selectedChatMessages == WithMessage(old(selectedChatMessages), m)
    {
      selectedChatMessages := WithMessage(selectedChatMessages, m);
    }

    /** `me` is the signed-in user's id from the auth store; `now` is the time used when the message carries none. */
    method AddContactsInDMContacts(me: Option<string>, m: ClientMessage, now: string)
      modifies this`directMessagesContacts
      ensures directMessagesContacts == UpsertContact(old(directMessagesContacts), me, m, now)
    {
      directMessagesContacts := UpsertContact(directMessagesContacts, me, m, now);
    }

    /**
     * `updateGroupData`: the group list, the open group chat and the
     * sidebar profile with that id take the updates; new members replace
     * the open chat's member list.
     */
    method UpdateGroupData(groupId: string, u: GroupUpdate)
      modifies this`groups, this`selectedChatData, this`contactOrGroupProfile, this`selectedChatMembers
      ensures groups == UpdateGroups(old(groups), groupId, u)
      ensures selectedChatData ==
        (if old(selectedChatType) == Some("group") && old(selectedChatData).Some? && old(selectedChatData).value.id == groupId
         then Some(Merge(old(selectedChatData).value, u))
         else old(selectedChatData))
      ensures contactOrGroupProfile ==
        (if old(contactOrGroupProfile).Some? && old(contactOrGroupProfile).value.id == groupId
         then Some(Merge(old(contactOrGroupProfile).value, u))
         else old(contactOrGroupProfile))
      ensures selectedChatMembers == (if u.members.Some? then u.members.value else old(selectedChatMembers))
    {
      groups := UpdateGroups(groups, groupId, u);
      if selectedChatType == Some("group") && selectedChatData.Some? && selectedChatData.value.id == groupId {
        selectedChatData := Some(Merge(selectedChatData.value, u));
      }
      if contactOrGroupProfile.Some? && contactOrGroupProfile.value.id == groupId {
        contactOrGroupProfile := Some(Merge(contactOrGroupProfile.value, u));
      }
      if u.members.Some? {
        selectedChatMembers := u.members.value;
      }
    }

    method AddGroup(g: ChatData)
      modifies this`groups
      ensures groups == WithGroup(old(groups), g)
    {
      groups := WithGroup(groups, g);
    }

    method AddGroupInGroupList(groupId: string)
      modifies this`groups
      ensures groups == PromoteGroup(old(groups), groupId)
    {
      groups := PromoteGroup(groups, groupId);
    }

    method SortGroupList(g: ChatData)
      modifies this`groups
      ensures groups == GroupToFront(old(groups), g)
    {
      groups := GroupToFront(groups, g);
    }

    /** `addFriendRequestInFriendRequestsList`: the request joins the end of the list. */
    method AddFriendRequestInFriendRequestsList(card: RequestCard)
      modifies this`friendRequests
      ensures friendRequests == old(friendRequests) + [card]
    {
      friendRequests := friendRequests + [card];
    }

    /** `closeChat` */
    method CloseChat()
      modifies this`selectedChatType, this`selectedChatData, this`selectedChatMessages, this`selectedChatMembers
      ensures selectedChatType.None? && selectedChatData.None? && selectedChatMessages == [] && selectedChatMembers == []
    {
      selectedChatType := None;
      selectedChatData := None;
      selectedChatMessages := [];
      selectedChatMembers := [];
    }
  }
}
