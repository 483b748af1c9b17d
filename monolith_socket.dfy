/**
 * The monolith's socket server. The user→socket registry is an in-memory
 * JavaScript `Map`, kept here as its entry list in insertion order (setting
 * an existing key keeps its place). Direct messages are stored first and
 * delivered afterwards; there is no queue and no validation of the message.
 */
module MonolithSocket {
  import opened Common
  import opened Domain
  import opened Realtime

  /** One entry of `userSocketMap`. */
  datatype Entry = Entry(user: UserId, socket: SocketId)

  predicate UniqueUsers(entries: seq<Entry>) {
    forall i, j :: 0 <= i < j < |entries| ==> entries[i].user != entries[j].user
  }

  /** Position of a user's entry. */
  function IndexOf(entries: seq<Entry>, user: UserId): (r: Option<nat>)
    ensures r.Some? ==> r.value < |entries| && entries[r.value].user == user
    ensures r.Some? ==> forall k :: 0 <= k < r.value ==> entries[k].user != user
    ensures r.None? ==> forall k :: 0 <= k < |entries| ==> entries[k].user != user
  {
    FirstIndex(entries, (e: Entry) => e.user == user)
  }

  /** `userSocketMap.get(user)`. */
  function Get(entries: seq<Entry>, user: UserId): Option<SocketId> {
    match IndexOf(entries, user)
    case None => None
    case Some(k) => Some(entries[k].socket)
  }

  /** The entries as a map, for the shared fan-out definitions (the map's keys carry no prefix). */
  function AsMap(entries: seq<Entry>): map<string, SocketId> {
    if entries == [] then map[] else AsMap(entries[1..])[entries[0].user := entries[0].socket]
  }

  lemma {:induction false} AsMapResolves(entries: seq<Entry>, user: UserId)
    ensures Resolve(AsMap(entries), "", user) == Get(entries, user)
  {
    assert "" + user == user;
    if entries != [] && entries[0].user != user {
      AsMapResolves(entries[1..], user);
    }
  }

  /** The position of the first entry whose socket is `socket`. */
  function FirstWithSocket(entries: seq<Entry>, socket: SocketId): (r: Option<nat>)
    ensures r.Some? ==> r.value < |entries| && entries[r.value].socket == socket
    ensures r.Some? ==> forall k :: 0 <= k < r.value ==> entries[k].socket != socket
    ensures r.None? ==> forall k :: 0 <= k < |entries| ==> entries[k].socket != socket
  {
    FirstIndex(entries, (e: Entry) => e.socket == socket)
  }

  /** Replacing a user's entry in place changes that user's socket and nobody else's. */
  lemma {:induction false} GetAfterReplace(entries: seq<Entry>, i: nat, user: UserId, socket: SocketId, other: UserId)
    requires IndexOf(entries, user) == Some(i)
    ensures Get(entries[i := Entry(user, socket)], other) == if other == user then Some(socket) else Get(entries, other)
  {
    if i > 0 {
      assert entries[i := Entry(user, socket)][1..] == entries[1..][i - 1 := Entry(user, socket)];
      GetAfterReplace(entries[1..], i - 1, user, socket, other);
    }
  }

  /** Appending an entry for a new user gives that user the socket and changes nobody else's. */
  lemma {:induction false} GetAfterAppend(entries: seq<Entry>, user: UserId, socket: SocketId, other: UserId)
    requires IndexOf(entries, user).None?
    ensures Get(entries + [Entry(user, socket)], other) == if other == user then Some(socket) else Get(entries, other)
  {
    if entries != [] {
      assert (entries + [Entry(user, socket)])[1..] == entries[1..] + [Entry(user, socket)];
      GetAfterAppend(entries[1..], user, socket, other);
    }
  }

  /** The entries after `userSocketMap.set(user, socket)`. */
  function SetEntry(entries: seq<Entry>, user: UserId, socket: SocketId): (r: seq<Entry>)
    ensures Get(r, user) == Some(socket)
    ensures forall other :: other != user ==> Get(r, other) == Get(entries, other)
    ensures |r| == |entries| + (if IndexOf(entries, user).None? then 1 else 0)
    ensures UniqueUsers(entries) ==> UniqueUsers(r)
  {
    match IndexOf(entries, user)
    case Some(i) =>
      var r := entries[i := Entry(user, socket)];
      forall other ensures Get(r, other) == if other == user then Some(socket) else Get(entries, other) {
        GetAfterReplace(entries, i, user, socket, other);
      }
      r
    case None =>
      var r := entries + [Entry(user, socket)];
      forall other ensures Get(r, other) == if other == user then Some(socket) else Get(entries, other) {
        GetAfterAppend(entries, user, socket, other);
      }
      r
  }

  /** Setting an existing user keeps every entry's position. */
  lemma SetKeepsOrder(entries: seq<Entry>, user: UserId, socket: SocketId)
    requires IndexOf(entries, user).Some?
    ensures |SetEntry(entries, user, socket)| == |entries|
    ensures forall k :: 0 <= k < |entries| ==> SetEntry(entries, user, socket)[k].user == entries[k].user
  {
  }

  /** Removing one entry keeps the users unique. */
  lemma RemoveAtUnique(entries: seq<Entry>, i: nat)
    requires UniqueUsers(entries) && i < |entries|
    ensures UniqueUsers(entries[..i] + entries[i + 1..])
  {
    var r := entries[..i] + entries[i + 1..];
    forall a, b | 0 <= a < b < |r| ensures r[a].user != r[b].user {
      var a' := if a < i then a else a + 1;
      var b' := if b < i then b else b + 1;
      assert r[a] == entries[a'] && r[b] == entries[b'];
    }
  }

  /**
   * With one entry per socket, a disconnect leaves no entry for that socket;
   * in any case it removes at most one entry.
   */
  lemma DisconnectRemovesAtMostOne(entries: seq<Entry>, socket: SocketId)
    requires FirstWithSocket(entries, socket).Some?
    ensures var i := FirstWithSocket(entries, socket).value;
      |entries[..i] + entries[i + 1..]| == |entries| - 1
    ensures (forall a, b :: 0 <= a < b < |entries| ==> entries[a].socket != entries[b].socket) ==>
      var i := FirstWithSocket(entries, socket).value;
      FirstWithSocket(entries[..i] + entries[i + 1..], socket).None?
  {
    var i := FirstWithSocket(entries, socket).value;
    var r := entries[..i] + entries[i + 1..];
    if forall a, b :: 0 <= a < b < |entries| ==> entries[a].socket != entries[b].socket {
      forall k | 0 <= k < |r| ensures r[k].socket != socket {
        if k < i {
          assert r[k] == entries[k];
        } else {
          assert r[k] == entries[k + 1];
        }
      }
    }
  }

  class MonolithServer {
    /** `userSocketMap`, in insertion order. */
    var entries: seq<Entry>
    /** The Message collection. */
    var messages: seq<Message>
    var groups: seq<Group>
    /** Everything emitted or stored, in order. */
    var log: seq<Effect>
    /** The resolved `assistantUserPromise`. */
    var assistantUser: Option<UserId>
    var nextId: nat

    constructor (groups: seq<Group>)
      ensures this.groups == groups && entries == [] && messages == [] && log == [] && assistantUser.None? && nextId == 0
    {
      this.groups := groups;
      entries := [];
      messages := [];
      log := [];
      assistantUser := None;
      nextId := 0;
    }

    function Lookup(user: UserId): Option<SocketId>
      reads this
    {
      Get(entries, user)
    }

    /** The `connection` handler: a user id overwrites the map entry; none leaves the map as it is. */
    method Connect(userId: UserId, socket: SocketId)
      modifies this`entries
      ensures userId != "" ==> entries == SetEntry(old(entries), userId, socket)
      ensures userId == "" ==> entries == old(entries)
    {
      if userId != "" {
        entries := SetEntry(entries, userId, socket);
      }
    }

    /** The `disconnect` handler: scan the entries and delete the first one holding this socket, then stop. */
    method Disconnect(socket: SocketId)
      modifies this`entries
      ensures match FirstWithSocket(old(entries), socket)
        case None => entries == old(entries)
        case Some(i) => entries == old(entries)[..i] + old(entries)[i + 1..]
      ensures UniqueUsers(old(entries)) ==> UniqueUsers(entries)
    {
      var i := 0;
      while i < |entries|
        invariant 0 <= i <= |entries| && entries == old(entries)
        invariant forall k :: 0 <= k < i ==> entries[k].socket != socket
      {
        if entries[i].socket == socket {
          assert FirstWithSocket(entries, socket) == Some(i);
          if UniqueUsers(entries) {
            RemoveAtUnique(entries, i);
          }
          entries := entries[..i] + entries[i + 1..];
          return;
        }
        i := i + 1;
      }
    }

    method GetAssistantUser(ensure: Option<UserId>) returns (a: Option<UserId>)
      modifies this`assistantUser
      ensures a == (if old(assistantUser).Some? then old(assistantUser) else ensure) && assistantUser == a
    {
      if assistantUser.None? {
        assistantUser := ensure;
      }
      a := assistantUser;
    }

    /** `createAssistantMessage`: a no-op without assistant, recipient or content; else store, then deliver if online. */
    method CreateAssistantMessage(assistant: Option<UserId>, recipient: UserId, content: string,
                                  recipientSocket: Option<SocketId>, now: int, stored: bool)
      returns (ok: bool)
      modifies this`messages, this`log, this`nextId
      ensures assistant.None? || recipient == "" || content == "" ==>
        ok && messages == old(messages) && log == old(log) && nextId == old(nextId)
      ensures assistant.Some? && recipient != "" && content != "" && !stored ==>
        !ok && messages == old(messages) && log == old(log) && nextId == old(nextId)
      ensures assistant.Some? && recipient != "" && content != "" && stored ==>
        var m := AssistantMessage(old(nextId), assistant.value, recipient, content, now);
        ok && messages == old(messages) + [m] && nextId == old(nextId) + 1
        && log == old(log) + [Stored(m)] + (if recipientSocket.Some? then [Emit(recipientSocket.value, ReceiveMessage(m))] else [])
    {
      if assistant.None? || recipient == "" || content == "" {
        return true;
      }
      if !stored {
        return false;
      }
      var m := AssistantMessage(nextId, assistant.value, recipient, content, now);
      messages := messages + [m];
      nextId := nextId + 1;
      log := log + [Stored(m)];
      if recipientSocket.Some? {
        log := log + [Emit(recipientSocket.value, ReceiveMessage(m))];
      }
      ok := true;
    }

    /** `maybeSendAssistantReply`, with the same three tiers as the chat service. */
    method MaybeSendAssistantReply(m: Message, senderSocket: Option<SocketId>, now: int, ensure: Option<UserId>, f: ReplyFaults)
      modifies this`messages, this`log, this`nextId, this`assistantUser
      ensures var a := if old(assistantUser).Some? then old(assistantUser) else ensure;
        var tier := PlanReply(a, m.sender, m.recipient, m.messageType, f);
        assistantUser == a
        && messages == old(messages) + ReplyStored(tier, old(nextId), m.sender, now)
        && nextId == old(nextId) + |ReplyStored(tier, old(nextId), m.sender, now)|
        && log == old(log) + ReplyEffects(tier, old(nextId), m.sender, Get(entries, m.sender), senderSocket, now)
    {
      var a := GetAssistantUser(ensure);
      if a.None? {
        Apologise(m, senderSocket, now, ensure, f);
        return;
      }
      if m.recipient == "" || m.recipient != a.value {
        return;
      }
      var ok := FirstAttempt(a.value, m, FirstText(m.messageType, f), senderSocket, now, f.replyStored);
      if !ok {
        Apologise(m, senderSocket, now, ensure, f);
      }
    }

    /** The first tier: `first`, when there is one, stored as the assistant's reply and delivered to the sender's socket. */
    method FirstAttempt(a: UserId, m: Message, first: Option<string>, senderSocket: Option<SocketId>, now: int, stored: bool)
      returns (ok: bool)
      modifies this`messages, this`log, this`nextId
      ensures ok <==> FirstTier(a, m.sender, first, stored).Some?
      ensures !ok ==> messages == old(messages) && log == old(log) && nextId == old(nextId)
      ensures ok ==> var tier := FirstTier(a, m.sender, first, stored).value;
        messages == old(messages) + ReplyStored(tier, old(nextId), m.sender, now)
        && nextId == old(nextId) + |ReplyStored(tier, old(nextId), m.sender, now)|
        && log == old(log) + ReplyEffects(tier, old(nextId), m.sender, Get(entries, m.sender), senderSocket, now)
    {
      ok := false;
      if first.Some? {
        var target := Lookup(m.sender);
        ok := CreateAssistantMessage(Some(a), m.sender, first.value, target, now, stored);
      }
    }

    /** The second tier: the apology, or `assistantError` to the sender's socket when that cannot be stored either. */
    method Apologise(m: Message, senderSocket: Option<SocketId>, now: int, ensure: Option<UserId>, f: ReplyFaults)
      modifies this`messages, this`log, this`nextId, this`assistantUser
      ensures var a := if old(assistantUser).Some? then old(assistantUser) else ensure;
        var tier := FallbackTier(a, m.sender, f);
        assistantUser == a
        && messages == old(messages) + ReplyStored(tier, old(nextId), m.sender, now)
        && nextId == old(nextId) + |ReplyStored(tier, old(nextId), m.sender, now)|
        && log == old(log) + ReplyEffects(tier, old(nextId), m.sender, Get(entries, m.sender), senderSocket, now)
    {
      var a := GetAssistantUser(ensure);
      var innerOk := false;
      if a.Some? {
        var fallback := Lookup(m.sender);
        innerOk := CreateAssistantMessage(a, m.sender, ApologyText, fallback, now, f.apologyStored);
      }
      if !innerOk && senderSocket.Some? {
        log := log + [Emit(senderSocket.value, AssistantError(AssistantUnavailable))];
      }
    }

    /**
     * `sendMessage`. A message to the assistant is stored, then emitted to
     * the sender only, then answered. Any other message is stored and read
     * back before it is emitted to the recipient and then the sender, each
     * only if mapped. Two cases throw before anything is stored or emitted:
     * a missing recipient (`""`) once the assistant exists, whose
     * `toString()` fails, and a failed insert (`stored` false).
     */
    method SendMessage(msg: Outgoing, now: int, ensure: Option<UserId>, stored: bool, f: ReplyFaults)
      modifies this`messages, this`log, this`nextId, this`assistantUser
      ensures var a := if old(assistantUser).Some? then old(assistantUser) else ensure;
        var p := Payload(msg, old(nextId), now);
        assistantUser == a
        && if (a.Some? && msg.recipient == "") || !stored then
             log == old(log) && messages == old(messages) && nextId == old(nextId)
           else if a.Some? && msg.recipient == a.value then
             var tier := PlanReply(a, msg.sender, msg.recipient, msg.messageType, f);
             var senderSocket := Get(entries, msg.sender);
             log == old(log) + [Stored(p)]
                    + (if senderSocket.Some? then [Emit(senderSocket.value, ReceiveMessage(p))] else [])
                    + ReplyEffects(tier, old(nextId) + 1, msg.sender, senderSocket, senderSocket, now)
             && messages == old(messages) + [p] + ReplyStored(tier, old(nextId) + 1, msg.sender, now)
             && nextId == old(nextId) + 1 + |ReplyStored(tier, old(nextId) + 1, msg.sender, now)|
           else
             log == old(log) + [Stored(p)]
                    + EmitTo(AsMap(entries), "", msg.recipient, ReceiveMessage(p))
                    + EmitTo(AsMap(entries), "", msg.sender, ReceiveMessage(p))
             && messages == old(messages) + [p] && nextId == old(nextId) + 1
    {
      var assistant := GetAssistantUser(ensure);
      if (assistant.Some? && msg.recipient == "") || !stored {
        return;
      }
      var p := Payload(msg, nextId, now);
      nextId := nextId + 1;
      if assistant.Some? && msg.recipient == assistant.value {
        StoreAndAnswer(p, now, ensure, f);
      } else {
        StoreAndDeliver(p);
      }
    }

    /** A message between people: stored, then emitted to the recipient and then the sender, each only if mapped. */
    method StoreAndDeliver(p: Message)
      modifies this`messages, this`log
      ensures messages == old(messages) + [p]
      ensures log == old(log) + [Stored(p)]
                     + EmitTo(AsMap(entries), "", p.recipient, ReceiveMessage(p))
                     + EmitTo(AsMap(entries), "", p.sender, ReceiveMessage(p))
    {
      var senderSocket := Lookup(p.sender);
      var recipientSocket := Lookup(p.recipient);
      messages := messages + [p];
      log := log + [Stored(p)];
      AsMapResolves(entries, p.recipient);
      AsMapResolves(entries, p.sender);
      if recipientSocket.Some? {
        log := log + [Emit(recipientSocket.value, ReceiveMessage(p))];
      }
      if senderSocket.Some? {
        log := log + [Emit(senderSocket.value, ReceiveMessage(p))];
      }
    }

    /** A message to the assistant: stored, emitted to the sender only if mapped, then answered. */
    method StoreAndAnswer(p: Message, now: int, ensure: Option<UserId>, f: ReplyFaults)
      modifies this`messages, this`log, this`nextId, this`assistantUser
      ensures assistantUser == (if old(assistantUser).Some? then old(assistantUser) else ensure)
      ensures var tier := PlanReply(assistantUser, p.sender, p.recipient, p.messageType, f);
        var senderSocket := Get(entries, p.sender);
        log == old(log) + [Stored(p)]
               + (if senderSocket.Some? then [Emit(senderSocket.value, ReceiveMessage(p))] else [])
               + ReplyEffects(tier, old(nextId), p.sender, senderSocket, senderSocket, now)
        && messages == old(messages) + [p] + ReplyStored(tier, old(nextId), p.sender, now)
        && nextId == old(nextId) + |ReplyStored(tier, old(nextId), p.sender, now)|
    {
      var senderSocket := Lookup(p.sender);
      messages := messages + [p];
      log := log + [Stored(p)];
      if senderSocket.Some? {
        log := log + [Emit(senderSocket.value, ReceiveMessage(p))];
      }
      MaybeSendAssistantReply(p, senderSocket, now, ensure, f);
    }

    /** `sendFriendRequest`: delivered to the target if mapped. */
    method SendFriendRequest(target: UserId, requester: UserId)
      modifies this`log
      ensures log == old(log) + EmitTo(AsMap(entries), "", target, ReceiveFriendRequest(requester))
    {
      AsMapResolves(entries, target);
      var sid := Lookup(target);
      if sid.Some? {
        log := log + [Emit(sid.value, ReceiveFriendRequest(requester))];
      }
    }

    /** The `forEach` fan-out: emit `e` to each mapped member in order. */
    method NotifyMembers(members: seq<UserId>, e: Event)
      modifies this`log
      ensures log == old(log) + FanOut(members, AsMap(entries), "", e)
    {
      var sent: seq<Effect> := [];
      var i := 0;
      while i < |members|
        invariant 0 <= i <= |members|
        invariant log == old(log)
        invariant sent == FanOut(members[..i], AsMap(entries), "", e)
      {
        FanOutStep(members, i, AsMap(entries), "", e);
        AsMapResolves(entries, members[i]);
        var sid := Lookup(members[i]);
        if sid.Some? {
          sent := sent + [Emit(sid.value, e)];
        }
        i := i + 1;
      }
      assert members[..|members|] == members;
      log := log + sent;
    }

    /** `sendGroupMessage`: store, record on the group, then one emit per mapped member. */
    method SendGroupMessage(gm: GroupOutgoing, now: int)
      modifies this`messages, this`log, this`nextId, this`groups
      ensures var m := Message(old(nextId), gm.sender, "", gm.messageType, gm.content, gm.fileUrl, now);
        messages == old(messages) + [m] && nextId == old(nextId) + 1
        && match FindGroup(old(groups), gm.groupId)
           case None => groups == old(groups) && log == old(log) + [Stored(m)]
           case Some(k) =>
             groups == old(groups)[k := PostToGroup(old(groups)[k], m)]
             && log == old(log) + [Stored(m)] + FanOut(old(groups)[k].members, AsMap(entries), "", ReceiveGroupMessage(m, gm.groupId))
    {
      var m := Message(nextId, gm.sender, "", gm.messageType, gm.content, gm.fileUrl, now);
      messages := messages + [m];
      nextId := nextId + 1;
      log := log + [Stored(m)];
      var k := FindGroup(groups, gm.groupId);
      if k.Some? {
        groups := groups[k.value := PostToGroup(groups[k.value], m)];
        NotifyMembers(groups[k.value].members, ReceiveGroupMessage(m, gm.groupId));
      }
    }

    /** `createGroup` event: each mapped member learns of the group. */
    method CreateGroup(groupId: GroupId, members: seq<UserId>)
      modifies this`log
      ensures log == old(log) + FanOut(members, AsMap(entries), "", ReceiveGroupCreation(groupId))
    {
      NotifyMembers(members, ReceiveGroupCreation(groupId));
    }

    /** `call:offer`: relayed to the callee if mapped; this server does not look at blocks. */
    method CallOffer(userId: UserId, to: UserId, callId: string, callType: string)
      modifies this`log
      ensures to == "" || callId == "" || callType == "" ==> log == old(log)
      ensures to != "" && callId != "" && callType != "" ==>
        log == old(log) + EmitTo(AsMap(entries), "", to, CallIncoming(userId, callId, callType))
    {
      if to == "" || callId == "" || callType == "" { return; }
      AsMapResolves(entries, to);
      var sid := Lookup(to);
      if sid.Some? {
        log := log + [Emit(sid.value, CallIncoming(userId, callId, callType))];
      }
    }

    /** `group:call:offer`: every mapped member except the caller. */
    method GroupCallOffer(userId: UserId, groupId: GroupId, callType: string)
      modifies this`log
      ensures match FindGroup(groups, groupId)
        case None => log == old(log)
        case Some(k) => log == old(log) + FanOut(RemoveAll(groups[k].members, userId), AsMap(entries), "",
                                                 GroupCallIncoming(groupId, userId, callType))
    {
      var k := FindGroup(groups, groupId);
      if k.None? { return; }
      NotifyMembers(RemoveAll(groups[k.value].members, userId), GroupCallIncoming(groupId, userId, callType));
    }

    /** `group:call:end`: every mapped member. */
    method GroupCallEnd(groupId: GroupId)
      modifies this`log
      ensures match FindGroup(groups, groupId)
        case None => log == old(log)
        case Some(k) => log == old(log) + FanOut(groups[k].members, AsMap(entries), "", GroupCallEnded(groupId))
    {
      var k := FindGroup(groups, groupId);
      if k.Some? {
        NotifyMembers(groups[k.value].members, GroupCallEnded(groupId));
      }
    }

    /** `call:accept`, `call:reject`, `call:end`: relayed to the peer when complete and mapped. */
    method CallReplyRelay(userId: UserId, kind: CallReply, to: UserId, callId: string)
      modifies this`log
      ensures to == "" || callId == "" ==> log == old(log)
      ensures to != "" && callId != "" ==> log == old(log) + EmitTo(AsMap(entries), "", to, CallReplyEvent(kind, userId, callId))
    {
      if to == "" || callId == "" { return; }
      AsMapResolves(entries, to);
      var sid := Lookup(to);
      if sid.Some? {
        log := log + [Emit(sid.value, CallReplyEvent(kind, userId, callId))];
      }
    }

    /** `photoUploaded`: each mapped friend of the owner, when the owner's friend list is present. */
    method PhotoUploaded(photoId: string, ownerFriends: Option<seq<UserId>>)
      modifies this`log
      ensures ownerFriends.None? ==> log == old(log)
      ensures ownerFriends.Some? ==> log == old(log) + FanOut(ownerFriends.value, AsMap(entries), "", NewPhotoUploaded(photoId))
    {
      if ownerFriends.Some? {
        NotifyMembers(ownerFriends.value, NewPhotoUploaded(photoId));
      }
    }

    /** `photoLiked` and `photoUnliked`: the photo's owner, if mapped. */
    method PhotoLikeChanged(e: Event, ownerId: UserId)
      requires e.PhotoLiked? || e.PhotoUnliked?
      modifies this`log
      ensures log == old(log) + EmitTo(AsMap(entries), "", ownerId, e)
    {
      AsMapResolves(entries, ownerId);
      var sid := Lookup(ownerId);
      if sid.Some? {
        log := log + [Emit(sid.value, e)];
      }
    }

    /** `photoDeleted`: each mapped friend listed in the event (none when the list is missing). */
    method PhotoDeleted(photoId: string, friends: Option<seq<UserId>>)
      modifies this`log
      ensures log == old(log) + FanOut(if friends.Some? then friends.value else [], AsMap(entries), "", Realtime.PhotoDeleted(photoId))
    {
      var contacts := if friends.Some? then friends.value else [];
      NotifyMembers(contacts, Realtime.PhotoDeleted(photoId));
    }
  }
}
