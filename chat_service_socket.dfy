/**
 * The chat microservice's socket server: the user→socket registry lives in
 * Redis under the keys `user:<id>`, direct messages between people are
 * delivered first and queued on `chat_queue` for a worker to store later,
 * and messages to the AI assistant are stored at once and answered.
 *
 * The Redis store, the message and group collections and the effect log are
 * fields of one object; every handler is a method that runs to completion
 * (the interleaving of awaits between handlers is not modelled).
 */
module ChatServiceSocket {
  import opened Common
  import opened Domain
  import opened Realtime

  const UserKeyPrefix := "user:"

  /** The Redis key that holds a user's socket id. */
  function UserKey(user: UserId): (k: string)
    ensures |k| == |UserKeyPrefix| + |user| && k[..|UserKeyPrefix|] == UserKeyPrefix
  {
    UserKeyPrefix + user
  }

  /** Different users never share a Redis key. */
  lemma UserKeyInjective(a: UserId, b: UserId)
    ensures UserKey(a) == UserKey(b) <==> a == b
  {
    if UserKey(a) == UserKey(b) {
      PrefixInjective(UserKeyPrefix, a, b);
    }
  }

  /** An accepted socket: its id, and the user id from the handshake ("" when none was sent). */
  datatype Connection = Connection(id: SocketId, userId: UserId)

  /** The Redis store after a connection: a user id overwrites its key with the new socket id. */
  function AfterConnect(redis: map<string, SocketId>, c: Connection): (r: map<string, SocketId>)
    ensures c.userId != "" ==> Resolve(r, UserKeyPrefix, c.userId) == Some(c.id)
    ensures c.userId != "" ==> forall k :: k != UserKey(c.userId) ==> (k in r <==> k in redis) && (k in r ==> r[k] == redis[k])
    ensures c.userId == "" ==> r == redis
  {
    if c.userId != "" then redis[UserKey(c.userId) := c.id] else redis
  }

  /** The Redis store after a disconnect: the key goes only if it still holds this socket's id. */
  function AfterDisconnect(redis: map<string, SocketId>, c: Connection): (r: map<string, SocketId>)
    ensures c.userId != "" && Resolve(redis, UserKeyPrefix, c.userId) == Some(c.id) ==> r == redis - {UserKey(c.userId)}
    ensures !(c.userId != "" && Resolve(redis, UserKeyPrefix, c.userId) == Some(c.id)) ==> r == redis
  {
    if c.userId != "" && UserKey(c.userId) in redis && redis[UserKey(c.userId)] == c.id
    then redis - {UserKey(c.userId)}
    else redis
  }

  /**
   * A user who opened a second tab keeps it registered when the first tab
   * closes: the stale disconnect leaves the newer entry in place.
   */
  lemma StaleDisconnectKeepsNewer(redis: map<string, SocketId>, older: Connection, newer: Connection)
    requires older.userId == newer.userId && newer.userId != "" && older.id != newer.id
    ensures AfterDisconnect(AfterConnect(redis, newer), older) == AfterConnect(redis, newer)
    ensures Resolve(AfterDisconnect(AfterConnect(redis, newer), older), UserKeyPrefix, newer.userId) == Some(newer.id)
  {
  }

  /** Closing the socket that is registered removes the user from the registry. */
  lemma DisconnectOfCurrentRemoves(redis: map<string, SocketId>, c: Connection)
    requires c.userId != ""
    ensures Resolve(AfterDisconnect(AfterConnect(redis, c), c), UserKeyPrefix, c.userId).None?
  {
  }

  /** A fresh socket id keeps every socket id in the registry held by at most one user. */
  lemma ConnectKeepsDistinct(redis: map<string, SocketId>, c: Connection)
    requires DistinctSockets(redis) && c.id !in redis.Values
    ensures DistinctSockets(AfterConnect(redis, c))
  {
  }

  /** The checks `sendMessage` makes before anything else: a type, text with content, a file with a URL. */
  predicate Admissible(m: Outgoing) {
    m.messageType != ""
    && !(m.messageType == "text" && m.content == "")
    && !(m.messageType == "file" && m.fileUrl == "")
  }

  /** A message that passes validation and whose sender and recipient are both known users. */
  predicate Accepted(users: seq<User>, m: Outgoing) {
    Admissible(m) && FindUser(users, m.sender).Some? && FindUser(users, m.recipient).Some?
  }

  lemma AdmissibleCases(m: Outgoing)
    ensures !Admissible(m) <==> m.messageType == "" || (m.messageType == "text" && m.content == "") || (m.messageType == "file" && m.fileUrl == "")
  {
  }

  /** The receiveMessage emits of a direct message between people: recipient first, then sender, each only if online. */
  function DirectEmits(redis: map<string, SocketId>, p: Message): seq<Effect> {
    EmitTo(redis, UserKeyPrefix, p.recipient, ReceiveMessage(p)) + EmitTo(redis, UserKeyPrefix, p.sender, ReceiveMessage(p))
  }

  /** Whether a message goes to the assistant (a failed assistant lookup counts as "no"). */
  predicate ToAssistant(assistant: Option<UserId>, m: Outgoing) {
    assistant.Some? && m.recipient == assistant.value
  }

  /** The assistant after `getAssistantUser`: the memo if set, else the fresh lookup. */
  function Memo(cache: Option<UserId>, ensure: Option<UserId>): Option<UserId> {
    if cache.Some? then cache else ensure
  }

  class ChatServer {
    /** Redis strings: `user:<id>` → socket id. */
    var redis: map<string, SocketId>
    /** The Redis list `chat_queue`, head first. */
    var chatQueue: seq<Message>
    /** The Message collection. */
    var messages: seq<Message>
    var groups: seq<Group>
    var users: seq<User>
    /** Everything emitted, stored or queued, in order. */
    var log: seq<Effect>
    /** The resolved `assistantUserPromise`. */
    var assistantUser: Option<UserId>
    /** The id the next created message receives. */
    var nextId: nat

    constructor (users: seq<User>, groups: seq<Group>)
      ensures this.users == users && this.groups == groups
      ensures redis == map[] && chatQueue == [] && messages == [] && log == [] && assistantUser.None? && nextId == 0
    {
      this.users := users;
      this.groups := groups;
      redis := map[];
      chatQueue := [];
      messages := [];
      log := [];
      assistantUser := None;
      nextId := 0;
    }

    /** The socket a user resolves to (`pubClient.get(getUserKey(id))`). */
    function Lookup(user: UserId): Option<SocketId>
      reads this
    {
      Resolve(redis, UserKeyPrefix, user)
    }

    /** `getAssistantUser`: the memoised assistant; a failed lookup is not memoised. */
    method GetAssistantUser(ensure: Option<UserId>) returns (a: Option<UserId>)
      modifies this`assistantUser
      ensures a == Memo(old(assistantUser), ensure) && assistantUser == a
    {
      if assistantUser.None? {
        assistantUser := ensure;
      }
      a := assistantUser;
    }

    /** The `connection` handler: a handshake user id overwrites `user:<id>`; none leaves Redis alone. */
    method Connect(c: Connection)
      modifies this`redis
      ensures redis == AfterConnect(old(redis), c)
    {
      if c.userId != "" {
        redis := redis[UserKey(c.userId) := c.id];
      }
    }

    /** The `disconnect` handler: delete `user:<id>` only if it still holds this socket's id. */
    method Disconnect(c: Connection)
      modifies this`redis
      ensures redis == AfterDisconnect(old(redis), c)
    {
      if c.userId != "" {
        var key := UserKey(c.userId);
        if key in redis && redis[key] == c.id {
          redis := redis - {key};
        }
      }
    }

    /**
     * `createAssistantMessage`: nothing happens without an assistant, a
     * recipient or content; otherwise the message is stored (when the insert
     * succeeds) and delivered to the recipient's socket if known.
     */
    method CreateAssistantMessage(assistant: Option<UserId>, recipient: UserId, content: string,
                                  recipientSocket: Option<SocketId>, now: int, stored: bool)
      returns (ok: bool)
      modifies this`messages, this`log, this`nextId
      ensures assistant.None? || recipient == "" || content == "" ==>
        ok && messages == old(messages) && log == old(log) && nextId == old(nextId)
      ensures assistant.Some? && recipient != "" && content != "" && !stored ==>
        !ok && messages == old(messages) && log == old(log) && nextId == old(nextId)
      ensures assistant.Some? && recipient != "" && content != "" && stored ==>
        var m := AssistantMessage(old(nextId), assistant.value, recipient, content, now);
        ok && messages == old(messages) + [m] && nextId == old(nextId) + 1
        && log == old(log) + [Stored(m)] + (if recipientSocket.Some? then [Emit(recipientSocket.value, ReceiveMessage(m))] else [])
    {
      if assistant.None? || recipient == "" || content == "" {
        return true;
      }
      if !stored {
        return false;
      }
      var m := AssistantMessage(nextId, assistant.value, recipient, content, now);
      messages := messages + [m];
      nextId := nextId + 1;
      log := log + [Stored(m)];
      if recipientSocket.Some? {
        log := log + [Emit(recipientSocket.value, ReceiveMessage(m))];
      }
      ok := true;
    }

    /**
     * `maybeSendAssistantReply`: the notice for a non-text message, the
     * generated reply for text, the apology when that fails, and
     * `assistantError` to the sender's socket when the apology fails too.
     */
    method MaybeSendAssistantReply(m: Message, senderSocket: Option<SocketId>, now: int, ensure: Option<UserId>, f: ReplyFaults)
      modifies this`messages, this`log, this`nextId, this`assistantUser
      ensures assistantUser == Memo(old(assistantUser), ensure)
      ensures var tier := PlanReply(Memo(old(assistantUser), ensure), m.sender, m.recipient, m.messageType, f);
        var target := Resolve(redis, UserKeyPrefix, m.sender);
        messages == old(messages) + ReplyStored(tier, old(nextId), m.sender, now)
        && nextId == old(nextId) + |ReplyStored(tier, old(nextId), m.sender, now)|
        && log == old(log) + ReplyEffects(tier, old(nextId), m.sender, target, senderSocket, now)
    {
      var a := GetAssistantUser(ensure);
      if a.None? {
        Apologise(m, senderSocket, now, ensure, f);
        return;
      }
      if m.recipient == "" || m.recipient != a.value {
        return;
      }
      var ok := FirstAttempt(a.value, m, FirstText(m.messageType, f), senderSocket, now, f.replyStored);
      if !ok {
        Apologise(m, senderSocket, now, ensure, f);
      }
    }

    /** The first tier: `first`, when there is one, stored as the assistant's reply and delivered to the sender's socket. */
    method FirstAttempt(a: UserId, m: Message, first: Option<string>, senderSocket: Option<SocketId>, now: int, stored: bool)
      returns (ok: bool)
      modifies this`messages, this`log, this`nextId
      ensures ok <==> FirstTier(a, m.sender, first, stored).Some?
      ensures !ok ==> messages == old(messages) && log == old(log) && nextId == old(nextId)
      ensures ok ==> var tier := FirstTier(a, m.sender, first, stored).value;
        messages == old(messages) + ReplyStored(tier, old(nextId), m.sender, now)
        && nextId == old(nextId) + |ReplyStored(tier, old(nextId), m.sender, now)|
        && log == old(log) + ReplyEffects(tier, old(nextId), m.sender, Resolve(redis, UserKeyPrefix, m.sender), senderSocket, now)
    {
      ok := false;
      if first.Some? {
        var target := Lookup(m.sender);
        ok := CreateAssistantMessage(Some(a), m.sender, first.value, target, now, stored);
      }
    }

    /** The second tier: the apology, or `assistantError` to the sender's socket when that cannot be stored either. */
    method Apologise(m: Message, senderSocket: Option<SocketId>, now: int, ensure: Option<UserId>, f: ReplyFaults)
      modifies this`messages, this`log, this`nextId, this`assistantUser
      ensures assistantUser == Memo(old(assistantUser), ensure)
      ensures var tier := FallbackTier(Memo(old(assistantUser), ensure), m.sender, f);
        messages == old(messages) + ReplyStored(tier, old(nextId), m.sender, now)
        && nextId == old(nextId) + |ReplyStored(tier, old(nextId), m.sender, now)|
        && log == old(log) + ReplyEffects(tier, old(nextId), m.sender, Resolve(redis, UserKeyPrefix, m.sender), senderSocket, now)
    {
      var a := GetAssistantUser(ensure);
      var innerOk := false;
      if a.Some? {
        var fallback := Lookup(m.sender);
        innerOk := CreateAssistantMessage(a, m.sender, ApologyText, fallback, now, f.apologyStored);
      }
      if !innerOk && senderSocket.Some? {
        log := log + [Emit(senderSocket.value, AssistantError(AssistantUnavailable))];
      }
    }

    /**
     * `sendMessage`. Inadmissible messages and messages between unknown users
     * are dropped. A message to the assistant is emitted to the sender only,
     * stored at once and answered; it is never queued, and when storing it
     * fails (`stored` false) the error is caught and nothing more happens. A message between
     * people is emitted to the recipient and the sender (each if online) and
     * then pushed exactly once onto `chat_queue`; it is not stored here.
     */
    method SendMessage(msg: Outgoing, now: int, ensure: Option<UserId>, stored: bool, f: ReplyFaults)
      modifies this`messages, this`log, this`nextId, this`assistantUser, this`chatQueue
      ensures redis == old(redis) && users == old(users) && groups == old(groups)
      ensures assistantUser == Memo(old(assistantUser), ensure)
      ensures !Accepted(users, msg) ==>
        log == old(log) && chatQueue == old(chatQueue) && messages == old(messages) && nextId == old(nextId)
      ensures Accepted(users, msg) && !ToAssistant(Memo(old(assistantUser), ensure), msg) ==>
        var p := Payload(msg, old(nextId), now);
        log == old(log) + DirectEmits(redis, p) + [Queued(p)]
        && chatQueue == old(chatQueue) + [p] && messages == old(messages) && nextId == old(nextId) + 1
      ensures Accepted(users, msg) && ToAssistant(Memo(old(assistantUser), ensure), msg) ==>
        var p := Payload(msg, old(nextId), now);
        var tier := PlanReply(Memo(old(assistantUser), ensure), msg.sender, msg.recipient, msg.messageType, f);
        var senderSocket := Resolve(redis, UserKeyPrefix, msg.sender);
        chatQueue == old(chatQueue) &&
        (stored ==>
           log == old(log) + EmitTo(redis, UserKeyPrefix, msg.sender, ReceiveMessage(p)) + [Stored(p)]
                  + ReplyEffects(tier, old(nextId) + 1, msg.sender, senderSocket, senderSocket, now)
           && messages == old(messages) + [p] + ReplyStored(tier, old(nextId) + 1, msg.sender, now)
           && nextId == old(nextId) + 1 + |ReplyStored(tier, old(nextId) + 1, msg.sender, now)|) &&
        (!stored ==>
           log == old(log) + EmitTo(redis, UserKeyPrefix, msg.sender, ReceiveMessage(p))
           && messages == old(messages) && nextId == old(nextId) + 1)
    {
      var assistant := GetAssistantUser(ensure);
      if !Accepted(users, msg) { return; }
      var p := Payload(msg, nextId, now);
      nextId := nextId + 1;
      if assistant.Some? && msg.recipient == assistant.value {
        StoreAndAnswer(p, now, ensure, stored, f);
      } else {
        DeliverAndQueue(p);
      }
    }

    /** A message between people: sent to whichever of the two is online, then queued once for the worker. */
    method DeliverAndQueue(p: Message)
      modifies this`log, this`chatQueue
      ensures log == old(log) + DirectEmits(redis, p) + [Queued(p)]
      ensures chatQueue == old(chatQueue) + [p]
    {
      var recipientSocket := Lookup(p.recipient);
      var senderSocket := Lookup(p.sender);
      if recipientSocket.Some? {
        log := log + [Emit(recipientSocket.value, ReceiveMessage(p))];
      }
      if senderSocket.Some? {
        log := log + [Emit(senderSocket.value, ReceiveMessage(p))];
      }
      chatQueue := chatQueue + [p];
      log := log + [Queued(p)];
    }

    /**
     * A message to the assistant: echoed to the sender, stored at once, never
     * queued, then answered. A failed insert stops after the echo.
     */
    method StoreAndAnswer(p: Message, now: int, ensure: Option<UserId>, stored: bool, f: ReplyFaults)
      modifies this`messages, this`log, this`nextId, this`assistantUser
      ensures assistantUser == (if stored then Memo(old(assistantUser), ensure) else old(assistantUser))
      ensures !stored ==>
        log == old(log) + EmitTo(redis, UserKeyPrefix, p.sender, ReceiveMessage(p)) &&
        messages == old(messages) && nextId == old(nextId)
      ensures stored ==>
        var tier := PlanReply(Memo(old(assistantUser), ensure), p.sender, p.recipient, p.messageType, f);
        var senderSocket := Resolve(redis, UserKeyPrefix, p.sender);
        log == old(log) + EmitTo(redis, UserKeyPrefix, p.sender, ReceiveMessage(p)) + [Stored(p)]
               + ReplyEffects(tier, old(nextId), p.sender, senderSocket, senderSocket, now)
        && messages == old(messages) + [p] + ReplyStored(tier, old(nextId), p.sender, now)
        && nextId == old(nextId) + |ReplyStored(tier, old(nextId), p.sender, now)|
    {
      var senderSocket := Lookup(p.sender);
      if senderSocket.Some? {
        log := log + [Emit(senderSocket.value, ReceiveMessage(p))];
      }
      if !stored {
        return;
      }
      messages := messages + [p];
      log := log + [Stored(p)];
      MaybeSendAssistantReply(p, senderSocket, now, ensure, f);
    }

    /** `sendFriendRequest`: the request goes to the target's socket if the target is online. */
    method SendFriendRequest(target: UserId, requester: UserId)
      modifies this`log
      ensures log == old(log) + EmitTo(redis, UserKeyPrefix, target, ReceiveFriendRequest(requester))
    {
      var sid := Lookup(target);
      if sid.Some? {
        log := log + [Emit(sid.value, ReceiveFriendRequest(requester))];
      }
    }

    /** Emits `e` to every member that resolves, in member order. */
    method NotifyMembers(members: seq<UserId>, e: Event)
      modifies this`log
      ensures log == old(log) + FanOut(members, redis, UserKeyPrefix, e)
    {
      var sent: seq<Effect> := [];
      var i := 0;
      while i < |members|
        invariant 0 <= i <= |members|
        invariant log == old(log)
        invariant sent == FanOut(members[..i], redis, UserKeyPrefix, e)
      {
        FanOutStep(members, i, redis, UserKeyPrefix, e);
        var sid := Lookup(members[i]);
        if sid.Some? {
          sent := sent + [Emit(sid.value, e)];
        }
        i := i + 1;
      }
      assert members[..|members|] == members;
      log := log + sent;
    }

    /**
     * `sendGroupMessage`: the message is stored with no recipient, the group
     * records its id and a snapshot of it, and every member that is online
     * receives it once. For an unknown group the message is stored and
     * nothing else happens (reading `group._id` throws).
     */
    method SendGroupMessage(gm: GroupOutgoing, now: int)
      modifies this`messages, this`log, this`nextId, this`groups
      ensures var m := Message(old(nextId), gm.sender, "", gm.messageType, gm.content, gm.fileUrl, now);
        messages == old(messages) + [m] && nextId == old(nextId) + 1
        && match FindGroup(old(groups), gm.groupId)
           case None => groups == old(groups) && log == old(log) + [Stored(m)]
           case Some(k) =>
             groups == old(groups)[k := PostToGroup(old(groups)[k], m)]
             && log == old(log) + [Stored(m)] + FanOut(old(groups)[k].members, redis, UserKeyPrefix, ReceiveGroupMessage(m, gm.groupId))
    {
      var m := Message(nextId, gm.sender, "", gm.messageType, gm.content, gm.fileUrl, now);
      messages := messages + [m];
      nextId := nextId + 1;
      log := log + [Stored(m)];
      var k := FindGroup(groups, gm.groupId);
      if k.Some? {
        groups := groups[k.value := PostToGroup(groups[k.value], m)];
        NotifyMembers(groups[k.value].members, ReceiveGroupMessage(m, gm.groupId));
      }
    }

    /** `createGroup` event: every listed member that is online learns of the new group. */
    method CreateGroupEvent(groupId: GroupId, members: seq<UserId>)
      modifies this`log
      ensures log == old(log) + FanOut(members, redis, UserKeyPrefix, ReceiveGroupCreation(groupId))
    {
      NotifyMembers(members, ReceiveGroupCreation(groupId));
    }

    /**
     * `call:offer`: incomplete offers and unknown users are ignored; if either
     * side has blocked the other the caller's own socket gets `call:blocked`
     * and nothing is relayed; otherwise the callee's socket, if any, gets
     * `call:incoming`.
     */
    method CallOffer(c: Connection, to: UserId, callId: string, callType: string)
      modifies this`log
      ensures to == "" || callId == "" || callType == "" || FindUser(users, c.userId).None? || FindUser(users, to).None? ==>
        log == old(log)
      ensures to != "" && callId != "" && callType != "" && FindUser(users, c.userId).Some? && FindUser(users, to).Some? ==>
        var caller := users[FindUser(users, c.userId).value];
        var callee := users[FindUser(users, to).value];
        if to in caller.blockedUsers || c.userId in callee.blockedUsers
        then log == old(log) + [Emit(c.id, CallBlocked("Cannot call this user"))]
        else log == old(log) + EmitTo(redis, UserKeyPrefix, to, CallIncoming(c.userId, callId, callType))
    {
      if to == "" || callId == "" || callType == "" { return; }
      var caller := FindUser(users, c.userId);
      var callee := FindUser(users, to);
      if caller.None? || callee.None? { return; }
      if to in users[caller.value].blockedUsers || c.userId in users[callee.value].blockedUsers {
        log := log + [Emit(c.id, CallBlocked("Cannot call this user"))];
        return;
      }
      var sid := Lookup(to);
      if sid.Some? {
        log := log + [Emit(sid.value, CallIncoming(c.userId, callId, callType))];
      }
    }

    /** `group:call:offer`: every online member except the caller gets `group:call:incoming`. */
    method GroupCallOffer(c: Connection, groupId: GroupId, callType: string)
      modifies this`log
      ensures match FindGroup(groups, groupId)
        case None => log == old(log)
        case Some(k) => log == old(log) + FanOut(RemoveAll(groups[k].members, c.userId), redis, UserKeyPrefix,
                                                 GroupCallIncoming(groupId, c.userId, callType))
    {
      var k := FindGroup(groups, groupId);
      if k.None? { return; }
      var members := groups[k.value].members;
      var e := GroupCallIncoming(groupId, c.userId, callType);
      var sent: seq<Effect> := [];
      var i := 0;
      while i < |members|
        invariant 0 <= i <= |members|
        invariant log == old(log)
        invariant sent == FanOut(RemoveAll(members[..i], c.userId), redis, UserKeyPrefix, e)
      {
        FanOutExceptStep(members, i, c.userId, redis, UserKeyPrefix, e);
        if members[i] != c.userId {
          var sid := Lookup(members[i]);
          if sid.Some? {
            sent := sent + [Emit(sid.value, e)];
          }
        }
        i := i + 1;
      }
      assert members[..|members|] == members;
      log := log + sent;
    }

    /** `group:call:end`: every online member gets `group:call:ended`. */
    method GroupCallEnd(groupId: GroupId)
      modifies this`log
      ensures match FindGroup(groups, groupId)
        case None => log == old(log)
        case Some(k) => log == old(log) + FanOut(groups[k].members, redis, UserKeyPrefix, GroupCallEnded(groupId))
    {
      var k := FindGroup(groups, groupId);
      if k.Some? {
        NotifyMembers(groups[k.value].members, GroupCallEnded(groupId));
      }
    }

    /** `call:accept`, `call:reject` and `call:end`: relayed to the peer's socket when complete and the peer is online. */
    method CallReplyRelay(c: Connection, kind: CallReply, to: UserId, callId: string)
      modifies this`log
      ensures to == "" || callId == "" ==> log == old(log)
      ensures to != "" && callId != "" ==> log == old(log) + EmitTo(redis, UserKeyPrefix, to, CallReplyEvent(kind, c.userId, callId))
    {
      if to == "" || callId == "" { return; }
      var sid := Lookup(to);
      if sid.Some? {
        log := log + [Emit(sid.value, CallReplyEvent(kind, c.userId, callId))];
      }
    }

    /** The photo events are broadcast to every connected socket. */
    method PhotoEvent(e: Event)
      requires e.NewPhotoUploaded? || e.PhotoLiked? || e.PhotoUnliked? || e.PhotoDeleted?
      modifies this`log
      ensures log == old(log) + [Broadcast(e)]
    {
      log := log + [Broadcast(e)];
    }
  }

  /**
   * A group call offer never rings the caller: with one user per socket, no
   * `group:call:incoming` of the fan-out goes to the caller's own socket.
   */
  lemma GroupCallSkipsCaller(members: seq<UserId>, redis: map<string, SocketId>, caller: UserId, e: Event)
    requires DistinctSockets(redis) && UserKey(caller) in redis
    ensures Emit(redis[UserKey(caller)], e) !in FanOut(RemoveAll(members, caller), redis, UserKeyPrefix, e)
  {
    var rest := RemoveAll(members, caller);
    forall m | m in rest && UserKeyPrefix + m in redis ensures redis[UserKeyPrefix + m] != redis[UserKey(caller)] {
      UserKeyInjective(m, caller);
    }
    FanOutMissesOthers(rest, redis, UserKeyPrefix, e, redis[UserKey(caller)]);
  }
}
