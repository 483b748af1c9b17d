/**
 * What the two socket servers do that can be observed from outside: the
 * events they emit to sockets, the messages they store, the messages they
 * queue. Every handler appends to one effect log, so the order of emits and
 * writes is part of the model.
 *
 * The fan-out used by group messages, group creation and group calls, and
 * the three-tier reply of the AI assistant, are defined here once and used
 * by both servers.
 */
module Realtime {
  import opened Common
  import opened Domain

  /** The events a socket can receive, each with the payload fields the handlers set. */
  datatype Event =
    | ReceiveMessage(message: Message)
    | AssistantError(error: string)
    | ReceiveFriendRequest(requester: UserId)
    | ReceiveGroupMessage(message: Message, groupId: GroupId)
    | ReceiveGroupCreation(groupId: GroupId)
    | GroupInfoUpdated(groupId: GroupId, name: string, image: string)
    | CallIncoming(from: UserId, callId: string, callType: string)
    | CallBlocked(reason: string)
    | CallAccepted(from: UserId, callId: string)
    | CallRejected(from: UserId, callId: string)
    | CallEnded(from: UserId, callId: string)
    | GroupCallIncoming(groupId: GroupId, from: UserId, callType: string)
    | GroupCallEnded(groupId: GroupId)
    | NewPhotoUploaded(photoId: string)
    | PhotoLiked(photoId: string, userId: UserId)
    | PhotoUnliked(photoId: string, userId: UserId)
    | PhotoDeleted(photoId: string)

  /** One observable step: an emit to one socket, an emit to every socket, a database insert, a push onto `chat_queue`. */
  datatype Effect =
    | Emit(to: SocketId, event: Event)
    | Broadcast(event: Event)
    | Stored(message: Message)
    | Queued(message: Message)

  /** The event a direct-call handler relays. */
  datatype CallReply = Accept | Reject | End

  function CallReplyEvent(kind: CallReply, from: UserId, callId: string): Event {
    match kind
    case Accept => CallAccepted(from, callId)
    case Reject => CallRejected(from, callId)
    case End => CallEnded(from, callId)
  }

  // ---------------------------------------------------------------------
  // Registry lookups and fan-out

  /**
   * The socket a user resolves to in a registry whose keys are `prefix + id`
   * ("user:" in Redis, nothing in the in-memory map).
   */
  function Resolve(registry: map<string, SocketId>, prefix: string, user: UserId): Option<SocketId> {
    if prefix + user in registry then Some(registry[prefix + user]) else None
  }

  /** No two registry keys hold the same socket id (each connection registers one user). */
  predicate DistinctSockets(registry: map<string, SocketId>) {
    forall k1, k2 :: k1 in registry && k2 in registry && k1 != k2 ==> registry[k1] != registry[k2]
  }

  /** An emit of `e` to the socket of `user` if that user resolves, nothing otherwise. */
  function EmitTo(registry: map<string, SocketId>, prefix: string, user: UserId, e: Event): seq<Effect> {
    match Resolve(registry, prefix, user)
    case Some(s) => [Emit(s, e)]
    case None => []
  }

  /** One emit of `e` per member that resolves, in member order; offline members are skipped. */
  function FanOut(members: seq<UserId>, registry: map<string, SocketId>, prefix: string, e: Event): (r: seq<Effect>)
    ensures |r| <= |members|
    ensures forall x :: x in r ==> exists m :: m in members && prefix + m in registry && x == Emit(registry[prefix + m], e)
  {
    if members == [] then []
    else EmitTo(registry, prefix, members[0], e) + FanOut(members[1..], registry, prefix, e)
  }

  lemma FanOutAppend(members: seq<UserId>, m: UserId, registry: map<string, SocketId>, prefix: string, e: Event)
    ensures FanOut(members + [m], registry, prefix, e) == FanOut(members, registry, prefix, e) + EmitTo(registry, prefix, m, e)
  {
    if members != [] {
      assert (members + [m])[1..] == members[1..] + [m];
      FanOutAppend(members[1..], m, registry, prefix, e);
    } else {
      assert [m][1..] == [];
    }
  }

  lemma PrefixInjective(prefix: string, a: string, b: string)
    requires prefix + a == prefix + b
    ensures a == b
  {
    assert a == (prefix + a)[|prefix|..];
    assert b == (prefix + b)[|prefix|..];
  }

  /** A socket that no member resolves to receives nothing from a fan-out. */
  lemma {:induction false} FanOutMissesOthers(members: seq<UserId>, registry: map<string, SocketId>, prefix: string, e: Event, s: SocketId)
    requires forall m :: m in members && prefix + m in registry ==> registry[prefix + m] != s
    ensures Emit(s, e) !in FanOut(members, registry, prefix, e)
  {
  }

  /**
   * With distinct members and one user per socket, every member that
   * resolves receives exactly one copy of the event.
   */
  lemma {:induction false} FanOutExactlyOnce(members: seq<UserId>, registry: map<string, SocketId>, prefix: string, e: Event, m: UserId)
    requires NoDups(members) && DistinctSockets(registry)
    requires m in members && prefix + m in registry
    ensures multiset(FanOut(members, registry, prefix, e))[Emit(registry[prefix + m], e)] == 1
  {
    var s := registry[prefix + m];
    var tail := members[1..];
    assert NoDups(tail) by {
      forall i, j | 0 <= i < j < |tail| ensures tail[i] != tail[j] {
        assert tail[i] == members[i + 1] && tail[j] == members[j + 1];
      }
    }
    if members[0] == m {
      assert m !in tail;
      forall m' | m' in tail && prefix + m' in registry ensures registry[prefix + m'] != s {
        if prefix + m' == prefix + m {
          PrefixInjective(prefix, m', m);
        }
      }
      FanOutMissesOthers(tail, registry, prefix, e, s);
    } else {
      assert m in tail;
      FanOutExactlyOnce(tail, registry, prefix, e, m);
      if prefix + members[0] in registry {
        if prefix + members[0] == prefix + m {
          PrefixInjective(prefix, members[0], m);
        }
      }
    }
    assert FanOut(members, registry, prefix, e) == EmitTo(registry, prefix, members[0], e) + FanOut(tail, registry, prefix, e);
  }

  // ---------------------------------------------------------------------
  // The assistant's reply

  const TextOnlyNotice := "Hiện tại tôi chỉ đọc được tin nhắn dạng văn bản. Bạn thử mô tả nội dung bằng chữ nhé!"
  const ApologyText := "Xin lỗi, trợ lý AI đang gặp sự cố và chưa thể trả lời ngay lúc này."
  const AssistantUnavailable := "Assistant is unavailable"

  /**
   * What the outside world decides during one assistant reply: the text the
   * generator returned (none when it threw), and whether each of the two
   * inserts of an assistant message succeeds.
   */
  datatype ReplyFaults = ReplyFaults(generated: Option<string>, replyStored: bool, apologyStored: bool)

  /** How a reply attempt ends. */
  datatype ReplyTier =
    | NoReply                                  // not for the assistant, or nothing to send
    | Answer(assistant: UserId, text: string)  // the notice or the generated reply is stored and delivered
    | Apology(assistant: UserId)               // the first attempt failed; the apology is stored and delivered
    | Unavailable                              // both attempts failed; `assistantError` goes to the sender's socket

  /**
   * The tier reached by `maybeSendAssistantReply` for a message of type
   * `messageType` from `sender` to `recipient`, given the assistant's id
   * (none when looking it up throws).
   */
  function PlanReply(assistant: Option<UserId>, sender: UserId, recipient: UserId, messageType: string, f: ReplyFaults): ReplyTier {
    if assistant.None? then Unavailable
    else if recipient == "" || recipient != assistant.value then NoReply
    else
      match FirstTier(assistant.value, sender, FirstText(messageType, f), f.replyStored)
      case Some(tier) => tier
      case None => FallbackTier(assistant, sender, f)
  }

  /** What the first attempt sends: the notice for anything but text, else the generated reply (none when generation throws). */
  function FirstText(messageType: string, f: ReplyFaults): (r: Option<string>)
    ensures messageType != "text" ==> r == Some(TextOnlyNotice)
    ensures messageType == "text" ==> r == f.generated
  {
    if messageType != "text" then Some(TextOnlyNotice) else f.generated
  }

  /**
   * The tier the first attempt settles, or none when it fails and the
   * fallback decides: nothing to send for a missing sender or an empty
   * text, the answer when it is stored.
   */
  function FirstTier(assistant: UserId, sender: UserId, first: Option<string>, stored: bool): (r: Option<ReplyTier>)
    ensures r.None? <==> first.None? || (sender != "" && first.value != "" && !stored)
    ensures r.Some? ==> r.value == NoReply || r.value == Answer(assistant, first.value)
  {
    if first.Some? && (sender == "" || first.value == "") then Some(NoReply)
    else if first.Some? && stored then Some(Answer(assistant, first.value))
    else None
  }

  /**
   * The tier reached once the first attempt has failed (or the assistant
   * could not be looked up): the apology, nothing for a message without a
   * sender, or the error signal.
   */
  function FallbackTier(assistant: Option<UserId>, sender: UserId, f: ReplyFaults): (r: ReplyTier)
    ensures assistant.None? ==> r == Unavailable
    ensures r.Apology? <==> assistant.Some? && sender != "" && f.apologyStored
    ensures r.Apology? ==> r.assistant == assistant.value
    ensures r.NoReply? <==> assistant.Some? && sender == ""
    ensures !r.Answer?
  {
    if assistant.None? then Unavailable
    else if sender == "" then NoReply
    else if f.apologyStored then Apology(assistant.value)
    else Unavailable
  }

  /** A fan-out over a prefix of `members`, grown by one member. */
  lemma FanOutStep(members: seq<UserId>, i: nat, registry: map<string, SocketId>, prefix: string, e: Event)
    requires i < |members|
    ensures FanOut(members[..i + 1], registry, prefix, e) == FanOut(members[..i], registry, prefix, e) + EmitTo(registry, prefix, members[i], e)
  {
    assert members[..i + 1] == members[..i] + [members[i]];
    FanOutAppend(members[..i], members[i], registry, prefix, e);
  }

  /** A fan-out that skips `caller`, grown by one member: the caller adds nothing, anyone else their emit. */
  lemma FanOutExceptStep(members: seq<UserId>, i: nat, caller: UserId, registry: map<string, SocketId>, prefix: string, e: Event)
    requires i < |members|
    ensures FanOut(RemoveAll(members[..i + 1], caller), registry, prefix, e) ==
            FanOut(RemoveAll(members[..i], caller), registry, prefix, e) +
            (if members[i] == caller then [] else EmitTo(registry, prefix, members[i], e))
  {
    assert members[..i + 1] == members[..i] + [members[i]];
    RemoveAllAppend(members[..i], members[i], caller);
    if members[i] == caller {
      assert RemoveAll(members[..i + 1], caller) == RemoveAll(members[..i], caller);
    } else {
      FanOutAppend(RemoveAll(members[..i], caller), members[i], registry, prefix, e);
    }
  }

  /** A message to the assistant that is not text gets the fixed notice, and the generator plays no part. */
  lemma NonTextGetsNotice(a: UserId, sender: UserId, messageType: string, f: ReplyFaults, g: Option<string>)
    requires a != "" && sender != "" && messageType != "text" && f.replyStored
    ensures PlanReply(Some(a), sender, a, messageType, f) == Answer(a, TextOnlyNotice)
    ensures PlanReply(Some(a), sender, a, messageType, f) == PlanReply(Some(a), sender, a, messageType, f.(generated := g))
  {
  }

  /** A text message to the assistant is answered with the generated reply when that reply is stored. */
  lemma TextGetsGeneratedReply(a: UserId, sender: UserId, f: ReplyFaults)
    requires a != "" && sender != "" && f.generated.Some? && f.generated.value != "" && f.replyStored
    ensures PlanReply(Some(a), sender, a, "text", f) == Answer(a, f.generated.value)
  {
  }

  /** A generation error falls back to the apology, and to `assistantError` when the apology cannot be stored either. */
  lemma GenerationErrorFallsBack(a: UserId, sender: UserId, f: ReplyFaults)
    requires a != "" && sender != "" && f.generated.None?
    ensures PlanReply(Some(a), sender, a, "text", f) == (if f.apologyStored then Apology(a) else Unavailable)
  {
  }

  /** Messages not addressed to the assistant never produce a reply. */
  lemma OnlyAssistantReplies(a: UserId, sender: UserId, recipient: UserId, messageType: string, f: ReplyFaults)
    requires recipient != a
    ensures PlanReply(Some(a), sender, recipient, messageType, f) == NoReply
  {
  }

  /** The message `createAssistantMessage` stores: text from the assistant to `recipient`. */
  function AssistantMessage(id: nat, assistant: UserId, recipient: UserId, text: string, now: int): Message {
    Message(id, assistant, recipient, "text", text, "", now)
  }

  /** The assistant messages a tier stores: one for an answer or an apology, none otherwise. */
  function ReplyStored(tier: ReplyTier, id: nat, sender: UserId, now: int): (r: seq<Message>)
    ensures |r| <= 1
    ensures |r| == 1 <==> tier.Answer? || tier.Apology?
  {
    match tier
    case Answer(a, t) => [AssistantMessage(id, a, sender, t, now)]
    case Apology(a) => [AssistantMessage(id, a, sender, ApologyText, now)]
    case _ => []
  }

  /** The effects of a reply tier: the stored assistant message and its delivery, or the error signal. */
  function ReplyEffects(tier: ReplyTier, id: nat, sender: UserId, target: Option<SocketId>, senderSocket: Option<SocketId>, now: int): seq<Effect> {
    match tier
    case NoReply => []
    case Unavailable =>
      if senderSocket.Some? then [Emit(senderSocket.value, AssistantError(AssistantUnavailable))] else []
    case _ =>
      var m := ReplyStored(tier, id, sender, now)[0];
      [Stored(m)] + (if target.Some? then [Emit(target.value, ReceiveMessage(m))] else [])
  }

  /** A direct message as a client sends it. */
  datatype Outgoing = Outgoing(sender: UserId, recipient: UserId, messageType: string, content: string, fileUrl: string)

  /** The stored form of an outgoing direct message. */
  function Payload(m: Outgoing, id: nat, now: int): Message {
    Message(id, m.sender, m.recipient, m.messageType, m.content, m.fileUrl, now)
  }

  /** A group message as a client sends it. */
  datatype GroupOutgoing = GroupOutgoing(groupId: GroupId, sender: UserId, content: string, messageType: string, fileUrl: string)

  /** The snapshot a group keeps of a message: content, type, timestamp and file URL, and nothing else. */
  function Snapshot(m: Message): (r: LastMessage)
    ensures r.content == m.content && r.messageType == m.messageType
    ensures r.timestamp == m.timestamp && r.fileUrl == m.fileUrl
  {
    LastMessage(m.content, m.messageType, m.timestamp, m.fileUrl)
  }

  /** The group after a message is posted to it: the id pushed onto its messages, the snapshot set. */
  function PostToGroup(g: Group, m: Message): (r: Group)
    ensures r.messages == g.messages + [m.id] && r.lastMessage == Some(Snapshot(m))
    ensures r.members == g.members && r.admin == g.admin && r.name == g.name && r.image == g.image && r.id == g.id
  {
    g.(messages := g.messages + [m.id], lastMessage := Some(Snapshot(m)))
  }
}
