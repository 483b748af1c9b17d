/**
 * The assistant endpoints: the preview of the latest message shown on the
 * assistant's profile, and the request that makes the assistant answer.
 */
module AiController {
  import opened Common
  import opened Domain
  import opened AiAssistant

  const MessageIdRequired := "messageId is required to trigger the assistant"
  const MessageNotFound := "Message not found"
  const UnableToTrigger := "Unable to trigger assistant reply"

  /** The preview fields merged into the assistant's profile. */
  datatype Preview = Preview(lastMessageType: string, lastMessage: string, lastMessageTime: int)

  /** `buildPreviewFromLastMessage`: none for no message; a text shows its content, anything else its file. */
  function BuildPreview(last: Option<Message>): (r: Option<Preview>)
    ensures r.None? <==> last.None?
    ensures r.Some? ==> r.value.lastMessageType == last.value.messageType && r.value.lastMessageTime == last.value.timestamp
    ensures r.Some? ==> r.value.lastMessage == (if last.value.messageType == "text" then last.value.content else last.value.fileUrl)
  {
    match last
    case None => None
    case Some(m) => Some(Preview(m.messageType, if m.messageType == "text" then m.content else m.fileUrl, m.timestamp))
  }

  /** The newest message of a sequence in storage order. */
  function Latest(s: seq<Message>): (r: Option<Message>)
    ensures r.None? <==> s == []
    ensures r.Some? ==> r.value == s[|s| - 1]
  {
    if s == [] then None else Some(s[|s| - 1])
  }

  /** `getAssistantProfile`'s preview: the newest message exchanged with the assistant, either way. */
  function AssistantPreview(messages: seq<Message>, userId: UserId, assistantId: UserId): (r: Option<Preview>)
    ensures r.None? <==> forall m :: m in messages ==> !((m.sender == userId && m.recipient == assistantId) || (m.sender == assistantId && m.recipient == userId))
  {
    var t := Thread(messages, userId, assistantId);
    assert t != [] ==> t[0] in t;
    BuildPreview(Latest(t))
  }

  /** Index of the message with this id (`findById`). */
  function FindMessage(messages: seq<Message>, id: nat): (r: Option<nat>)
    ensures r.Some? ==> r.value < |messages| && messages[r.value].id == id
    ensures r.None? ==> forall k :: 0 <= k < |messages| ==> messages[k].id != id
  {
    FirstIndex(messages, (m: Message) => m.id == id)
  }

  /** The message the assistant's answer is stored as: text, from the assistant to the requester. */
  function ReplyMessage(id: nat, assistantId: UserId, userId: UserId, reply: string, now: int): (m: Message)
    ensures m.sender == assistantId && m.recipient == userId && m.messageType == "text" && m.content == reply
  {
    Message(id, assistantId, userId, "text", reply, "", now)
  }

  /**
   * A stored answer becomes a model turn in the next transcript: the
   * assistant sees its own earlier replies as its own.
   */
  lemma StoredReplyIsModelTurn(messages: seq<Message>, userId: UserId, assistantId: UserId, cfg: AssistantConfig, response: Option<string>, id: nat, now: int)
    requires GenerateAssistantReply(messages, userId, assistantId, cfg, response).Generated?
    ensures var g := GenerateAssistantReply(messages, userId, assistantId, cfg, response);
      Transcript([ReplyMessage(id, assistantId, userId, g.reply, now)], assistantId) == [Turn(ModelRole, g.reply)]
  {
    var g := GenerateAssistantReply(messages, userId, assistantId, cfg, response);
    var m := ReplyMessage(id, assistantId, userId, g.reply, now);
    assert [m][1..] == [];
  }

  /**
   * `triggerAssistantReply`. The assistant account is ensured first, even
   * for a request that is then refused. `response` is what the generative
   * API answered; a failed generation is a server error and stores nothing.
   * Message ids are numbers here, so a malformed id, which makes the
   * source's lookup throw and answer 500, has no counterpart: every id
   * given is either found or answered with 404.
   */
  method TriggerAssistantReply(store: AssistantStore, userId: UserId, messageId: Option<nat>, cfg: AssistantConfig,
                               freshId: UserId, response: Option<string>, now: int) returns (reply: Reply, created: Option<Message>)
    modifies store
    ensures store.cachedAssistant.Some?
    ensures old(store.cachedAssistant).Some? ==> store.cachedAssistant == old(store.cachedAssistant) && store.users == old(store.users)
    ensures old(store.cachedAssistant).None? ==>
      match FindEmail(old(store.users), cfg.email)
      case Some(i) => store.cachedAssistant == Some(old(store.users)[i]) && store.users == old(store.users)
      case None =>
        store.cachedAssistant == Some(User(freshId, cfg.email, [], [], [])) &&
        store.users == old(store.users) + [User(freshId, cfg.email, [], [], [])]
    ensures var a := store.cachedAssistant.value;
      if messageId.None? then
        reply == Reply(400, MessageIdRequired) && created.None? && store.messages == old(store.messages) && store.nextId == old(store.nextId)
      else if FindMessage(old(store.messages), messageId.value).None? then
        reply == Reply(404, MessageNotFound) && created.None? && store.messages == old(store.messages) && store.nextId == old(store.nextId)
      else
        match GenerateAssistantReply(old(store.messages), userId, a.id, cfg, response)
        case Generated(_, _, _, text) =>
          var m := ReplyMessage(old(store.nextId), a.id, userId, text, now);
          reply == Reply(201, "") && created == Some(m) &&
          store.messages == old(store.messages) + [m] && store.nextId == old(store.nextId) + 1
        case _ =>
          reply == Reply(500, UnableToTrigger) && created.None? &&
          store.messages == old(store.messages) && store.nextId == old(store.nextId)
  {
    var a := store.EnsureAiAssistantUser(cfg.email, freshId);
    if messageId.None? {
      return Reply(400, MessageIdRequired), None;
    }
    var found := FindMessage(store.messages, messageId.value);
    if found.None? {
      return Reply(404, MessageNotFound), None;
    }
    var g := GenerateAssistantReply(store.messages, userId, a.id, cfg, response);
    if !g.Generated? {
      return Reply(500, UnableToTrigger), None;
    }
    var m := ReplyMessage(store.nextId, a.id, userId, g.reply, now);
    store.messages := store.messages + [m];
    store.nextId := store.nextId + 1;
    return Reply(201, ""), Some(m);
  }
}
