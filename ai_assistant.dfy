/**
 * The AI assistant service: its configuration defaults, the model name the
 * generative API expects, the transcript it is sent (the latest messages of
 * the user's conversation with the assistant), the checks on what comes
 * back, and the memoised assistant account.
 */
module AiAssistant {
  import opened Common
  import opened Domain

  const DefaultAssistantEmail := "assistant@system.local"
  const DefaultModel := "gemini-1.5-flash-latest"
  const DefaultMaxTokens := 400
  const DefaultHistoryLimit := 12
  const ModelsPrefix := "models/"
  const NoUserMessagesError := "No user messages available for the assistant to reply to"
  const EmptyResponseError := "Assistant returned an empty response"

  // ---------------------------------------------------------------------
  // Configuration

  /** An environment variable read through `Number(...)`: unset, a finite number, or not a finite number. */
  datatype NumEnv = Unset | Finite(n: int) | NotFinite

  datatype AssistantConfig = AssistantConfig(
    email: string,
    model: string,
    /** `maxTokens` when it is a finite number; none when `Number` gave NaN or an infinity. */
    maxTokens: Option<int>,
    historyLimit: int)

  /**
   * `getAssistantConfig`: the text settings fall back on their defaults when
   * unset or empty; the numeric ones only when unset.
   */
  function ConfigFrom(email: string, model: string, maxTokens: NumEnv, historyLimit: Option<int>): (r: AssistantConfig)
    ensures r.email != "" && r.model != ""
    ensures email == "" ==> r.email == DefaultAssistantEmail
    ensures model == "" ==> r.model == DefaultModel
    ensures maxTokens.Unset? ==> r.maxTokens == Some(DefaultMaxTokens)
    ensures maxTokens.NotFinite? ==> r.maxTokens.None?
    ensures historyLimit.None? ==> r.historyLimit == DefaultHistoryLimit
  {
    AssistantConfig(
      OrElse(email, DefaultAssistantEmail),
      OrElse(model, DefaultModel),
      match maxTokens
        case Unset => Some(DefaultMaxTokens)
        case Finite(n) => Some(n)
        case NotFinite => None,
      match historyLimit
        case None => DefaultHistoryLimit
        case Some(n) => n)
  }

  /** The `maxOutputTokens` option: present only for a finite, positive limit. */
  function MaxOutputTokens(maxTokens: Option<int>): (r: Option<int>)
    ensures r.Some? <==> maxTokens.Some? && maxTokens.value > 0
    ensures r.Some? ==> r.value == maxTokens.value
  {
    if maxTokens.Some? && maxTokens.value > 0 then maxTokens else None
  }

  /** `resolveModelName`: the name with the `models/` prefix, which is added only when missing; "" passes through. */
  function ResolveModelName(name: string): (r: string)
    ensures name == "" ==> r == ""
    ensures name != "" ==> StartsWith(r, ModelsPrefix)
    ensures StartsWith(name, ModelsPrefix) ==> r == name
    ensures name != "" && !StartsWith(name, ModelsPrefix) ==> r == ModelsPrefix + name
  {
    if name == "" then name
    else if StartsWith(name, ModelsPrefix) then name
    else ModelsPrefix + name
  }

  /** Resolving a resolved name changes nothing. */
  lemma ResolveModelNameIdempotent(name: string)
    ensures ResolveModelName(ResolveModelName(name)) == ResolveModelName(name)
  {
    var r := ResolveModelName(name);
    if name != "" {
      assert StartsWith(r, ModelsPrefix);
    }
  }

  // ---------------------------------------------------------------------
  // The transcript

  datatype Role = UserRole | ModelRole
  datatype Turn = Turn(role: Role, text: string)

  /** The messages the transcript keeps: text messages with content. */
  predicate IsTextWithContent(m: Message) {
    m.messageType == "text" && m.content != ""
  }

  /** One message as a turn: the assistant's own messages are the model's, all others the user's. */
  function ToTurn(m: Message, assistantId: UserId): (t: Turn)
    ensures t.text == m.content
    ensures t.role == ModelRole <==> m.sender == assistantId
  {
    Turn(if m.sender == assistantId then ModelRole else UserRole, m.content)
  }

  /** `mapConversationToGemini` */
  function Transcript(conversation: seq<Message>, assistantId: UserId): (r: seq<Turn>)
    ensures |r| <= |conversation|
    ensures forall t :: t in r ==> t.text != ""
    ensures forall t :: t in r <==> exists m :: m in conversation && IsTextWithContent(m) && t == ToTurn(m, assistantId)
  {
    if conversation == [] then []
    else
      var head := if IsTextWithContent(conversation[0]) then [ToTurn(conversation[0], assistantId)] else [];
      var r := head + Transcript(conversation[1..], assistantId);
      assert forall m :: m in conversation <==> m == conversation[0] || m in conversation[1..];
      r
  }

  /** The transcript of two stretches of conversation is the two transcripts one after the other: order is kept. */
  lemma {:induction false} TranscriptAppend(c1: seq<Message>, c2: seq<Message>, assistantId: UserId)
    ensures Transcript(c1 + c2, assistantId) == Transcript(c1, assistantId) + Transcript(c2, assistantId)
  {
    if c1 != [] {
      assert (c1 + c2)[0] == c1[0];
      assert (c1 + c2)[1..] == c1[1..] + c2;
      TranscriptAppend(c1[1..], c2, assistantId);
    } else {
      assert c1 + c2 == c2;
    }
  }

  /** The messages between a user and the assistant, in either direction, in storage order. */
  function Thread(messages: seq<Message>, userId: UserId, assistantId: UserId): (r: seq<Message>)
    ensures forall m :: m in r <==> m in messages && ((m.sender == userId && m.recipient == assistantId) || (m.sender == assistantId && m.recipient == userId))
  {
    Keep(messages, (m: Message) => (m.sender == userId && m.recipient == assistantId) || (m.sender == assistantId && m.recipient == userId))
  }

  /**
   * The history as the service fetches it: the thread newest first, cut to
   * the limit, then turned back into chronological order.
   */
  function History(thread: seq<Message>, limit: int): seq<Message> {
    Reverse(Reverse(thread)[..LimitCount(limit, |thread|)])
  }

  /** The history is exactly the latest messages of the thread, oldest first. */
  lemma HistoryIsLatest(thread: seq<Message>, limit: int)
    ensures History(thread, limit) == thread[|thread| - LimitCount(limit, |thread|)..]
  {
    ReverseOfReversedPrefix(thread, LimitCount(limit, |thread|));
  }

  /** The user's latest text message to the assistant (`findOne(...).sort({timestamp: -1})`), content or not. */
  function LatestUserText(messages: seq<Message>, userId: UserId, assistantId: UserId): (r: Option<Message>)
    ensures r.Some? ==> r.value in messages && r.value.sender == userId && r.value.recipient == assistantId && r.value.messageType == "text"
    ensures r.None? ==> forall m :: m in messages ==> !(m.sender == userId && m.recipient == assistantId && m.messageType == "text")
  {
    if messages == [] then None
    else
      var m := messages[|messages| - 1];
      if m.sender == userId && m.recipient == assistantId && m.messageType == "text" then Some(m)
      else
        var r := LatestUserText(messages[..|messages| - 1], userId, assistantId);
        assert forall x :: x in messages ==> x == m || x in messages[..|messages| - 1];
        r
  }

  predicate HasUserTurn(contents: seq<Turn>) {
    exists t :: t in contents && t.role == UserRole
  }

  /** The turns sent for generation: the transcript, topped up with the latest user text when it has no user turn. */
  function Contents(messages: seq<Message>, userId: UserId, assistantId: UserId, historyLimit: int): seq<Turn> {
    var c := Transcript(History(Thread(messages, userId, assistantId), historyLimit), assistantId);
    if HasUserTurn(c) then c
    else match LatestUserText(messages, userId, assistantId)
      case Some(m) =>
        if m.content != "" then c + [Turn(UserRole, m.content)] else c
      case None => c
  }

  /**
   * The contents keep the transcript as their start, and end with a user
   * turn unless the transcript has none and no user text with content can
   * be found.
   */
  lemma ContentsShape(messages: seq<Message>, userId: UserId, assistantId: UserId, historyLimit: int)
    ensures var c := Transcript(History(Thread(messages, userId, assistantId), historyLimit), assistantId);
      var r := Contents(messages, userId, assistantId, historyLimit);
      var latest := LatestUserText(messages, userId, assistantId);
      |c| <= |r| <= |c| + 1 && r[..|c|] == c &&
      (HasUserTurn(r) <==> HasUserTurn(c) || (latest.Some? && latest.value.content != "")) &&
      (!HasUserTurn(c) && latest.Some? && latest.value.content != "" ==> r == c + [Turn(UserRole, latest.value.content)])
  {
    var c := Transcript(History(Thread(messages, userId, assistantId), historyLimit), assistantId);
    var latest := LatestUserText(messages, userId, assistantId);
    if !HasUserTurn(c) && latest.Some? && latest.value.content != "" {
      var r := c + [Turn(UserRole, latest.value.content)];
      assert r[|c|] in r;
    }
  }

  /** What `generateAssistantReply` ends in: one of its two errors, or the reply with the request that produced it. */
  datatype Generation =
    | NoUserMessages
    | EmptyResponse
    | Generated(contents: seq<Turn>, model: string, maxOutputTokens: Option<int>, reply: string)

  /**
   * `generateAssistantReply`. `response` is the text the generative API
   * returned, none when it returned no text.
   */
  function GenerateAssistantReply(messages: seq<Message>, userId: UserId, assistantId: UserId, cfg: AssistantConfig, response: Option<string>): (r: Generation)
    ensures r.NoUserMessages? <==> Contents(messages, userId, assistantId, cfg.historyLimit) == []
    ensures r.EmptyResponse? <==> Contents(messages, userId, assistantId, cfg.historyLimit) != [] && (response.None? || Trim(response.value) == "")
    ensures r.Generated? ==> r.contents != [] && r.reply != "" && r.reply == Trim(response.value)
    ensures r.Generated? ==> r.model == ResolveModelName(cfg.model) && r.maxOutputTokens == MaxOutputTokens(cfg.maxTokens)
  {
    var contents := Contents(messages, userId, assistantId, cfg.historyLimit);
    if contents == [] then NoUserMessages
    else if response.None? || Trim(response.value) == "" then EmptyResponse
    else Generated(contents, ResolveModelName(cfg.model), MaxOutputTokens(cfg.maxTokens), Trim(response.value))
  }

  /** A generated reply is already trimmed. */
  lemma GeneratedReplyIsTrimmed(messages: seq<Message>, userId: UserId, assistantId: UserId, cfg: AssistantConfig, response: Option<string>)
    requires GenerateAssistantReply(messages, userId, assistantId, cfg, response).Generated?
    ensures var g := GenerateAssistantReply(messages, userId, assistantId, cfg, response); Trim(g.reply) == g.reply
  {
    TrimIdempotent(response.value);
  }

  // ---------------------------------------------------------------------
  // The assistant account

  /** The user collection and the message collection, with the service's memo of the assistant account. */
  class AssistantStore {
    var users: seq<User>
    var messages: seq<Message>
    /** `cachedAssistant` */
    var cachedAssistant: Option<User>
    /** The id the next created message receives. */
    var nextId: nat

    constructor (users0: seq<User>, messages0: seq<Message>, nextId0: nat)
      ensures users == users0 && messages == messages0 && nextId == nextId0 && cachedAssistant.None?
    {
      users := users0;
      messages := messages0;
      nextId := nextId0;
      cachedAssistant := None;
    }

    /**
     * `ensureAiAssistantUser`: the memo when set; otherwise the account with
     * the configured address, created (under `freshId`) when there is none.
     * Either way the answer is memoised, so later calls return it unchanged.
     */
    method EnsureAiAssistantUser(email: string, freshId: UserId) returns (a: User)
      modifies this`users, this`cachedAssistant
      ensures cachedAssistant == Some(a)
      ensures old(cachedAssistant).Some? ==> a == old(cachedAssistant).value && users == old(users)
      ensures old(cachedAssistant).None? ==>
        match FindEmail(old(users), email)
        case Some(i) => a == old(users)[i] && users == old(users)
        case None => a == User(freshId, email, [], [], []) && users == old(users) + [a]
    {
      if cachedAssistant.Some? {
        return cachedAssistant.value;
      }
      var i := FindEmail(users, email);
      if i.Some? {
        a := users[i.value];
      } else {
        a := User(freshId, email, [], [], []);
        users := users + [a];
      }
      cachedAssistant := Some(a);
    }
  }
}
