# Real-time chat core, modelled in Dafny

This project models the core of a chat application. The application has a
monolithic Node/Express server and a set of microservices: an API gateway,
an auth/user service, a chat service, and a media/AI service. It also has a
React client with Zustand stores.

What the model covers:

- **The socket servers.**
  - They keep a user → socket registry: the chat service in Redis under the keys `user:<id>`, the monolith in an in-memory `Map`.
  - They fan events out to whichever members are online and relay call signalling.
  - They route direct messages: queued for a worker in the chat service, stored first in the monolith.
  - They answer messages sent to the AI assistant, with a three-step fall-back.
- **The server-side rules.**
  - Blocking conflicts inside groups.
  - Group membership edits.
  - Block lists, friend requests and unfriending.
  - The resend-verification rate limiter.
  - The chat worker's batch drain.
  - Assistant transcript building.
  - Photo likes and feed pagination.
- **The client.**
  - The chat, call and photo stores.
  - The socket event handlers.
  - Room naming for calls.
  - Chat-list previews, in-chat search, the profile panel and the music player.
- **Configuration.**
  - CORS origin lists and checks, in four copies.
  - Authentication cookie options.

How things are represented:

- Databases, Redis and sockets are fields holding sequences and maps.
- Everything a handler emits, stores or queues is appended to an effect log.
- Time, randomness and the outcomes of external calls (database failures, the generative API, HTTP answers) are parameters.
- Some source files exist twice, as a monolith copy and a microservice copy, with the same logic. Each such pair is modelled once, and its rows cite one of the copies.

Every module is one Dafny file. Shared sequence and string helpers are in
`common.dfy` (module `Common`). The stored documents are in `domain.dfy`,
and the event and fan-out vocabulary shared by both socket servers is in
`realtime.dfy`.

## Model

| member | source | states |
|---|---|---|
| Realtime.FanOut | services/chat-service/socket.js:337-345 | a group fan-out emits at most one event per member, and only to sockets that members resolve to |
| Realtime.FanOutAppend | services/chat-service/socket.js:339-344 | the loop visits members in order: one more member adds only that member's emit, at the end |
| Realtime.FanOutMissesOthers | services/chat-service/socket.js:339-344 | a socket that no member resolves to never receives the event |
| Realtime.FanOutExactlyOnce | services/chat-service/socket.js:339-344 | with distinct members and one user per socket, every online member receives exactly one copy |
| Realtime.NonTextGetsNotice | services/chat-service/socket.js:111-120 | a non-text message to the assistant is answered with the fixed text-only notice, whatever the generator would say |
| Realtime.TextGetsGeneratedReply | services/chat-service/socket.js:122-133 | a text message to the assistant is answered with the generated reply |
| Realtime.GenerationErrorFallsBack | services/chat-service/socket.js:134-156 | a generation error leads to the apology, and to `assistantError` when the apology cannot be stored either |
| Realtime.FirstTier | services/chat-service/socket.js:111-133 | the first attempt settles the reply unless its text is missing, or it has a sender and text but could not be stored; when it settles, it sends nothing or the answer with exactly that text |
| Realtime.FallbackTier | services/chat-service/socket.js:134-156 | without an assistant the error signal; the apology exactly when there is an assistant, a sender and the apology could be stored; nothing exactly for a message without a sender; never an answer |
| Realtime.OnlyAssistantReplies | services/chat-service/socket.js:100-106 | a message not addressed to the assistant never gets a reply |
| Realtime.ReplyStored | services/chat-service/socket.js:77-86 | an answer or an apology stores exactly one assistant message; the other outcomes store none |
| Realtime.Snapshot | services/chat-service/socket.js:324-329 | a group's last-message snapshot holds exactly the content, type, timestamp and file URL |
| Realtime.PostToGroup | services/chat-service/socket.js:330-333 | posting pushes the message id and sets the snapshot, and leaves the members, admin, name and image alone |
| ChatServiceSocket.UserKey | services/chat-service/socket.js:29 | a user's Redis key is `user:` followed by the id |
| ChatServiceSocket.UserKeyInjective | services/chat-service/socket.js:29 | two users share a key exactly when they are the same user |
| ChatServiceSocket.AfterConnect | services/chat-service/socket.js:360-368 | a handshake user id overwrites its own key with the new socket id and leaves every other key alone; no user id leaves Redis unchanged |
| ChatServiceSocket.AfterDisconnect | services/chat-service/socket.js:51-68 | the key is deleted exactly when it still holds this socket's id; otherwise Redis is unchanged |
| ChatServiceSocket.StaleDisconnectKeepsNewer | services/chat-service/socket.js:57-63 | when an older tab closes after a newer one connected, the newer socket stays registered |
| ChatServiceSocket.DisconnectOfCurrentRemoves | services/chat-service/socket.js:60-63 | closing the registered socket takes the user offline |
| ChatServiceSocket.ConnectKeepsDistinct | services/chat-service/socket.js:360-368 | registering a fresh socket keeps every socket id held by at most one user |
| ChatServiceSocket.AdmissibleCases | services/chat-service/socket.js:202-204 | a message is dropped exactly when it has no type, is text without content, or is a file without a URL |
| ChatServiceSocket.ChatServer.constructor | services/chat-service/socket.js:31-35 | a new server starts with empty Redis, queue, message store and log, and no assistant yet |
| ChatServiceSocket.ChatServer.GetAssistantUser | services/chat-service/socket.js:17-27 | the assistant lookup is memoised; a failed lookup is forgotten, so the next call retries |
| ChatServiceSocket.ChatServer.Connect | services/chat-service/socket.js:360-368 | the connection handler updates Redis as `AfterConnect` says |
| ChatServiceSocket.ChatServer.Disconnect | services/chat-service/socket.js:51-68 | the disconnect handler is the compare-and-delete of `AfterDisconnect` |
| ChatServiceSocket.ChatServer.CreateAssistantMessage | services/chat-service/socket.js:70-95 | without an assistant, a recipient or content nothing happens; otherwise the message is stored and then delivered to the recipient's socket if known; a failed insert does neither |
| ChatServiceSocket.ChatServer.MaybeSendAssistantReply | services/chat-service/socket.js:97-158 | the messages stored and the effects emitted are exactly those of the reply tier reached (answer, apology, `assistantError` or nothing) |
| ChatServiceSocket.ChatServer.SendMessage | services/chat-service/socket.js:198-297 | dropped messages change nothing; a message between people is emitted to the recipient and then the sender (each if online) and pushed exactly once onto `chat_queue`, not stored; a message to the assistant is emitted to the sender only, stored at once, answered, and never queued; the id counter then advances by one for it and one per stored reply; if storing it fails, only the echo to the sender happens |
| ChatServiceSocket.ChatServer.SendFriendRequest | services/chat-service/socket.js:299-308 | the request reaches the target's socket only if the target is online |
| ChatServiceSocket.ChatServer.NotifyMembers | services/chat-service/socket.js:337-345 | the member loop emits exactly the fan-out of the event |
| ChatServiceSocket.ChatServer.SendGroupMessage | services/chat-service/socket.js:310-346 | the message is stored without a recipient; the group gains its id and snapshot; every online member receives it; for an unknown group only the store happens |
| ChatServiceSocket.ChatServer.CreateGroupEvent | services/chat-service/socket.js:348-358 | every listed member who is online learns of the new group, once, in member order |
| ChatServiceSocket.ChatServer.CallOffer | services/chat-service/socket.js:375-410 | incomplete offers and unknown users are ignored; a block in either direction sends `call:blocked` to the caller's own socket and relays nothing; otherwise the callee's socket, if any, gets `call:incoming` |
| ChatServiceSocket.ChatServer.GroupCallOffer | services/chat-service/socket.js:412-434 | every online member except the caller gets `group:call:incoming`; an unknown group gives nothing |
| ChatServiceSocket.ChatServer.GroupCallEnd | services/chat-service/socket.js:436-450 | every online member of the group gets `group:call:ended` |
| ChatServiceSocket.ChatServer.CallReplyRelay | services/chat-service/socket.js:452-498 | accept, reject and end are relayed to the peer's socket when the peer and the call id are given and the peer is online |
| ChatServiceSocket.ChatServer.PhotoEvent | services/chat-service/socket.js:500-514 | photo events are broadcast to every connected socket |
| ChatServiceSocket.GroupCallSkipsCaller | services/chat-service/socket.js:417-421 | a group call offer never rings the caller's own socket |
| MonolithSocket.IndexOf | server/socket.js:257 | the entry of a user in the insertion-ordered `Map` is its only entry with that key |
| MonolithSocket.AsMapResolves | server/socket.js:36 | looking a user up in the ordered entries agrees with the map view that the shared fan-out uses |
| MonolithSocket.FirstWithSocket | server/socket.js:40-44 | the disconnect loop stops at the first entry, in insertion order, whose value is this socket |
| MonolithSocket.GetAfterReplace | server/socket.js:257 | `Map.set` on an existing key changes that user's socket and no other user's |
| MonolithSocket.GetAfterAppend | server/socket.js:257 | `Map.set` on a new key adds that user and changes no other user's socket |
| MonolithSocket.SetEntry | server/socket.js:257 | after `set`, the user resolves to the new socket, every other user is unchanged, the size grows only for a new key, and keys stay unique |
| MonolithSocket.SetKeepsOrder | server/socket.js:257 | overwriting a key keeps its place in the iteration order |
| MonolithSocket.RemoveAtUnique | server/socket.js:42 | deleting one entry keeps the keys unique |
| MonolithSocket.DisconnectRemovesAtMostOne | server/socket.js:40-45 | a disconnect removes exactly one entry; when sockets are distinct, no entry for that socket remains |
| MonolithSocket.MonolithServer.constructor | server/socket.js:36 | the server starts with an empty map, message store and log |
| MonolithSocket.MonolithServer.Connect | server/socket.js:254-261 | a handshake user id overwrites its own entry; no user id leaves the map unchanged |
| MonolithSocket.MonolithServer.Disconnect | server/socket.js:38-46 | the first entry whose value is this socket is deleted and nothing else; with no such entry the map is unchanged |
| MonolithSocket.MonolithServer.GetAssistantUser | server/socket.js:13-23 | the assistant lookup is memoised, and a failed lookup is not |
| MonolithSocket.MonolithServer.CreateAssistantMessage | server/socket.js:156-181 | without an assistant, a recipient or content nothing happens; otherwise the message is stored, then delivered to the recipient's socket if known |
| MonolithSocket.MonolithServer.MaybeSendAssistantReply | server/socket.js:95-154 | the same three-step fall-back as the chat service: answer or notice, then apology, then `assistantError` |
| MonolithSocket.MonolithServer.SendMessage | server/socket.js:48-93 | a message is stored before any emit; to the assistant it goes to the sender only and is then answered, the id counter advancing by one for it and one per stored reply; between people it goes to the recipient and then the sender, each only if mapped. A failed insert, or a missing recipient once the assistant exists, throws before anything is stored or emitted |
| MonolithSocket.MonolithServer.SendFriendRequest | server/socket.js:183-197 | the request reaches the target's socket only if the target is online |
| MonolithSocket.MonolithServer.NotifyMembers | server/socket.js:229-236 | the member loop emits exactly the fan-out of the event over the map |
| MonolithSocket.MonolithServer.SendGroupMessage | server/socket.js:199-238 | the message is stored without a recipient; the group gains its id and snapshot; every online member receives it |
| MonolithSocket.MonolithServer.CreateGroup | server/socket.js:240-250 | every listed member who is online learns of the new group |
| MonolithSocket.MonolithServer.CallOffer | server/socket.js:270-284 | a complete offer is relayed to the callee's socket if it is online, with no block check; an incomplete one is ignored |
| MonolithSocket.MonolithServer.GroupCallOffer | server/socket.js:287-307 | every online member except the caller gets `group:call:incoming` |
| MonolithSocket.MonolithServer.GroupCallEnd | server/socket.js:309-322 | every online member gets `group:call:ended` |
| MonolithSocket.MonolithServer.CallReplyRelay | server/socket.js:324-369 | accept, reject and end reach the peer's socket when the peer and the call id are given and the peer is online |
| MonolithSocket.MonolithServer.PhotoUploaded | server/socket.js:372-383 | a new photo is announced to each online friend of its owner; without a friends list, to nobody |
| MonolithSocket.MonolithServer.PhotoLikeChanged | server/socket.js:385-401 | likes and unlikes are sent to the photo owner's socket only |
| MonolithSocket.MonolithServer.PhotoDeleted | server/socket.js:403-413 | a deletion is announced to each online friend listed, and to nobody when none are listed |
| GroupPermissions.BlockedMapOf | services/chat-service/helpers/groupPermissions.js:11-21 | the blocked map has an entry for exactly the ids of the documents given |
| GroupPermissions.BuildBlockedMap | services/chat-service/helpers/groupPermissions.js:11-21 | the loop over the documents builds exactly that map |
| GroupPermissions.Selected | services/chat-service/helpers/groupPermissions.js:54-56 | the `$in` query returns exactly the stored users whose id is listed |
| GroupPermissions.HasBlockingConflict | services/chat-service/helpers/groupPermissions.js:23-43 | a missing id gives no block. The result is truthy exactly when either user blocked the other. The first id's block is reported in preference. Because of the duplicate `blocked` key, a block returns the blocked id in place of `true` |
| GroupPermissions.MissingIdNeverBlocks | services/chat-service/helpers/groupPermissions.js:24-26 | a missing id never yields a block |
| GroupPermissions.BlocksSymmetric | services/chat-service/helpers/groupPermissions.js:31-40 | whether two users conflict does not depend on the order they are checked in |
| GroupPermissions.ConflictMessage | services/chat-service/helpers/groupPermissions.js:69-77 | the message says "you blocked them" when the requester is the blocker, "they blocked you" when the requester is blocked, and the generic text otherwise |
| GroupPermissions.FirstInRow | services/chat-service/helpers/groupPermissions.js:62-67 | the inner loop stops at the first later id that conflicts, and no id before it does |
| GroupPermissions.FirstPair | services/chat-service/helpers/groupPermissions.js:61-88 | the nested loops find the first conflicting pair `i < j` in loop order; when there is none, no pair conflicts |
| GroupPermissions.FirstCross | services/chat-service/helpers/groupPermissions.js:117-149 | candidates outer, existing members inner, equal ids skipped: the first conflicting pair, or none at all |
| GroupPermissions.DetectBlockingConflictForMembers | services/chat-service/helpers/groupPermissions.js:45-91 | the deduplicated pairwise scan returns the verdict for the first conflicting pair, or no conflict |
| GroupPermissions.DetectBlockingConflictBetweenSets | services/chat-service/helpers/groupPermissions.js:93-152 | the candidate × existing scan returns the verdict for the first conflicting pair, reported existing member first, or no conflict |
| GroupPermissions.EmptyListsNeverConflict | services/chat-service/helpers/groupPermissions.js:49-51 | an empty member list, or an empty candidate list, never conflicts |
| GroupPermissions.NoFirstPairMeansNoBlock | services/chat-service/helpers/groupPermissions.js:61-90 | when the scan finds nothing, no two different listed users block each other in either direction |
| GroupPermissions.MembersNoConflictMeaning | services/chat-service/helpers/groupPermissions.js:45-91 | no conflict is reported exactly when no two distinct listed members block each other |
| GroupPermissions.MembersConflictMeaning | services/chat-service/helpers/groupPermissions.js:79-85 | a reported pair is two distinct listed members with a block between them |
| GroupPermissions.MembersBlockerPriority | services/chat-service/helpers/groupPermissions.js:34-40 | the blocker is the first of the pair when that one blocked the other, and otherwise the second |
| GroupPermissions.BetweenSetsPairMeaning | services/chat-service/helpers/groupPermissions.js:140-146 | a between-sets conflict pairs an existing member with a different candidate, existing first |
| GroupPermissions.BetweenSetsNoConflictMeaning | services/chat-service/helpers/groupPermissions.js:117-151 | no conflict means no candidate blocks, or is blocked by, a different existing member |
| GroupControllers.MembersFirst | server/controllers/GroupControllers.js:127-138 | the listed members are the stored ones with the current user moved to the front when present |
| GroupControllers.MembersFirstPermutes | server/controllers/GroupControllers.js:127-138 | with no repeated member, the reordered list is a permutation of the stored one |
| GroupControllers.MembersFirstKeepsOthersOrder | server/controllers/GroupControllers.js:133-138 | the other members keep their stored relative order |
| GroupControllers.AddNew | server/controllers/GroupControllers.js:266-276 | the grown member list keeps the old list as a prefix and appends only found ids not yet in it |
| GroupControllers.AddNewIsDedupe | server/controllers/GroupControllers.js:266-276 | for a duplicate-free list, pushing each new id equals deduplicating the concatenation |
| GroupControllers.Retitled | server/controllers/GroupControllers.js:326-334 | the name and the image change only where the request gives them; members, admins and messages are untouched |
| GroupControllers.AfterLeave | server/controllers/GroupControllers.js:395-419 | leaving removes the user from the members and the admins; the group is deleted exactly when nobody else is left; a departing last admin hands the role to the first remaining member |
| GroupControllers.LastMemberDeletes | server/controllers/GroupControllers.js:412-418 | the sole member leaving deletes the group |
| GroupControllers.GroupDirectory.CreateGroup | server/controllers/GroupControllers.js:10-73 | 400 for an unknown requester; 400 when a deduplicated id names no user; 403 with the conflict message on a block; otherwise 201 and exactly one new group is stored |
| GroupControllers.GroupDirectory.GroupMembers | server/controllers/GroupControllers.js:111-155 | none for an unknown group; otherwise the same members, the current user first |
| GroupControllers.GroupDirectory.AddMemberToGroup | server/controllers/GroupControllers.js:224-297 | 400 without ids; 404 for an unknown group; 403 for a non-member; 400 for an unknown id; 403 on a blocking conflict; 400 when nobody is new; otherwise only that group's member list grows |
| GroupControllers.GroupDirectory.NotifyGroupInfo | server/controllers/GroupControllers.js:342-363 | one `groupInfoUpdated` emit per member with a mapped socket, in member order, and nothing else |
| GroupControllers.GroupDirectory.UpdateGroupInfo | server/controllers/GroupControllers.js:299-377 | 404 for an unknown group; 403 for a non-member, with no change and no notification; otherwise the group is retitled and every connected member is told its new name and image |
| GroupControllers.GroupDirectory.LeaveGroup | server/controllers/GroupControllers.js:379-432 | 404 for an unknown group; 400 for a non-member; otherwise 200, and the group is either updated or, when it empties, deleted |
| GroupControllers.CreatedGroupHasCreator | server/controllers/GroupControllers.js:19-32 | a created group always contains its creator, and contains only the creator and requested ids |
| GroupControllers.AddedMembersAppendOnly | server/controllers/GroupControllers.js:266-276 | adding members keeps every old member in its place and adds nobody twice |
| BlockController.Blocker | services/auth-user-service/controllers/BlockController.js:25-34 | the blocker records the blocked id, which keeps each id listed at most once, and drops the blocked user's pending request; friends are untouched |
| BlockController.BlockRecordsOnce | services/auth-user-service/controllers/BlockController.js:25-27 | blocking the same user again leaves the id listed exactly once |
| BlockController.BlockUser | services/auth-user-service/controllers/BlockController.js:3-49 | 400 for a missing id; 400 for blocking yourself; 404 for an unknown user; otherwise only the two users' documents change, as described |
| BlockController.BlockClearsRequestsKeepsFriends | services/auth-user-service/controllers/BlockController.js:29-37 | after a block neither user holds a pending request from the other, both keep their friends, and only the blocker's list changes |
| BlockController.UnblockUser | services/auth-user-service/controllers/BlockController.js:51-81 | 400 for a missing id; 404 for an unknown user; otherwise every occurrence of the id leaves the blocker's list |
| BlockController.UnblockUndoesBlock | services/auth-user-service/controllers/BlockController.js:25-70 | unblocking restores the blocked list as it was before the block |
| BlockController.CheckBlockStatus | services/auth-user-service/controllers/BlockController.js:105-129 | 404 when either user is unknown; otherwise the two directions are reported independently, each from its own user's list |
| BlockController.BlockedMapOfUnique | services/chat-service/helpers/groupPermissions.js:11-21 | with unique ids, the blocked map holds exactly each user's own blocked list |
| BlockController.BlockStatusAgreesWithGroupRule | services/auth-user-service/controllers/BlockController.js:117-118 | the reported flags agree with the group blocking rule: the pair conflicts exactly when a flag is set |
| FriendRequests.CreateFriendRequest | services/auth-user-service/controllers/FriendRequestsControllers.js:3-40 | 400 without a target; 404 for an unknown requester or target; otherwise the requester's e-mail is added to the target's pending requests at most once, and nothing else changes |
| FriendRequests.RejectFriendRequest | services/auth-user-service/controllers/FriendRequestsControllers.js:42-74 | 400 without an e-mail; 404 for an unknown user; otherwise every pending request from that address is dropped |
| FriendRequests.Accepter | services/auth-user-service/controllers/FriendRequestsControllers.js:97-103 | on the accepting side the request is gone and the sender is a friend, recorded once |
| FriendRequests.AcceptFriendRequest | services/auth-user-service/controllers/FriendRequestsControllers.js:76-119 | 400 without an e-mail; 404 for an unknown user; 400 when no such request is pending; a server error when the sender has no account; otherwise both documents are updated |
| FriendRequests.AcceptMakesMutualFriends | services/auth-user-service/controllers/FriendRequestsControllers.js:97-106 | after an accept each user is in the other's friends, the request is gone, and no other document changes |
| FriendRequests.AcceptAddsNoDuplicates | services/auth-user-service/controllers/FriendRequestsControllers.js:101-106 | accepting never lists a friend twice |
| FriendRequests.NewestFirst | services/auth-user-service/controllers/FriendRequestsControllers.js:141-144 | the pending senders are listed in reverse storage order; an address with no account shows as none |
| FriendRequests.LatestRequestFirst | services/auth-user-service/controllers/FriendRequestsControllers.js:141-144 | the request received last is listed first |
| FriendRequests.GetFriendRequests | services/auth-user-service/controllers/FriendRequestsControllers.js:121-153 | 404 for an unknown user; "no requests" exactly when the list is empty; otherwise one entry per pending request |
| Contacts.EscapeRegex | services/auth-user-service/controllers/ContactsController.js:10-13 | escaping at most doubles the term's length |
| Contacts.EscapeRegexRoundTrip | services/auth-user-service/controllers/ContactsController.js:10-13 | reading the escaped pattern back gives the term: the search matches the term literally |
| Contacts.EscapeRegexHasNoBareMeta | services/auth-user-service/controllers/ContactsController.js:10-13 | every regular-expression metacharacter in the pattern is escaped by a backslash |
| Contacts.EscapePlainTerm | services/auth-user-service/controllers/ContactsController.js:10-13 | a term without metacharacters is left as it is |
| Contacts.SearchDMContacts | services/auth-user-service/controllers/ContactsController.js:62-124 | 400 when the term or the list is missing; otherwise exactly the client's entries whose id the search found |
| Contacts.SearchKeepsClientOrder | services/auth-user-service/controllers/ContactsController.js:115-117 | the answer is a sub-list of the client's list in its own order |
| Contacts.DMList | services/auth-user-service/controllers/ContactsController.js:186-189 | the direct-message list keeps exactly the conversation partners whose e-mail is among the user's friends |
| Contacts.DMListKeepsOrder | services/auth-user-service/controllers/ContactsController.js:186-189 | the filtered list keeps the conversations' order |
| Contacts.Unfriended | services/auth-user-service/controllers/ContactsController.js:271-283 | one address leaves both the friends and the pending requests; the other entries stay |
| Contacts.UnfriendContact | services/auth-user-service/controllers/ContactsController.js:248-295 | 400 without a friend id; 404 when either user is unknown; otherwise both users forget each other |
| Contacts.UnfriendIsMutual | services/auth-user-service/controllers/ContactsController.js:271-283 | after unfriending neither user lists the other, as friend or as request, and no other document changes |
| Contacts.UnfriendUndoesAccept | services/auth-user-service/controllers/ContactsController.js:271-283 | unfriending right after an accept between two strangers restores both friend lists |
| AuthController.ConfigFrom | services/auth-user-service/controllers/AuthController.js:507-509 | an unset or zero setting falls back to a 60-second cooldown, a one-hour window and five resends; otherwise the given values, scaled to milliseconds |
| AuthController.CooldownReportsRemainingWait | services/auth-user-service/controllers/AuthController.js:513-517 | inside the cooldown the answer is 429, with a positive wait equal to the cooldown minus the time elapsed |
| AuthController.ResendCountsOneAttempt | services/auth-user-service/controllers/AuthController.js:519-546 | a resend counts one attempt: exactly one in an unset or expired window, otherwise one more; the count never passes the cap; attemptsRemaining is the cap minus the count |
| AuthController.CapReachedRefuses | services/auth-user-service/controllers/AuthController.js:525-527 | for a record that keeps its window start (the corrected behaviour, see Findings), with the cap reached in a live window the request is refused and no e-mail goes out |
| AuthController.ResendsAreSpacedByCooldown | services/auth-user-service/controllers/AuthController.js:513-533 | after a resend, a second request within the cooldown has to wait |
| AuthController.Stored | services/auth-user-service/models/PendingUserModel.js:3-46 | a saved pending sign-up has no window start, since the schema declares none; every other field is kept |
| AuthController.ResendRun | services/auth-user-service/controllers/AuthController.js:494-552 | one decision per request, the first being the decision on the record as it stands |
| AuthController.AsWrittenCapNeverFires | services/auth-user-service/controllers/AuthController.js:519-527 | as written, successive requests a cooldown apart on a stored record are never refused by the cap: each resends and reports the cap minus one attempts remaining |
| AuthController.KeptWindowCapsResends | services/auth-user-service/controllers/AuthController.js:519-533 | if the window start were kept, the requests within one live window would resend at most as often as the cap leaves room for |
| AuthController.FindPending | services/auth-user-service/controllers/AuthController.js:500 | the first pending sign-up with the e-mail, or none when no pending sign-up has it |
| AuthController.FindAccount | services/auth-user-service/controllers/AuthController.js:89 | the first verified account with the e-mail, or none when no account has it |
| AuthController.Login | services/auth-user-service/controllers/AuthController.js:170-205 | the login succeeds exactly when both fields are given, the account exists, is local and has a password, and the password matches; every other case is a 400 |
| AuthController.SignupResendBound | services/auth-user-service/controllers/AuthController.js:98-126 | a sign-up while pending is refused only once the count is past five, so the count can reach six in a window |
| AuthController.AuthStore.ResendVerification | services/auth-user-service/controllers/AuthController.js:494-552 | 400 without an e-mail; 404 when nothing is pending; 429 during the cooldown or at the cap; otherwise the sign-up is saved with a new token and without its window start, and the mail is sent. A failed send still counts the attempt |
| AuthController.AuthStore.Signup | services/auth-user-service/controllers/AuthController.js:79-166 | 400 for a missing field or a registered address. A pending address gets 429 in the cooldown or past the limit, else a new token, saved only after the mail went out. A new address is stored as pending, then mailed, and gets 201 |
| ChatWorker.Head | services/chat-service/chatWorker.js:12 | the batch read is a prefix of the list, at most a batch long, and the whole list when it is shorter |
| ChatWorker.LTrim | services/chat-service/chatWorker.js:27 | trimming keeps the list from the start position on, and empties a list that is too short |
| ChatWorker.QuietTick | services/chat-service/chatWorker.js:10-31 | with no concurrent pushes a tick stores the first batch in order and keeps the rest; a failed insert or an empty list changes nothing, so the batch is retried |
| ChatWorker.QuietTickAgrees | services/chat-service/chatWorker.js:27 | without concurrent pushes, trimming a full batch and trimming what was read agree |
| ChatWorker.ArrivalDuringShortBatchIsLost | services/chat-service/chatWorker.js:27 | a message pushed while a one-message batch is inserted is trimmed without being stored |
| ChatWorker.DrainCorrectedConserves | services/chat-service/chatWorker.js:10-31 | trimming what was read loses nothing: the stored messages followed by the remaining list are the old list followed by the arrivals |
| ChatWorker.Tick | services/chat-service/chatWorker.js:10-31 | one tick appends the stored batch to the messages, and every message ends up stored or still queued |
| AiAssistant.ConfigFrom | server/services/aiAssistant.js:16-38 | the address and the model fall back on their defaults when unset or empty. The token cap falls back when unset and is dropped when not finite. The history limit falls back when unset |
| AiAssistant.MaxOutputTokens | server/services/aiAssistant.js:177-179 | the token cap is sent exactly when it is finite and positive |
| AiAssistant.ResolveModelName | server/services/aiAssistant.js:55-61 | an empty name passes through; every other name starts with `models/`, which is added only when missing |
| AiAssistant.ResolveModelNameIdempotent | server/services/aiAssistant.js:55-61 | resolving twice is resolving once |
| AiAssistant.ToTurn | server/services/aiAssistant.js:115-121 | a message becomes a model turn exactly when the assistant sent it, with the message's text |
| AiAssistant.Transcript | server/services/aiAssistant.js:112-122 | the transcript holds exactly the turns of the text messages with content, none longer than the conversation |
| AiAssistant.TranscriptAppend | server/services/aiAssistant.js:112-122 | the transcript keeps the conversation's order |
| AiAssistant.Thread | server/services/aiAssistant.js:133-138 | the thread holds exactly the messages between the user and the assistant, in either direction |
| AiAssistant.HistoryIsLatest | server/services/aiAssistant.js:139-143 | fetching newest first, cutting to the limit and reversing gives the thread's latest messages, oldest first |
| AiAssistant.LatestUserText | server/services/aiAssistant.js:149-155 | the user's most recent text message to the assistant, or none when there is no such message |
| AiAssistant.ContentsShape | server/services/aiAssistant.js:145-166 | the contents start with the transcript. One user turn is added exactly when the transcript has none and the user's latest text has content |
| AiAssistant.GenerateAssistantReply | server/services/aiAssistant.js:124-192 | the first error when there are no contents; the second when the response is missing or blank. Otherwise a non-empty trimmed reply, produced with the resolved model name and the token cap option |
| AiAssistant.GeneratedReplyIsTrimmed | server/services/aiAssistant.js:186 | a generated reply has no surrounding white space |
| AiAssistant.AssistantStore.EnsureAiAssistantUser | server/services/aiAssistant.js:72-110 | the memo when set. Otherwise the account with the configured address, created when missing. Either way the answer is memoised |
| AiController.BuildPreview | services/media-ai-service/controllers/AiController.js:8-21 | no preview without a message. A text message shows its content, any other its file, together with its type and time |
| AiController.Latest | services/media-ai-service/controllers/AiController.js:27-34 | the newest message, or none for an empty history |
| AiController.AssistantPreview | services/media-ai-service/controllers/AiController.js:23-46 | the preview is absent exactly when no message was exchanged with the assistant in either direction |
| AiController.FindMessage | services/media-ai-service/controllers/AiController.js:58 | the index of the message with that id, or none when no message has it |
| AiController.ReplyMessage | services/media-ai-service/controllers/AiController.js:65-70 | the stored answer is a text from the assistant to the requester, holding the reply |
| AiController.StoredReplyIsModelTurn | services/media-ai-service/controllers/AiController.js:63-70 | a stored answer is read back as the model's own turn in the next transcript |
| AiController.TriggerAssistantReply | services/media-ai-service/controllers/AiController.js:48-81 | the assistant is ensured first: the memoised one, else the account with the configured address, else a new account appended to the users. 400 without a message id; 404 for an unknown message; 500 when generation fails, storing nothing. Otherwise 201, and exactly one reply message is stored |
| PhotoModel.Photo.constructor | services/media-ai-service/models/PhotoModel.js:3-34 | a new photo has no likes and a count of 0, so the count agrees with the list |
| PhotoModel.Photo.Doc | services/media-ai-service/models/PhotoModel.js:3-34 | the plain value read back carries the photo's id, owner, likes and count |
| PhotoModel.Photo.AddLike | services/media-ai-service/models/PhotoModel.js:39-44 | the user is appended only when absent, and the count is refreshed only then. Afterwards the user likes the photo, and a count that agreed with a duplicate-free list still does |
| PhotoModel.Photo.RemoveLike | services/media-ai-service/models/PhotoModel.js:46-49 | every entry for the user is dropped and the count equals the list's length. The user no longer likes the photo. Removing someone absent changes nothing |
| PhotoController.ParsedOr | services/media-ai-service/controllers/PhotoController.js:69-70 | an unparsable or zero parameter falls back on its default; any other value is kept |
| PhotoController.CaptionOf | services/media-ai-service/controllers/PhotoController.js:24-38 | the stored caption is the trimmed caption cut to 300 characters: unchanged when it fits, exactly 300 otherwise |
| PhotoController.CeilDiv | services/media-ai-service/controllers/PhotoController.js:100 | for a positive limit, the page count is the least number of pages that hold all photos; for a negative limit it is at most 0 |
| PhotoController.FriendIds | services/media-ai-service/controllers/PhotoController.js:73-79 | exactly the users whose e-mail is among the requester's friends: every such user's id is included, and every id included belongs to such a user; an unknown requester has none |
| PhotoController.Feed | services/media-ai-service/controllers/PhotoController.js:80-83 | the feed holds exactly the photos owned by the requester or a friend |
| PhotoController.FeedIsOwnOrFriends | services/media-ai-service/controllers/PhotoController.js:73-83 | a photo is in the feed exactly when it is stored and owned by the requester or by a user whose e-mail is among the requester's friends |
| PhotoController.PageItemsFromFeed | services/media-ai-service/controllers/PhotoController.js:80-85 | every photo a page shows comes from the feed it pages |
| PhotoController.PhotoFeed | services/media-ai-service/controllers/PhotoController.js:66-109 | a feed page shows only stored photos of the requester or of friends |
| PhotoController.PhotoFeedIsPageOfFeed | services/media-ai-service/controllers/PhotoController.js:66-109 | with positive page and limit, the page is the slice of the requester's feed that it names, and the total is the feed's size |
| PhotoController.Window | services/media-ai-service/controllers/PhotoController.js:84-85 | skip and limit select the slice that starts at the skip, cut to the limit; it is empty past the end |
| PhotoController.WithLikeStatus | services/media-ai-service/controllers/PhotoController.js:91-94 | each photo is kept in place and marked liked exactly when the requester is in its likes |
| PhotoController.Paginate | services/media-ai-service/controllers/PhotoController.js:66-109 | an error exactly when the skip is negative; otherwise the requested page, the total and at most the whole feed |
| PhotoController.PageWindow | services/media-ai-service/controllers/PhotoController.js:71-85 | with positive page and limit, the window is the slice the page names, cut at the end of the feed |
| PhotoController.PageIsSlice | services/media-ai-service/controllers/PhotoController.js:66-104 | a page shows the slice it names, each photo with the requester's like status |
| PhotoController.HasMoreIffNotLastPage | services/media-ai-service/controllers/PhotoController.js:100-102 | with positive page and limit, hasMore holds exactly when a later page exists |
| PhotoController.FindPhoto | services/media-ai-service/controllers/PhotoController.js:116 | the index of the photo with that id, or none when no photo has it |
| PhotoController.PhotoStore.GetPhotoFeed | services/media-ai-service/controllers/PhotoController.js:66-109 | a feed page over the stored photos shows only photos of the requester or of friends |
| PhotoController.PhotoStore.GetPhotoById | services/media-ai-service/controllers/PhotoController.js:223-246 | none for an unknown photo; otherwise that photo with the requester's like status |
| PhotoController.PhotoStore.UploadPhoto | services/media-ai-service/controllers/PhotoController.js:17-64 | 400 without a file. Otherwise one new photo with the trimmed, capped caption and no likes, announced with the owner's friends' ids |
| PhotoController.PhotoStore.LikePhoto | services/media-ai-service/controllers/PhotoController.js:111-144 | 404 for an unknown photo. Otherwise only that photo gains the like, once, and the notice carries the new count |
| PhotoController.PhotoStore.UnlikePhoto | services/media-ai-service/controllers/PhotoController.js:146-179 | 404 for an unknown photo. Otherwise only that photo loses every like by the user, and the notice carries the new count |
| PhotoController.PhotoStore.DeletePhoto | services/media-ai-service/controllers/PhotoController.js:181-221 | 404 for an unknown photo; 403 for another owner's; otherwise the photo leaves the collection and the deletion is announced to the owner's friends |
| ChatSlice.MarkUnread | client/src/store/slices/chat-slice.js:14-21 | an id is appended once; an empty or already marked id changes nothing; a duplicate-free list stays duplicate-free |
| ChatSlice.MarkRead | client/src/store/slices/chat-slice.js:22-31 | the id leaves the list and every other id stays; an empty or unmarked id changes nothing |
| ChatSlice.MarkReadUndoesMarkUnread | client/src/store/slices/chat-slice.js:14-31 | reading a chat right after marking it unread restores the markers |
| ChatSlice.WithMessage | client/src/store/slices/chat-slice.js:119-137 | a message with an id already in the open chat is dropped; any other is appended |
| ChatSlice.AddMessageKeepsIdsDistinct | client/src/store/slices/chat-slice.js:122-124 | the open chat never holds two messages with one id |
| ChatSlice.Without | client/src/store/slices/chat-slice.js:239 | splice(i, 1) leaves the entries before i in place and shifts the later ones down by one |
| ChatSlice.IndexOfContact | client/src/store/slices/chat-slice.js:218-220 | the first contact with that id, or none when no contact has it |
| ChatSlice.PreviewOf | client/src/store/slices/chat-slice.js:229-236 | the preview carries the message's id and sender; its time is the timestamp, else createdAt, else now |
| ChatSlice.UpsertContact | client/src/store/slices/chat-slice.js:204-256 | without a signed-in user or a recipient nothing changes. Otherwise the other party is first with the message as preview: a listed contact moves there, keeping the others' order; a new contact is prepended |
| ChatSlice.UpsertKeepsContactsDistinct | client/src/store/slices/chat-slice.js:238-249 | moving or inserting at the front never lists one user twice |
| ChatSlice.Merge | client/src/store/slices/chat-slice.js:271-300 | a spread merge: keys given by the update take its value, keys carried as undefined disappear, other keys stay, and the members are replaced only when given |
| ChatSlice.MergeIdempotent | client/src/store/slices/chat-slice.js:271 | merging the same update twice is merging it once |
| ChatSlice.UpdateGroups | client/src/store/slices/chat-slice.js:265-274 | exactly the groups with that id take the update; the list keeps its length and order |
| ChatSlice.UpdateGroupsIdempotent | client/src/store/slices/chat-slice.js:261-274 | applying the same update twice is applying it once |
| ChatSlice.WithGroup | client/src/store/slices/chat-slice.js:316-324 | a group is prepended only when no group has its id |
| ChatSlice.IndexOfGroup | client/src/store/slices/chat-slice.js:335 | the index of a group with that id, or none when no group has it |
| ChatSlice.PromoteGroup | client/src/store/slices/chat-slice.js:332-341 | the message's group moves to the front; the list is a permutation of the old one; an unknown group changes nothing |
| ChatSlice.GroupToFront | client/src/store/slices/chat-slice.js:342-350 | the given group object replaces the listed group with its id and goes first; an unknown group changes nothing |
| ChatSlice.PromoteGroupIdempotent | client/src/store/slices/chat-slice.js:332-341 | promoting the same group twice is promoting it once |
| ChatSlice.GroupToFrontKeepsIdsDistinct | client/src/store/slices/chat-slice.js:342-350 | replacing and moving a group keeps group ids distinct |
| ChatSlice.WithGroupKeepsIdsDistinct | client/src/store/slices/chat-slice.js:316-324 | adding a group keeps group ids distinct |
| ChatSlice.ChatStore.constructor | client/src/store/slices/chat-slice.js:1-12 | the store starts with no open chat, no unread markers, and empty lists |
| ChatSlice.ChatStore.MarkChatAsUnread | client/src/store/slices/chat-slice.js:14-21 | the chat markers become the marked list |
| ChatSlice.ChatStore.MarkChatAsRead | client/src/store/slices/chat-slice.js:22-31 | the chat markers become the read list |
| ChatSlice.ChatStore.MarkGroupAsUnread | client/src/store/slices/chat-slice.js:32-39 | the group markers become the marked list |
| ChatSlice.ChatStore.MarkGroupAsRead | client/src/store/slices/chat-slice.js:40-49 | the group markers become the read list |
| ChatSlice.ChatStore.AddMessage | client/src/store/slices/chat-slice.js:119-137 | the open chat's messages gain the message unless its id is present |
| ChatSlice.ChatStore.AddContactsInDMContacts | client/src/store/slices/chat-slice.js:204-256 | the direct-message list becomes the upserted list |
| ChatSlice.ChatStore.UpdateGroupData | client/src/store/slices/chat-slice.js:261-311 | the group list, the open group chat and the sidebar profile with that id take the update. The open chat's members are replaced only when the update carries members |
| ChatSlice.ChatStore.AddGroup | client/src/store/slices/chat-slice.js:316-324 | the group list gains the group unless its id is listed |
| ChatSlice.ChatStore.AddGroupInGroupList | client/src/store/slices/chat-slice.js:332-341 | the message's group moves to the front of the list |
| ChatSlice.ChatStore.SortGroupList | client/src/store/slices/chat-slice.js:342-350 | the given group takes the front in place of its listed copy |
| ChatSlice.ChatStore.AddFriendRequestInFriendRequestsList | client/src/store/slices/chat-slice.js:64-68 | the request is appended to the list |
| ChatSlice.ChatStore.CloseChat | client/src/store/slices/chat-slice.js:86-92 | no chat is open and its messages and members are cleared |
| CallSlice.MergePeer | client/src/store/slices/call-slice.js:47 | the keys the data carries win; the participant's other keys are kept, and are absent for a new participant |
| CallSlice.SetPeer | client/src/store/slices/call-slice.js:45-49 | only that participant's entry changes, by the merge; the participant is added when new |
| CallSlice.RemovePeer | client/src/store/slices/call-slice.js:50-55 | only that participant's key is deleted; every other entry stays |
| CallSlice.SetPeerIdempotent | client/src/store/slices/call-slice.js:45-49 | setting the same data twice is setting it once |
| CallSlice.RemovePeerUndoesSetPeer | client/src/store/slices/call-slice.js:45-55 | removing a participant who had just joined restores the peers |
| CallSlice.Connections | client/src/store/slices/call-slice.js:58-60 | exactly the connections held by some participant |
| CallSlice.CallStore.constructor | client/src/store/slices/call-slice.js:7-42 | both calls start idle with nothing held |
| CallSlice.CallStore.ResetCall | client/src/store/slices/call-slice.js:22-37 | the one-to-one connection is closed and the local tracks stopped, then every one-to-one field is cleared |
| CallSlice.CallStore.SetGroupPeer | client/src/store/slices/call-slice.js:45-49 | the peers become the merged peers |
| CallSlice.CallStore.RemoveGroupPeer | client/src/store/slices/call-slice.js:50-55 | that participant's connection is closed and only its key is deleted |
| CallSlice.CallStore.ResetGroupCall | client/src/store/slices/call-slice.js:56-68 | every participant's connection is closed and the local tracks stopped. The group status, id, peers and local stream are cleared |
| PhotoSlice.ToTimestamp | client/src/store/slices/photo-slice.js:4-8 | a missing or unparsable date counts as 0; a valid one gives its milliseconds |
| PhotoSlice.LastWithId | client/src/store/slices/photo-slice.js:15-16 | the photo returned has the id and occurs in the inputs |
| PhotoSlice.FillIsLastWins | client/src/store/slices/photo-slice.js:11-19 | after the visit the map holds each key once, exactly the non-empty ids that occur, and under each id the last photo with it |
| PhotoSlice.Values | client/src/store/slices/photo-slice.js:21 | the map's values in key insertion order |
| PhotoSlice.Insert | client/src/store/slices/photo-slice.js:21-23 | inserting adds exactly the photo to the multiset |
| PhotoSlice.SortNewestFirst | client/src/store/slices/photo-slice.js:21-23 | the sort is a permutation of its input |
| PhotoSlice.InsertKeepsOrder | client/src/store/slices/photo-slice.js:21-23 | inserting into a newest-first list keeps it newest first |
| PhotoSlice.SortIsNewestFirst | client/src/store/slices/photo-slice.js:21-23 | the sorted photos are ordered newest first |
| PhotoSlice.PermutationKeepsIdsDistinct | client/src/store/slices/photo-slice.js:21-23 | reordering photos with distinct ids keeps them distinct |
| PhotoSlice.Unsorted | client/src/store/slices/photo-slice.js:10-24 | the merged feed is the sort of the map's values |
| PhotoSlice.MergedIsNewestFirst | client/src/store/slices/photo-slice.js:10-24 | the merged feed is ordered newest first |
| PhotoSlice.MergedIdsDistinct | client/src/store/slices/photo-slice.js:10-24 | the merged feed holds each id once |
| PhotoSlice.MergedIsLastWins | client/src/store/slices/photo-slice.js:13-19 | every merged photo has an id and is the last photo with that id in the inputs, so later lists win |
| PhotoSlice.MergedCoversInputs | client/src/store/slices/photo-slice.js:13-19 | every photo with an id in the inputs is represented in the merged feed |
| PhotoSlice.MergeAndSortPhotos | client/src/store/slices/photo-slice.js:10-24 | the nested loops fill the map list by list and photo by photo, giving exactly the merged, sorted feed |
| PhotoSlice.DeriveHasMore | client/src/store/slices/photo-slice.js:26-38 | no pagination means no more pages. A numeric page count decides by comparison; otherwise a boolean hasMore decides; anything else means no more |
| PhotoSlice.WithPhoto | client/src/store/slices/photo-slice.js:54-64 | a photo is prepended only when no photo has its id |
| PhotoSlice.UpdatePhotos | client/src/store/slices/photo-slice.js:66-72 | exactly the photos with that id take the new like state; length and order are kept |
| PhotoSlice.UpdateKeepsFeedShape | client/src/store/slices/photo-slice.js:66-72 | an update keeps the feed newest first and its ids distinct |
| PhotoSlice.RemovePhotos | client/src/store/slices/photo-slice.js:74-78 | exactly the photos with that id go; the rest keep their order |
| PhotoSlice.RemoveUndoesAdd | client/src/store/slices/photo-slice.js:54-78 | removing a photo right after adding it restores the feed |
| PhotoSlice.RemoveAbsentPhoto | client/src/store/slices/photo-slice.js:74-78 | removing an absent id changes nothing |
| PhotoSlice.ErrorText | client/src/store/slices/photo-slice.js:92 | the server's message when there is one, else the fallback text |
| PhotoSlice.PhotoFeedStore.constructor | client/src/store/slices/photo-slice.js:41-47 | the store starts empty, not loading, with more pages expected, on page 1 |
| PhotoSlice.PhotoFeedStore.MarkFeedDirty | client/src/store/slices/photo-slice.js:51 | the feed is marked for refetching |
| PhotoSlice.PhotoFeedStore.AddPhoto | client/src/store/slices/photo-slice.js:54-64 | the photos gain the photo unless its id is listed |
| PhotoSlice.PhotoFeedStore.UpdatePhoto | client/src/store/slices/photo-slice.js:66-72 | the photos take the update |
| PhotoSlice.PhotoFeedStore.RemovePhoto | client/src/store/slices/photo-slice.js:74-78 | the photos lose every photo with that id |
| PhotoSlice.PhotoFeedStore.SetLiked | client/src/store/slices/photo-slice.js:80-112 | a 200 stores the count and the like state and yields true; a thrown request records the error and yields false; any other answer yields nothing and changes nothing |
| PhotoSlice.PhotoFeedStore.UploadPhoto | client/src/store/slices/photo-slice.js:114-151 | a 201 adds the photo and clears loading. A thrown request clears loading and records the error. Any other answer leaves loading raised |
| PhotoSlice.PhotoFeedStore.DeletePhoto | client/src/store/slices/photo-slice.js:153-165 | a 200 removes the photo and yields true; a thrown request records the error and yields false |
| PhotoSlice.PhotoFeedStore.LoadPhotoFeed | client/src/store/slices/photo-slice.js:167-224 | page 1 merges into a shown feed and keeps its page, or replaces the feed with page 1, or 0 when empty. A later page merges and becomes current. Errors leave the feed as it was |
| PhotoSlice.PhotoFeedStore.ApplyFeedPage | client/src/store/slices/photo-slice.js:178-214 | a page answered with 200 is merged into a shown feed or replaces an empty one, sets the page and the more-pages flag, and marks the feed loaded |
| PhotoSlice.PhotoFeedStore.LoadMorePhotos | client/src/store/slices/photo-slice.js:226-231 | nothing happens when no page is left or a load is running; otherwise page `currentPage + 1` loads with each of `loadPhotoFeed`'s outcomes: a thrown request records the error, another status changes nothing, and status 200 merges the page, sets `hasMore` from the pagination and marks the feed initialised. The page merged becomes current, except that from page 0 the load is page 1, which keeps an existing feed's page |
| LiveKit.StrLessTotal | client/src/lib/livekit.js:8 | the default sort order puts any two different ids one way round |
| LiveKit.StrLessAsymmetric | client/src/lib/livekit.js:8 | the default sort order never puts two ids both ways round |
| LiveKit.DmRoomName | client/src/lib/livekit.js:7-10 | the room name is "dm-", the lesser id, "-", then the greater id |
| LiveKit.DmRoomNameSymmetric | client/src/lib/livekit.js:7-10 | both sides of a call compute the same room name |
| LiveKit.GroupRoomName | client/src/lib/livekit.js:12 | the group room name is "group-" followed by the group id |
| LiveKit.GroupAndDmRoomsDiffer | client/src/lib/livekit.js:7-12 | a group room never has a direct call room's name |
| LiveKit.LiveKitClient.constructor | client/src/lib/livekit.js:5 | no room is held at first |
| LiveKit.LiveKitClient.EnsureRoom | client/src/lib/livekit.js:22-25 | an existing room is reused; only without one is a new room made |
| LiveKit.LiveKitClient.JoinLiveKitRoom | client/src/lib/livekit.js:27-76 | without a token nothing changes. Otherwise the room is ensured and connected, a microphone track is published, plus a camera track for video. The local stream is stored and the call becomes active |
| LiveKit.LiveKitClient.LeaveLiveKitRoom | client/src/lib/livekit.js:78-85 | any held room is disconnected, then forgotten |
| SocketContext.RouteDirect | client/src/context/SocketContext.jsx:83-101 | a direct message shows in the open chat only when that chat is its sender or recipient, and then the other party is marked read. Otherwise the sender is marked unread unless the message is one's own. A message with no recipient, arriving while another chat is open, stops with an error |
| SocketContext.HandleReceiveMessage | client/src/context/SocketContext.jsx:72-104 | the open chat, the unread set and the contact list change exactly as the route says; every route except the error adds the message's contact to the DM list |
| SocketContext.HandleReceiveGroupMessage | client/src/context/SocketContext.jsx:106-128 | a message to the open group is shown and the group marked read. Otherwise the group is marked unread unless the message is one's own. Then the group moves to the front of the list |
| SocketContext.HandleReceiveGroupCreation | client/src/context/SocketContext.jsx:129-132 | the new group is added to the group list |
| SocketContext.GroupInfoUpdate | client/src/context/SocketContext.jsx:164-167 | the update carries only the name and the image, each as sent |
| SocketContext.HandleGroupInfoUpdated | client/src/context/SocketContext.jsx:159-171 | the named group's name and image are updated in the group list, in the open group chat and in the sidebar profile when either shows that group; the open chat's member list is untouched |
| SocketContext.WithRequest | client/src/context/SocketContext.jsx:145-154 | a request whose email is already listed is ignored; otherwise it goes first |
| SocketContext.WithRequestKeepsEmailsDistinct | client/src/context/SocketContext.jsx:145-154 | the request list never holds one email twice |
| SocketContext.HandleReceiveFriendRequest | client/src/context/SocketContext.jsx:134-157 | a new request goes first and the count becomes the old length plus one; a duplicate changes nothing |
| SocketContext.HandleNewPhotoUploaded | client/src/context/SocketContext.jsx:173-192 | a photo with an id and an owner joins the feed, and the feed is marked for refresh unless the photo tab is open; anything else is ignored |
| SocketContext.HandlePhotoLikeChanged | client/src/context/SocketContext.jsx:194-210 | the server's like count and like state are stored on the photo as sent |
| SocketContext.HandlePhotoDeleted | client/src/context/SocketContext.jsx:212-216 | the photo leaves the feed |
| SocketContext.HandleIncomingCall | client/src/context/SocketContext.jsx:219-235 | the call becomes incoming, with the caller, call id and type from the payload |
| SocketContext.HandleCallAccepted | client/src/context/SocketContext.jsx:237-243 | the call is connecting and joins the direct room named by the two ids; the join makes it active, stores the local stream, keeps or creates the room and publishes a microphone track, plus a camera track for a video call; a failed join leaves it connecting with nothing published |
| SocketContext.HandleCallRejected | client/src/context/SocketContext.jsx:244-248 | the call is reset to idle with no type, peer, id, streams or connection; the old connection is closed and the old local stream stopped |
| SocketContext.HandleCallEnded | client/src/context/SocketContext.jsx:249-254 | the room, if any, is disconnected and forgotten; the call is reset to idle with no type, peer, id, streams or connection, the old connection closed and the old local stream stopped |
| SocketContext.HandleGroupIncoming | client/src/context/SocketContext.jsx:274-280 | the group call becomes incoming, with its group and type |
| SocketContext.HandleGroupEnded | client/src/context/SocketContext.jsx:282-287 | the room, if any, is disconnected and forgotten; the group call is idle with no group, no peers and no local stream; every peer connection is closed and the old local stream stopped |
| ChatPreview.FileExtensionFromUrl | client/src/components/ChatPageComponents/Chat/index.jsx:8-21 | an empty URL gives "". Otherwise the label ends in " file", and what precedes it contains no '?', '/' or '.', so it is at most the last segment's extension |
| ChatPreview.Extension | client/src/components/ChatPageComponents/Chat/index.jsx:10-18 | the extension taken from the URL never holds '?', '/' or '.': the query, the directories and the base name are all cut off |
| ChatPreview.FileExtensionRoundTrip | client/src/components/ChatPageComponents/Chat/index.jsx:8-21 | a URL built from a directory, a file name, an extension and an optional query string gives back exactly that extension followed by " file" |
| ChatPreview.Shorten | client/src/components/ChatPageComponents/Chat/index.jsx:23-25 | a preview never exceeds 60 characters; a short message is kept as is, and a longer one becomes its first 57 characters followed by "..." |
| ChatPreview.GroupPreview | client/src/components/ChatPageComponents/Chat/index.jsx:31-49 | unread groups show the placeholder. A file shows its extension label and a text its shortened content. No message or any other type shows "" |
| ChatPreview.DirectPreview | client/src/components/ChatPageComponents/Chat/index.jsx:71-99 | unread chats show the placeholder. A file shows its extension label, or the fixed attachment text when it has no URL. A text, or an older plain-string preview, is shortened to 60 characters. Anything else shows "" |
| SidebarProfile.CheckIfImage | client/src/components/ChatPageComponents/LeftSidebarContactOrGroupProfile/index.jsx:194-204 | a file counts as an image exactly when its path before the query ends in a dot and one of the thirteen image extensions, in any letter case |
| SidebarProfile.QueryDoesNotMatter | client/src/components/ChatPageComponents/LeftSidebarContactOrGroupProfile/index.jsx:196 | a query string never changes whether a path is judged an image |
| SidebarProfile.ImageExtensionRecognised | client/src/components/ChatPageComponents/LeftSidebarContactOrGroupProfile/index.jsx:199-203 | a file named with any listed image extension, written in any letter case, is recognised as an image |
| SidebarProfile.FileNameFromUrl | client/src/components/ChatPageComponents/LeftSidebarContactOrGroupProfile/index.jsx:206-221 | an empty name gives "". The shown name is what follows the last ')', trimmed, or the whole name when there is none. It is kept when within the length limit, otherwise cut to the limit followed by "..." |
| SidebarProfile.NameAfterParenShown | client/src/components/ChatPageComponents/LeftSidebarContactOrGroupProfile/index.jsx:206-221 | a short name without surrounding spaces, following a last ')', is shown exactly |
| SidebarProfile.SharedFileName | client/src/components/ChatPageComponents/LeftSidebarContactOrGroupProfile/index.jsx:509-511 | a shared file's listed name, taken from the last path segment of its URL, never exceeds 84 characters |
| SidebarProfile.SaveStepAsWritten | client/src/components/ChatPageComponents/LeftSidebarContactOrGroupProfile/index.jsx:61-64 | as written, a name is sent exactly when the trimmed edit is non-empty and the untrimmed edit differs from the current name; the trimmed edit is what is sent |
| SidebarProfile.AsWrittenResendsSameName | client/src/components/ChatPageComponents/LeftSidebarContactOrGroupProfile/index.jsx:62-63 | as written, an edit that differs from the name only by a trailing space sends the unchanged name, and does so again after a successful save |
| SidebarProfile.SaveGroupStep | client/src/components/ChatPageComponents/LeftSidebarContactOrGroupProfile/index.jsx:61-70 | a name is sent exactly when the trimmed edit is non-empty and differs from the current name |
| SidebarProfile.Renamed | client/src/components/ChatPageComponents/LeftSidebarContactOrGroupProfile/index.jsx:80-83 | the profile after a save has the new name; its id, members and every other field are kept |
| SidebarProfile.SaveGroupInfo | client/src/components/ChatPageComponents/LeftSidebarContactOrGroupProfile/index.jsx:59-90 | with nothing to save, editing ends and nothing is sent. Otherwise the trimmed name is sent. On status 200 the profile is renamed and editing ends; a failed request leaves the panel as it was |
| SidebarProfile.SaveSettles | client/src/components/ChatPageComponents/LeftSidebarContactOrGroupProfile/index.jsx:59-90 | saving the same edit again after a successful save finds nothing to save |
| SidebarProfile.AsWrittenSettlesOnlyWhenTrimmed | client/src/components/ChatPageComponents/LeftSidebarContactOrGroupProfile/index.jsx:59-90 | as written, after a name is sent and stored, saving the same edit again finds nothing to save exactly when the edit has no surrounding spaces |
| ChatSearch.HitsOf | client/src/components/ChatPageComponents/ChatSearch/index.jsx:18-21 | every hit comes from a text message whose lower-cased content contains the term, and every such message yields a hit; there are never more hits than messages |
| ChatSearch.Matches | client/src/components/ChatPageComponents/ChatSearch/index.jsx:15-22 | a term that is blank once trimmed finds nothing; otherwise the hits are those for the trimmed, lower-cased term |
| ChatSearch.HitsOfAppend | client/src/components/ChatPageComponents/ChatSearch/index.jsx:18-21 | hits come in message order: a new message can only add a hit at the end |
| ChatSearch.NextIndex | client/src/components/ChatPageComponents/ChatSearch/index.jsx:60 | Next stays within the hits, moves one forward, and wraps from the last hit to the first; with no hits it is 0 |
| ChatSearch.PrevIndex | client/src/components/ChatPageComponents/ChatSearch/index.jsx:55 | Prev stays within the hits, moves one back, and wraps from the first hit to the last; with no hits it is 0 |
| ChatSearch.PrevNextInverse | client/src/components/ChatPageComponents/ChatSearch/index.jsx:55-60 | Prev undoes Next and Next undoes Prev |
| ChatSearch.NextCycles | client/src/components/ChatPageComponents/ChatSearch/index.jsx:60 | pressing Next from the first hit visits the hits in order and comes back to the first after as many presses as there are hits |
| ChatSearch.CounterOf | client/src/components/ChatPageComponents/ChatSearch/index.jsx:53 | the counter shows position plus one over the number of hits, or 0/0 without hits |
| ChatSearch.ChatSearchBox.constructor | client/src/components/ChatPageComponents/ChatSearch/index.jsx:11-12 | the box starts with an empty term at position 0 |
| ChatSearch.ChatSearchBox.SetTerm | client/src/components/ChatPageComponents/ChatSearch/index.jsx:24-51 | typing a term sends the highlight back to the first hit |
| ChatSearch.ChatSearchBox.Next | client/src/components/ChatPageComponents/ChatSearch/index.jsx:59-63 | the Next button moves the position as NextIndex says |
| ChatSearch.ChatSearchBox.Prev | client/src/components/ChatPageComponents/ChatSearch/index.jsx:54-58 | the Prev button moves the position as PrevIndex says |
| ChatSearch.ChatSearchBox.Current | client/src/components/ChatPageComponents/ChatSearch/index.jsx:31-32 | the highlighted hit is the one at the position among the current hits, and there is none exactly when the position is past them |
| AudioPlayer.NextSongIndex | client/src/context/AudioContext.jsx:86-95 | Next selects the first song when none is selected or the last one is, and otherwise the following one; a selected song on the playlist leads to a song on the playlist |
| AudioPlayer.PrevSongIndex | client/src/context/AudioContext.jsx:97-106 | Previous selects the last song when none is selected or the first one is, and otherwise the preceding one, which is on the playlist |
| AudioPlayer.PrevNextSongInverse | client/src/context/AudioContext.jsx:86-106 | Previous undoes Next and Next undoes Previous on a selected song |
| AudioPlayer.NextWalksPlaylist | client/src/context/AudioContext.jsx:86-95 | pressing Next from nothing selected plays the playlist in order and wraps to the first song after the last |
| AudioPlayer.Player.constructor | client/src/context/AudioContext.jsx:16-36 | the player starts with the given playlist, nothing selected and nothing playing |
| AudioPlayer.Player.TogglePlayPause | client/src/context/AudioContext.jsx:49-84 | without a selected song nothing changes. A playing song pauses. Otherwise the song plays exactly when there is an audio element and its play request succeeds |
| AudioPlayer.Player.PlaySong | client/src/context/AudioContext.jsx:38-47 | choosing the selected song toggles it; choosing another selects it and plays; a selection on the playlist stays on it |
| AudioPlayer.Player.PlayNext | client/src/context/AudioContext.jsx:86-95 | on an empty playlist nothing changes; otherwise the next song is selected and plays, and the selection stays on the playlist |
| AudioPlayer.Player.PlayPrevious | client/src/context/AudioContext.jsx:97-106 | on an empty playlist nothing changes; otherwise the previous song is selected and plays, and the selection stays on the playlist |
| Cors.WordLength | services/api-gateway/cors.js:17 | a configured value is cut at its first comma or white-space character |
| Cors.Tokens | services/api-gateway/cors.js:16-19 | the parsed pieces are non-empty and contain no comma or white space, and there are never more pieces than characters |
| Cors.TokensOfJoin | services/api-gateway/cors.js:16-19 | writing a list of such pieces out comma-separated and parsing it gives the list back |
| Cors.ToArray | services/api-gateway/cors.js:7-20 | an unset value gives nothing; a string is parsed into pieces; an array is flattened, each member parsed in turn |
| Cors.ToArrayAllAppend | services/api-gateway/cors.js:12-14 | an array parses to its members' pieces, in order |
| Cors.LocalhostAccepted | services/api-gateway/cors.js:22-23 | every origin made of http or https, localhost or 127.0.0.1 and an optional numeric port is recognised as local, in any letter case |
| Cors.LookAlikeRefused | services/api-gateway/cors.js:22-23 | a local host followed by anything other than a numeric port, such as a longer host name, is not recognised as local |
| Cors.SchemeHostRest | services/api-gateway/cors.js:22-23 | after http or https and a local host, the lower-cased origin matches exactly when what follows is empty or a numeric port |
| Cors.GatewayCheck | services/api-gateway/cors.js:38-48 | a request passes exactly when it has no origin, a local origin, or a listed one; otherwise it is refused with a message naming the origin |
| Cors.SharedCheck | services/shared/cors.js:30-40 | a request passes exactly when it has no origin or a listed one; the shared module accepts nothing the gateway refuses |
| Cors.ChatServiceCheck | services/chat-service/cors.js:26-34 | the chat service accepts exactly what the gateway accepts, refusing with a shorter message |
| Cors.IsOriginAllowed | server/config/allowedOrigins.js:38-39 | the monolith accepts exactly what the gateway accepts |
| Cors.LocalOriginOnlyAtGateway | services/shared/cors.js:30-40 | an unlisted local origin is where the copies part: the gateway accepts it and the shared module refuses it |
| Cors.AllowedOrigins | services/api-gateway/cors.js:25-30 | the parsed configuration when it yields any piece, otherwise the defaults |
| Cors.ConfiguredRaw | services/api-gateway/cors.js:26 | the origin list is read from ALLOWED_ORIGINS, falling back to ORIGIN when that is unset or empty |
| Cors.GatewayAllowedOrigins | services/api-gateway/cors.js:1-30 | the gateway's list is never empty and holds only parsed pieces or its three defaults |
| Cors.SharedAllowedOrigins | services/shared/cors.js:1-22 | the shared module's list is never empty and holds only parsed pieces or its single default |
| Cors.ConfiguredListUsed | services/api-gateway/cors.js:25-30 | a configured comma-separated list of origins is used exactly as written |
| Cors.OnlySeparatorsParseToNothing | services/api-gateway/cors.js:16-19 | a value made only of commas and white space parses to nothing |
| Cors.BlankListGivesDefaults | services/api-gateway/cors.js:26-29 | such a value in ALLOWED_ORIGINS gives the defaults, and ORIGIN is not consulted |
| Cors.PrimaryOrigin | services/api-gateway/cors.js:32 | the primary origin is the first allowed one |
| Cors.BuildCorsOptions | services/api-gateway/cors.js:34-53 | credentials are allowed and preflight answers 204 unless the caller overrides them |
| Cors.SocketOrigins | services/api-gateway/cors.js:55-60 | the socket server's list holds each allowed origin and each extra piece once, and nothing else; it starts with the first allowed origin |
| Cors.SocketOriginsOfDistinct | services/api-gateway/cors.js:55-60 | distinct allowed origins followed by new distinct extras are listed exactly as given |
| Cors.Sanitize | server/config/allowedOrigins.js:9 | a sanitized value holds no quote and is never longer than the input |
| Cors.SanitizeIdempotent | server/config/allowedOrigins.js:9 | sanitizing twice is the same as sanitizing once |
| Cors.SplitOrigins | server/config/allowedOrigins.js:11-15 | the monolith's pieces are non-empty and contain no comma or white space |
| Cors.ResolveAllowedOrigins | server/config/allowedOrigins.js:20-34 | an absent or empty value gives the fallback. An array is taken as it is, unless empty. A string gives its parsed pieces, or the fallback when there are none |
| Cors.ServerAllowedOrigins | server/config/allowedOrigins.js:21-36 | the monolith reads ORIGIN before ALLOWED_ORIGINS, the reverse of the services. Its list is never empty and is the defaults when neither variable is set |
| Cors.QuotedListParsed | server/config/allowedOrigins.js:9-15 | a quoted comma-separated list is read without its quotes |
| Cors.ChatServiceToArray | services/chat-service/cors.js:9-13 | an unset value gives nothing; every piece is non-empty and contains no comma or white space |
| Cors.ChatServiceAllowedOrigins | services/chat-service/cors.js:3-22 | the chat service's list is never empty and always equals the gateway's for the same environment |
| Cookies.InferCookieSecurity | services/auth-user-service/utils/cookies.js:3-9 | a non-empty COOKIE_SECURE decides alone, and only the exact text "true" means secure. Otherwise the server URL (SERVER_URL, else SERVER_PUBLIC_URL) decides: secure exactly when it starts with https://, in any letter case |
| Cookies.AuthCookieOptions | services/auth-user-service/utils/cookies.js:1-21 | the cookie lives three days and is HTTP-only; it is SameSite None exactly when secure, and Lax otherwise |
| Cookies.ClearAuthCookieOptions | services/auth-user-service/utils/cookies.js:23-26 | the clearing cookie keeps the same policy and security but lives one millisecond |
| Cookies.HttpsServerMeansSecure | services/auth-user-service/utils/cookies.js:7-8 | an https server address, written in any letter case, makes the cookie secure unless COOKIE_SECURE decides otherwise |

## Left out

- Transport: Socket.IO, its Redis adapter and HTTP routing. The registry is a map, and every emit is an entry in an effect log.
- Database queries, `populate` and aggregation are not modelled. Collections are sequences, and each lookup is a function over them. A lookup by a malformed id therefore finds nothing, where Mongoose's `findById` throws a cast error: the assistant trigger answers that with 500 (`AiController.js:74-79` in the media service), and the model with 404.
- AiController: the media service's controller imports its assistant helpers from `services/media-ai-service/helpers/aiAssistant.js`, which is not part of this model. The model uses the monolith's `server/services/aiAssistant.js` in its place.
- Concurrency: each handler runs to completion. The interleaving of awaits between handlers is not modelled, so the Redis compare-and-delete on disconnect is one atomic step.
- Foreign calls are parameters: password hashing, tokens, the generative API, the LiveKit SDK, image hosting, e-mail and OAuth.
- Clocks and randomness: time is an integer passed in, and generated ids are parameters.
- Floating point is not modelled: assistant temperature, audio volume and seek, upload progress.
- Photo files: deleting an uploaded file from disk is not modelled, and the stored image URL is a parameter.
- Scheduled jobs are not modelled (photo clean-up, migrations, seeds, load scripts), nor the internal events route and client.
- `JSON.parse` of queued messages is not modelled: the queue holds messages, not their JSON text.
- The generative API client's memo is not modelled; only the assistant account's memo is.
- String lengths count characters, not UTF-16 code units; the caption cap and preview cuts can differ on surrogate pairs.
- Case folding is ASCII-only: `toLowerCase` and the `/i` flag also fold non-ASCII letters, which the model leaves as they are.
- String order in room names is code-point order, which differs from JavaScript's UTF-16 order above the Basic Multilingual Plane.
- Falsy values: JavaScript's `null`, `undefined` and `""` are one value in the model, the empty string or `None`.
- Non-string content and non-array member lists are not modelled; the model's types rule them out.
- Configuration: environment values that are not strings are not modelled; an unset variable is "".
- AiAssistant.ConfigFrom: an unparsable history limit (`NaN`) is not modelled; the limit is an integer or unset.
- AiAssistant.AssistantStore: `getAssistantPublicProfile` is a projection of the account and is not modelled.
- BlockController: `getBlockedUsers` only lists the stored ids with their profiles and is not modelled. The monolith copy of the controller has the same logic and is modelled through the microservice copy.
- Group listing and search endpoints are not modelled: they read and project without changing anything.
- Contacts: `searchContacts` and `getAllContacts` are not modelled, for the same reason.
- AuthController.CapReachedRefuses: states the cap for a record that keeps its window start, which is the corrected behaviour; records as the program stores them never have one, so the program as written never reaches this refusal (see Findings).
- AuthController.AuthStore.Signup: the `retryAfter` field of the signup's 429 answer is not modelled; only the status and the message are.
- PhotoController.Paginate: a negative skip, which the database refuses, is modelled as a server error. A negative limit with a non-negative skip (page 1, or page 0 and below) is accepted: the page holds at most the limit's magnitude of photos (`LimitCount`, as MongoDB's `limit` treats a negative count) and `totalPages` is `Math.ceil` of a negative quotient (`CeilDiv`, at most 0); the contract does not state the page contents for that case beyond the bounds.
- PhotoController.Feed: the database sorts by creation time; the model takes the collection to be in creation order and reverses it.
- ChatWorker.Tick: a failed insert stores nothing. The model does not capture a partially applied `insertMany`.
- ChatWorker.Tick: it trims the entries it read rather than a fixed `BATCH_SIZE` (see Findings).
- ChatSlice: the group list's in-place `splice`/`unshift` is modelled as a new sequence assigned to the field; aliasing of that array with other holders is not modelled.
- ChatSlice and PhotoSlice: plain setters that only replace a field are not modelled.
- PhotoSlice.UpdatePhotos: only the like count and like state, the keys the socket handlers send, are modelled as updates.
- PhotoSlice.SortNewestFirst: it orders by timestamp, but the model does not claim that photos with equal timestamps keep the order `Array.prototype.sort` gives them. Null entries in a list are not modelled.
- PhotoSlice: `refreshFeed` and the feed page's own de-duplication are not modelled.
- LiveKit: track subscription events, ringtones, toasts and browser notifications are not modelled. Joining a room completes in one step.
- AudioPlayer.Player.TogglePlayPause: the play request settles before the next button press. The audio element's effects, seek and volume are not modelled.
- ChatPreview: message dates and their `moment` formatting are not modelled.
- ChatPreview.DirectPreview: a structured last message whose content is not a string is not modelled.
- SidebarProfile.SaveGroupInfo: the toast and the HTTP call itself are not modelled; the answer's status is a parameter.
- SidebarProfile.SaveGroupInfo: built on the corrected comparison `SaveGroupStep` (see Findings); the program as written compares the untrimmed edit, which `SaveStepAsWritten` models.
- SidebarProfile.SaveSettles: holds for the corrected comparison only; as written, re-saving the same edit settles exactly when the edit has no surrounding spaces (`SidebarProfile.AsWrittenSettlesOnlyWhenTrimmed`).
- Cors: the monolith computes its allowed list once, at module load. The model computes it from the environment given.
- Cors.BuildCorsOptions: overriding the `origin` callback itself is not modelled.
- Cors.SocketOrigins: `filter(Boolean)` removes nothing, since no parsed piece and no default is empty.
- Cors.ChatServiceAllowedOrigins: the branch for an array-valued variable cannot be reached, as environment values are strings.
- GroupControllers: modelled on the monolith's copy, `server/controllers/GroupControllers.js`, whose socket module exports the user → socket map (`server/socket.js:421`). The chat service's copy imports `getUserSocketMap` from its own socket module, which does not export it, so that copy cannot load. The model gives the controller the map directly.
- GroupControllers: the monolith's `server/helpers/groupPermissions.js` is not part of this model. Its blocking checks are modelled from the chat service's copy of that helper.

## Findings

| source | as written | input that shows it | evidently intended | confidence | as-written member | corrected member |
|---|---|---|---|---|---|---|
| services/auth-user-service/controllers/AuthController.js:521 | the window start is assigned to a field the pending-user schema does not declare, so it is never saved; every request finds no window, resets the count to 0 and passes the cap at line 525 | default limits (five per hour), six requests a minute apart: all six are mailed, each reporting four attempts remaining | keep the window start, so that the cap refuses the sixth resend within the hour | not executed | AuthController.AsWrittenCapNeverFires | AuthController.KeptWindowCapsResends |
| services/chat-service/chatWorker.js:27 | after storing a batch read by `lRange(0, 99)`, the tick trims a fixed `BATCH_SIZE` entries with `lTrim(100, -1)`, whatever the batch's length | queue `[m]` at the read, then a message `late` pushed before the trim: `m` is stored and `late` is trimmed without being stored | trim exactly the entries that were read and stored, so every queued message is stored once or stays queued | not executed | ChatWorker.ArrivalDuringShortBatchIsLost | ChatWorker.DrainCorrectedConserves |
| client/src/components/ChatPageComponents/LeftSidebarContactOrGroupProfile/index.jsx:62 | the untrimmed edit is compared with the current name, while the trimmed edit is sent | name "Team", edit "Team ": the unchanged name "Team" is sent, and sent again on every later save of that same edit | compare the trimmed edit, which is what is sent, so an unchanged name sends no request | not executed | SidebarProfile.AsWrittenResendsSameName | SidebarProfile.SaveGroupStep |
