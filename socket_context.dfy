/**
 * The client's socket event handlers: each event updates the chat, call
 * and photo stores. `me` is the signed-in user's id. Ringtones, toasts,
 * browser notifications and logging are outside the model.
 */
module SocketContext {
  import opened Common
  import opened ChatSlice
  import opened CallSlice
  import opened PhotoSlice
  import opened LiveKit

  // ---------------------------------------------------------------------
  // receiveMessage

  /**
   * What a direct message does to the open chat and the unread markers:
   * it stops with an error when the recipient is read but missing; it
   * opens when the open chat is its sender or recipient (and the other
   * party is marked read, `""` when unknown); otherwise the sender is
   * marked unread unless the message is one's own.
   */
  datatype DmRoute = Stopped | ShowAndRead(other: string) | MarkUnreadFrom(sender: string) | Ignored

  function RouteDirect(selectedType: Option<string>, selected: Option<ChatData>, me: string, m: ClientMessage): (r: DmRoute)
    ensures r.ShowAndRead? ==>
      selectedType.Some? && selected.Some? &&
      (selected.value.id == m.sender.id || (m.recipient.Some? && selected.value.id == m.recipient.value.id))
    ensures r.ShowAndRead? ==> r.other == (if m.sender.id != me then m.sender.id else if m.recipient.Some? then m.recipient.value.id else "")
    ensures r.MarkUnreadFrom? ==> r.sender == m.sender.id && m.sender.id != me
    ensures r.Stopped? <==> selectedType.Some? && selected.Some? && selected.value.id != m.sender.id && m.recipient.None?
    ensures r.Ignored? ==> m.sender.id == me
    ensures m.recipient.Some? && m.sender.id != me ==> r.ShowAndRead? || r == MarkUnreadFrom(m.sender.id)
  {
    var open := selectedType.Some? && selected.Some?;
    if open && selected.value.id != m.sender.id && m.recipient.None? then Stopped
    else if open && (selected.value.id == m.sender.id || selected.value.id == m.recipient.value.id) then
      ShowAndRead(if m.sender.id == me then (if m.recipient.Some? then m.recipient.value.id else "") else m.sender.id)
    else if m.sender.id != me then MarkUnreadFrom(m.sender.id)
    else Ignored
  }

  /** `handleReceiveMessage` */
  method HandleReceiveMessage(chat: ChatStore, me: string, m: ClientMessage, now: string)
    modifies chat`selectedChatMessages, chat`unreadChatIds, chat`directMessagesContacts
    ensures var route := RouteDirect(old(chat.selectedChatType), old(chat.selectedChatData), me, m);
      match route
      case Stopped =>
        chat.selectedChatMessages == old(chat.selectedChatMessages) && chat.unreadChatIds == old(chat.unreadChatIds) &&
        chat.directMessagesContacts == old(chat.directMessagesContacts)
      case ShowAndRead(other) =>
        chat.selectedChatMessages == WithMessage(old(chat.selectedChatMessages), m) &&
        chat.unreadChatIds == MarkRead(old(chat.unreadChatIds), other) &&
        chat.directMessagesContacts == UpsertContact(old(chat.directMessagesContacts), Some(me), m, now)
      case MarkUnreadFrom(sender) =>
        chat.selectedChatMessages == old(chat.selectedChatMessages) &&
        chat.unreadChatIds == MarkUnread(old(chat.unreadChatIds), sender) &&
        chat.directMessagesContacts == UpsertContact(old(chat.directMessagesContacts), Some(me), m, now)
      case Ignored =>
        chat.selectedChatMessages == old(chat.selectedChatMessages) && chat.unreadChatIds == old(chat.unreadChatIds) &&
        chat.directMessagesContacts == UpsertContact(old(chat.directMessagesContacts), Some(me), m, now)
  {
    var route := RouteDirect(chat.selectedChatType, chat.selectedChatData, me, m);
    match route {
      case Stopped =>
        return;
      case ShowAndRead(other) =>
        chat.AddMessage(m);
        chat.MarkChatAsRead(other);
      case MarkUnreadFrom(sender) =>
        chat.MarkChatAsUnread(sender);
      case Ignored =>
    }
    chat.AddContactsInDMContacts(Some(me), m, now);
  }

  // ---------------------------------------------------------------------
  // receiveGroupMessage, receiveGroupCreation, groupInfoUpdated

  /**
   * `handleReceiveGroupMessage`: a message to the open group is shown and
   * the group marked read; otherwise the group is marked unread unless
   * the message is one's own. The group then moves to the front; a
   * message without its group object stops there with an error.
   */
  method HandleReceiveGroupMessage(chat: ChatStore, me: string, m: ClientMessage)
    modifies chat`selectedChatMessages, chat`unreadGroupIds, chat`groups
    ensures var open := old(chat.selectedChatType).Some? && old(chat.selectedChatData).Some? &&
                        old(chat.selectedChatData).value.id == m.groupId;
      chat.selectedChatMessages == (if open then WithMessage(old(chat.selectedChatMessages), m) else old(chat.selectedChatMessages)) &&
      chat.unreadGroupIds == (if open then MarkRead(old(chat.unreadGroupIds), m.groupId)
                              else if m.sender.id != me then MarkUnread(old(chat.unreadGroupIds), m.groupId)
                              else old(chat.unreadGroupIds)) &&
      chat.groups == (if m.group.Some? then GroupToFront(old(chat.groups), m.group.value) else old(chat.groups))
  {
    if chat.selectedChatType.Some? && chat.selectedChatData.Some? && chat.selectedChatData.value.id == m.groupId {
      chat.AddMessage(m);
      chat.MarkGroupAsRead(m.groupId);
    } else if m.sender.id != me {
      chat.MarkGroupAsUnread(m.groupId);
    }
    if m.group.None? {
      return;
    }
    chat.SortGroupList(m.group.value);
  }

  /** `handleReceiveGroupCreation` */
  method HandleReceiveGroupCreation(chat: ChatStore, g: ChatData)
    modifies chat`groups
    ensures chat.groups == WithGroup(old(chat.groups), g)
  {
    chat.AddGroup(g);
  }

  /** The updates `groupInfoUpdated` passes on: name and image, each possibly `undefined`. */
  function GroupInfoUpdate(name: Option<string>, image: Option<string>): (u: GroupUpdate)
    ensures u.members.None? && u.fields.Keys == {"name", "image"}
    ensures u.fields["name"] == name && u.fields["image"] == image
  {
    GroupUpdate(map["name" := name, "image" := image], None)
  }

  /** `handleGroupInfoUpdated` */
  method HandleGroupInfoUpdated(chat: ChatStore, groupId: string, name: Option<string>, image: Option<string>)
    modifies chat`groups, chat`selectedChatData, chat`contactOrGroupProfile, chat`selectedChatMembers
    ensures chat.groups == UpdateGroups(old(chat.groups), groupId, GroupInfoUpdate(name, image))
    ensures chat.selectedChatData ==
      (if old(chat.selectedChatType) == Some("group") && old(chat.selectedChatData).Some? &&
          old(chat.selectedChatData).value.id == groupId
       then Some(Merge(old(chat.selectedChatData).value, GroupInfoUpdate(name, image)))
       else old(chat.selectedChatData))
    ensures chat.contactOrGroupProfile ==
      (if old(chat.contactOrGroupProfile).Some? && old(chat.contactOrGroupProfile).value.id == groupId
       then Some(Merge(old(chat.contactOrGroupProfile).value, GroupInfoUpdate(name, image)))
       else old(chat.contactOrGroupProfile))
    ensures chat.selectedChatMembers == old(chat.selectedChatMembers)
  {
    chat.UpdateGroupData(groupId, GroupInfoUpdate(name, image));
  }

  // ---------------------------------------------------------------------
  // receiveFriendRequest

  /** The request list after an incoming request: ignored when its email is already listed, otherwise first. */
  function WithRequest(requests: seq<RequestCard>, card: RequestCard): (r: seq<RequestCard>)
    ensures (exists k :: 0 <= k < |requests| && requests[k].email == card.email) ==> r == requests
    ensures (forall k :: 0 <= k < |requests| ==> requests[k].email != card.email) ==> r == [card] + requests
  {
    if exists k :: 0 <= k < |requests| && requests[k].email == card.email then requests else [card] + requests
  }

  /** The list never holds one email twice. */
  lemma WithRequestKeepsEmailsDistinct(requests: seq<RequestCard>, card: RequestCard)
    requires forall i, j :: 0 <= i < j < |requests| ==> requests[i].email != requests[j].email
    ensures var r := WithRequest(requests, card);
      forall i, j :: 0 <= i < j < |r| ==> r[i].email != r[j].email
  {
    var r := WithRequest(requests, card);
    if r != requests {
      forall i, j | 0 <= i < j < |r| ensures r[i].email != r[j].email {
        assert r[j] == requests[j - 1];
        if i > 0 {
          assert r[i] == requests[i - 1];
        }
      }
    }
  }

  /** `handleReceiveFriendRequest`: a new request goes first and the count becomes the old length plus one. */
  method HandleReceiveFriendRequest(chat: ChatStore, card: RequestCard)
    modifies chat`friendRequests, chat`friendRequestsCount
    ensures chat.friendRequests == WithRequest(old(chat.friendRequests), card)
    ensures chat.friendRequests != old(chat.friendRequests) ==> chat.friendRequestsCount == |old(chat.friendRequests)| + 1
    ensures chat.friendRequests == old(chat.friendRequests) ==> chat.friendRequestsCount == old(chat.friendRequestsCount)
  {
    var next := WithRequest(chat.friendRequests, card);
    if next != chat.friendRequests {
      chat.friendRequestsCount := |chat.friendRequests| + 1;
      chat.friendRequests := next;
    }
  }

  // ---------------------------------------------------------------------
  // Photo events

  /**
   * `handleNewPhotoUploaded`: a photo with an id and an owner joins the
   * feed, and the feed is marked for refresh unless the photo tab is
   * active; anything else is ignored.
   */
  method HandleNewPhotoUploaded(photos: PhotoFeedStore, photo: Option<FeedPhoto>, activeIcon: string)
    modifies photos`photos, photos`shouldRefetch
    ensures photo.Some? && photo.value.id != "" && photo.value.owner != "" ==>
      photos.photos == WithPhoto(old(photos.photos), photo.value) &&
      photos.shouldRefetch == (old(photos.shouldRefetch) || activeIcon != "photos")
    ensures !(photo.Some? && photo.value.id != "" && photo.value.owner != "") ==>
      photos.photos == old(photos.photos) && photos.shouldRefetch == old(photos.shouldRefetch)
  {
    if photo.Some? && photo.value.id != "" && photo.value.owner != "" {
      photos.AddPhoto(photo.value);
      if activeIcon != "photos" {
        photos.MarkFeedDirty();
      }
    }
  }

  /** `handlePhotoLiked` and `handlePhotoUnliked`: the server's count and like state are stored as sent. */
  method HandlePhotoLikeChanged(photos: PhotoFeedStore, photoId: string, likesCount: Option<int>, isLiked: Option<bool>)
    modifies photos`photos
    ensures photos.photos == UpdatePhotos(old(photos.photos), photoId, LikeUpdate(likesCount, isLiked))
  {
    photos.UpdatePhoto(photoId, LikeUpdate(likesCount, isLiked));
  }

  /** `handlePhotoDeleted` */
  method HandlePhotoDeleted(photos: PhotoFeedStore, photoId: string)
    modifies photos`photos
    ensures photos.photos == RemovePhotos(old(photos.photos), photoId)
  {
    photos.RemovePhoto(photoId);
  }

  // ---------------------------------------------------------------------
  // Call signalling

  /** `handleIncomingCall`: the call is now incoming, with the caller, id and type from the payload. */
  method HandleIncomingCall(call: CallStore, callType: Option<string>, from: Option<string>, callId: Option<string>)
    modifies call`callType, call`callPeerId, call`callId, call`callStatus
    ensures call.callStatus == CallIncoming && call.callType == callType && call.callPeerId == from && call.callId == callId
  {
    call.callType := callType;
    call.callPeerId := from;
    call.callId := callId;
    call.callStatus := CallIncoming;
  }

  /**
   * `handleCallAccepted`: the call is connecting, then both sides join the
   * direct room named by their two ids; a failed join is swallowed.
   */
  method HandleCallAccepted(call: CallStore, lk: LiveKitClient, me: string, from: string, tokenOk: bool, stream: Handle)
    modifies call`callStatus, call`localStream, lk`room, lk`roomsCreated, lk`published, lk`connections
    ensures tokenOk ==>
      lk.connections == old(lk.connections) + [DmRoomName(me, from)] && call.callStatus == CallActive &&
      call.localStream == Some(stream) && lk.room.Some? && (old(lk.room).Some? ==> lk.room == old(lk.room)) &&
      lk.published == old(lk.published) + (if old(call.callType) == Some("video") then ["audio", "video"] else ["audio"])
    ensures !tokenOk ==>
      lk.connections == old(lk.connections) && call.callStatus == CallConnecting &&
      call.localStream == old(call.localStream) && lk.room == old(lk.room) && lk.published == old(lk.published)
  {
    call.callStatus := CallConnecting;
    var _ := lk.JoinLiveKitRoom(DmRoomName(me, from), call.callType, tokenOk, call, stream);
  }

  /** `handleCallRejected` */
  method HandleCallRejected(call: CallStore)
    modifies call`callStatus, call`callType, call`callId, call`callPeerId, call`localStream,
             call`remoteStream, call`peerConnection, call`closedConnections, call`stoppedStreams
    ensures call.callStatus == CallIdle && call.callType.None? && call.callPeerId.None? && call.callId.None?
    ensures call.localStream.None? && call.remoteStream.None? && call.peerConnection.None?
    ensures call.closedConnections == old(call.closedConnections) + HandleSet(old(call.peerConnection))
    ensures call.stoppedStreams == old(call.stoppedStreams) + HandleSet(old(call.localStream))
  {
    call.ResetCall();
  }

  /** `handleCallEnded`: the room is left and the call reset. */
  method HandleCallEnded(call: CallStore, lk: LiveKitClient)
    modifies call`callStatus, call`callType, call`callId, call`callPeerId, call`localStream,
             call`remoteStream, call`peerConnection, call`closedConnections, call`stoppedStreams,
             lk`room, lk`disconnected
    ensures call.callStatus == CallIdle && call.callType.None? && call.callPeerId.None? && call.callId.None?
    ensures call.localStream.None? && call.remoteStream.None? && call.peerConnection.None?
    ensures call.closedConnections == old(call.closedConnections) + HandleSet(old(call.peerConnection))
    ensures call.stoppedStreams == old(call.stoppedStreams) + HandleSet(old(call.localStream))
    ensures lk.room.None? && lk.disconnected == old(lk.disconnected) + (if old(lk.room).Some? then [old(lk.room).value] else [])
  {
    lk.LeaveLiveKitRoom();
    call.ResetCall();
  }

  /** `handleGroupIncoming`: the group call is now incoming, with its group and type. */
  method HandleGroupIncoming(call: CallStore, callType: Option<string>, groupId: Option<string>)
    modifies call`callType, call`groupCallId, call`groupCallStatus
    ensures call.groupCallStatus == CallIncoming && call.callType == callType && call.groupCallId == groupId
  {
    call.callType := callType;
    call.groupCallId := groupId;
    call.groupCallStatus := CallIncoming;
  }

  /** `handleGroupEnded`: the room is left and the group call reset. */
  method HandleGroupEnded(call: CallStore, lk: LiveKitClient)
    modifies call`groupCallStatus, call`groupCallId, call`groupPeers, call`localStream,
             call`closedConnections, call`stoppedStreams, lk`room, lk`disconnected
    ensures call.groupCallStatus == CallIdle && call.groupCallId.None? && call.groupPeers == map[] && call.localStream.None?
    ensures call.closedConnections == old(call.closedConnections) + Connections(old(call.groupPeers))
    ensures call.stoppedStreams == old(call.stoppedStreams) + HandleSet(old(call.localStream))
    ensures lk.room.None? && lk.disconnected == old(lk.disconnected) + (if old(lk.room).Some? then [old(lk.room).value] else [])
  {
    lk.LeaveLiveKitRoom();
    call.ResetGroupCall();
  }
}
