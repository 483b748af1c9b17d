/**
 * The client's call store: the state of a one-to-one call and of a group
 * (mesh) call, with one peer connection and stream per group participant.
 * Media objects are opaque handles; closing a connection or stopping a
 * stream's tracks is recorded in the sets `closedConnections` and
 * `stoppedStreams`.
 */
module CallSlice {
  import opened Common

  const CallIdle := "idle"
  const CallIncoming := "incoming"
  const CallRinging := "ringing"
  const CallConnecting := "connecting"
  const CallActive := "in-call"

  /** A peer connection or a media stream. */
  type Handle = nat

  /** One group participant's entry; a missing key is `None`. */
  datatype GroupPeer = GroupPeer(pc: Option<Handle>, stream: Option<Handle>)

  /** `{ ...(peers[userId] || {}), ...data }`: the keys `data` carries win, the others are kept. */
  function MergePeer(existing: Option<GroupPeer>, data: GroupPeer): (r: GroupPeer)
    ensures data.pc.Some? ==> r.pc == data.pc
    ensures data.stream.Some? ==> r.stream == data.stream
    ensures data.pc.None? ==> r.pc == (if existing.Some? then existing.value.pc else None)
    ensures data.stream.None? ==> r.stream == (if existing.Some? then existing.value.stream else None)
  {
    var old_ := if existing.Some? then existing.value else GroupPeer(None, None);
    GroupPeer(if data.pc.Some? then data.pc else old_.pc, if data.stream.Some? then data.stream else old_.stream)
  }

  function Lookup(peers: map<string, GroupPeer>, userId: string): Option<GroupPeer> {
    if userId in peers then Some(peers[userId]) else None
  }

  /** The peers after `setGroupPeer`: only the entry of `userId` changes, by a merge. */
  function SetPeer(peers: map<string, GroupPeer>, userId: string, data: GroupPeer): (r: map<string, GroupPeer>)
    ensures r.Keys == peers.Keys + {userId}
    ensures r[userId] == MergePeer(Lookup(peers, userId), data)
    ensures forall u :: u in peers && u != userId ==> r[u] == peers[u]
  {
    peers[userId := MergePeer(Lookup(peers, userId), data)]
  }

  /** The peers after `removeGroupPeer`: only the key `userId` goes. */
  function RemovePeer(peers: map<string, GroupPeer>, userId: string): (r: map<string, GroupPeer>)
    ensures r.Keys == peers.Keys - {userId}
    ensures forall u :: u in r ==> r[u] == peers[u]
  {
    peers - {userId}
  }

  /** Setting the same data twice is setting it once. */
  lemma SetPeerIdempotent(peers: map<string, GroupPeer>, userId: string, data: GroupPeer)
    ensures SetPeer(SetPeer(peers, userId, data), userId, data) == SetPeer(peers, userId, data)
  {
    var once := SetPeer(peers, userId, data);
    assert MergePeer(Lookup(once, userId), data) == once[userId];
  }

  /** Removing a participant who had just joined restores the peers. */
  lemma RemovePeerUndoesSetPeer(peers: map<string, GroupPeer>, userId: string, data: GroupPeer)
    requires userId !in peers
    ensures RemovePeer(SetPeer(peers, userId, data), userId) == peers
  {
    assert RemovePeer(SetPeer(peers, userId, data), userId).Keys == peers.Keys;
  }

  /** The connections of all peers (`Object.values(peers)` with a `pc`). */
  function Connections(peers: map<string, GroupPeer>): (r: set<Handle>)
    ensures forall u :: u in peers && peers[u].pc.Some? ==> peers[u].pc.value in r
    ensures forall h :: h in r ==> exists u :: u in peers && peers[u].pc == Some(h)
  {
    set u | u in peers && peers[u].pc.Some? :: peers[u].pc.value
  }

  function HandleSet(h: Option<Handle>): set<Handle> {
    if h.Some? then {h.value} else {}
  }

  class CallStore {
    var callStatus: string
    var callType: Option<string>
    var callId: Option<string>
    var callPeerId: Option<string>
    var localStream: Option<Handle>
    var remoteStream: Option<Handle>
    var peerConnection: Option<Handle>
    var groupCallStatus: string
    var groupCallId: Option<string>
    var groupPeers: map<string, GroupPeer>
    var closedConnections: set<Handle>
    var stoppedStreams: set<Handle>

    /** No call: both statuses idle, nothing held. */
    predicate Idle()
      reads this
    {
      callStatus == CallIdle && callType.None? && callId.None? && callPeerId.None? &&
      localStream.None? && remoteStream.None? && peerConnection.None? &&
      groupCallStatus == CallIdle && groupCallId.None? && groupPeers == map[]
    }

    constructor ()
      ensures Idle() && closedConnections == {} && stoppedStreams == {}
    {
      callStatus := CallIdle;
      callType := None;
      callId := None;
      callPeerId := None;
      localStream := None;
      remoteStream := None;
      peerConnection := None;
      groupCallStatus := CallIdle;
      groupCallId := None;
      groupPeers := map[];
      closedConnections := {};
      stoppedStreams := {};
    }

    /**
     * `resetCall`: the connection is closed and the local tracks stopped,
     * then every one-to-one call field is cleared; the group call is left
     * as it is.
     */
    method ResetCall()
      modifies this`callStatus, this`callType, this`callId, this`callPeerId, this`localStream,
               this`remoteStream, this`peerConnection, this`closedConnections, this`stoppedStreams
      ensures callStatus == CallIdle && callType.None? && callId.None? && callPeerId.None?
      ensures localStream.None? && remoteStream.None? && peerConnection.None?
      ensures closedConnections == old(closedConnections) + HandleSet(old(peerConnection))
      ensures stoppedStreams == old(stoppedStreams) + HandleSet(old(localStream))
    {
      closedConnections := closedConnections + HandleSet(peerConnection);
      stoppedStreams := stoppedStreams + HandleSet(localStream);
      callStatus := CallIdle;
      callType := None;
      callId := None;
      callPeerId := None;
      localStream := None;
      remoteStream := None;
      peerConnection := None;
    }

    /** `setGroupPeer` */
    method SetGroupPeer(userId: string, data: GroupPeer)
      modifies this`groupPeers
      ensures groupPeers == SetPeer(old(groupPeers), userId, data)
    {
      groupPeers := SetPeer(groupPeers, userId, data);
    }

    /** `removeGroupPeer`: that participant's connection is closed and the key deleted. */
    method RemoveGroupPeer(userId: string)
      modifies this`groupPeers, this`closedConnections
      ensures groupPeers == RemovePeer(old(groupPeers), userId)
      ensures closedConnections == old(closedConnections) + (if userId in old(groupPeers) then HandleSet(old(groupPeers)[userId].pc) else {})
    {
      if userId in groupPeers {
        closedConnections := closedConnections + HandleSet(groupPeers[userId].pc);
      }
      groupPeers := RemovePeer(groupPeers, userId);
    }

    /**
     * `resetGroupCall`: every participant's connection is closed, the local
     * tracks stopped, and the group status, id, peers and local stream
     * cleared; the one-to-one fields other than the local stream are kept.
     */
    method ResetGroupCall()
      modifies this`groupCallStatus, this`groupCallId, this`groupPeers, this`localStream,
               this`closedConnections, this`stoppedStreams
      ensures groupCallStatus == CallIdle && groupCallId.None? && groupPeers == map[] && localStream.None?
      ensures closedConnections == old(closedConnections) + Connections(old(groupPeers))
      ensures stoppedStreams == old(stoppedStreams) + HandleSet(old(localStream))
    {
      closedConnections := closedConnections + Connections(groupPeers);
      stoppedStreams := stoppedStreams + HandleSet(localStream);
      groupCallStatus := CallIdle;
      groupCallId := None;
      groupPeers := map[];
      localStream := None;
    }
  }
}
