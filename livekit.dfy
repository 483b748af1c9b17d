/**
 * Room naming for calls and the single LiveKit room the client keeps for
 * the active call. The room SDK, the token request and the media devices
 * are outside the model: a room is an opaque number, the token request's
 * outcome is a parameter.
 */
module LiveKit {
  import opened Common
  import opened CallSlice

  /** JavaScript's default string order: character by character, a proper prefix first. */
  predicate StrLess(a: string, b: string) {
    if a == [] then b != []
    else if b == [] then false
    else if a[0] != b[0] then a[0] < b[0]
    else StrLess(a[1..], b[1..])
  }

  /** Any two different strings are ordered one way. */
  lemma {:induction false} StrLessTotal(a: string, b: string)
    ensures a == b || StrLess(a, b) || StrLess(b, a)
  {
    if a != [] && b != [] && a[0] == b[0] {
      StrLessTotal(a[1..], b[1..]);
      if a[1..] == b[1..] {
        assert a == [a[0]] + a[1..] && b == [b[0]] + b[1..];
      }
    }
  }

  /** ... and never both ways. */
  lemma {:induction false} StrLessAsymmetric(a: string, b: string)
    ensures !(StrLess(a, b) && StrLess(b, a))
  {
    if a != [] && b != [] && a[0] == b[0] {
      StrLessAsymmetric(a[1..], b[1..]);
    }
  }

  /** `dmRoomName(a, b)`: "dm-", the lesser id, "-", the greater id. */
  function DmRoomName(a: string, b: string): (r: string)
    ensures !StrLess(b, a) ==> r == "dm-" + a + "-" + b
    ensures StrLess(b, a) ==> r == "dm-" + b + "-" + a
  {
    if StrLess(b, a) then "dm-" + b + "-" + a else "dm-" + a + "-" + b
  }

  /** Both sides of a call compute the same room. */
  lemma DmRoomNameSymmetric(a: string, b: string)
    ensures DmRoomName(a, b) == DmRoomName(b, a)
  {
    StrLessTotal(a, b);
    StrLessAsymmetric(a, b);
  }

  /** `groupRoomName` */
  function GroupRoomName(groupId: string): (r: string)
    ensures |r| == |groupId| + 6 && r[..6] == "group-" && r[6..] == groupId
  {
    "group-" + groupId
  }

  /** Group rooms and direct rooms never share a name. */
  lemma GroupAndDmRoomsDiffer(groupId: string, a: string, b: string)
    ensures GroupRoomName(groupId) != DmRoomName(a, b)
  {
    assert GroupRoomName(groupId)[0] == 'g';
    assert DmRoomName(a, b)[0] == 'd';
  }

  type Room = nat

  class LiveKitClient {
    /** The module-level `room`. */
    var room: Option<Room>
    /** Rooms created so far are numbered from 0. */
    var roomsCreated: nat
    /** Rooms that were disconnected, in order. */
    var disconnected: seq<Room>
    /** The kinds of the local tracks published, in order. */
    var published: seq<string>
    /** The room names connected to, in order (the token names the room). */
    var connections: seq<string>

    constructor ()
      ensures room.None? && roomsCreated == 0 && disconnected == [] && published == [] && connections == []
    {
      connections := [];
      room := None;
      roomsCreated := 0;
      disconnected := [];
      published := [];
    }

    /** `ensureRoom`: the existing room is reused; only without one is a new room made. */
    method EnsureRoom() returns (r: Room)
      modifies this`room, this`roomsCreated
      ensures old(room).Some? ==> r == old(room).value && room == old(room) && roomsCreated == old(roomsCreated)
      ensures old(room).None? ==> r == old(roomsCreated) && room == Some(r) && roomsCreated == old(roomsCreated) + 1
    {
      if room.None? {
        room := Some(roomsCreated);
        roomsCreated := roomsCreated + 1;
      }
      r := room.value;
    }

    /**
     * `joinLiveKitRoom`: without a token nothing happens (the promise
     * rejects). Otherwise the room is ensured, a microphone track is
     * published, and a camera track too for a video call; the local stream
     * `stream` is stored and the call becomes active.
     */
    method JoinLiveKitRoom(roomName: string, callType: Option<string>, tokenOk: bool, call: CallStore, stream: Handle)
      returns (joined: Option<Room>)
      modifies this`room, this`roomsCreated, this`published, this`connections, call`localStream, call`callStatus
      ensures !tokenOk ==>
                joined.None? && room == old(room) && published == old(published) && connections == old(connections) &&
                call.localStream == old(call.localStream) && call.callStatus == old(call.callStatus)
      ensures tokenOk ==>
                joined.Some? && room == joined && connections == old(connections) + [roomName] &&
                (old(room).Some? ==> joined == old(room)) &&
                published == old(published) + (if callType == Some("video") then ["audio", "video"] else ["audio"]) &&
                call.localStream == Some(stream) && call.callStatus == CallActive
    {
      if !tokenOk {
        return None;
      }
      var r := EnsureRoom();
      connections := connections + [roomName];
      published := published + ["audio"];
      if callType == Some("video") {
        published := published + ["video"];
      }
      call.localStream := Some(stream);
      call.callStatus := CallActive;
      return Some(r);
    }

    /** `leaveLiveKitRoom`: the room, if any, is disconnected and forgotten. */
    method LeaveLiveKitRoom()
      modifies this`room, this`disconnected
      ensures room.None?
      ensures disconnected == old(disconnected) + (if old(room).Some? then [old(room).value] else [])
    {
      if room.Some? {
        disconnected := disconnected + [room.value];
      }
      room := None;
    }
  }
}
