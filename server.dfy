/** The server's mutable state as the source keeps it: the global `rooms`
    dictionary, updated in place by the handlers, and the room-channel
    subscriptions that `socket.join` / `socket.leave` maintain. Each method
    is one room handler, written statement by statement, and is proved to
    do what the corresponding function of Handlers says. */
module Server {
  import opened Protocol
  import opened Handlers
  import Relay

  class Registry {
    var rooms: map<RoomId, Room>
    var channels: Channels

    /** The registry as a value. */
    function Snapshot(): State
      reads this
    {
      State(rooms, channels)
    }

    /** A server that has not seen any request. */
    constructor ()
      ensures Snapshot() == State(map[], map[]) && Inv(Snapshot())
    {
      rooms := map[];
      channels := map[];
    }

    method CreateRoom(sender: ConnId, user: User, newId: RoomId) returns (events: seq<Event>)
      modifies this
      ensures Inv(old(Snapshot())) ==> Inv(Snapshot())
      ensures Outcome(Snapshot(), events, false) == Handlers.CreateRoom(old(Snapshot()), sender, user, newId)
    {
      rooms := rooms[newId := Room(user, None, false)];
      channels := Subscribe(channels, newId, sender);
      events := [Emit(channels, sender, Sender, RoomCreated(newId))];
    }

    method JoinRoom(sender: ConnId, roomId: RoomId, user: User) returns (events: seq<Event>)
      modifies this
      ensures Inv(old(Snapshot())) ==> Inv(Snapshot())
      ensures Outcome(Snapshot(), events, false) == Handlers.JoinRoom(old(Snapshot()), sender, roomId, user)
    {
      if roomId in rooms {
        if rooms[roomId].participant.Some? {
          events := [Emit(channels, sender, Sender, RoomFull(RoomFullText))];
        } else {
          rooms := rooms[roomId := rooms[roomId].(participant := Some(user))];
          channels := Subscribe(channels, roomId, sender);
          events := [Emit(channels, sender, Sender, RoomJoined(roomId, rooms[roomId].host, rooms[roomId].meetingStarted))];
          events := events + [Emit(channels, sender, RoomButSender(roomId), ParticipantJoined(user, sender))];
        }
      } else {
        events := [Emit(channels, sender, Sender, Error(RoomNotFound))];
      }
    }

    method RequestRoomInfo(sender: ConnId, roomId: RoomId) returns (events: seq<Event>)
      ensures Outcome(Snapshot(), events, false) == Handlers.RequestRoomInfo(Snapshot(), sender, roomId)
    {
      if roomId in rooms {
        var room := rooms[roomId];
        events := [Emit(channels, sender, Sender, RoomInfo(roomId, room.host, room.participant, room.meetingStarted))];
      } else {
        events := [Emit(channels, sender, Sender, Error(RoomNotFound))];
      }
    }

    method StartMeeting(sender: ConnId, roomId: RoomId) returns (events: seq<Event>)
      modifies this
      ensures Inv(old(Snapshot())) ==> Inv(Snapshot())
      ensures Outcome(Snapshot(), events, false) == Handlers.StartMeeting(old(Snapshot()), sender, roomId)
    {
      events := [];
      if roomId in rooms {
        rooms := rooms[roomId := rooms[roomId].(meetingStarted := true)];
        events := [Emit(channels, sender, WholeRoom(roomId), MeetingStarted)];
      }
    }

    method LeaveMeeting(sender: ConnId, roomId: RoomId, username: string) returns (events: seq<Event>)
      modifies this
      ensures Inv(old(Snapshot())) ==> Inv(Snapshot())
      ensures Outcome(Snapshot(), events, false) == Handlers.LeaveMeeting(old(Snapshot()), sender, roomId)
    {
      events := [];
      if roomId in rooms {
        events := [Emit(channels, sender, WholeRoom(roomId), MeetingEnded)];
        rooms := rooms - {roomId};
      }
      channels := Unsubscribe(channels, roomId, sender);
    }

    method RequestStart(sender: ConnId, roomId: RoomId, to: ConnId) returns (events: seq<Event>)
      ensures Outcome(Snapshot(), events, false) == Handlers.RequestStart(Snapshot(), roomId, to)
    {
      events := [];
      if roomId in rooms {
        events := [Direct(channels, to, StartMeetingRequest)];
      }
    }

    method AcceptMeeting(sender: ConnId, roomId: RoomId, to: ConnId) returns (events: seq<Event>)
      modifies this
      ensures Inv(old(Snapshot())) ==> Inv(Snapshot())
      ensures Outcome(Snapshot(), events, false) == Handlers.AcceptMeeting(old(Snapshot()), sender, roomId, to)
    {
      events := [];
      if roomId in rooms {
        rooms := rooms[roomId := rooms[roomId].(meetingStarted := true)];
        events := [Direct(channels, to, MeetingAccepted)];
        events := events + [Emit(channels, sender, WholeRoom(roomId), MeetingStarted)];
      }
    }

    method DeclineMeeting(sender: ConnId, roomId: RoomId, to: ConnId) returns (events: seq<Event>)
      ensures Outcome(Snapshot(), events, false) == Handlers.DeclineMeeting(Snapshot(), roomId, to)
    {
      events := [];
      if roomId in rooms {
        events := [Direct(channels, to, MeetingDeclined)];
      }
    }

    method ToggleMedia(sender: ConnId, roomId: RoomId, kind: string, enabled: bool)
      returns (events: seq<Event>, threw: bool)
      ensures Outcome(Snapshot(), events, threw) == Handlers.ToggleMedia(Snapshot(), sender, roomId, kind, enabled)
    {
      events, threw := [], false;
      if roomId in rooms {
        var room := rooms[roomId];
        if room.host.id == sender {
          events := [Emit(channels, sender, WholeRoom(roomId), MediaToggle(kind, enabled, room.host.username))];
        } else if room.participant.None? {
          threw := true;  // `null.username`
        } else {
          events := [Emit(channels, sender, WholeRoom(roomId), MediaToggle(kind, enabled, room.participant.value.username))];
        }
      }
    }
  }

  /** A client of the class: two users meet, a third is turned away, the
      meeting starts, a file goes across, the meeting ends, and the room is
      gone afterwards. */
  method TwoPartyMeeting(alice: ConnId, bob: ConnId, carol: ConnId, r: RoomId, notes: Blob)
    requires alice != bob && bob != r
  {
    var reg := new Registry();
    var a := User(alice, "Alice");
    var b := User(bob, "Bob");

    var es := reg.CreateRoom(alice, a, r);
    assert es == [Reply(alice, RoomCreated(r))];

    es := reg.JoinRoom(bob, r, b);
    assert es[0] == Reply(bob, RoomJoined(r, a, false));
    assert es[1].audience == {alice} && es[1].msg == ParticipantJoined(b, bob);
    assert Members(reg.channels, r) == {alice, bob};

    es := reg.JoinRoom(carol, r, User(carol, "Carol"));
    assert es == [Reply(carol, RoomFull(RoomFullText))];

    es := reg.StartMeeting(alice, r);
    assert es == [Event(WholeRoom(r), {alice, bob}, MeetingStarted)];
    es := reg.RequestRoomInfo(bob, r);
    assert es == [Reply(bob, RoomInfo(r, a, Some(b), true))];

    var threw;
    es, threw := reg.ToggleMedia(alice, r, "video", false);
    assert !threw && es == [Event(WholeRoom(r), {alice, bob}, MediaToggle("video", false, "Alice"))];

    // `io.to(to)` with a room id for `to` reaches that room's whole channel
    assert Members(reg.channels, r) == {alice, bob};
    assert {r} + Members(reg.channels, r) == {r, alice, bob};
    es := reg.RequestStart(alice, r, r);
    assert es == [Event(Conn(r), {r, alice, bob}, StartMeetingRequest)];

    assert {bob} + Members(reg.channels, bob) == {bob};
    es := Relay.SendFile(reg.channels, alice, bob, "notes.txt", notes);
    assert es == [Event(Conn(bob), {bob}, FileReceived("notes.txt", notes)), Reply(alice, FileSent)];

    es := reg.LeaveMeeting(alice, r, "Alice");
    assert es == [Event(WholeRoom(r), {alice, bob}, MeetingEnded)];
    es := reg.RequestRoomInfo(bob, r);
    assert es == [Reply(bob, Error(RoomNotFound))];
  }
}
