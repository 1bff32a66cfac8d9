/** The room handlers of the server, one function per `socket.on` handler
    that reads or writes the `rooms` dictionary, over a value holding that
    dictionary and the room-channel subscriptions. Each returns the new
    state and the events it emits, in order. `Step` dispatches an inbound
    request by name, the relays included. */
module Handlers {
  import opened Protocol
  import Relay

  /** The shared state: the `rooms` dictionary and the room channels. */
  datatype State = State(rooms: map<RoomId, Room>, channels: Channels)

  /** What a handler leaves behind. `threw` is set when the handler dies with a
      TypeError before it has emitted or written anything. */
  datatype Outcome = Outcome(state: State, events: seq<Event>, threw: bool)

  /** Room `q`, or its absence, and its channel are the same in `s` and `t`. */
  ghost predicate UnchangedAt(s: State, t: State, q: RoomId) {
    && (q in s.rooms <==> q in t.rooms)
    && (q in s.rooms ==> s.rooms[q] == t.rooms[q])
    && Members(s.channels, q) == Members(t.channels, q)
  }

  /** Going from `s` to `t` wrote no room and no channel except `r`. */
  ghost predicate OnlyTouches(s: State, t: State, r: RoomId) {
    forall q :: q != r ==> UnchangedAt(s, t, q)
  }

  /** How a room record may evolve while the room lives: the host never
      changes, a filled seat keeps its occupant, a started meeting stays started. */
  ghost predicate Persists(a: Room, b: Room) {
    && b.host == a.host
    && (a.participant.Some? ==> b.participant == a.participant)
    && (a.meetingStarted ==> b.meetingStarted)
  }

  /** Every live room has at least one subscriber on its channel. */
  ghost predicate Inv(s: State) {
    forall r :: r in s.rooms ==> Members(s.channels, r) != {}
  }

  /** `create:room`: store a fresh record under `newId` (overwriting whatever
      was there: the id is not checked), subscribe the sender, answer it. */
  function CreateRoom(s: State, sender: ConnId, user: User, newId: RoomId): (o: Outcome)
    ensures newId in o.state.rooms && o.state.rooms[newId] == Room(user, None, false)
    ensures Members(o.state.channels, newId) == Members(s.channels, newId) + {sender}
    ensures OnlyTouches(s, o.state, newId)
    ensures o.events == [Reply(sender, RoomCreated(newId))] && !o.threw
  {
    var t := State(s.rooms[newId := Room(user, None, false)], Subscribe(s.channels, newId, sender));
    Outcome(t, [Emit(t.channels, sender, Sender, RoomCreated(newId))], false)
  }

  /** `join:room`: fill the empty participant seat, or refuse. A refusal
      changes nothing and answers the sender alone. */
  function JoinRoom(s: State, sender: ConnId, roomId: RoomId, user: User): (o: Outcome)
    ensures !o.threw && OnlyTouches(s, o.state, roomId)
    ensures roomId !in s.rooms ==>
      o.state == s && o.events == [Reply(sender, Error(RoomNotFound))]
    ensures roomId in s.rooms && s.rooms[roomId].participant.Some? ==>
      o.state == s && o.events == [Reply(sender, RoomFull(RoomFullText))]
    ensures roomId in s.rooms && s.rooms[roomId].participant.None? ==>
      && roomId in o.state.rooms
      && o.state.rooms[roomId].participant == Some(user)
      && o.state.rooms[roomId].host == s.rooms[roomId].host
      && o.state.rooms[roomId].meetingStarted == s.rooms[roomId].meetingStarted
      && Members(o.state.channels, roomId) == Members(s.channels, roomId) + {sender}
      && o.events == [
           Reply(sender, RoomJoined(roomId, s.rooms[roomId].host, s.rooms[roomId].meetingStarted)),
           Event(RoomButSender(roomId), Members(s.channels, roomId) - {sender}, ParticipantJoined(user, sender))]
  {
    if roomId !in s.rooms then
      Outcome(s, [Emit(s.channels, sender, Sender, Error(RoomNotFound))], false)
    else if s.rooms[roomId].participant.Some? then
      Outcome(s, [Emit(s.channels, sender, Sender, RoomFull(RoomFullText))], false)
    else
      var rooms := s.rooms[roomId := s.rooms[roomId].(participant := Some(user))];
      var ch := Subscribe(s.channels, roomId, sender);
      var joined := RoomJoined(roomId, rooms[roomId].host, rooms[roomId].meetingStarted);
      // subscribing the sender first does not change who else hears of the join
      assert Members(ch, roomId) - {sender} == Members(s.channels, roomId) - {sender};
      Outcome(State(rooms, ch),
              [Emit(ch, sender, Sender, joined),
               Emit(ch, sender, RoomButSender(roomId), ParticipantJoined(user, sender))],
              false)
  }

  /** `request:room:info`: report the stored record to the sender, or that there is none. */
  function RequestRoomInfo(s: State, sender: ConnId, roomId: RoomId): (o: Outcome)
    ensures o.state == s && !o.threw && |o.events| == 1 && o.events[0].to == Sender
    ensures roomId in s.rooms ==>
      var room := s.rooms[roomId];
      o.events[0] == Reply(sender, RoomInfo(roomId, room.host, room.participant, room.meetingStarted))
    ensures roomId !in s.rooms ==> o.events[0] == Reply(sender, Error(RoomNotFound))
  {
    if roomId in s.rooms then
      var room := s.rooms[roomId];
      Outcome(s, [Emit(s.channels, sender, Sender,
                       RoomInfo(roomId, room.host, room.participant, room.meetingStarted))], false)
    else
      Outcome(s, [Emit(s.channels, sender, Sender, Error(RoomNotFound))], false)
  }

  /** `meeting:start`: mark the meeting started and tell the whole room;
      silently nothing for an unknown room. */
  function StartMeeting(s: State, sender: ConnId, roomId: RoomId): (o: Outcome)
    ensures !o.threw && o.state.channels == s.channels && OnlyTouches(s, o.state, roomId)
    ensures roomId !in s.rooms ==> o.state == s && o.events == []
    ensures roomId in s.rooms ==>
      && roomId in o.state.rooms
      && o.state.rooms[roomId] == s.rooms[roomId].(meetingStarted := true)
      && o.events == [Event(WholeRoom(roomId), Members(s.channels, roomId), MeetingStarted)]
  {
    if roomId in s.rooms then
      var rooms := s.rooms[roomId := s.rooms[roomId].(meetingStarted := true)];
      Outcome(State(rooms, s.channels), [Emit(s.channels, sender, WholeRoom(roomId), MeetingStarted)], false)
    else
      Outcome(s, [], false)
  }

  /** `leave:meeting`: tell the room the meeting ended while every member is
      still subscribed, delete the record, then unsubscribe the sender, the
      last step whether or not the room existed. */
  function LeaveMeeting(s: State, sender: ConnId, roomId: RoomId): (o: Outcome)
    ensures !o.threw && roomId !in o.state.rooms && OnlyTouches(s, o.state, roomId)
    ensures Members(o.state.channels, roomId) == Members(s.channels, roomId) - {sender}
    ensures roomId in s.rooms ==>
      o.events == [Event(WholeRoom(roomId), Members(s.channels, roomId), MeetingEnded)]
    ensures roomId !in s.rooms ==> o.events == [] && o.state.rooms == s.rooms
  {
    var events := if roomId in s.rooms then [Emit(s.channels, sender, WholeRoom(roomId), MeetingEnded)] else [];
    var rooms := if roomId in s.rooms then s.rooms - {roomId} else s.rooms;
    Outcome(State(rooms, Unsubscribe(s.channels, roomId, sender)), events, false)
  }

  /** `start:meeting:request`: pass the request on to `to` if the room exists. */
  function RequestStart(s: State, roomId: RoomId, to: ConnId): (o: Outcome)
    ensures o.state == s && !o.threw
    ensures roomId in s.rooms ==>
      o.events == [Event(Conn(to), {to} + Members(s.channels, to), StartMeetingRequest)]
    ensures roomId !in s.rooms ==> o.events == []
  {
    Outcome(s, if roomId in s.rooms then [Direct(s.channels, to, StartMeetingRequest)] else [], false)
  }

  /** `meeting:accepted`: the same state change and broadcast as `meeting:start`,
      preceded by an acceptance notice to `to`. */
  function AcceptMeeting(s: State, sender: ConnId, roomId: RoomId, to: ConnId): (o: Outcome)
    ensures o.state == StartMeeting(s, sender, roomId).state && !o.threw
    ensures roomId in s.rooms ==>
      o.events == [Event(Conn(to), {to} + Members(s.channels, to), MeetingAccepted)]
                  + StartMeeting(s, sender, roomId).events
    ensures roomId !in s.rooms ==> o.events == []
  {
    if roomId in s.rooms then
      var rooms := s.rooms[roomId := s.rooms[roomId].(meetingStarted := true)];
      Outcome(State(rooms, s.channels),
              [Direct(s.channels, to, MeetingAccepted),
               Emit(s.channels, sender, WholeRoom(roomId), MeetingStarted)],
              false)
    else
      Outcome(s, [], false)
  }

  /** `meeting:declined`: pass the refusal on to `to` if the room exists. */
  function DeclineMeeting(s: State, roomId: RoomId, to: ConnId): (o: Outcome)
    ensures o.state == s && !o.threw
    ensures roomId in s.rooms ==>
      o.events == [Event(Conn(to), {to} + Members(s.channels, to), MeetingDeclined)]
    ensures roomId !in s.rooms ==> o.events == []
  {
    Outcome(s, if roomId in s.rooms then [Direct(s.channels, to, MeetingDeclined)] else [], false)
  }

  /** `media:toggle`: broadcast the sender's media state under a display name:
      the host's if the sender's id is the stored host id, the participant's
      otherwise. With no participant that second lookup dereferences `null`
      and the handler throws. */
  function ToggleMedia(s: State, sender: ConnId, roomId: RoomId, kind: string, enabled: bool): (o: Outcome)
    ensures o.state == s
    ensures o.threw <==>
      roomId in s.rooms && s.rooms[roomId].host.id != sender && s.rooms[roomId].participant.None?
    ensures roomId !in s.rooms || o.threw ==> o.events == []
    ensures roomId in s.rooms && s.rooms[roomId].host.id == sender ==>
      o.events == [Event(WholeRoom(roomId), Members(s.channels, roomId),
                         MediaToggle(kind, enabled, s.rooms[roomId].host.username))]
    ensures roomId in s.rooms && s.rooms[roomId].host.id != sender && s.rooms[roomId].participant.Some? ==>
      o.events == [Event(WholeRoom(roomId), Members(s.channels, roomId),
                         MediaToggle(kind, enabled, s.rooms[roomId].participant.value.username))]
  {
    if roomId !in s.rooms then
      Outcome(s, [], false)
    else
      var room := s.rooms[roomId];
      if room.host.id == sender then
        Outcome(s, [Emit(s.channels, sender, WholeRoom(roomId), MediaToggle(kind, enabled, room.host.username))], false)
      else if room.participant.None? then
        Outcome(s, [], true)
      else
        Outcome(s, [Emit(s.channels, sender, WholeRoom(roomId),
                         MediaToggle(kind, enabled, room.participant.value.username))], false)
  }

  /** The inbound events, with their payloads. `Create` also carries the id
      uuidv4 returned for that call. */
  datatype Request =
    | Create(user: User, newId: RoomId)                     // create:room
    | Join(roomId: RoomId, user: User)                      // join:room
    | Info(roomId: RoomId)                                  // request:room:info
    | Start(roomId: RoomId)                                 // meeting:start
    | Leave(roomId: RoomId, username: string)               // leave:meeting
    | Forward(leg: Relay.Leg, to: ConnId, payload: Blob)    // user:call, call:accepted, peer:nego:needed, peer:nego:done
    | AskStart(roomId: RoomId, to: ConnId)                  // start:meeting:request
    | Accept(roomId: RoomId, to: ConnId)                    // meeting:accepted
    | Decline(roomId: RoomId, to: ConnId)                   // meeting:declined
    | Toggle(roomId: RoomId, kind: string, enabled: bool)   // media:toggle
    | SendFile(to: ConnId, fileName: string, fileData: Blob) // file:send

  /** The room a request names; the relays name none. */
  predicate Names(req: Request, q: RoomId) {
    match req
    case Create(_, n) => n == q
    case Join(r, _) => r == q
    case Info(r) => r == q
    case Start(r) => r == q
    case Leave(r, _) => r == q
    case Forward(_, _, _) => false
    case AskStart(r, _) => r == q
    case Accept(r, _) => r == q
    case Decline(r, _) => r == q
    case Toggle(r, _, _) => r == q
    case SendFile(_, _, _) => false
  }

  /** The requests that end the life of the record under `r`: deleting it, or
      creating a new one over it. */
  predicate Ends(req: Request, r: RoomId) {
    (req.Create? && req.newId == r) || (req.Leave? && req.roomId == r)
  }

  /** The requests that write `meetingStarted := true` into room `r`. */
  predicate Starts(req: Request, r: RoomId) {
    (req.Start? || req.Accept?) && req.roomId == r
  }

  /** One handler run for a request from connection `sender`. */
  function Step(s: State, sender: ConnId, req: Request): (o: Outcome)
    // a handler writes only the one room (and channel) it names
    ensures forall q :: !Names(req, q) ==> UnchangedAt(s, o.state, q)
    // a live room that is not ended keeps its host, its occupant and its start
    ensures forall r :: r in s.rooms && !Ends(req, r) ==>
      r in o.state.rooms && Persists(s.rooms[r], o.state.rooms[r])
    // only a join fills a seat
    ensures forall r :: r in s.rooms && !Ends(req, r) && !(req.Join? && req.roomId == r) ==>
      r in o.state.rooms && o.state.rooms[r].participant == s.rooms[r].participant
    // only a start or an accept starts a meeting
    ensures forall r :: r in s.rooms && !Ends(req, r) && !Starts(req, r) ==>
      r in o.state.rooms && o.state.rooms[r].meetingStarted == s.rooms[r].meetingStarted
    // only a create brings a room into existence
    ensures forall r :: r !in s.rooms && r in o.state.rooms ==> req.Create? && req.newId == r
    ensures Inv(s) ==> Inv(o.state)
    ensures o.threw ==> o.state == s && o.events == []
    ensures req.Forward? || req.SendFile? ==> o.state == s && !o.threw
  {
    match req
    case Create(user, newId) => CreateRoom(s, sender, user, newId)
    case Join(roomId, user) => JoinRoom(s, sender, roomId, user)
    case Info(roomId) => RequestRoomInfo(s, sender, roomId)
    case Start(roomId) => StartMeeting(s, sender, roomId)
    case Leave(roomId, _) => LeaveMeeting(s, sender, roomId)
    case Forward(leg, to, payload) => Outcome(s, [Relay.Forward(s.channels, leg, sender, to, payload)], false)
    case AskStart(roomId, to) => RequestStart(s, roomId, to)
    case Accept(roomId, to) => AcceptMeeting(s, sender, roomId, to)
    case Decline(roomId, to) => DeclineMeeting(s, roomId, to)
    case Toggle(roomId, kind, enabled) => ToggleMedia(s, sender, roomId, kind, enabled)
    case SendFile(to, fileName, fileData) => Outcome(s, Relay.SendFile(s.channels, sender, to, fileName, fileData), false)
  }
}
