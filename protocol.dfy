/** The values exchanged by the signalling server: connection and room
    identifiers, the user descriptors clients send, the room record kept in
    the registry, and the outbound events together with who receives them. */
module Protocol {

  datatype Option<+T> = None | Some(value: T)

  /** Socket.IO's per-connection identifier (`socket.id`). */
  type ConnId = string

  /** A room identifier; the server draws it from uuidv4. */
  type RoomId = string

  /** An offer, answer or file body: relayed, never inspected. */
  type Blob = seq<bv8>

  /** The `userDetails` object a client sends: the fields the server reads. */
  datatype User = User(id: ConnId, username: string)

  /** One entry of the `rooms` dictionary. `participant` is `null` until a join. */
  datatype Room = Room(host: User, participant: Option<User>, meetingStarted: bool)

  const RoomNotFound: string := "Room not found"
  const RoomFullText: string := "The room is full. Only two participants are allowed."

  /** Who an emit addresses:
      `socket.emit` (Sender), `io.to(to)` (Conn), `io.to(roomId)` (WholeRoom),
      `socket.to(roomId)` (RoomButSender). */
  datatype Recipient =
    | Sender
    | Conn(id: ConnId)
    | WholeRoom(room: RoomId)
    | RoomButSender(room: RoomId)

  /** One constructor per outbound event name. */
  datatype Message =
    | RoomCreated(roomId: RoomId)                                   // room:created
    | RoomFull(text: string)                                        // room:full
    | Error(text: string)                                           // error
    | RoomJoined(roomId: RoomId, host: User, meetingStarted: bool)  // room:joined
    | ParticipantJoined(user: User, from: ConnId)                   // participant:joined
    | RoomInfo(roomId: RoomId, host: User, participant: Option<User>, meetingStarted: bool) // room:info
    | MeetingStarted                                                // meeting:started
    | MeetingEnded                                                  // meeting:ended
    | IncomingCall(from: ConnId, offer: Blob)                       // incomming:call
    | CallAccepted(from: ConnId, ans: Blob)                         // call:accepted
    | PeerNegoNeeded(from: ConnId, offer: Blob)                     // peer:nego:needed
    | PeerNegoFinal(from: ConnId, ans: Blob)                        // peer:nego:final
    | StartMeetingRequest                                           // start:meeting:request
    | MeetingAccepted                                               // meeting:accepted
    | MeetingDeclined                                               // meeting:declined
    | MediaToggle(kind: string, enabled: bool, username: string)    // media:toggle
    | FileReceived(fileName: string, fileData: Blob)                // file:received
    | FileSent                                                      // file:sent

  /** An emitted event: its addressing, the connections that addressing
      reached at the moment of the emit, and the message. */
  datatype Event = Event(to: Recipient, audience: set<ConnId>, msg: Message)

  /** Room-channel subscriptions, as kept by `socket.join` / `socket.leave`.
      A missing key is an empty channel. */
  type Channels = map<RoomId, set<ConnId>>

  function Members(ch: Channels, r: RoomId): set<ConnId> {
    if r in ch then ch[r] else {}
  }

  /** `socket.join(r)` for connection `c`. */
  function Subscribe(ch: Channels, r: RoomId, c: ConnId): (ch': Channels)
    ensures Members(ch', r) == Members(ch, r) + {c}
    ensures forall q :: q != r ==> Members(ch', q) == Members(ch, q)
  {
    ch[r := Members(ch, r) + {c}]
  }

  /** `socket.leave(r)` for connection `c`; leaving a channel one is not in changes nothing. */
  function Unsubscribe(ch: Channels, r: RoomId, c: ConnId): (ch': Channels)
    ensures Members(ch', r) == Members(ch, r) - {c}
    ensures forall q :: q != r ==> Members(ch', q) == Members(ch, q)
  {
    ch[r := Members(ch, r) - {c}]
  }

  /** The connections an addressing reaches, given the subscriptions at emit time.
      `io.to(id)` addresses the channel named `id`: the connection named `id`
      (every socket sits in a channel named after its own id) and, should `id`
      also be a room id, every subscriber of that room. */
  function Audience(ch: Channels, sender: ConnId, to: Recipient): set<ConnId> {
    match to
    case Sender => {sender}
    case Conn(id) => {id} + Members(ch, id)
    case WholeRoom(r) => Members(ch, r)
    case RoomButSender(r) => Members(ch, r) - {sender}
  }

  function Emit(ch: Channels, sender: ConnId, to: Recipient, msg: Message): Event {
    Event(to, Audience(ch, sender, to), msg)
  }

  /** An event for the sending connection only. */
  function Reply(sender: ConnId, msg: Message): Event {
    Event(Sender, {sender}, msg)
  }

  /** An event addressed by `io.to(to)`. */
  function Direct(ch: Channels, to: ConnId, msg: Message): Event {
    Event(Conn(to), {to} + Members(ch, to), msg)
  }
}
