# Room registry and relays of a two-party signalling server

The server brokers peer-to-peer video calls between two people. It keeps
one global dictionary of rooms, keyed by room id. Each entry holds a
`host`, an optional `participant` and a `meetingStarted` flag. Socket.IO
event handlers read and write this dictionary. They also subscribe and
unsubscribe connections to a per-room broadcast channel. A second group of
handlers forwards call offers, answers, renegotiation messages and files
from one connection id to another without looking at any room.

The model has five modules:

- `Protocol` (protocol.dfy) holds the data model: connection and room ids,
  user descriptors, the room record, and one `Message` constructor per
  outbound event name. An `Event` is a message plus its addressing. The
  addressing is one of: the sender (`socket.emit`), the channel named by a
  connection id (`io.to(id)`), the whole room (`io.to(roomId)`), or the
  room minus the sender (`socket.to(roomId)`). `io.to(id)` reaches the
  connection `id`, because every socket sits in a channel named after its
  own id, and also every subscriber of a room whose id equals `id`. Each
  event also records the set of
  connections that addressing reached at the moment of the emit. Order
  matters here: `leave:meeting` emits `meeting:ended` before the sender
  leaves the channel.
- `Relay` (relay.dfy) holds the stateless forwards as pure functions.
- `Handlers` (handlers.dfy) has one pure function per room handler over
  a `State` value (the rooms map plus the channel map). Each function
  returns the new state and the events it emits. `Step` dispatches an
  inbound `Request` by event name, relays included. Its contract states
  the frame and persistence rules that every handler keeps.
- `Traces` (traces.dfy) runs requests one after another, as Node's single
  event loop does. It proves by induction what holds of a room over any
  sequence of requests.
- `Server` (server.dfy) has the class `Registry`, whose `rooms` and
  `channels` fields the methods update in place, one method per room
  handler. Each method is proved equal to its `Handlers` function. The
  file ends with a client method that walks through a two-party meeting.

The id that `uuidv4()` returns is passed in: it is a parameter of
`CreateRoom` and a field of the `Create` request. The code does not check
for collisions, so the model overwrites faithfully. Any existing record
under that id is replaced, and only the channel gains the sender.

The model follows the code where a safer design would behave differently:

- In `media:toggle`, a sender who is not the host is always given the
  participant's name, even when it is neither host nor participant. A
  safer design would ignore such a sender.
- When the room has no participant, that lookup dereferences `null` and
  the handler throws. The model reports this as an outcome with
  `threw = true`, no events and no state change.
- Nothing in the code locks a room against concurrent joins. Node's single
  event loop runs each handler to completion, so each handler is an atomic
  step. `Traces.JoinRace` proves that exactly one of any number of racing
  joins wins.

## Model

| member | source | states |
|---|---|---|
| Protocol.Subscribe | index.js:17 | `socket.join`: the room's channel gains the connection; every other channel is unchanged |
| Protocol.Unsubscribe | index.js:82 | `socket.leave`: the room's channel loses the connection (nothing changes if it was not there); every other channel is unchanged |
| Relay.Forward | index.js:90-109 | each of `user:call`, `call:accepted`, `peer:nego:needed` and `peer:nego:done` emits one event, addressed by `io.to(to)` and reaching `to` plus the subscribers of a room channel named `to`; the receiver reads back the same leg, `from` equal to the sender, and the payload unchanged |
| Relay.UnwrapInvertsWrap | index.js:90-109 | the four relayed message kinds are decoded back to exactly the leg, sender and payload they were built from; any message that decodes as a relay is that relay's message |
| Relay.SendFile | index.js:139-142 | `file:send` emits exactly two events: first `file:received` by `io.to(to)`, reaching `to` plus the subscribers of a room channel named `to`, with the name and data unchanged, then `file:sent` to the sender only |
| Handlers.CreateRoom | index.js:10-18 | stores `{host: user, participant: null, meetingStarted: false}` under the new id, overwriting any entry there; subscribes the sender to that channel; changes no other room or channel; emits only `room:created(id)` to the sender |
| Handlers.JoinRoom | index.js:23-42 | unknown id: state unchanged, only `error 'Room not found'` to the sender; seat taken: state unchanged, only `room:full` to the sender; free seat: participant set to the user with host and start flag kept, sender subscribed, `room:joined {roomId, host, meetingStarted}` to the sender, then `participant:joined(user, sender)` to the other connections of the channel; no other room touched |
| Handlers.RequestRoomInfo | index.js:47-59 | never changes state; exactly one reply, to the sender: `room:info` carrying the stored host, participant and start flag, or `error 'Room not found'` |
| Handlers.StartMeeting | index.js:62-68 | existing room: the record is the old one with `meetingStarted` true, and `meeting:started` reaches every channel member; unknown room: nothing changes and nothing is sent; channels never change |
| Handlers.LeaveMeeting | index.js:71-83 | the id is absent afterwards; existing room: `meeting:ended` reaches every member subscribed before the leave, sender included; the sender leaves the channel whether or not the room existed; nothing else changes |
| Handlers.RequestStart | index.js:111-115 | never changes state; `start:meeting:request` by `io.to(to)`, reaching `to` plus the subscribers of a room channel named `to`, and only if the room exists |
| Handlers.AcceptMeeting | index.js:117-123 | same new state as `meeting:start`; existing room: `meeting:accepted` by `io.to(to)`, reaching `to` plus the subscribers of a room channel named `to`, followed by the same `meeting:started` broadcast; unknown room: nothing |
| Handlers.DeclineMeeting | index.js:125-129 | never changes state; `meeting:declined` by `io.to(to)`, reaching `to` plus the subscribers of a room channel named `to`, and only if the room exists |
| Handlers.ToggleMedia | index.js:132-137 | never changes state; throws exactly when the room exists, the sender is not the stored host id and there is no participant; otherwise broadcasts `{type, enabled, username}` to the room, with the host's name when the sender is the host and the participant's name when not; unknown room: nothing |
| Handlers.Step | index.js:10-142 | any handler writes only the room and channel its request names; a live room that is neither deleted nor re-created keeps its host, a filled seat and a started meeting; only `join:room` fills a seat; only `meeting:start` or `meeting:accepted` changes the start flag; only `create:room` brings an id into existence; every live room keeps a subscriber; a throw changes nothing and emits nothing; the relays leave the registry untouched |
| Traces.RunPersists | index.js:24-29 | across any sequence of requests that neither deletes nor re-creates the room, the room stays, its host is unchanged, a filled seat stays filled by the same user, a started meeting stays started |
| Traces.SeatFilledOnce | index.js:25-27 | once the seat is taken, every later `join:room` of that id, after any such sequence, gets `room:full` and changes nothing |
| Traces.JoinRace | index.js:24-36 | over any sequence of requests that neither deletes nor re-creates the room, at most one join of an empty-seated room is admitted; exactly one if at least one join is attempted; none if the seat was already taken |
| Traces.MeetingStaysStarted | index.js:62-68 | once started, a meeting stays started for as long as the room lives, and `request:room:info` then reports `meetingStarted: true` |
| Traces.OnlyStartOrAcceptStarts | index.js:117-123 | a meeting that has not started stays unstarted until a `meeting:start` or `meeting:accepted` for that room |
| Traces.StaysDeleted | index.js:10-18 | an id with no room gets one only through `create:room` with that id |
| Traces.LeaveEndsRoom | index.js:71-83 | after `leave:meeting`, and any later requests except a create under that id: the id is absent; `request:room:info` and `join:room` answer `error 'Room not found'` without changing state; start and accept do nothing |
| Traces.RunIsolates | index.js:10-142 | a room entry and its channel are changed only by requests that name that room |
| Traces.RunKeepsInv | index.js:10-88 | every live room keeps at least one subscriber on its channel across any sequence of requests |
| Traces.RepeatedStartIsIdempotent | index.js:62-68 | a second `meeting:start` leaves the state as the first left it and repeats the same broadcast; a later `meeting:accepted` also leaves the state unchanged |
| Traces.RelaysLeaveRoomsAlone | index.js:90-109 | any sequence of relay and file requests leaves rooms and channels exactly as they were |
| Server.Registry.constructor | index.js:4 | the server starts with no rooms and no subscriptions |
| Server.Registry.CreateRoom | index.js:10-18 | updates the fields in place to the state and events that `Handlers.CreateRoom` gives; keeps `Handlers.Inv` |
| Server.Registry.JoinRoom | index.js:23-42 | updates the fields in place to the state and events that `Handlers.JoinRoom` gives; keeps `Handlers.Inv` |
| Server.Registry.RequestRoomInfo | index.js:47-59 | emits the events of `Handlers.RequestRoomInfo` and changes nothing |
| Server.Registry.StartMeeting | index.js:62-68 | updates the fields in place to the state and events that `Handlers.StartMeeting` gives; keeps `Handlers.Inv` |
| Server.Registry.LeaveMeeting | index.js:71-83 | emits, deletes and unsubscribes in the source's order, ending at the state and events that `Handlers.LeaveMeeting` gives; keeps `Handlers.Inv` |
| Server.Registry.RequestStart | index.js:111-115 | emits the events of `Handlers.RequestStart` and changes nothing |
| Server.Registry.AcceptMeeting | index.js:117-123 | updates the fields in place to the state and events that `Handlers.AcceptMeeting` gives; keeps `Handlers.Inv` |
| Server.Registry.DeclineMeeting | index.js:125-129 | emits the events of `Handlers.DeclineMeeting` and changes nothing |
| Server.Registry.ToggleMedia | index.js:132-137 | emits the events of `Handlers.ToggleMedia`, or reports the throw, and changes nothing |

## Left out

- The Socket.IO server, its transport, CORS and the listening port (index.js:1, 6). Events are outputs of the model. Delivery is not modelled. A connection id in an audience may name a connection that is already gone, and the library drops such deliveries.
- `uuidv4()` (index.js:2, 11). The new room id is an input.
- All `console.log` and `console.error` output.
- A `console.log` line that throws. A `userDetails` without `username` only prints "undefined". A null or missing `userDetails` makes these lines throw: line 19 after the insert and the reply, line 27 after the `room:full` reply with no state change, and line 37 after the seat write and both emits. User descriptors are modelled as well-formed records `{id, username}`.
- JavaScript truthiness of client data. A falsy `userDetails` stored as participant would leave the seat looking empty.
- Room ids that name `Object.prototype` members: `rooms["constructor"]` is truthy, and `rooms["__proto__"].meetingStarted = true` writes to the prototype. The model's `rooms` is a plain map.
- The `try`/`catch` around `leave:meeting` and its `error 'Failed to leave the meeting'` reply (index.js:72, 84-87). Nothing inside the `try` awaits, and the catch path depends only on library exceptions.
- The `username` field of `leave:meeting`. The source ignores it, and so does the model.
- The `disconnect` handler (index.js:145-148). It is empty: no room is cleaned up, so stale host or participant entries remain. Socket.IO's automatic removal of a disconnected socket from its channels is also not modelled. `Handlers.Inv` (every live room has a subscriber) holds only without that removal.
- The process exit after the TypeError thrown by `media:toggle`. Node exits on an exception thrown from an event listener that nothing catches, and every room is lost with the process. `Traces.Run` instead records the throw and goes on with the state unchanged.
- Concurrency. Node runs every handler to completion on one event loop, so handlers are sequential atomic steps.
- The contents of offers, answers and file data. They are opaque byte strings.
