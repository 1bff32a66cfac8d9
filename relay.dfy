/** The stateless forwards: call set-up and renegotiation, and file transfer.
    They route by connection id only and never look at the room registry;
    the channel subscriptions decide only whom `io.to(to)` reaches. */
module Relay {
  import opened Protocol

  /** Which of the four relay handlers ran. */
  datatype Leg =
    | UserCall        // user:call        -> incomming:call
    | CallAnswer      // call:accepted    -> call:accepted
    | NegoNeeded      // peer:nego:needed -> peer:nego:needed
    | NegoDone        // peer:nego:done   -> peer:nego:final

  /** What a relayed message carries: the leg it came from, the sender's id
      and the untouched payload. */
  datatype Relayed = Relayed(leg: Leg, from: ConnId, payload: Blob)

  /** The message a relay leg emits, tagged `from: sender`. */
  function Wrap(r: Relayed): Message {
    match r.leg
    case UserCall => IncomingCall(r.from, r.payload)
    case CallAnswer => CallAccepted(r.from, r.payload)
    case NegoNeeded => PeerNegoNeeded(r.from, r.payload)
    case NegoDone => PeerNegoFinal(r.from, r.payload)
  }

  /** What a receiving client reads back out of a relayed message;
      None for every message that is not a relay. */
  function Unwrap(m: Message): Option<Relayed> {
    match m
    case IncomingCall(f, p) => Some(Relayed(UserCall, f, p))
    case CallAccepted(f, p) => Some(Relayed(CallAnswer, f, p))
    case PeerNegoNeeded(f, p) => Some(Relayed(NegoNeeded, f, p))
    case PeerNegoFinal(f, p) => Some(Relayed(NegoDone, f, p))
    case _ => None
  }

  /** `io.to(to).emit(<out name>, { from: socket.id, <payload> })`:
      one event, addressed to `to`, whose payload and sender tag read back
      unchanged. It reaches `to`, and the room channel named `to` if there is one. */
  function Forward(ch: Channels, leg: Leg, sender: ConnId, to: ConnId, payload: Blob): (e: Event)
    ensures e.to == Conn(to) && e.audience == {to} + Members(ch, to)
    ensures Unwrap(e.msg) == Some(Relayed(leg, sender, payload))
  {
    Direct(ch, to, Wrap(Relayed(leg, sender, payload)))
  }

  /** The receiver can tell relayed messages apart from each other and from
      everything else: Wrap and Unwrap are inverse. */
  lemma UnwrapInvertsWrap(r: Relayed, m: Message)
    ensures Unwrap(Wrap(r)) == Some(r)
    ensures Unwrap(m) == Some(r) ==> m == Wrap(r)
  {
  }

  /** `file:send`: the named data to `to`, then an acknowledgement to the sender.
      The acknowledgement says the data was dispatched, not that it arrived. */
  function SendFile(ch: Channels, sender: ConnId, to: ConnId, fileName: string, fileData: Blob): (es: seq<Event>)
    ensures |es| == 2
    ensures es[0].to == Conn(to) && es[0].audience == {to} + Members(ch, to)
    ensures es[0].msg.FileReceived? && es[0].msg.fileName == fileName && es[0].msg.fileData == fileData
    ensures es[1] == Reply(sender, FileSent)
  {
    [Direct(ch, to, FileReceived(fileName, fileData)), Reply(sender, FileSent)]
  }
}
