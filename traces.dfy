/** The handlers run one after another, as Node's single event loop runs
    them, and what holds of a room over any such run. */
module Traces {
  import opened Protocol
  import opened Handlers

  /** One inbound request and the connection that sent it. */
  datatype Call = Call(sender: ConnId, req: Request)

  /** The state after `calls` have been handled in order, starting from `s`. */
  function Run(s: State, calls: seq<Call>): State
    decreases |calls|
  {
    if calls == [] then s else Run(Step(s, calls[0].sender, calls[0].req).state, calls[1..])
  }

  /** None of `calls` deletes or re-creates room `r`. */
  ghost predicate Spares(calls: seq<Call>, r: RoomId) {
    forall c :: c in calls ==> !Ends(c.req, r)
  }

  /** None of `calls` creates a room under id `r`. */
  ghost predicate NoCreate(calls: seq<Call>, r: RoomId) {
    forall c :: c in calls ==> !(c.req.Create? && c.req.newId == r)
  }

  /** None of `calls` names room `r`. */
  ghost predicate Avoids(calls: seq<Call>, r: RoomId) {
    forall c :: c in calls ==> !Names(c.req, r)
  }

  /** A call that answered `room:joined`. */
  predicate Joined(o: Outcome) {
    |o.events| > 0 && o.events[0].msg.RoomJoined?
  }

  /** How many of `calls` are joins of room `r` that were admitted. */
  function Wins(s: State, calls: seq<Call>, r: RoomId): nat
    decreases |calls|
  {
    if calls == [] then 0
    else
      var o := Step(s, calls[0].sender, calls[0].req);
      (if calls[0].req.Join? && calls[0].req.roomId == r && Joined(o) then 1 else 0)
        + Wins(o.state, calls[1..], r)
  }

  lemma Tail(calls: seq<Call>, c: Call)
    requires calls != [] && c in calls && c != calls[0]
    ensures c in calls[1..]
  {
    assert calls == [calls[0]] + calls[1..];
  }

  /** While neither deleted nor re-created, a room keeps its host, keeps a
      filled seat's occupant, and keeps a started meeting started. */
  lemma {:induction false} RunPersists(s: State, calls: seq<Call>, r: RoomId)
    requires r in s.rooms && Spares(calls, r)
    ensures r in Run(s, calls).rooms && Persists(s.rooms[r], Run(s, calls).rooms[r])
    decreases |calls|
  {
    if calls != [] {
      assert calls[0] in calls;
      var t := Step(s, calls[0].sender, calls[0].req).state;
      RunPersists(t, calls[1..], r);
    }
  }

  /** Once the seat is taken, every later join of that room is refused with
      `room:full` and changes nothing, for as long as the room lives. */
  lemma SeatFilledOnce(s: State, calls: seq<Call>, r: RoomId, sender: ConnId, user: User)
    requires r in s.rooms && s.rooms[r].participant.Some? && Spares(calls, r)
    ensures var t := Run(s, calls);
      Step(t, sender, Join(r, user)) == Outcome(t, [Reply(sender, RoomFull(RoomFullText))], false)
  {
    RunPersists(s, calls, r);
  }

  /** Any number of joins racing for an empty seat, in any order: exactly
      one is admitted. With the seat already taken, none is. */
  lemma {:induction false} JoinRace(s: State, calls: seq<Call>, r: RoomId)
    requires r in s.rooms && Spares(calls, r)
    ensures s.rooms[r].participant.Some? ==> Wins(s, calls, r) == 0
    ensures s.rooms[r].participant.None? ==> Wins(s, calls, r) <= 1
    ensures s.rooms[r].participant.None? && (exists c :: c in calls && c.req.Join? && c.req.roomId == r) ==>
      Wins(s, calls, r) == 1
    decreases |calls|
  {
    if calls != [] {
      var c := calls[0];
      assert c in calls;
      var o := Step(s, c.sender, c.req);
      JoinRace(o.state, calls[1..], r);
      if !(c.req.Join? && c.req.roomId == r) && s.rooms[r].participant.None? {
        if w :| w in calls && w.req.Join? && w.req.roomId == r {
          Tail(calls, w);
        }
      }
    }
  }

  /** A started meeting stays started while its room lives, and a lookup says so. */
  lemma MeetingStaysStarted(s: State, calls: seq<Call>, r: RoomId, asker: ConnId)
    requires r in s.rooms && s.rooms[r].meetingStarted && Spares(calls, r)
    ensures var t := Run(s, calls);
      && r in t.rooms && t.rooms[r].meetingStarted
      && Step(t, asker, Info(r)).events ==
           [Reply(asker, RoomInfo(r, t.rooms[r].host, t.rooms[r].participant, true))]
  {
    RunPersists(s, calls, r);
  }

  /** A meeting that has not started stays unstarted until a start or an accept for it. */
  lemma {:induction false} OnlyStartOrAcceptStarts(s: State, calls: seq<Call>, r: RoomId)
    requires r in s.rooms && !s.rooms[r].meetingStarted && Spares(calls, r)
    requires forall c :: c in calls ==> !Starts(c.req, r)
    ensures r in Run(s, calls).rooms && !Run(s, calls).rooms[r].meetingStarted
    decreases |calls|
  {
    if calls != [] {
      assert calls[0] in calls;
      OnlyStartOrAcceptStarts(Step(s, calls[0].sender, calls[0].req).state, calls[1..], r);
    }
  }

  /** An id without a room stays without one until a create draws that id. */
  lemma {:induction false} StaysDeleted(s: State, calls: seq<Call>, r: RoomId)
    requires r !in s.rooms && NoCreate(calls, r)
    ensures r !in Run(s, calls).rooms
    decreases |calls|
  {
    if calls != [] {
      assert calls[0] in calls;
      StaysDeleted(Step(s, calls[0].sender, calls[0].req).state, calls[1..], r);
    }
  }

  /** After `leave:meeting`, and whatever follows short of a new room under
      the same id, lookups and joins of that id fail with `Room not found`
      and starting it does nothing. */
  lemma LeaveEndsRoom(s: State, leaver: ConnId, r: RoomId, name: string, calls: seq<Call>,
                      asker: ConnId, user: User, to: ConnId)
    requires NoCreate(calls, r)
    ensures var t := Run(Step(s, leaver, Leave(r, name)).state, calls);
      && r !in t.rooms
      && Step(t, asker, Info(r)) == Outcome(t, [Reply(asker, Error(RoomNotFound))], false)
      && Step(t, asker, Join(r, user)) == Outcome(t, [Reply(asker, Error(RoomNotFound))], false)
      && Step(t, asker, Start(r)) == Outcome(t, [], false)
      && Step(t, asker, Accept(r, to)) == Outcome(t, [], false)
  {
    StaysDeleted(Step(s, leaver, Leave(r, name)).state, calls, r);
  }

  /** A room and its channel are affected only by the requests that name it. */
  lemma {:induction false} RunIsolates(s: State, calls: seq<Call>, r: RoomId)
    requires Avoids(calls, r)
    ensures UnchangedAt(s, Run(s, calls), r)
    decreases |calls|
  {
    if calls != [] {
      assert calls[0] in calls;
      RunIsolates(Step(s, calls[0].sender, calls[0].req).state, calls[1..], r);
    }
  }

  /** Every live room keeps a subscriber, from the empty server on. */
  lemma {:induction false} RunKeepsInv(s: State, calls: seq<Call>)
    requires Inv(s)
    ensures Inv(Run(s, calls))
    decreases |calls|
  {
    if calls != [] {
      RunKeepsInv(Step(s, calls[0].sender, calls[0].req).state, calls[1..]);
    }
  }

  /** A second start or accept of a started meeting changes nothing, and a
      second start repeats the same `meeting:started` broadcast. */
  lemma RepeatedStartIsIdempotent(s: State, a: ConnId, b: ConnId, r: RoomId, to: ConnId)
    ensures var o := Step(s, a, Start(r));
      && Step(o.state, b, Start(r)) == o
      && Step(o.state, b, Accept(r, to)).state == o.state
  {
  }

  /** The relays and the file transfer leave the registry exactly as it was. */
  lemma {:induction false} RelaysLeaveRoomsAlone(s: State, calls: seq<Call>)
    requires forall c :: c in calls ==> c.req.Forward? || c.req.SendFile?
    ensures Run(s, calls) == s
    decreases |calls|
  {
    if calls != [] {
      assert calls[0] in calls;
      RelaysLeaveRoomsAlone(s, calls[1..]);
    }
  }
}
