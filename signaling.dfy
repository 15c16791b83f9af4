/**
 * The Socket.IO side of a call: the in-memory `activeCalls` registry, the rooms a socket has
 * joined, the relay of WebRTC negotiation and chat, and the socket way of ending a call. What the
 * server emits is appended to `outbox` together with the sockets it reaches.
 */
module Signaling {
  import opened Common
  import opened CallModel
  import opened Billing
  import opened Database

  /** One value of `activeCalls`. `timer` is declared but no handler ever assigns it. */
  datatype Entry = Entry(
    userId: UserId,
    doctorId: DoctorId,
    userSocketId: Option<SocketId>,
    doctorSocketId: Option<SocketId>,
    timer: Option<nat>,
    startTime: Option<int>)

  datatype SignalKind = Offer | Answer | IceCandidate

  /** The `data` of `offer`/`answer`/`ice-candidate`: only `callId` is read, all of it is forwarded. */
  datatype SignalData = SignalData(callId: CallId, payload: string)

  datatype Event =
    | CallStarted(startedCall: CallId, startTime: int)
    | Signal(kind: SignalKind, data: SignalData)
    | Message(sender: string, message: string, timestamp: int)
    | CallEnded(endedCall: CallId, duration: int)
    | ParticipantDisconnected(disconnectedSocketId: SocketId)

  /** One `emit`: the event and the sockets it is delivered to. */
  datatype Emission = Emission(recipients: set<SocketId>, event: Event)

  /** The sockets in a room; a room nobody joined is empty. */
  function Members(rooms: map<CallId, set<SocketId>>, room: CallId): set<SocketId> {
    if room in rooms then rooms[room] else {}
  }

  predicate Holds(e: Entry, socket: SocketId) {
    e.userSocketId == Some(socket) || e.doctorSocketId == Some(socket)
  }

  predicate BothPresent(e: Entry) {
    e.userSocketId.Some? && e.doctorSocketId.Some?
  }

  /** `endTime - startTime` in JavaScript, where a `null` start converts to 0. */
  function ElapsedMs(endTime: int, startTime: Option<int>): (ms: int)
    ensures startTime.Some? ==> ms == endTime - startTime.value
    ensures startTime.None? ==> ms == endTime
  {
    endTime - (if startTime.Some? then startTime.value else 0)
  }

  /**
   * The create-or-update step of `joinCall`. A new entry records both ids from the event and only
   * the joining role's socket; an existing one gets only the joining role's socket replaced.
   * A `userType` other than "user" or "doctor" sets no socket.
   */
  function JoinedEntry(prev: Option<Entry>, userId: UserId, doctorId: DoctorId, userType: string,
                       socket: SocketId): (e: Entry)
    ensures prev.None? ==> e.userId == userId && e.doctorId == doctorId && e.timer.None? && e.startTime.None?
    ensures prev.None? ==> e.userSocketId == (if userType == "user" then Some(socket) else None)
                           && e.doctorSocketId == (if userType == "doctor" then Some(socket) else None)
    ensures prev.None? ==> !BothPresent(e)
    ensures prev.Some? ==> e.userId == prev.value.userId && e.doctorId == prev.value.doctorId
                           && e.timer == prev.value.timer && e.startTime == prev.value.startTime
    ensures prev.Some? ==> e.userSocketId == (if userType == "user" then Some(socket) else prev.value.userSocketId)
                           && e.doctorSocketId == (if userType == "doctor" then Some(socket) else prev.value.doctorSocketId)
  {
    if prev.None? then
      Entry(userId, doctorId,
            if userType == "user" then Some(socket) else None,
            if userType == "doctor" then Some(socket) else None,
            None, None)
    else if userType == "user" then prev.value.(userSocketId := Some(socket))
    else if userType == "doctor" then prev.value.(doctorSocketId := Some(socket))
    else prev.value
  }

  /** The `for (const callId in activeCalls)` scan: the index of the first entry holding the socket, or `|order|`. */
  function FirstHolder(order: seq<CallId>, calls: map<CallId, Entry>, socket: SocketId): (k: nat)
    requires forall c :: c in order ==> c in calls
    ensures k <= |order|
    ensures k < |order| ==> Holds(calls[order[k]], socket)
    ensures forall j :: 0 <= j < k ==> !Holds(calls[order[j]], socket)
  {
    if order == [] then 0
    else if Holds(calls[order[0]], socket) then 0
    else 1 + FirstHolder(order[1..], calls, socket)
  }

  /** The scan's result is the only index with no holder before it and a holder at it (or the end). */
  lemma FirstHolderIs(order: seq<CallId>, calls: map<CallId, Entry>, socket: SocketId, k: nat)
    requires forall c :: c in order ==> c in calls
    requires k <= |order|
    requires k < |order| ==> Holds(calls[order[k]], socket)
    requires forall j :: 0 <= j < k ==> !Holds(calls[order[j]], socket)
    ensures FirstHolder(order, calls, socket) == k
  {
  }

  ghost predicate Distinct(s: seq<CallId>) {
    forall i, j :: 0 <= i < j < |s| ==> s[i] != s[j]
  }

  lemma DistinctAppend(s: seq<CallId>, x: CallId)
    requires Distinct(s) && x !in s
    ensures Distinct(s + [x])
  {
  }

  lemma DistinctTail(s: seq<CallId>)
    requires Distinct(s) && s != []
    ensures Distinct(s[1..]) && s[0] !in s[1..]
  {
    forall i, j | 0 <= i < j < |s[1..]| ensures s[1..][i] != s[1..][j] {
      assert s[1..][i] == s[i + 1] && s[1..][j] == s[j + 1];
    }
  }

  /** The key order once `delete activeCalls[x]` ran: the others, in their order. */
  function Without(s: seq<CallId>, x: CallId): (r: seq<CallId>)
    ensures forall y :: y in r <==> y in s && y != x
    ensures Distinct(s) ==> Distinct(r)
    ensures x !in s ==> r == s
  {
    if s == [] then []
    else if s[0] == x then Without(s[1..], x)
    else
      var rest := Without(s[1..], x);
      assert Distinct(s) ==> Distinct([s[0]] + rest) by {
        if Distinct(s) {
          DistinctTail(s);
          assert s[0] !in s[1..];
        }
      }
      [s[0]] + rest
  }

  /**
   * `delete` of a present key takes out exactly that key: the keys before it and the keys after it
   * stay in their order around the gap.
   */
  lemma {:induction false} WithoutKeepsOrder(s: seq<CallId>, x: CallId, k: nat)
    requires Distinct(s) && k < |s| && s[k] == x
    ensures Without(s, x) == s[..k] + s[k + 1..]
  {
    DistinctTail(s);
    if k == 0 {
      assert Without(s, x) == Without(s[1..], x) == s[1..];
      assert s[..0] + s[1..] == s[1..];
    } else {
      assert s[0] != x;
      assert Without(s, x) == [s[0]] + Without(s[1..], x);
      assert s[1..][k - 1] == x;
      WithoutKeepsOrder(s[1..], x, k - 1);
      assert s[1..][..k - 1] == s[1..k] && s[1..][k..] == s[k + 1..];
      assert [s[0]] + s[1..k] == s[..k];
    }
  }

  /** Socket.IO takes a disconnecting socket out of every room before the handler runs. */
  function LeaveAll(rooms: map<CallId, set<SocketId>>, socket: SocketId): (r: map<CallId, set<SocketId>>)
    ensures forall room :: Members(r, room) == Members(rooms, room) - {socket}
  {
    map room | room in rooms :: rooms[room] - {socket}
  }

  class SignalingServer {
    /** The shared store; `Call.findById` and friends read and write its `calls`. */
    const db: Db
    var activeCalls: map<CallId, Entry>
    /** The keys of `activeCalls` in insertion order, the order `for ... in` visits them. */
    var order: seq<CallId>
    var rooms: map<CallId, set<SocketId>>
    var outbox: seq<Emission>

    ghost predicate Valid()
      reads this, db
    {
      && db.Valid()
      && Distinct(order)
      && (forall c :: c in activeCalls <==> c in order)
      && (forall c :: c in activeCalls ==> activeCalls[c].timer.None?)
    }

    constructor (db: Db)
      requires db.Valid()
      ensures Valid() && this.db == db
      ensures activeCalls == map[] && order == [] && rooms == map[] && outbox == []
    {
      this.db := db;
      activeCalls, order, rooms, outbox := map[], [], map[], [];
    }

    /** The entry `joinCall` leaves before any stamping: a new one, or the existing one with the joining socket. */
    ghost function Joined(callId: CallId, userId: UserId, doctorId: DoctorId, userType: string,
                          socket: SocketId): Entry
      reads this
    {
      JoinedEntry(if callId in activeCalls then Some(activeCalls[callId]) else None, userId, doctorId, userType, socket)
    }

    /**
     * `joinCall`. Because `timer` is never set, every join that leaves both sockets present stamps
     * `startTime` again, writes it and status `active` to the stored call, and emits `callStarted`
     * to the room, so a reconnect restarts the call's clock.
     */
    method JoinCall(socket: SocketId, callId: CallId, userId: UserId, doctorId: DoctorId, userType: string, now: int)
      requires Valid()
      modifies this, db
      ensures Valid()
      ensures db.users == old(db.users) && db.doctors == old(db.doctors)
      ensures rooms == old(rooms)[callId := Members(old(rooms), callId) + {socket}]
      ensures order == if callId in old(activeCalls) then old(order) else old(order) + [callId]
      ensures var e := old(Joined(callId, userId, doctorId, userType, socket));
              activeCalls == old(activeCalls)[callId := if BothPresent(e) then e.(startTime := Some(now)) else e]
      ensures db.calls == (if BothPresent(old(Joined(callId, userId, doctorId, userType, socket))) && callId < |old(db.calls)|
                           then old(db.calls)[callId := old(db.calls)[callId].(status := Active, startTime := now)]
                           else old(db.calls))
      ensures outbox == old(outbox) + (if BothPresent(old(Joined(callId, userId, doctorId, userType, socket)))
                                       then [Emission(rooms[callId], CallStarted(callId, now))] else [])
    {
      rooms := rooms[callId := Members(rooms, callId) + {socket}];
      var prev := if callId in activeCalls then Some(activeCalls[callId]) else None;
      var e := JoinedEntry(prev, userId, doctorId, userType, socket);
      assert e.timer.None?;
      if prev.None? {
        DistinctAppend(order, callId);
        order := order + [callId];
      }
      if e.userSocketId.Some? && e.doctorSocketId.Some? && e.timer.None? {
        e := e.(startTime := Some(now));
        if callId < |db.calls| {
          db.calls := db.calls[callId := db.calls[callId].(status := Active, startTime := now)];
        }
        outbox := outbox + [Emission(rooms[callId], CallStarted(callId, now))];
      }
      activeCalls := activeCalls[callId := e];
    }

    /**
     * `offer`, `answer` and `ice-candidate`: the data, unchanged, to the room named in it, less the
     * sender. Nothing checks that the sender is in that room.
     */
    method Relay(kind: SignalKind, socket: SocketId, data: SignalData)
      requires Valid()
      modifies this
      ensures Valid()
      ensures activeCalls == old(activeCalls) && order == old(order) && rooms == old(rooms)
      ensures outbox == old(outbox) + [Emission(Members(rooms, data.callId) - {socket}, Signal(kind, data))]
    {
      outbox := outbox + [Emission(Members(rooms, data.callId) - {socket}, Signal(kind, data))];
    }

    /** `chatMessage`: to the whole room, the sender included, stamped with the server's clock. */
    method ChatMessage(callId: CallId, sender: string, message: string, now: int)
      requires Valid()
      modifies this
      ensures Valid()
      ensures activeCalls == old(activeCalls) && order == old(order) && rooms == old(rooms)
      ensures outbox == old(outbox) + [Emission(Members(rooms, callId), Message(sender, message, now))]
    {
      outbox := outbox + [Emission(Members(rooms, callId), Message(sender, message, now))];
    }

    /**
     * `endCall`, from any socket: with an entry, the minutes since its `startTime` go to the stored
     * call with `endTime` and status `completed`, whatever its status was; `billAmount` is left as
     * it is. Then `callEnded` goes to the room and the entry is deleted. Without an entry nothing happens.
     */
    method EndCall(callId: CallId, now: int)
      requires Valid()
      modifies this, db
      ensures Valid()
      ensures db.users == old(db.users) && db.doctors == old(db.doctors) && rooms == old(rooms)
      ensures callId !in old(activeCalls) ==>
                activeCalls == old(activeCalls) && order == old(order) && outbox == old(outbox)
                && db.calls == old(db.calls)
      ensures callId in old(activeCalls) ==>
                var minutes := CeilMinutes(ElapsedMs(now, old(activeCalls)[callId].startTime));
                && activeCalls == old(activeCalls) - {callId}
                && order == Without(old(order), callId)
                && outbox == old(outbox) + [Emission(Members(rooms, callId), CallEnded(callId, minutes))]
                && db.calls == (if callId < |old(db.calls)|
                                then old(db.calls)[callId := old(db.calls)[callId].(endTime := Some(now),
                                                                                  duration := minutes,
                                                                                  status := Completed)]
                                else old(db.calls))
    {
      if callId in activeCalls {
        var callData := activeCalls[callId];
        var endTime := now;
        var durationMinutes := CeilMinutes(ElapsedMs(endTime, callData.startTime));
        if callId < |db.calls| {
          var call := db.calls[callId];
          call := call.(endTime := Some(endTime), duration := durationMinutes, status := Completed);
          db.calls := db.calls[callId := call];
        }
        outbox := outbox + [Emission(Members(rooms, callId), CallEnded(callId, durationMinutes))];
        activeCalls := activeCalls - {callId};
        order := Without(order, callId);
      }
    }

    /**
     * `disconnect`: after Socket.IO has taken the socket out of its rooms, the first entry (in key
     * order) that holds the socket is announced to its room and deleted; the scan stops there.
     * The stored call is not touched.
     */
    method Disconnect(socket: SocketId)
      requires Valid()
      modifies this
      ensures Valid()
      ensures rooms == LeaveAll(old(rooms), socket)
      ensures var k := FirstHolder(old(order), old(activeCalls), socket);
              && (k == |old(order)| ==>
                    activeCalls == old(activeCalls) && order == old(order) && outbox == old(outbox))
              && (k < |old(order)| ==>
                    var callId := old(order)[k];
                    && activeCalls == old(activeCalls) - {callId}
                    && order == Without(old(order), callId)
                    && outbox == old(outbox) + [Emission(Members(rooms, callId), ParticipantDisconnected(socket))])
    {
      rooms := LeaveAll(rooms, socket);
      var i := 0;
      ghost var found := false;
      while i < |order|
        invariant 0 <= i <= |order|
        invariant forall j :: 0 <= j < i ==> !Holds(activeCalls[order[j]], socket)
        invariant activeCalls == old(activeCalls) && order == old(order) && outbox == old(outbox)
        decreases |order| - i
      {
        var callId := order[i];
        if activeCalls[callId].userSocketId == Some(socket) || activeCalls[callId].doctorSocketId == Some(socket) {
          FirstHolderIs(order, activeCalls, socket, i);
          outbox := outbox + [Emission(Members(rooms, callId), ParticipantDisconnected(socket))];
          activeCalls := activeCalls - {callId};
          order := Without(order, callId);
          found := true;
          break;
        }
        i := i + 1;
      }
      if !found {
        FirstHolderIs(order, activeCalls, socket, i);
      }
    }
  }
}
