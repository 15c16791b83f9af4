/**
 * Event orders across the two paths that share one call record: the HTTP routes and the socket
 * server. The call page posts `/api/calls/end` first and emits `endCall` once that request has
 * resolved; a network failure of the request skips the emit. The other orders are what a second
 * tab, a reconnect or a client that skips the HTTP request produce. Each order is run in sequence; their interleaving is not modelled.
 */
module Scenarios {
  import opened Common
  import opened CallModel
  import opened Billing
  import opened Database
  import opened Http
  import opened AuthMiddleware
  import opened AuthRoutes
  import opened CallRoutes
  import opened PaymentRoutes
  import opened Signaling

  /** What the HTTP `end` can bill for the stored call `callId`: it is active, its doctor exists and the caller may end it. */
  predicate Billable(req: Request, db: Db, callId: CallId)
    reads req, db
  {
    && callId < |db.calls|
    && db.calls[callId].status == Active
    && db.calls[callId].doctor < |db.doctors|
    && EndAuthorization(req.userType, req.user, req.doctor, db.calls[callId]).None?
  }

  /**
   * A call the HTTP `end` billed for a positive interval at a positive rate, with no charge id, is
   * what the payment route accepts, for the amount `end` stored.
   */
  lemma BilledCallIsPayable(calls: seq<Call>, callId: CallId, now: int, rate: int)
    requires callId < |calls| && !Truthy(calls[callId].stripeChargeId)
    requires now > calls[callId].startTime && rate > 0
    ensures var c := calls[callId];
            var minutes := CeilMinutes(now - c.startTime);
            var billed := c.(endTime := Some(now), duration := minutes, billAmount := BillAmount(minutes, rate),
                             status := Completed);
            ProcessCallPayment(calls[callId := billed], callId) == Response(200, PaymentSimulated(callId, minutes * rate))
  {
    var minutes := CeilMinutes(now - calls[callId].startTime);
    assert minutes >= 1;
    assert minutes * rate >= rate by {
      assert (minutes - 1) * rate >= 0;
    }
  }

  /**
   * The call page's order: HTTP `end`, then socket `endCall`. The bill stays the HTTP one, but
   * `endTime` and `duration` are overwritten with the socket path's, which counts from the socket
   * `startTime`; so the stored duration and the stored amount can disagree.
   */
  method HttpEndThenSocketEnd(server: SignalingServer, req: Request, callId: CallId,
                              httpNow: int, socketNow: int, paymentReachable: bool) returns (resp: Response)
    requires server.Valid()
    requires Billable(req, server.db, callId) && callId in server.activeCalls
    modifies server, server.db
    ensures server.Valid()
    ensures server.db.doctors == old(server.db.doctors) && |server.db.calls| == |old(server.db.calls)|
    ensures |server.db.users| == |old(server.db.users)|
    ensures var c := old(server.db.calls[callId]);
            var httpMinutes := CeilMinutes(httpNow - c.startTime);
            var bill := BillAmount(httpMinutes, server.db.doctors[c.doctor].ratePerMinute);
            && (c.user < |server.db.users| ==>
                  server.db.users[c.user].consultationHistory
                  == old(server.db.users[c.user].consultationHistory) + [HistoryEntry(c.doctor, httpMinutes, bill, c.startTime)])
            && resp == (if paymentReachable then Response(200, CallBilled(callId, httpMinutes, bill))
                        else Fail(500, "Call ended, but payment initiation failed."))
            && server.db.calls == old(server.db.calls)[callId := c.(
                 endTime := Some(socketNow),
                 duration := CeilMinutes(ElapsedMs(socketNow, old(server.activeCalls[callId]).startTime)),
                 billAmount := bill,
                 status := Completed)]
            && callId !in server.activeCalls
  {
    ghost var c := server.db.calls[callId];
    ghost var minutes := CeilMinutes(httpNow - c.startTime);
    ghost var billed := c.(endTime := Some(httpNow), duration := minutes,
                           billAmount := BillAmount(minutes, server.db.doctors[c.doctor].ratePerMinute),
                           status := Completed);
    resp := End(req, server.db, callId, httpNow, paymentReachable);
    assert server.db.calls == old(server.db.calls)[callId := billed];
    assert resp == (if paymentReachable then Response(200, CallBilled(callId, minutes, billed.billAmount))
                    else Fail(500, "Call ended, but payment initiation failed."));
    server.EndCall(callId, socketNow);
  }

  /**
   * Socket `endCall` first: the record is completed without a bill, so the HTTP `end` that
   * follows is refused and changes nothing, and a record that had no amount is refused payment.
   */
  method SocketEndThenHttpEnd(server: SignalingServer, req: Request, callId: CallId,
                              socketNow: int, httpNow: int, paymentReachable: bool)
    returns (resp: Response, payment: Response)
    requires server.Valid()
    requires callId < |server.db.calls| && callId in server.activeCalls
    modifies server, server.db
    ensures server.Valid()
    ensures |server.db.calls| == |old(server.db.calls)|
    ensures var c := old(server.db.calls[callId]);
            var err := EndAuthorization(req.userType, req.user, req.doctor, c);
            && resp == (if err.Some? then err.value else Fail(400, "Call is not active"))
            && server.db.users == old(server.db.users)
            && server.db.calls[callId].status == Completed
            && server.db.calls[callId].billAmount == c.billAmount
            && (c.billAmount <= 0 ==> payment == NotPayable)
  {
    ghost var c := server.db.calls[callId];
    server.EndCall(callId, socketNow);
    assert server.db.calls[callId] == c.(endTime := server.db.calls[callId].endTime,
                                         duration := server.db.calls[callId].duration, status := Completed);
    resp := End(req, server.db, callId, httpNow, paymentReachable);
    payment := ProcessCallPayment(server.db.calls, callId);
  }

  /**
   * A second `joinCall` of a party while both sockets are registered (a reconnect, a second tab)
   * restarts the clock: the entry and the stored call get the new instant, and a later socket
   * `endCall` counts from it.
   */
  method RejoinRestartsClock(server: SignalingServer, socket: SocketId, callId: CallId, userType: string,
                             joinNow: int, endNow: int)
    requires server.Valid()
    requires callId < |server.db.calls| && callId in server.activeCalls
    requires BothPresent(server.activeCalls[callId])
    modifies server, server.db
    ensures server.Valid()
    ensures |server.db.calls| == |old(server.db.calls)| && |server.outbox| == |old(server.outbox)| + 2
    ensures server.db.calls[callId] == old(server.db.calls[callId]).(startTime := joinNow, endTime := Some(endNow),
                                                                      duration := CeilMinutes(endNow - joinNow),
                                                                      status := Completed)
    ensures server.outbox[|old(server.outbox)|].event == CallStarted(callId, joinNow)
  {
    var e := server.activeCalls[callId];
    ghost var c := server.db.calls[callId];
    ghost var joined := JoinedEntry(Some(e), e.userId, e.doctorId, userType, socket);
    assert BothPresent(joined);
    server.JoinCall(socket, callId, e.userId, e.doctorId, userType, joinNow);
    assert server.activeCalls[callId] == joined.(startTime := Some(joinNow));
    assert server.db.calls[callId] == c.(status := Active, startTime := joinNow);
    assert ElapsedMs(endNow, Some(joinNow)) == endNow - joinNow;
    server.EndCall(callId, endNow);
  }

  /**
   * HTTP `end`, then a rejoin of the same call, then HTTP `end` again: the rejoin sets the record
   * back to `active`, so the second `end` bills again and the user's history gets a second entry.
   */
  method RejoinAfterHttpEndBillsAgain(server: SignalingServer, req: Request, socket: SocketId, callId: CallId,
                                      userType: string, firstEnd: int, rejoin: int, secondEnd: int)
    returns (first: Response, second: Response)
    requires server.Valid()
    requires Billable(req, server.db, callId) && callId in server.activeCalls
    requires BothPresent(server.activeCalls[callId])
    requires server.db.calls[callId].user < |server.db.users|
    modifies server, server.db
    ensures server.Valid()
    ensures server.db.doctors == old(server.db.doctors) && |server.db.users| == |old(server.db.users)|
    ensures var c := old(server.db.calls[callId]);
            var rate := server.db.doctors[c.doctor].ratePerMinute;
            var firstMinutes := CeilMinutes(firstEnd - c.startTime);
            var secondMinutes := CeilMinutes(secondEnd - rejoin);
            && first == Response(200, CallBilled(callId, firstMinutes, BillAmount(firstMinutes, rate)))
            && second == Response(200, CallBilled(callId, secondMinutes, BillAmount(secondMinutes, rate)))
            && |server.db.users[c.user].consultationHistory| == |old(server.db.users[c.user].consultationHistory)| + 2
  {
    var e := server.activeCalls[callId];
    ghost var c := server.db.calls[callId];
    ghost var rate := server.db.doctors[c.doctor].ratePerMinute;
    ghost var minutes := CeilMinutes(firstEnd - c.startTime);
    ghost var billed := c.(endTime := Some(firstEnd), duration := minutes, billAmount := BillAmount(minutes, rate),
                           status := Completed);
    first := End(req, server.db, callId, firstEnd, true);
    assert server.db.calls[callId] == billed;
    assert first == Response(200, CallBilled(callId, minutes, billed.billAmount));
    ghost var joined := JoinedEntry(Some(e), e.userId, e.doctorId, userType, socket);
    assert BothPresent(joined);
    server.JoinCall(socket, callId, e.userId, e.doctorId, userType, rejoin);
    assert server.db.calls[callId] == billed.(status := Active, startTime := rejoin);
    second := End(req, server.db, callId, secondEnd, true);
  }

  /**
   * HTTP `end` twice with no socket event between: the first bills, the second finds the call
   * completed and is refused, so the record and the history are those the first left.
   */
  method EndTwiceBillsOnce(req: Request, db: Db, callId: CallId, firstNow: int, secondNow: int, paymentReachable: bool)
    returns (first: Response, second: Response)
    requires db.Valid() && Billable(req, db, callId)
    modifies db
    ensures db.Valid() && db.doctors == old(db.doctors) && |db.users| == |old(db.users)|
    ensures second == Fail(400, "Call is not active")
    ensures var c := old(db.calls[callId]);
            var minutes := CeilMinutes(firstNow - c.startTime);
            var billed := c.(endTime := Some(firstNow), duration := minutes,
                             billAmount := BillAmount(minutes, db.doctors[c.doctor].ratePerMinute), status := Completed);
            && db.calls == old(db.calls)[callId := billed]
            && first == (if paymentReachable then Response(200, CallBilled(callId, minutes, billed.billAmount))
                         else Fail(500, "Call ended, but payment initiation failed."))
            && (forall u :: 0 <= u < |db.users| && u != c.user ==> db.users[u] == old(db.users[u]))
            && (c.user < |db.users| ==>
                  db.users[c.user].consultationHistory == old(db.users[c.user].consultationHistory) + [HistoryOf(billed)])
  {
    first := End(req, db, callId, firstNow, paymentReachable);
    ghost var calls, users := db.calls, db.users;
    assert db.calls[callId].status == Completed;
    second := End(req, db, callId, secondNow, paymentReachable);
    assert db.calls == calls && db.users == users;
  }

  /**
   * Only one party joined before the socket `endCall`: the entry's `startTime` is still `null`, and
   * `endTime - null` is the whole instant, so the stored duration is the minutes since the epoch.
   */
  method EndBeforeBothJoined(server: SignalingServer, socket: SocketId, callId: CallId, userId: UserId,
                             doctorId: DoctorId, userType: string, joinNow: int, endNow: int)
    requires server.Valid()
    requires callId < |server.db.calls| && callId !in server.activeCalls
    modifies server, server.db
    ensures server.Valid() && callId !in server.activeCalls
    ensures server.db.users == old(server.db.users) && server.db.doctors == old(server.db.doctors)
    ensures server.db.calls == old(server.db.calls)[callId := old(server.db.calls[callId]).(
              endTime := Some(endNow), duration := CeilMinutes(endNow), status := Completed)]
  {
    server.JoinCall(socket, callId, userId, doctorId, userType, joinNow);
    assert server.activeCalls[callId].startTime.None? && server.db.calls == old(server.db.calls);
    server.EndCall(callId, endNow);
  }

  /**
   * A completed call whose user already has another active call is joined again by both parties:
   * `joinCall` writes `active` whatever the stored status was, so the user ends up with two active
   * calls, the situation `initiate` refuses to create.
   */
  method RejoinReactivatesCompletedCall(server: SignalingServer, callId: CallId, other: CallId,
                                        userSocket: SocketId, doctorSocket: SocketId, userJoins: int, doctorJoins: int)
    requires server.Valid() && OneActiveCallPerUser(server.db.calls)
    requires callId < |server.db.calls| && other < |server.db.calls| && other != callId
    requires callId !in server.activeCalls && server.db.calls[callId].status == Completed
    requires server.db.calls[other].status == Active && server.db.calls[other].user == server.db.calls[callId].user
    modifies server, server.db
    ensures server.Valid() && |server.db.calls| == |old(server.db.calls)|
    ensures server.db.calls[callId].status == Active && server.db.calls[other] == old(server.db.calls[other])
    ensures !OneActiveCallPerUser(server.db.calls)
  {
    var c := server.db.calls[callId];
    JoinBoth(server, callId, c.user, c.doctor, userSocket, doctorSocket, userJoins, doctorJoins);
  }

  /**
   * Both parties join a call nobody has joined yet, the user first: the second join starts the
   * clock, in the registry and in the stored call, which is set `active`.
   */
  method JoinBoth(server: SignalingServer, callId: CallId, userId: UserId, doctorId: DoctorId,
                  userSocket: SocketId, doctorSocket: SocketId, userJoins: int, doctorJoins: int)
    requires server.Valid()
    requires callId < |server.db.calls| && callId !in server.activeCalls
    modifies server, server.db
    ensures server.Valid()
    ensures server.db.users == old(server.db.users) && server.db.doctors == old(server.db.doctors)
    ensures server.db.calls == old(server.db.calls)[callId := old(server.db.calls[callId]).(status := Active,
                                                                                         startTime := doctorJoins)]
    ensures callId in server.activeCalls && server.activeCalls[callId].startTime == Some(doctorJoins)
    ensures server.activeCalls[callId].userSocketId == Some(userSocket)
    ensures server.activeCalls[callId].doctorSocketId == Some(doctorSocket)
    ensures |server.outbox| == |old(server.outbox)| + 1
    ensures server.outbox[|old(server.outbox)|].event == CallStarted(callId, doctorJoins)
  {
    server.JoinCall(userSocket, callId, userId, doctorId, "user", userJoins);
    assert server.db.calls == old(server.db.calls);
    server.JoinCall(doctorSocket, callId, userId, doctorId, "doctor", doctorJoins);
  }

  /**
   * A request carrying `Bearer <token>` for a token that verifies as user `id`'s passes `protect`
   * and then `userProtect`, with `req.user` the looked-up account.
   */
  method SignIn(db: Db, id: UserId, token: string) returns (req: Request, authenticated: Outcome, authorized: Outcome)
    requires ' ' !in token && token != ""
    ensures fresh(req) && req.authorization == Some("Bearer " + token)
    ensures authenticated == Next && authorized == Next
    ensures req.userType == Some(UserRole) && req.user == FindUser(db.users, id)
  {
    req := new Request(Some("Bearer " + token));
    BearerTokenOf(token);
    var resent;
    authenticated, resent := Protect(req, db, t => Some(GenerateToken(id, "user")));
    authorized := UserProtect(req.userType);
  }

  /**
   * The opening of one consultation: a user and a doctor (3 per minute) are registered; the user's
   * token passes `protect` and `userProtect`, the user initiates a call at instant 0, joins it at
   * 1 s and the doctor joins at 5 s, which starts it.
   */
  method OpenConsultation() returns (server: SignalingServer, req: Request, authenticated: Outcome,
                                     authorized: Outcome, initiated: Response)
    ensures fresh(server) && fresh(server.db) && server.Valid()
    ensures authenticated == Next && authorized == Next
    ensures initiated == Response(201, CallInitiated(0, "Dr B", "Ann"))
    ensures server.db.users == [User("Ann", "ann@example.org", "pw", [])]
    ensures server.db.doctors == [Doctor("Dr B", "b@example.org", "pw", "GP", 5, 3, true)]
    ensures server.db.calls == [InitiatedCall(0, 0, 0).(startTime := 5000)]
    ensures 0 in server.activeCalls && server.activeCalls[0].startTime == Some(5000)
    ensures Billable(req, server.db, 0)
  {
    var db := new Db();
    var _ := RegisterUser(db, "Ann", "ann@example.org", "pw");
    var _ := RegisterDoctor(db, "Dr B", "b@example.org", "pw", "GP", 5, 3, true);
    req, authenticated, authorized := SignIn(db, 0, "t");
    initiated := Initiate(req, db, 0, 0);
    server := new SignalingServer(db);
    JoinBoth(server, 0, 0, 0, 10, 20, 1000, 5000);
  }

  /**
   * The consultation opened above, ended in the call page's order: over HTTP at 95 s (90 s, so
   * 2 minutes at 3 per minute) and over the socket at 130 s (125 s from the socket start, so
   * 3 minutes). The record ends with 3 minutes but the 2-minute bill, which is what the history
   * shows and the payment route then accepts.
   */
  method CallPageWalkthrough() returns (initiated: Response, billing: Response, stored: Call, payment: Response,
                                        history: seq<HistoryEntry>)
    ensures initiated == Response(201, CallInitiated(0, "Dr B", "Ann"))
    ensures billing == Response(200, CallBilled(0, 2, 6))
    ensures stored.duration == 3 && stored.billAmount == 6 && stored.status == Completed
    ensures stored.startTime == 5000 && stored.endTime == Some(130000)
    ensures payment == Response(200, PaymentSimulated(0, 6))
    ensures history == [HistoryEntry(0, 2, 6, 5000)]
  {
    var server, req, authenticated, authorized;
    server, req, authenticated, authorized, initiated := OpenConsultation();
    assert CeilMinutes(95000 - 5000) == 2 && BillAmount(2, 3) == 6;
    assert CeilMinutes(ElapsedMs(130000, Some(5000))) == 3;
    billing := HttpEndThenSocketEnd(server, req, 0, 95000, 130000, true);
    stored := server.db.calls[0];
    payment := ProcessCallPayment(server.db.calls, 0);
    history := server.db.users[0].consultationHistory;
  }
}
