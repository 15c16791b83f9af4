/**
 * The HTTP side of a call's lifecycle (`/api/calls`): creating the record and ending it with
 * the bill. The `fetch` that `end` makes to the payment route is summarised by
 * `paymentReachable`: `fetch` only rejects when the request cannot be delivered; whatever the payment
 * route answers, the billing response is sent. The payment route changes nothing, so nothing else
 * of that call is modelled.
 */
module CallRoutes {
  import opened Common
  import opened CallModel
  import opened Billing
  import opened Database
  import opened Http
  import opened AuthMiddleware

  /** The error a handler answers with when it reads `_id` of a `null` `req.user` or `req.doctor`. */
  const NullPrincipal := Fail(500, "Cannot read properties of null (reading '_id')")

  /** The record `initiate` creates: `Call.create({ user, doctor, startTime, status: 'active' })`. */
  function InitiatedCall(user: UserId, doctor: DoctorId, now: int): (c: Call)
    ensures c.user == user && c.doctor == doctor && c.startTime == now && c.status == Active
    ensures c.duration == 0 && c.billAmount == 0 && c.endTime.None? && c.stripeChargeId.None?
  {
    CreateCall(Some(user), Some(doctor), Some(now), Some("active")).value
  }

  /** Adding an active call for a user with no active call keeps one active call per user. */
  lemma AddActiveCallKeepsOnePerUser(calls: seq<Call>, c: Call)
    requires OneActiveCallPerUser(calls)
    requires !HasActiveCall(calls, c.user)
    ensures OneActiveCallPerUser(calls + [c])
  {
    var all := calls + [c];
    forall i, j | 0 <= i < |all| && 0 <= j < |all| && i != j && all[i].status == Active && all[j].status == Active
      ensures all[i].user != all[j].user
    {
      if i == |calls| {
        assert all[j] == calls[j];
      } else if j == |calls| {
        assert all[i] == calls[i];
      }
    }
  }

  /** Turning one call's status away from `active` keeps one active call per user. */
  lemma CompleteCallKeepsOnePerUser(calls: seq<Call>, k: nat, c: Call)
    requires OneActiveCallPerUser(calls)
    requires k < |calls| && c.status != Active
    ensures OneActiveCallPerUser(calls[k := c])
  {
  }

  /**
   * POST /initiate, behind `protect` and `userProtect`. The doctor checks come before `req.user`
   * is read, so a token whose user is gone reaches them and only then fails.
   */
  method Initiate(req: Request, db: Db, doctorId: DoctorId, now: int) returns (resp: Response)
    requires db.Valid()
    modifies db
    ensures db.Valid() && db.users == old(db.users) && db.doctors == old(db.doctors)
    ensures doctorId >= |db.doctors| ==> resp == Fail(404, "Doctor not found") && db.calls == old(db.calls)
    ensures doctorId < |db.doctors| && !db.doctors[doctorId].isAvailable ==>
              resp == Fail(400, "Doctor is not available") && db.calls == old(db.calls)
    ensures doctorId < |db.doctors| && db.doctors[doctorId].isAvailable && req.user.None? ==>
              resp == NullPrincipal && db.calls == old(db.calls)
    ensures doctorId < |db.doctors| && db.doctors[doctorId].isAvailable && req.user.Some?
            && HasActiveCall(old(db.calls), req.user.value.id) ==>
              resp == Fail(400, "You already have an active call.") && db.calls == old(db.calls)
    ensures resp.status == 201 <==> (doctorId < |db.doctors| && db.doctors[doctorId].isAvailable && req.user.Some?
                                     && !HasActiveCall(old(db.calls), req.user.value.id))
    ensures resp.status == 201 ==>
              && db.calls == old(db.calls) + [InitiatedCall(req.user.value.id, doctorId, now)]
              && resp.body == CallInitiated(|old(db.calls)|, db.doctors[doctorId].name, req.user.value.name)
    ensures OneActiveCallPerUser(old(db.calls)) ==> OneActiveCallPerUser(db.calls)
  {
    if doctorId >= |db.doctors| {
      return Fail(404, "Doctor not found");
    }
    var doctor := db.doctors[doctorId];
    if !doctor.isAvailable {
      return Fail(400, "Doctor is not available");
    }
    if req.user.None? {
      return NullPrincipal;
    }
    var user := req.user.value;
    if HasActiveCall(db.calls, user.id) {
      return Fail(400, "You already have an active call.");
    }
    var callId := |db.calls|;
    var call := InitiatedCall(user.id, doctorId, now);
    if OneActiveCallPerUser(db.calls) {
      AddActiveCallKeepsOnePerUser(db.calls, call);
    }
    db.calls := db.calls + [call];
    resp := Response(201, CallInitiated(callId, doctor.name, user.name));
  }

  /**
   * "Ensure only participating user/doctor can end the call": the error `end` answers with, if any.
   * A caller of the other role is not checked against that role's party.
   */
  function EndAuthorization(userType: Option<Role>, user: Option<Principal>, doctor: Option<Principal>,
                            call: Call): (err: Option<Response>)
    ensures err.None? <==> (userType == Some(UserRole) ==> user.Some? && user.value.id == call.user)
                           && (userType == Some(DoctorRole) ==> doctor.Some? && doctor.value.id == call.doctor)
    ensures userType == Some(UserRole) && user.None? ==> err == Some(NullPrincipal)
    ensures userType == Some(UserRole) && user.Some? && user.value.id != call.user ==>
              err == Some(Fail(403, "Not authorized to end this call"))
    ensures userType == Some(DoctorRole) && doctor.None? ==> err == Some(NullPrincipal)
    ensures userType == Some(DoctorRole) && doctor.Some? && doctor.value.id != call.doctor ==>
              err == Some(Fail(403, "Not authorized to end this call"))
  {
    if userType == Some(UserRole) && user.None? then Some(NullPrincipal)
    else if userType == Some(UserRole) && user.value.id != call.user then Some(Fail(403, "Not authorized to end this call"))
    else if userType == Some(DoctorRole) && doctor.None? then Some(NullPrincipal)
    else if userType == Some(DoctorRole) && doctor.value.id != call.doctor then Some(Fail(403, "Not authorized to end this call"))
    else None
  }

  /** The history entry `end` pushes for a billed call. */
  function HistoryOf(c: Call): (h: HistoryEntry)
    ensures h.doctor == c.doctor && h.callDuration == c.duration && h.billAmount == c.billAmount
    ensures h.callDate == c.startTime
  {
    HistoryEntry(c.doctor, c.duration, c.billAmount, c.startTime)
  }

  /** Appending to one user's history leaves every email, so the store's invariant, as it was. */
  lemma HistoryAppendKeepsEmails(users: seq<User>, k: nat, h: HistoryEntry)
    requires k < |users|
    ensures UserEmails(users[k := users[k].(consultationHistory := users[k].consultationHistory + [h])]) == UserEmails(users)
  {
    var after := users[k := users[k].(consultationHistory := users[k].consultationHistory + [h])];
    assert forall i :: 0 <= i < |users| ==> UserEmails(after)[i] == UserEmails(users)[i];
  }

  /**
   * POST /end/:callId, behind `protect`. Only an `active` call is billed, so a second `end` of the
   * same call is refused and never bills again. When the doctor is gone nothing is saved.
   */
  method End(req: Request, db: Db, callId: CallId, now: int, paymentReachable: bool) returns (resp: Response)
    requires db.Valid()
    modifies db
    ensures db.Valid() && db.doctors == old(db.doctors)
    ensures |db.calls| == |old(db.calls)| && |db.users| == |old(db.users)|
    ensures callId >= |old(db.calls)| ==>
              resp == Fail(404, "Call not found") && db.calls == old(db.calls) && db.users == old(db.users)
    ensures callId < |old(db.calls)| ==>
      var c := old(db.calls)[callId];
      var err := EndAuthorization(req.userType, req.user, req.doctor, c);
      && (err.Some? ==> resp == err.value && db.calls == old(db.calls) && db.users == old(db.users))
      && (err.None? && c.status != Active ==>
            resp == Fail(400, "Call is not active") && db.calls == old(db.calls) && db.users == old(db.users))
      && (err.None? && c.status == Active && c.doctor >= |db.doctors| ==>
            resp == Fail(404, "Doctor not found for billing") && db.calls == old(db.calls) && db.users == old(db.users))
      && (err.None? && c.status == Active && c.doctor < |db.doctors| ==>
            var minutes := CeilMinutes(now - c.startTime);
            var billed := c.(endTime := Some(now), duration := minutes,
                             billAmount := BillAmount(minutes, db.doctors[c.doctor].ratePerMinute), status := Completed);
            && db.calls == old(db.calls)[callId := billed]
            && |db.users| == |old(db.users)|
            && (forall u :: 0 <= u < |db.users| && u != c.user ==> db.users[u] == old(db.users)[u])
            && (c.user < |db.users| ==>
                  db.users[c.user] == old(db.users)[c.user].(consultationHistory :=
                                        old(db.users)[c.user].consultationHistory + [HistoryOf(billed)]))
            && resp == (if paymentReachable then Response(200, CallBilled(callId, minutes, billed.billAmount))
                        else Fail(500, "Call ended, but payment initiation failed.")))
    ensures OneActiveCallPerUser(old(db.calls)) ==> OneActiveCallPerUser(db.calls)
  {
    if callId >= |db.calls| {
      return Fail(404, "Call not found");
    }
    var call := db.calls[callId];
    var err := EndAuthorization(req.userType, req.user, req.doctor, call);
    if err.Some? {
      return err.value;
    }
    if call.status != Active {
      return Fail(400, "Call is not active");
    }
    var endTime := now;
    var minutes := CeilMinutes(endTime - call.startTime);
    if call.doctor >= |db.doctors| {
      return Fail(404, "Doctor not found for billing");
    }
    var doctor := db.doctors[call.doctor];
    call := call.(endTime := Some(endTime), duration := minutes,
                  billAmount := BillAmount(minutes, doctor.ratePerMinute), status := Completed);
    if OneActiveCallPerUser(db.calls) {
      CompleteCallKeepsOnePerUser(db.calls, callId, call);
    }
    db.calls := db.calls[callId := call];
    if call.user < |db.users| {
      var user := db.users[call.user];
      HistoryAppendKeepsEmails(db.users, call.user, HistoryOf(call));
      db.users := db.users[call.user := user.(consultationHistory := user.consultationHistory + [HistoryOf(call)])];
    }
    if paymentReachable {
      resp := Response(200, CallBilled(callId, call.duration, call.billAmount));
    } else {
      resp := Fail(500, "Call ended, but payment initiation failed.");
    }
  }
}
