/** The Mongoose `Call` schema: its fields, their defaults, the status enum and the required fields. */
module CallModel {
  import opened Common

  /** The schema's `status` enum. */
  datatype Status = Pending | Active | Completed | Cancelled

  function StatusName(s: Status): string {
    match s
    case Pending => "pending"
    case Active => "active"
    case Completed => "completed"
    case Cancelled => "cancelled"
  }

  /** Enum validation: a string is accepted exactly when it is one of the four names. */
  function ParseStatus(name: string): (r: Option<Status>)
    ensures r.Some? <==> name == "pending" || name == "active" || name == "completed" || name == "cancelled"
    ensures r.Some? ==> StatusName(r.value) == name
  {
    if name == "pending" then Some(Pending)
    else if name == "active" then Some(Active)
    else if name == "completed" then Some(Completed)
    else if name == "cancelled" then Some(Cancelled)
    else None
  }

  lemma StatusNameRoundTrip(s: Status)
    ensures ParseStatus(StatusName(s)) == Some(s)
  {
  }

  /** A stored call document. Instants are integer milliseconds; money is in integer minor units. */
  datatype Call = Call(
    user: UserId,
    doctor: DoctorId,
    startTime: int,
    endTime: Option<int>,
    duration: int,
    billAmount: int,
    status: Status,
    stripeChargeId: Option<string>)

  /**
   * `Call.create(fields)`: validation fails when a required field (`user`, `doctor`, `startTime`)
   * is missing or `status` is outside the enum; otherwise the unspecified fields take their defaults.
   */
  function CreateCall(user: Option<UserId>, doctor: Option<DoctorId>, startTime: Option<int>,
                      status: Option<string>): (r: Option<Call>)
    ensures r.Some? <==> user.Some? && doctor.Some? && startTime.Some?
                         && (status.None? || ParseStatus(status.value).Some?)
    ensures r.Some? ==> r.value.user == user.value && r.value.doctor == doctor.value
                        && r.value.startTime == startTime.value
    ensures r.Some? ==> r.value.duration == 0 && r.value.billAmount == 0
                        && r.value.endTime.None? && r.value.stripeChargeId.None?
    ensures r.Some? && status.None? ==> r.value.status == Pending
    ensures r.Some? && status.Some? ==> StatusName(r.value.status) == status.value
  {
    if user.None? || doctor.None? || startTime.None? then None
    else if status.Some? && ParseStatus(status.value).None? then None
    else
      var st := if status.Some? then ParseStatus(status.value).value else Pending;
      Some(Call(user.value, doctor.value, startTime.value, None, 0, 0, st, None))
  }
}
