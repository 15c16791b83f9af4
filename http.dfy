/** The responses the Express routes send: a status code and a JSON body. */
module Http {
  import opened Common

  /** A doctor document without its password, as returned by `.select('-password')`. */
  datatype PublicDoctor = PublicDoctor(
    id: DoctorId,
    name: string,
    email: string,
    specialty: string,
    experience: int,
    ratePerMinute: int,
    isAvailable: bool)

  datatype Body =
    | Message(text: string)
    | CallInitiated(callId: CallId, doctorName: string, userName: string)
    | CallBilled(billedCall: CallId, duration: int, billAmount: int)
    | PaymentSimulated(paidCall: CallId, amount: int)
    | Account(accountId: nat, accountName: string, accountEmail: string, accountSpecialty: Option<string>, token: Claims)
    | DoctorList(doctors: seq<PublicDoctor>)
    | DoctorProfile(profile: PublicDoctor)
    | Availability(doctorId: DoctorId, doctorName: string, doctorEmail: string, doctorSpecialty: string, available: bool)

  datatype Response = Response(status: nat, body: Body)

  function Fail(status: nat, text: string): Response {
    Response(status, Message(text))
  }

  /** What a middleware does: pass on to the next handler, or answer the request itself. */
  datatype Outcome = Next | Respond(response: Response)
}
