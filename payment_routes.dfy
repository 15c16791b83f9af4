/**
 * POST /api/payments/process-call-payment, behind `protect`. The handler only reads the call:
 * the Stripe charge and the write of `stripeChargeId` are commented out in the route, so it answers
 * with the stored amount and changes nothing.
 */
module PaymentRoutes {
  import opened Common
  import opened CallModel
  import opened Http

  const NotPayable := Fail(400, "Call not completed or no bill amount")
  const AlreadyPaid := Fail(400, "Payment already processed for this call")

  function ProcessCallPayment(calls: seq<Call>, callId: CallId): (resp: Response)
    ensures callId >= |calls| ==> resp == Fail(404, "Call not found")
    ensures callId < |calls| && (calls[callId].status != Completed || calls[callId].billAmount <= 0) ==>
              resp == NotPayable
    ensures (callId < |calls| && calls[callId].status == Completed && calls[callId].billAmount > 0
             && Truthy(calls[callId].stripeChargeId)) ==> resp == AlreadyPaid
    ensures resp.status == 200 <==> (callId < |calls| && calls[callId].status == Completed
                                     && calls[callId].billAmount > 0 && !Truthy(calls[callId].stripeChargeId))
    ensures resp.status == 200 ==> resp.body == PaymentSimulated(callId, calls[callId].billAmount)
  {
    if callId >= |calls| then Fail(404, "Call not found")
    else
      var call := calls[callId];
      if call.status != Completed || call.billAmount <= 0 then NotPayable
      else if Truthy(call.stripeChargeId) then AlreadyPaid
      else Response(200, PaymentSimulated(callId, call.billAmount))
  }

  /** A call that carries no amount (never billed, or billed for zero minutes) is never paid. */
  lemma UnbilledCallIsRefused(calls: seq<Call>, callId: CallId)
    requires callId < |calls| && calls[callId].billAmount == 0
    ensures ProcessCallPayment(calls, callId) == NotPayable
  {
  }
}
