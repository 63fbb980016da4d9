/** How the Midtrans adapter classifies replies (internal/adapter/outbound/gateway/midtrans/adapter.go,
    charge.go), and where that leaves the port's promises to the gateway itself. */
module Midtrans {
  import opened Outcomes
  import opened Gateway
  import opened Commands
  import opened PaymentDomain
  import opened FlexAmount

  /** A decoded reply; statusCode is the body's own status_code, empty if it has none. Without a usable
      reply nothing is known of the outcome. */
  datatype Reply =
    | NoReply
    | Reply(httpStatus: nat, statusCode: string, transactionId: string, transactionStatus: string, fraudStatus: string)

  function Code(r: Reply): string
    requires r.Reply?
  {
    if r.statusCode == "" then Decimal(r.httpStatus) else r.statusCode
  }

  predicate Starts(code: string, digit: char) {
    code != "" && code[0] == digit
  }

  predicate HasFailed(r: Reply)
    requires r.Reply?
  {
    r.httpStatus >= 400 || Starts(Code(r), '4') || Starts(Code(r), '5')
  }

  predicate IsServerError(r: Reply)
    requires r.Reply?
  {
    r.httpStatus >= 500 || Starts(Code(r), '5')
  }

  /** Midtrans looked at the request and refused it. */
  predicate IsRefusal(r: Reply) {
    r.Reply? && (Code(r) == "400" || (HasFailed(r) && !IsServerError(r)))
  }

  function MapStatus(status: string, fraudStatus: string): Reported {
    if status == "settlement" then ReportsSettled
    else if status == "capture" then
      if fraudStatus == "" || fraudStatus == "accept" then ReportsSettled else ReportsPending
    else if status == "pending" || status == "authorize" then ReportsPending
    else if status == "deny" || status == "cancel" || status == "expire" || status == "failure" then ReportsFailed
    else ReportsUnknown
  }

  function ClassifyCharge(r: Reply): ChargeAnswer {
    if r.NoReply? then ChargeUnknown
    else if Code(r) == "400" then RejectedInput
    else if HasFailed(r) then (if IsServerError(r) then ChargeUnknown else DefiniteError)
    else if r.transactionId == "" then DefiniteError
    else ChargeReply(MapStatus(r.transactionStatus, r.fraudStatus), r.transactionId)
  }

  datatype RefundAnswer = RefundAccepted | RefundRefused | RefundOutcomeUnknown

  function ClassifyRefund(r: Reply): RefundAnswer {
    if r.NoReply? then RefundOutcomeUnknown
    else if Code(r) == "200" then RefundAccepted
    else if Code(r) == "406" then RefundOutcomeUnknown
    else if IsServerError(r) || Starts(Code(r), '2') then RefundOutcomeUnknown
    else RefundRefused
  }

  /** The protocol takes a definite charge error to mean that nothing was created. Midtrans's refusals
      do mean that; the one other reply the adapter reports that way is a success that names no
      transaction. */
  lemma DefiniteErrorsAreRefusalsIff(r: Reply)
    ensures (ClassifyCharge(r).RejectedInput? || ClassifyCharge(r).DefiniteError? ==> IsRefusal(r))
            <==> !(r.Reply? && !HasFailed(r) && r.transactionId == "")
  {
    if r.Reply? && Code(r) == "400" {
      BadRequestFails(r);
    }
  }

  lemma BadRequestFails(r: Reply)
    requires r.Reply? && Code(r) == "400"
    ensures HasFailed(r)
  {
  }

  /** Such a reply fails the payment, whatever status the reply gives the transaction it created. */
  lemma SuccessWithoutIdFailsPayment(terms: Terms, r: Reply, now: Time)
    requires New(terms).Ok? && r.Reply? && !HasFailed(r) && r.transactionId == ""
    ensures var stored := AfterCharge(New(terms).value, ClassifyCharge(r), now);
            stored.Some? && stored.value.state.status == Failed
  {
    if Code(r) == "400" {
      BadRequestFails(r);
    }
  }

  /** A refund is taken as refused for good only if Midtrans said 4xx, unless the code belongs to no
      family the adapter knows (not 2xx, 4xx or 5xx). */
  lemma RefusedRefundsAreRefusalsIff(r: Reply)
    ensures (ClassifyRefund(r).RefundRefused? ==> Starts(Code(r), '4') && !IsServerError(r))
            <==> !(r.Reply? && r.httpStatus < 500
                   && !Starts(Code(r), '2') && !Starts(Code(r), '4') && !Starts(Code(r), '5'))
  {
  }

  /** Whatever a refund call met, these never count as a refusal: no reply, a server error, a success
      code, a duplicate key. */
  lemma DoubtfulRefundsStayOpen(r: Reply)
    requires r.NoReply? || IsServerError(r) || Starts(Code(r), '2') || Code(r) == "406"
    ensures !ClassifyRefund(r).RefundRefused?
  {
  }
}
