/** What the command handlers decide between two store or gateway calls
    (internal/application/command). Each function is the code from one call to the next. */
module Commands {
  import opened Outcomes
  import opened PaymentDomain
  import opened Gateway

  datatype Applied = Applied(aggregate: Aggregate, changed: bool)

  // ---------------------------------------------------------------- process_callback.go

  /** Whether a reported refund completes r. */
  predicate Confirms(rn: RefundNotification, r: Refund) {
    r.status == RefundPending && (rn.amount == 0 || rn.amount == r.amount)
  }

  ghost function ApplyRefundNotification(a: Aggregate, rn: RefundNotification, now: Time): Applied {
    if rn.key.Some? && rn.key.value in a.state.refunds && Confirms(rn, a.state.refunds[rn.key.value]) then
      Applied(CompleteRefund(a, rn.key.value, rn.gatewayRefundId, now).value, true)
    else
      Applied(a, false)
  }

  ghost function ApplyRefundNotifications(a: Aggregate, refunds: seq<RefundNotification>, now: Time): Applied {
    if refunds == [] then Applied(a, false)
    else
      var before := ApplyRefundNotifications(a, refunds[..|refunds| - 1], now);
      var last := ApplyRefundNotification(before.aggregate, refunds[|refunds| - 1], now);
      Applied(last.aggregate, before.changed || last.changed)
  }

  /** ProcessCallbackHandler.Handle from the loaded payment to the save. */
  ghost function HandleNotification(a: Aggregate, n: Notification, now: Time): Result<Applied> {
    var refunded := ApplyRefundNotifications(a, n.refunds, now);
    var acknowledged :=
      if refunded.aggregate.state.status == Initiated && n.txId != ""
          && (n.status.ReportsSettled? || n.status.ReportsFailed?)
      then Applied(MarkPending(refunded.aggregate, n.txId, now).value, true)
      else refunded;
    var p := acknowledged.aggregate;
    if p.state.status.IsTerminal() then Ok(acknowledged)
    else match n.status
      case ReportsSettled =>
        (match MarkCompleted(p, now, now) case Ok(done) => Ok(Applied(done, true)) case Err(code) => Err(code))
      case ReportsFailed =>
        (match MarkFailed(p, n.gatewayStatus, now) case Ok(done) => Ok(Applied(done, true)) case Err(code) => Err(code))
      case _ => Ok(acknowledged)
  }

  // ---------------------------------------------------------------- create_payment.go

  /** What the charge call returns: a refusal of the request's contents, another definite error,
      an error that leaves the outcome open, or an answer. */
  datatype ChargeAnswer =
    | RejectedInput
    | DefiniteError
    | ChargeUnknown
    | ChargeReply(status: Reported, txId: string)

  /** The payment to store after the charge call, or None if nothing is stored. */
  function AfterCharge(a: Aggregate, answer: ChargeAnswer, now: Time): Option<Aggregate> {
    match answer
    case RejectedInput => None
    case DefiniteError =>
      (match MarkFailed(a, "GATEWAY_ERROR", now) case Ok(failed) => Some(failed) case Err(_) => None)
    case ChargeUnknown => Some(a)
    case ChargeReply(status, txId) =>
      match MarkPending(a, txId, now)
      case Err(_) => None
      case Ok(pending) =>
        match status
        case ReportsSettled =>
          (match MarkCompleted(pending, now, now) case Ok(done) => Some(done) case Err(_) => None)
        case ReportsFailed =>
          (match MarkFailed(pending, "DECLINED", now) case Ok(done) => Some(done) case Err(_) => None)
        case _ => Some(pending)
  }

  // ---------------------------------------------------------------- refund_payment.go

  datatype RefundCommand = RefundCommand(
    referenceId: string, amount: int, reason: string, callerService: string, admin: bool)

  datatype RefundDecision = Reserve(aggregate: Aggregate) | ReplayEarlier(refund: Refund) | Refuse(code: Code)

  ghost function RefundOf(refunds: map<Id, Refund>, referenceId: string): Refund
    requires HasReference(refunds, referenceId)
  {
    var id :| id in refunds && refunds[id].referenceId == referenceId;
    refunds[id]
  }

  /** At most one refund has the reference. */
  lemma ReferenceDetermines(refunds: map<Id, Refund>, id: Id)
    requires DistinctReferences(refunds) && id in refunds
    ensures HasReference(refunds, refunds[id].referenceId)
    ensures RefundOf(refunds, refunds[id].referenceId) == refunds[id]
  {
  }

  /** RefundPaymentHandler.Handle from the loaded payment to the reserving save; id is the new refund's UUID. */
  ghost function DecideRefund(a: Aggregate, capability: Capability, cmd: RefundCommand, id: Id, now: Time)
    : RefundDecision
  {
    var s := a.state;
    if !cmd.admin && s.terms.callerService != cmd.callerService then Refuse(NotFound)
    else if cmd.referenceId == "" then Refuse(InvalidInput)
    else if HasReference(s.refunds, cmd.referenceId) then
      var existing := RefundOf(s.refunds, cmd.referenceId);
      if cmd.amount != 0 && cmd.amount != existing.amount then Refuse(IdempotencyConflict) else ReplayEarlier(existing)
    else if !capability.refund then Refuse(InvalidState)
    else
      var amount := if cmd.amount == 0 then Refundable(s) else cmd.amount;
      if !capability.partialRefund && (amount != s.terms.amount || Refundable(s) != s.terms.amount)
      then Refuse(InvalidInput)
      else
        var requestedBy := if cmd.admin then "admin" else cmd.callerService;
        match RequestRefund(a, id, cmd.referenceId, amount, cmd.reason, requestedBy, now)
        case Err(code) => Refuse(code)
        case Ok(reserved) => Reserve(reserved)
  }

  /** A gateway answer that decided a refund. */
  datatype RefundReply = Confirmed(gatewayRefundId: string) | Denied(reason: string)

  /** The answer a refund call brought back, if any. */
  function ReplyOf(outcome: RefundOutcome): Option<RefundReply> {
    match outcome
    case Accepted(gatewayRefundId) => Some(Confirmed(gatewayRefundId))
    case Declined(reason) => Some(Denied(reason))
    case RefundUnknown(_) => None
  }

  ghost function RecordReply(a: Aggregate, id: Id, reply: RefundReply, now: Time): Result<Aggregate> {
    match reply
    case Confirmed(gatewayRefundId) => CompleteRefund(a, id, gatewayRefundId, now)
    case Denied(reason) => FailRefund(a, id, reason, now)
  }

  // ---------------------------------------------------------------- reconcile.go

  /** What the reconciler learned of a charge before it settles it. A pending charge was cancelled first. */
  datatype ChargeFinding =
    | NeverCreated
    | FoundSettled(txId: string)
    | FoundFailed(txId: string, gatewayStatus: string)
    | FoundPendingAndCancelled(txId: string)

  function SettleCharge(a: Aggregate, finding: ChargeFinding, now: Time): Result<Aggregate> {
    match finding
    case NeverCreated => MarkFailed(a, "CHARGE_NOT_CREATED", now)
    case FoundSettled(txId) =>
      (match MarkPending(a, txId, now)
       case Err(code) => Err(code)
       case Ok(pending) => MarkCompleted(pending, now, now))
    case FoundFailed(txId, gatewayStatus) =>
      (match MarkPending(a, txId, now)
       case Err(code) => Err(code)
       case Ok(pending) => MarkFailed(pending, gatewayStatus, now))
    case FoundPendingAndCancelled(txId) =>
      (match MarkPending(a, txId, now)
       case Err(code) => Err(code)
       case Ok(pending) => MarkFailed(pending, "CHARGE_REPLY_LOST", now))
  }

  /** What a reconciler pass does with a refund of the given age. */
  datatype SweepAction = Skip | GiveUp | Resend

  function SweepRefund(r: Refund, now: Time, retryAfter: Time, giveUpAfter: Time): SweepAction {
    if r.status != RefundPending then Skip
    else if now - r.createdAt >= giveUpAfter then GiveUp
    else if now - r.createdAt >= retryAfter then Resend
    else Skip
  }

  // ---------------------------------------------------------------- cancel_payment.go

  /** CancelPaymentHandler.Handle up to its gateway call. */
  function CancelOwn(a: Aggregate, callerService: string, now: Time): Result<Aggregate> {
    if a.state.terms.callerService != callerService then Err(NotFound) else Cancel(a, now)
  }

  // ---------------------------------------------------------------- expiry_job.go, force_expire.go

  /** ExpiryJob.expireOne; None means nothing to do. */
  function ExpireOverdue(a: Aggregate, now: Time): Option<Result<Aggregate>> {
    if a.state.terms.expiredAt.Some? && a.state.terms.expiredAt.value > now then None
    else Some(MarkExpired(a, now))
  }
}
