/** The Payment aggregate as a value: its state, its transitions and the events they raise
    (internal/domain/payment). Class Aggregate.Payment implements these transitions in place. */
module PaymentDomain {
  import opened Outcomes
  import opened MapSum

  datatype Status =
    | Initiated | Pending | Processing | Completed | Failed | Cancelled | Expired
    | PartiallyRefunded | Refunded
  {
    predicate IsTerminal() {
      !Initiated? && !Pending? && !Processing?
    }

    predicate WasPaid() {
      Completed? || PartiallyRefunded? || Refunded?
    }
  }

  datatype RefundStatus = RefundPending | RefundSucceeded | RefundFailed

  datatype Method = VirtualAccount | Qris | GoPay | ShopeePay | Card

  /** What a gateway can do for a payment method. */
  datatype Capability = Capability(charge: bool, refund: bool, partialRefund: bool)

  datatype Refund = Refund(
    id: Id,
    referenceId: string,
    amount: int,
    reason: string,
    requestedBy: string,
    createdAt: Time,
    status: RefundStatus,
    gatewayRefundId: string,
    failureReason: string,
    updatedAt: Time,
    completedAt: Option<Time>)

  /** The columns of a payment that never change once it is created. */
  datatype Terms = Terms(
    paymentId: Id,
    referenceId: string,
    callerService: string,
    gatewayType: string,
    amount: int,
    currency: string,
    paymentMethod: Method,
    createdAt: Time,
    expiredAt: Option<Time>)

  datatype PaymentState = PaymentState(
    terms: Terms,
    status: Status,
    gatewayTxId: string,
    paidAt: Option<Time>,
    updatedAt: Time,
    refunds: map<Id, Refund>)

  datatype Event =
    | PaymentInitiated(at: Time)
    | PaymentPending(txId: string, at: Time)
    | PaymentCompleted(paid: Time, at: Time)
    | PaymentFailed(errorCode: string, at: Time)
    | PaymentCancelled(at: Time)
    | PaymentExpired(at: Time)
    | RefundRequested(refundId: Id, amount: int, at: Time)
    | RefundCompleted(refundId: Id, amount: int, refundedAmount: int, paymentStatus: Status, at: Time)
    | RefundDeclined(refundId: Id, reason: string, at: Time)

  /** A payment in memory: its state, the row version it was loaded at and its unsaved events. */
  datatype Aggregate = Aggregate(state: PaymentState, version: nat, events: seq<Event>)

  // ---------------------------------------------------------------- refund arithmetic

  ghost function SucceededWeights(refunds: map<Id, Refund>): map<Id, int> {
    map id | id in refunds :: if refunds[id].status.RefundSucceeded? then refunds[id].amount else 0
  }

  ghost function ReservedWeights(refunds: map<Id, Refund>): map<Id, int> {
    map id | id in refunds :: if refunds[id].status.RefundFailed? then 0 else refunds[id].amount
  }

  /** The total the gateway has confirmed. */
  ghost function Succeeded(refunds: map<Id, Refund>): int { Sum(SucceededWeights(refunds)) }

  /** The total that succeeded or is still pending. */
  ghost function Reserved(refunds: map<Id, Refund>): int { Sum(ReservedWeights(refunds)) }

  ghost function Refundable(s: PaymentState): int { s.terms.amount - Reserved(s.refunds) }

  ghost predicate HasReference(refunds: map<Id, Refund>, referenceId: string) {
    exists id :: id in refunds && refunds[id].referenceId == referenceId
  }

  lemma SumsAfterUpdate(refunds: map<Id, Refund>, id: Id, r: Refund)
    ensures Reserved(refunds[id := r]) == Reserved(refunds)
              + (if r.status.RefundFailed? then 0 else r.amount)
              - (if id in refunds && !refunds[id].status.RefundFailed? then refunds[id].amount else 0)
    ensures Succeeded(refunds[id := r]) == Succeeded(refunds)
              + (if r.status.RefundSucceeded? then r.amount else 0)
              - (if id in refunds && refunds[id].status.RefundSucceeded? then refunds[id].amount else 0)
  {
    var rw := if r.status.RefundFailed? then 0 else r.amount;
    var sw := if r.status.RefundSucceeded? then r.amount else 0;
    assert ReservedWeights(refunds[id := r]) == ReservedWeights(refunds)[id := rw];
    assert SucceededWeights(refunds[id := r]) == SucceededWeights(refunds)[id := sw];
    SumUpdate(ReservedWeights(refunds), id, rw);
    SumUpdate(SucceededWeights(refunds), id, sw);
  }

  // ---------------------------------------------------------------- transitions

  function Raise(a: Aggregate, s: PaymentState, e: Event): Aggregate {
    a.(state := s, events := a.events + [e])
  }

  /** A payment that has not been charged or stored yet. */
  function New(terms: Terms): Result<Aggregate> {
    if terms.amount <= 0 || terms.currency == "" || terms.referenceId == "" || terms.callerService == "" then
      Err(InvalidInput)
    else
      Ok(Aggregate(PaymentState(terms, Initiated, "", None, terms.createdAt, map[]), 0,
                   [PaymentInitiated(terms.createdAt)]))
  }

  /** Only complete requests for a positive amount make a payment, which starts INITIATED and unpaid. */
  lemma NewPayment(terms: Terms)
    ensures New(terms).Ok? <==>
              0 < terms.amount && terms.currency != "" && terms.referenceId != "" && terms.callerService != ""
    ensures match New(terms)
            case Err(code) => code == InvalidInput
            case Ok(a) =>
              && a.state.terms == terms && a.state.status == Initiated && a.state.gatewayTxId == ""
              && a.state.paidAt == None && a.state.refunds == map[]
              && a.events == [PaymentInitiated(terms.createdAt)]
  {
  }

  function MarkPending(a: Aggregate, txId: string, now: Time): Result<Aggregate> {
    if a.state.status != Initiated then Err(InvalidState)
    else Ok(Raise(a, a.state.(gatewayTxId := txId, status := Pending, updatedAt := now), PaymentPending(txId, now)))
  }

  function MarkCompleted(a: Aggregate, paid: Time, now: Time): Result<Aggregate> {
    if a.state.status != Pending && a.state.status != Processing then Err(InvalidState)
    else Ok(Raise(a, a.state.(status := Completed, paidAt := Some(paid), updatedAt := now),
        PaymentCompleted(paid, now)))
  }

  function MarkFailed(a: Aggregate, errorCode: string, now: Time): Result<Aggregate> {
    if a.state.status.IsTerminal() then Err(InvalidState)
    else Ok(Raise(a, a.state.(status := Failed, updatedAt := now), PaymentFailed(errorCode, now)))
  }

  function MarkExpired(a: Aggregate, now: Time): Result<Aggregate> {
    if a.state.status != Pending && a.state.status != Initiated then Err(InvalidState)
    else Ok(Raise(a, a.state.(status := Expired, updatedAt := now), PaymentExpired(now)))
  }

  function Cancel(a: Aggregate, now: Time): Result<Aggregate> {
    if a.state.status != Pending && a.state.status != Processing then Err(InvalidState)
    else Ok(Raise(a, a.state.(status := Cancelled, updatedAt := now), PaymentCancelled(now)))
  }

  function OpenRefund(id: Id, referenceId: string, amount: int, reason: string, requestedBy: string, now: Time)
    : Refund
  {
    Refund(id, referenceId, amount, reason, requestedBy, now, RefundPending, "", "", now, None)
  }

  /** id stands for the UUID the call generates. */
  ghost function RequestRefund(a: Aggregate, id: Id, referenceId: string, amount: int,
                               reason: string, requestedBy: string, now: Time): Result<Aggregate> {
    var s := a.state;
    if s.status != Completed && s.status != PartiallyRefunded then Err(InvalidState)
    else if referenceId == "" then Err(InvalidInput)
    else if HasReference(s.refunds, referenceId) then Err(AlreadyExists)
    else if amount <= 0 then Err(InvalidInput)
    else if amount > Refundable(s) then Err(InvalidInput)
    else
      var r := OpenRefund(id, referenceId, amount, reason, requestedBy, now);
      Ok(Raise(a, s.(refunds := s.refunds[id := r], updatedAt := now), RefundRequested(id, amount, now)))
  }

  function SucceededRefund(r: Refund, gatewayRefundId: string, now: Time): Refund {
    r.(status := RefundSucceeded, gatewayRefundId := gatewayRefundId, completedAt := Some(now), updatedAt := now)
  }

  ghost function CompleteRefund(a: Aggregate, id: Id, gatewayRefundId: string, now: Time): Result<Aggregate> {
    var s := a.state;
    if id !in s.refunds then Err(NotFound)
    else match s.refunds[id].status
      case RefundSucceeded => Ok(a)
      case RefundFailed => Err(InvalidState)
      case RefundPending =>
        var refunds := s.refunds[id := SucceededRefund(s.refunds[id], gatewayRefundId, now)];
        var total := Succeeded(refunds);
        var status := if total >= s.terms.amount then Refunded else PartiallyRefunded;
        Ok(Raise(a, s.(refunds := refunds, status := status, updatedAt := now),
                 RefundCompleted(id, s.refunds[id].amount, total, status, now)))
  }

  function FailedRefund(r: Refund, reason: string, now: Time): Refund {
    r.(status := RefundFailed, failureReason := reason, updatedAt := now)
  }

  function FailRefund(a: Aggregate, id: Id, reason: string, now: Time): Result<Aggregate> {
    var s := a.state;
    if id !in s.refunds then Err(NotFound)
    else if s.refunds[id].status != RefundPending then Err(InvalidState)
    else Ok(Raise(a, s.(refunds := s.refunds[id := FailedRefund(s.refunds[id], reason, now)], updatedAt := now),
                  RefundDeclined(id, reason, now)))
  }

  // ---------------------------------------------------------------- what a stored payment satisfies

  /** Every refund is keyed by its id and has a positive amount, and together the refunds
      that are not FAILED reserve no more than was paid. */
  ghost predicate WithinAmount(s: PaymentState) {
    && 0 < s.terms.amount <= MAX_INT64
    && (forall id :: id in s.refunds ==> s.refunds[id].id == id && 0 < s.refunds[id].amount)
    && Reserved(s.refunds) <= s.terms.amount
  }

  ghost predicate DistinctReferences(refunds: map<Id, Refund>) {
    forall i, j :: i in refunds && j in refunds && refunds[i].referenceId == refunds[j].referenceId ==> i == j
  }

  /** Status, paid time and refunds agree. */
  ghost predicate Consistent(s: PaymentState) {
    && WithinAmount(s)
    && DistinctReferences(s.refunds)
    && (s.paidAt.Some? <==> s.status.WasPaid())
    && (!s.status.WasPaid() ==> s.refunds == map[])
    && (s.status == Completed ==> Succeeded(s.refunds) == 0)
    && (s.status == PartiallyRefunded ==> 0 < Succeeded(s.refunds) < s.terms.amount)
    && (s.status == Refunded ==> Succeeded(s.refunds) == s.terms.amount)
  }

  lemma SucceededBounds(s: PaymentState)
    requires WithinAmount(s)
    ensures 0 <= Succeeded(s.refunds) <= Reserved(s.refunds)
  {
    SumNonNegative(SucceededWeights(s.refunds));
    SumMonotone(SucceededWeights(s.refunds), ReservedWeights(s.refunds));
  }

  /** A pending refund's amount is reserved on top of what has succeeded. */
  lemma PendingIsReserved(s: PaymentState, id: Id)
    requires WithinAmount(s)
    requires id in s.refunds && s.refunds[id].status == RefundPending
    ensures Succeeded(s.refunds) + s.refunds[id].amount <= Reserved(s.refunds)
  {
    var done := s.refunds[id := SucceededRefund(s.refunds[id], "", 0)];
    SumsAfterUpdate(s.refunds, id, done[id]);
    SucceededBounds(s.(refunds := done));
  }

  /** Settling a refund keeps the reserve within the amount. */
  lemma SettlingStaysWithin(s: PaymentState, after: PaymentState, id: Id, r: Refund)
    requires WithinAmount(s) && id in s.refunds && s.refunds[id].status == RefundPending
    requires r.id == s.refunds[id].id && r.amount == s.refunds[id].amount
    requires after.terms == s.terms && after.refunds == s.refunds[id := r]
    ensures WithinAmount(after)
  {
    SumsAfterUpdate(s.refunds, id, r);
  }

  /** So does reserving what is still refundable. */
  lemma RequestingStaysWithin(s: PaymentState, after: PaymentState, r: Refund)
    requires WithinAmount(s) && r.id !in s.refunds && r.status == RefundPending
    requires 0 < r.amount <= Refundable(s)
    requires after.terms == s.terms && after.refunds == s.refunds[r.id := r]
    ensures WithinAmount(after)
  {
    SumsAfterUpdate(s.refunds, r.id, r);
  }

  /** REFUNDED means nothing is pending any more, so such a payment can never change again. */
  lemma RefundedHasNothingPending(s: PaymentState, id: Id)
    requires Consistent(s) && s.status == Refunded && id in s.refunds
    ensures s.refunds[id].status != RefundPending
  {
    if s.refunds[id].status == RefundPending {
      PendingIsReserved(s, id);
    }
  }
}
