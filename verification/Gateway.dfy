/** The gateway as its port promises it (internal/application/ports/gateway.go): one transaction
    per payment and a ledger of refunds by key. Every operation may take effect although its
    reply is lost, and may take effect later than the call. The `requires`-like guards below are
    the assumptions made about the gateway. */
module Gateway {
  import opened Outcomes

  datatype Transaction = Absent | TxPending | TxSettled | TxFailed

  /** Where the one charge call of a payment stands: once refused, it created nothing. */
  datatype ChargeCall = NotSent | Sent | Refused

  /** ledger: refunds paid out, by key. sent: what PayGate ever asked for. declined: keys refused for good. */
  datatype Gateway = Gateway(
    tx: Transaction,
    txId: string,
    charge: ChargeCall,
    sent: map<Id, int>,
    ledger: map<Id, int>,
    declined: set<Id>)

  /** ports.TransactionStatus. */
  datatype Reported = ReportsPending | ReportsSettled | ReportsFailed | ReportsUnknown

  /** key is None when the reported refund key is not a UUID. Amount 0 means unreadable. */
  datatype RefundNotification = RefundNotification(key: Option<Id>, gatewayRefundId: string, amount: int)

  datatype Notification = Notification(
    txId: string, status: Reported, gatewayStatus: string, refunds: seq<RefundNotification>)

  const NO_GATEWAY_STATE: Gateway := Gateway(Absent, "", NotSent, map[], map[], {})

  /** A status the gateway may report while its transaction stands at tx. */
  predicate TrueStatus(tx: Transaction, status: Reported) {
    match status
    case ReportsPending => tx == TxPending
    case ReportsSettled => tx == TxSettled
    case ReportsFailed => tx == TxFailed
    case ReportsUnknown => tx != Absent
  }

  /** Reported refunds were paid out, under PayGate's key or (foreign) outside PayGate. Nothing is
      assumed about the reported amounts, nor that every refund is reported. */
  predicate TrueRefunds(gw: Gateway, foreign: set<Id>, refunds: seq<RefundNotification>) {
    forall i :: 0 <= i < |refunds| && refunds[i].key.Some? ==>
      refunds[i].key.value in gw.ledger || refunds[i].key.value in foreign
  }

  /** A notification the gateway may send now. */
  predicate TrueNotification(gw: Gateway, foreign: set<Id>, n: Notification) {
    && TrueStatus(gw.tx, n.status)
    && (n.txId == "" || n.txId == gw.txId)
    && TrueRefunds(gw, foreign, n.refunds)
  }

  // ---------------------------------------------------------------- refund calls

  /** How a refund call ends. An unknown outcome may or may not have been applied. */
  datatype RefundOutcome =
    | Accepted(gatewayRefundId: string)
    | Declined(reason: string)
    | RefundUnknown(applied: bool)

  /** The gateway deduplicates on the key: a key in the ledger is never paid again, a declined key never is. */
  predicate MayAnswerRefund(gw: Gateway, id: Id, outcome: RefundOutcome) {
    match outcome
    case Accepted(_) => id !in gw.declined
    case Declined(_) => id !in gw.ledger
    case RefundUnknown(applied) => applied ==> id !in gw.declined
  }

  function Paid(gw: Gateway, id: Id, amount: int): Gateway {
    if id in gw.ledger then gw else gw.(ledger := gw.ledger[id := amount])
  }

  function AfterRefundCall(gw: Gateway, id: Id, amount: int, outcome: RefundOutcome): Gateway {
    var asked := if id in gw.sent then gw else gw.(sent := gw.sent[id := amount]);
    match outcome
    case Accepted(_) => Paid(asked, id, amount)
    case Declined(_) => asked.(declined := asked.declined + {id})
    case RefundUnknown(applied) => if applied then Paid(asked, id, amount) else asked
  }

  // ---------------------------------------------------------------- cancel calls

  datatype CancelOutcome = NotCalled | CancelDone | CancelError(applied: bool)

  /** A nil reply means the transaction is closed unpaid, so a settled one cannot be cancelled. */
  predicate MayAnswerCancel(gw: Gateway, outcome: CancelOutcome) {
    match outcome
    case NotCalled => true
    case CancelDone => gw.tx == TxPending || gw.tx == TxFailed
    case CancelError(applied) => applied ==> gw.tx == TxPending
  }

  function AfterCancelCall(gw: Gateway, outcome: CancelOutcome): Gateway {
    match outcome
    case NotCalled => gw
    case CancelDone => gw.(tx := TxFailed)
    case CancelError(applied) => if applied then gw.(tx := TxFailed) else gw
  }
}
