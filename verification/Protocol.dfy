/** One payment, its gateway and any number of concurrent command runs as a state machine. A run
    is split at every store query, save and gateway call; it may stop for good at any of them.
    No lock is modelled: every lock in the service is a TTL lock its holder may have lost. */
module Protocol {
  import opened Outcomes
  import opened PaymentDomain
  import opened Timestamps
  import opened Store
  import opened Gateway
  import opened Commands

  /** foreign: keys of refunds made at the gateway without PayGate. */
  datatype Config = Config(
    capability: Capability, chargeGrace: Time, retryAfter: Time, giveUpAfter: Time, foreign: set<Id>)

  /** A committed version of the payment and the events saved up to it; history, read by no step. */
  datatype Version = Version(state: PaymentState, log: seq<Event>)

  /** A payment a run has loaded. base and refundsAt are history: the payment as it is stored, and
      the version whose refunds the load's second query returned. */
  datatype Session = Session(aggregate: Aggregate, base: PaymentState, refundsAt: nat)

  /** The run that creates the payment. */
  datatype Creator = Created(aggregate: Aggregate) | Charged(aggregate: Aggregate) | Finished

  /** Why a run loads the payment. GoalRecord: to record a refund outcome after a conflict. */
  datatype Goal =
    | GoalRefund(cmd: RefundCommand)
    | GoalRecord(refundId: Id, reply: RefundReply)
    | GoalNotification(n: Notification)
    | GoalSweep
    | GoalCancel(callerService: string)
    | GoalForceExpire
    | GoalExpiryJob
    | GoalCharge

  datatype Run =
    | Waiting(goal: Goal)
    | RowRead(row: Row, goal: Goal)
    | Ready(s: Session, goal: Goal)
    | CallingRefund(s: Session, refundId: Id)
    | Recording(s: Session, refundId: Id, reply: RefundReply)
    | CancellingCharge(s: Session, txId: string)
    | SettlingCharge(s: Session, finding: ChargeFinding)
    | Sweeping(s: Session, todo: seq<Id>, changed: bool, clock: Time)
    | SavingCancel(s: Session)
    | Stopped

  datatype World = World(
    config: Config,
    terms: Terms,
    now: Time,
    tables: Tables,
    history: seq<Version>,
    gateway: Gateway,
    issued: set<Id>,
    creator: Creator,
    runs: map<nat, Run>)

  ghost predicate Init(w: World) {
    && w.creator.Created? && New(w.terms) == Ok(w.creator.aggregate)
    && w.terms.amount <= MAX_INT64
    && w.tables == NO_ROWS && w.history == [] && w.gateway == NO_GATEWAY_STATE
    && w.issued == {} && w.runs == map[]
  }

  datatype LookupAnswer =
    | LookupError
    | NotFoundAtGateway
    | FoundAtGateway(status: Reported, txId: string, gatewayStatus: string)

  datatype Step =
    // the clock, and the gateway on its own
    | Tick(to: Time)
    | ChargeLands(tx: Transaction, txId: string)
    | TransactionEnds(tx: Transaction)
    | RefundLands(refundId: Id)
    // create_payment.go
    | CallCharge(answer: ChargeAnswer, tx: Transaction)
    | SaveNew(taken: bool, fate: Fate)
    // loads
    | Start(run: nat, goal: Goal)
    | ReadRow(run: nat)
    | ReadRefunds(run: nat)
    | ReadRowOnly(run: nat)
    // refund_payment.go
    | ReserveRefund(run: nat, refundId: Id, fate: Fate)
    | CallRefund(run: nat, outcome: RefundOutcome)
    | RecordRefund(run: nat, fate: Fate)
    | RecordAgain(run: nat, fate: Fate)
    // process_callback.go
    | Notify(run: nat, fate: Fate)
    // reconcile.go
    | LookUpCharge(run: nat, found: LookupAnswer)
    | CancelCharge(run: nat, cancel: CancelOutcome)
    | SaveCharge(run: nat, fate: Fate)
    | LookUpRefunds(run: nat, refunds: seq<RefundNotification>, todo: seq<Id>)
    | SweepOne(run: nat, outcome: RefundOutcome)
    | SaveSweep(run: nat, fate: Fate)
    // cancel_payment.go, force_expire.go, expiry_job.go
    | CallCancel(run: nat, cancel: CancelOutcome)
    | SaveCancel(run: nat, fate: Fate)
    | Expire(run: nat, fate: Fate)

  // ---------------------------------------------------------------- loads and saves

  /** The payment a row and a refund list make, fresh from the store. */
  function Loaded(row: Row, refunds: map<Id, Refund>, refundsAt: nat): Session {
    var s := PaymentState(row.terms, row.status, row.gatewayTxId, row.paidAt, row.updatedAt, refunds);
    Session(Aggregate(s, row.version, []), s, refundsAt)
  }

  /** A save of a; a committed one adds a version. */
  ghost function AfterSave(w: World, a: Aggregate, taken: bool, fate: Fate): World {
    var after := Save(w.tables, a, taken, fate).tables;
    if after == w.tables || after.row.None? then w
    else w.(tables := after, history := w.history + [Version(StateOf(after), LogOf(after))])
  }

  function SetRun(w: World, run: nat, r: Run): World {
    w.(runs := w.runs[run := r])
  }

  ghost function SaveAndStop(w: World, run: nat, a: Aggregate, fate: Fate): World {
    SetRun(AfterSave(w, a, false, fate), run, Stopped)
  }

  /** The grace period is over: no charge can land any more. */
  predicate PastGrace(w: World) {
    w.terms.createdAt < w.now - w.config.chargeGrace
  }

  predicate MayLand(w: World, tx: Transaction, txId: string) {
    w.gateway.tx == Absent && tx != Absent && txId != "" && !PastGrace(w)
  }

  /** FindAwaitingChargeOutcome: the query compares whole microseconds. */
  predicate AwaitsCharge(w: World, row: Row) {
    row.status == Initiated && row.terms.createdAt < Cut(w.now - w.config.chargeGrace)
  }

  /** FindExpired. */
  predicate Overdue(w: World, row: Row) {
    row.status == Pending && row.terms.expiredAt.Some? && row.terms.expiredAt.value < Cut(w.now)
  }

  // ---------------------------------------------------------------- which steps are possible

  function RunAt(w: World, run: nat): Run {
    if run in w.runs then w.runs[run] else Stopped
  }

  predicate Enabled(w: World, step: Step) {
    var gw := w.gateway;
    match step
    case Tick(to) => w.now <= to
    case ChargeLands(tx, txId) => gw.charge == Sent && MayLand(w, tx, txId)
    case TransactionEnds(tx) => gw.tx == TxPending && (tx == TxSettled || tx == TxFailed)
    case RefundLands(id) => id in gw.sent && id !in gw.declined
    case CallCharge(answer, tx) =>
      && w.creator.Created?
      && (answer.ChargeReply? ==> MayLand(w, tx, answer.txId) && TrueStatus(tx, answer.status))
    case SaveNew(_, _) => w.creator.Charged?
    case Start(run, goal) =>
      && run !in w.runs
      && !goal.GoalRecord?
      && (goal.GoalNotification? ==> TrueNotification(gw, w.config.foreign, goal.n))
    case ReadRow(run) =>
      (match RunAt(w, run) case Waiting(goal) => !goal.GoalCharge? && !goal.GoalExpiryJob? case _ => false)
    case ReadRefunds(run) => RunAt(w, run).RowRead?
    case ReadRowOnly(run) =>
      (match RunAt(w, run)
       case Waiting(GoalCharge) => w.tables.row.Some? && AwaitsCharge(w, w.tables.row.value)
       case Waiting(GoalExpiryJob) => w.tables.row.Some? && Overdue(w, w.tables.row.value)
       case _ => false)
    case ReserveRefund(run, id, _) =>
      (match RunAt(w, run) case Ready(_, GoalRefund(_)) => id !in w.issued && id !in w.config.foreign case _ => false)
    case CallRefund(run, outcome) =>
      (match RunAt(w, run) case CallingRefund(_, id) => MayAnswerRefund(gw, id, outcome) case _ => false)
    case RecordRefund(run, _) => RunAt(w, run).Recording?
    case RecordAgain(run, _) => (match RunAt(w, run) case Ready(_, GoalRecord(_, _)) => true case _ => false)
    case Notify(run, _) => (match RunAt(w, run) case Ready(_, GoalNotification(_)) => true case _ => false)
    case LookUpCharge(run, found) =>
      && (match RunAt(w, run) case Ready(_, GoalCharge) => true case _ => false)
      && (match found
          case LookupError => true
          case NotFoundAtGateway => gw.tx == Absent
          case FoundAtGateway(status, txId, _) => TrueStatus(gw.tx, status) && txId == gw.txId)
    case CancelCharge(run, cancel) =>
      RunAt(w, run).CancellingCharge? && !cancel.NotCalled? && MayAnswerCancel(gw, cancel)
    case SaveCharge(run, _) => RunAt(w, run).SettlingCharge?
    case LookUpRefunds(run, refunds, todo) =>
      && (match RunAt(w, run) case Ready(_, GoalSweep) => true case _ => false)
      && TrueRefunds(gw, w.config.foreign, refunds)
    case SweepOne(run, outcome) =>
      (match RunAt(w, run)
       case Sweeping(_, todo, _, _) => todo != [] && MayAnswerRefund(gw, todo[0], outcome)
       case _ => false)
    case SaveSweep(run, _) => (match RunAt(w, run) case Sweeping(_, todo, _, _) => todo == [] case _ => false)
    case CallCancel(run, cancel) =>
      && (match RunAt(w, run)
          case Ready(s, GoalCancel(_)) => s.aggregate.state.gatewayTxId == "" ==> cancel.NotCalled?
          case _ => false)
      && MayAnswerCancel(gw, cancel)
    case SaveCancel(run, _) => RunAt(w, run).SavingCancel?
    case Expire(run, _) =>
      (match RunAt(w, run) case Ready(_, goal) => goal.GoalForceExpire? || goal.GoalExpiryJob? case _ => false)
  }

  // ---------------------------------------------------------------- what a step does

  function DoChargeLands(w: World, tx: Transaction, txId: string): World {
    w.(gateway := w.gateway.(tx := tx, txId := txId))
  }

  function DoRefundLands(w: World, id: Id): World {
    if id in w.gateway.sent then w.(gateway := Paid(w.gateway, id, w.gateway.sent[id])) else w
  }

  function DoCallCharge(w: World, answer: ChargeAnswer, tx: Transaction): World {
    match w.creator
    case Created(a) =>
      var charge := if answer.RejectedInput? || answer.DefiniteError? then ChargeCall.Refused else Sent;
      var called := w.gateway.(charge := charge);
      var gw := match answer case ChargeReply(_, txId) => called.(tx := tx, txId := txId) case _ => called;
      var creator := match AfterCharge(a, answer, w.now) case None => Finished case Some(p) => Charged(p);
      w.(gateway := gw, creator := creator)
    case _ => w
  }

  ghost function DoSaveNew(w: World, taken: bool, fate: Fate): World {
    match w.creator
    case Charged(a) => AfterSave(w, a, taken, fate).(creator := Finished)
    case _ => w
  }

  function DoReadRow(w: World, run: nat): World {
    match RunAt(w, run)
    case Waiting(goal) => SetRun(w, run, if w.tables.row.Some? then RowRead(w.tables.row.value, goal) else Stopped)
    case _ => w
  }

  function DoReadRefunds(w: World, run: nat): World {
    match RunAt(w, run)
    case RowRead(row, goal) => SetRun(w, run, Ready(Loaded(row, w.tables.refunds, |w.history|), goal))
    case _ => w
  }

  /** The list queries of the reconciler's charges and of the expiry job load no refunds. */
  function DoReadRowOnly(w: World, run: nat): World {
    match (RunAt(w, run), w.tables.row)
    case (Waiting(goal), Some(row)) => SetRun(w, run, Ready(Loaded(row, map[], row.version), goal))
    case _ => w
  }

  ghost function DoReserve(w: World, run: nat, id: Id, fate: Fate): World {
    match RunAt(w, run)
    case Ready(s, GoalRefund(cmd)) =>
      (match DecideRefund(s.aggregate, w.config.capability, cmd, id, w.now)
       case Reserve(a) =>
         var saved := Save(w.tables, a, false, fate);
         var after := AfterSave(w.(issued := w.issued + {id}), a, false, fate);
         var next := if saved.error == None
                     then CallingRefund(Session(saved.aggregate, CutState(a.state), saved.aggregate.version), id)
                     else Stopped;
         SetRun(after, run, next)
       case _ => SetRun(w, run, Stopped))
    case _ => w
  }

  ghost function DoCallRefund(w: World, run: nat, outcome: RefundOutcome): World {
    match RunAt(w, run)
    case CallingRefund(s, id) =>
      if id !in s.aggregate.state.refunds then SetRun(w, run, Stopped)
      else
        var called := w.(gateway := AfterRefundCall(w.gateway, id, s.aggregate.state.refunds[id].amount, outcome));
        SetRun(called, run, match ReplyOf(outcome) case None => Stopped case Some(reply) => Recording(s, id, reply))
    case _ => w
  }

  /** saveOutcome: a conflict means another writer got there first, so load and apply once more. */
  ghost function DoRecord(w: World, run: nat, fate: Fate): World {
    match RunAt(w, run)
    case Recording(s, id, reply) =>
      (match RecordReply(s.aggregate, id, reply, w.now)
       case Err(_) => SetRun(w, run, Stopped)
       case Ok(a) =>
         var conflict := Save(w.tables, a, false, fate).error == Some(Conflict);
         SetRun(AfterSave(w, a, false, fate), run, if conflict then Waiting(GoalRecord(id, reply)) else Stopped))
    case _ => w
  }

  ghost function DoRecordAgain(w: World, run: nat, fate: Fate): World {
    match RunAt(w, run)
    case Ready(s, GoalRecord(id, reply)) =>
      (match RecordReply(s.aggregate, id, reply, w.now)
       case Err(_) => SetRun(w, run, Stopped)
       case Ok(a) => SaveAndStop(w, run, a, fate))
    case _ => w
  }

  ghost function DoNotify(w: World, run: nat, fate: Fate): World {
    match RunAt(w, run)
    case Ready(s, GoalNotification(n)) =>
      (match HandleNotification(s.aggregate, n, w.now)
       case Err(_) => SetRun(w, run, Stopped)
       case Ok(applied) =>
         if applied.changed then SaveAndStop(w, run, applied.aggregate, fate) else SetRun(w, run, Stopped))
    case _ => w
  }

  function DoLookUpCharge(w: World, run: nat, found: LookupAnswer): World {
    match RunAt(w, run)
    case Ready(s, GoalCharge) =>
      var next := match found
                  case LookupError => Stopped
                  case NotFoundAtGateway => SettlingCharge(s, NeverCreated)
                  case FoundAtGateway(ReportsSettled, txId, _) => SettlingCharge(s, FoundSettled(txId))
                  case FoundAtGateway(ReportsFailed, txId, gatewayStatus) =>
                    SettlingCharge(s, FoundFailed(txId, gatewayStatus))
                  case FoundAtGateway(ReportsPending, txId, _) => CancellingCharge(s, txId)
                  case FoundAtGateway(ReportsUnknown, _, _) => Stopped;
      SetRun(w, run, next)
    case _ => w
  }

  function DoCancelCharge(w: World, run: nat, cancel: CancelOutcome): World {
    match RunAt(w, run)
    case CancellingCharge(s, txId) =>
      SetRun(w.(gateway := AfterCancelCall(w.gateway, cancel)), run,
             if cancel.CancelDone? then SettlingCharge(s, FoundPendingAndCancelled(txId)) else Stopped)
    case _ => w
  }

  ghost function DoSaveCharge(w: World, run: nat, fate: Fate): World {
    match RunAt(w, run)
    case SettlingCharge(s, finding) =>
      (match SettleCharge(s.aggregate, finding, w.now)
       case Err(_) => SetRun(w, run, Stopped)
       case Ok(a) => SaveAndStop(w, run, a, fate))
    case _ => w
  }

  /** todo lists the loaded refunds in some order. Their ages are taken from one reading of the clock. */
  ghost function DoLookUpRefunds(w: World, run: nat, refunds: seq<RefundNotification>, todo: seq<Id>): World {
    match RunAt(w, run)
    case Ready(s, GoalSweep) =>
      var applied := ApplyRefundNotifications(s.aggregate, refunds, w.now);
      SetRun(w, run, Sweeping(s.(aggregate := applied.aggregate), todo, applied.changed, w.now))
    case _ => w
  }

  ghost function DoSweepOne(w: World, run: nat, outcome: RefundOutcome): World {
    match RunAt(w, run)
    case Sweeping(s, todo, changed, clock) =>
      if todo == [] then w
      else if todo[0] !in s.aggregate.state.refunds then SetRun(w, run, Sweeping(s, todo[1..], changed, clock))
      else SweepRefundOf(w, run, s, todo[0], todo[1..], changed, clock, outcome)
    case _ => w
  }

  ghost function SweepRefundOf(w: World, run: nat, s: Session, id: Id, todo: seq<Id>, changed: bool,
                               clock: Time, outcome: RefundOutcome): World
    requires id in s.aggregate.state.refunds
  {
    var r := s.aggregate.state.refunds[id];
    if !SweepRefund(r, clock, w.config.retryAfter, w.config.giveUpAfter).Resend? then
      SetRun(w, run, Sweeping(s, todo, changed, clock))
    else
      var called := w.(gateway := AfterRefundCall(w.gateway, id, r.amount, outcome));
      match ReplyOf(outcome)
      case None => SetRun(called, run, Sweeping(s, todo, changed, clock))
      case Some(reply) =>
        match RecordReply(s.aggregate, id, reply, w.now)
        case Err(_) => SetRun(called, run, Sweeping(s, todo, changed, clock))
        case Ok(a) => SetRun(called, run, Sweeping(s.(aggregate := a), todo, true, clock))
  }

  ghost function DoSaveSweep(w: World, run: nat, fate: Fate): World {
    match RunAt(w, run)
    case Sweeping(s, _, changed, _) =>
      if changed then SaveAndStop(w, run, s.aggregate, fate) else SetRun(w, run, Stopped)
    case _ => w
  }

  function DoCallCancel(w: World, run: nat, cancel: CancelOutcome): World {
    match RunAt(w, run)
    case Ready(s, GoalCancel(callerService)) =>
      (match CancelOwn(s.aggregate, callerService, w.now)
       case Err(_) => SetRun(w, run, Stopped)
       case Ok(a) =>
         SetRun(w.(gateway := AfterCancelCall(w.gateway, cancel)), run, SavingCancel(s.(aggregate := a))))
    case _ => w
  }

  /** The gateway cancel may have failed; the local one goes on. */
  ghost function DoSaveCancel(w: World, run: nat, fate: Fate): World {
    match RunAt(w, run)
    case SavingCancel(s) => SaveAndStop(w, run, s.aggregate, fate)
    case _ => w
  }

  ghost function DoExpire(w: World, run: nat, fate: Fate): World {
    match RunAt(w, run)
    case Ready(s, goal) =>
      var result := if goal.GoalExpiryJob? then ExpireOverdue(s.aggregate, w.now)
                    else Some(MarkExpired(s.aggregate, w.now));
      (match result
       case Some(Ok(a)) => SaveAndStop(w, run, a, fate)
       case _ => SetRun(w, run, Stopped))
    case _ => w
  }

  ghost function Do(w: World, step: Step): World {
    match step
    case Tick(to) => w.(now := to)
    case ChargeLands(tx, txId) => DoChargeLands(w, tx, txId)
    case TransactionEnds(tx) => w.(gateway := w.gateway.(tx := tx))
    case RefundLands(id) => DoRefundLands(w, id)
    case CallCharge(answer, tx) => DoCallCharge(w, answer, tx)
    case SaveNew(taken, fate) => DoSaveNew(w, taken, fate)
    case Start(run, goal) => SetRun(w, run, Waiting(goal))
    case ReadRow(run) => DoReadRow(w, run)
    case ReadRefunds(run) => DoReadRefunds(w, run)
    case ReadRowOnly(run) => DoReadRowOnly(w, run)
    case ReserveRefund(run, id, fate) => DoReserve(w, run, id, fate)
    case CallRefund(run, outcome) => DoCallRefund(w, run, outcome)
    case RecordRefund(run, fate) => DoRecord(w, run, fate)
    case RecordAgain(run, fate) => DoRecordAgain(w, run, fate)
    case Notify(run, fate) => DoNotify(w, run, fate)
    case LookUpCharge(run, found) => DoLookUpCharge(w, run, found)
    case CancelCharge(run, cancel) => DoCancelCharge(w, run, cancel)
    case SaveCharge(run, fate) => DoSaveCharge(w, run, fate)
    case LookUpRefunds(run, refunds, todo) => DoLookUpRefunds(w, run, refunds, todo)
    case SweepOne(run, outcome) => DoSweepOne(w, run, outcome)
    case SaveSweep(run, fate) => DoSaveSweep(w, run, fate)
    case CallCancel(run, cancel) => DoCallCancel(w, run, cancel)
    case SaveCancel(run, fate) => DoSaveCancel(w, run, fate)
    case Expire(run, fate) => DoExpire(w, run, fate)
  }

  /** A behaviour: worlds from an initial one, one enabled step apart. */
  ghost predicate Behaviour(worlds: seq<World>, steps: seq<Step>) {
    && |worlds| == |steps| + 1 && Init(worlds[0])
    && forall i :: 0 <= i < |steps| ==> Enabled(worlds[i], steps[i]) && worlds[i + 1] == Do(worlds[i], steps[i])
  }
}
