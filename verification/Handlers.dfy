/** The command handlers' work on a loaded payment, in place: what create_payment.go, refund_payment.go,
    process_callback.go and reconcile.go in internal/application/command do between two calls to the store
    or the gateway. Commands specifies each method; Protocol interleaves them. */
module Handlers {
  import opened Outcomes
  import opened Aggregate
  import opened Gateway
  import C = Commands
  import D = PaymentDomain
  import P = Protocol

  // ---------------------------------------------------------------- create_payment.go

  /** Completed by the gateway's transaction, paid at the moment of handling. */
  predicate IsPaid(p: Payment, txId: string, now: Time)
    reads p
  {
    p.status == D.Completed && p.gatewayTxId == txId && p.paidAt == Some(now) && p.updatedAt == now
  }

  predicate IsFailed(p: Payment, txId: string, now: Time)
    reads p
  {
    p.status == D.Failed && p.gatewayTxId == txId && p.updatedAt == now
  }

  /** Applies the charge's answer; stores says whether the payment is saved afterwards. */
  method ApplyCharge(p: Payment, answer: C.ChargeAnswer, now: Time) returns (stores: bool)
    requires p.Valid()
    modifies p
    ensures p.Valid()
    ensures match C.AfterCharge(old(p.Value()), answer, now)
            case Some(a) => stores && p.Value() == a
            case None => !stores
    ensures old(p.status) == D.Initiated ==>
              && stores == !answer.RejectedInput?
              && p.refunds == old(p.refunds) && p.version == old(p.version)
              && match answer
                 case DefiniteError => IsFailed(p, old(p.gatewayTxId), now)
                                       && p.events == old(p.events) + [D.PaymentFailed("GATEWAY_ERROR", now)]
                 case ChargeReply(ReportsSettled, txId) =>
                   IsPaid(p, txId, now)
                   && p.events == old(p.events) + [D.PaymentPending(txId, now), D.PaymentCompleted(now, now)]
                 case ChargeReply(ReportsFailed, txId) =>
                   IsFailed(p, txId, now)
                   && p.events == old(p.events) + [D.PaymentPending(txId, now), D.PaymentFailed("DECLINED", now)]
                 case ChargeReply(_, txId) =>
                   p.status == D.Pending && p.gatewayTxId == txId && p.paidAt == old(p.paidAt) && p.updatedAt == now
                   && p.events == old(p.events) + [D.PaymentPending(txId, now)]
                 case _ => p.Value() == old(p.Value())
  {
    hide ById, DistinctIds, D.WithinAmount;
    var error: Option<Code> := None;
    match answer {
      case RejectedInput => return false;
      case DefiniteError => error := p.MarkFailed("GATEWAY_ERROR", now);
      case ChargeUnknown =>
      case ChargeReply(status, txId) =>
        error := p.MarkPending(txId, now);
        if error.Some? {
          return false;
        }
        match status {
          case ReportsSettled => error := p.MarkCompleted(now, now);
          case ReportsFailed => error := p.MarkFailed("DECLINED", now);
          case ReportsPending =>
          case ReportsUnknown =>
        }
    }
    stores := error.None?;
  }

  /** What becomes of a new payment: nothing is stored only if its contents were rejected; an unknown
      outcome leaves it INITIATED for the reconciler, a definite error fails it, and an answer records the
      gateway's transaction and the status it reports. */
  lemma NewPaymentAfterCharge(terms: D.Terms, answer: C.ChargeAnswer, now: Time)
    requires D.New(terms).Ok?
    ensures var stored := C.AfterCharge(D.New(terms).value, answer, now);
            && (stored.None? <==> answer.RejectedInput?)
            && (stored.Some? ==>
                  var s := stored.value.state;
                  && (s.status == D.Initiated <==> answer.ChargeUnknown?)
                  && (s.status == D.Completed <==> answer.ChargeReply? && answer.status.ReportsSettled?)
                  && (s.status == D.Failed
                     <==> answer.DefiniteError? || (answer.ChargeReply? && answer.status.ReportsFailed?))
                  && (s.status == D.Pending || s.status.IsTerminal() || answer.ChargeUnknown?)
                  && s.gatewayTxId == (if answer.ChargeReply? then answer.txId else "")
                  && s.paidAt.Some? == s.status.WasPaid())
  {
  }

  // ---------------------------------------------------------------- refund_payment.go

  /** What Handle does before the reserving save: id is the new refund's UUID. */
  method PrepareRefund(p: Payment, capability: D.Capability, cmd: C.RefundCommand, id: Id, now: Time)
    returns (error: Option<Code>, earlier: Option<D.Refund>)
    requires p.Valid() && id !in p.Value().state.refunds && D.DistinctReferences(p.Value().state.refunds)
    requires -0x8000_0000_0000_0000 <= cmd.amount <= MAX_INT64
    modifies p
    ensures p.Valid()
    ensures match C.DecideRefund(old(p.Value()), capability, cmd, id, now)
            case Reserve(a) => error == None && earlier == None && p.Value() == a
            case ReplayEarlier(r) => error == None && earlier == Some(r) && p.Value() == old(p.Value())
            case Refuse(code) => error == Some(code) && p.Value() == old(p.Value())
    ensures var left := p.terms.amount - old(D.Reserved(ById(p.refunds)));
            var amount := if cmd.amount == 0 then left else cmd.amount;
            if !cmd.admin && p.terms.callerService != cmd.callerService then error == Some(NotFound)
            else if cmd.referenceId == "" then error == Some(InvalidInput)
            else if exists r :: r in old(p.refunds) && r.referenceId == cmd.referenceId then
              exists r :: r in old(p.refunds) && r.referenceId == cmd.referenceId
                && if cmd.amount == 0 || cmd.amount == r.amount then error == None && earlier == Some(r)
                   else error == Some(IdempotencyConflict)
            else if !capability.refund then error == Some(InvalidState)
            else if !capability.partialRefund && (amount != p.terms.amount || left != p.terms.amount) then
              error == Some(InvalidInput)
            else if old(p.status) != D.Completed && old(p.status) != D.PartiallyRefunded then
              error == Some(InvalidState)
            else if amount <= 0 || left < amount then error == Some(InvalidInput)
            else
              && error == None && earlier == None
              && p.refunds == old(p.refunds)
                              + [D.Refund(id, cmd.referenceId, amount, cmd.reason,
                                          if cmd.admin then "admin" else cmd.callerService,
                                          now, D.RefundPending, "", "", now, None)]
              && p.events == old(p.events) + [D.RefundRequested(id, amount, now)]
              && p.status == old(p.status) && p.paidAt == old(p.paidAt)
    ensures error.Some? || earlier.Some? ==> p.Value() == old(p.Value()) && p.refunds == old(p.refunds)
    ensures error.Some? ==> earlier == None
  {
    hide ById, DistinctIds, D.WithinAmount, D.DistinctReferences, D.Reserved, C.RefundOf;
    earlier := None;
    if !cmd.admin && p.terms.callerService != cmd.callerService {
      return Some(NotFound), None;
    }
    if cmd.referenceId == "" {
      return Some(InvalidInput), None;
    }
    var at := p.RefundByReference(cmd.referenceId);
    if at != -1 {
      var existing := p.refunds[at];
      ByIdLookup(p.refunds);
      C.ReferenceDetermines(p.Value().state.refunds, existing.id);
      if cmd.amount != 0 && cmd.amount != existing.amount {
        return Some(IdempotencyConflict), None;
      }
      return None, Some(existing);
    }
    if !capability.refund {
      return Some(InvalidState), None;
    }
    var refundable := p.RefundableAmount();
    var amount := if cmd.amount == 0 then refundable else cmd.amount as int64;
    if !capability.partialRefund && (amount as int != p.terms.amount || refundable as int != p.terms.amount) {
      return Some(InvalidInput), None;
    }
    var requestedBy := if cmd.admin then "admin" else cmd.callerService;
    error := p.RequestRefund(id, cmd.referenceId, amount, cmd.reason, requestedBy, now);
  }

  /** Records the gateway's answer. */
  method RecordReply(p: Payment, id: Id, reply: C.RefundReply, now: Time) returns (error: Option<Code>)
    requires p.Valid()
    modifies p
    ensures p.Valid()
    ensures match C.RecordReply(old(p.Value()), id, reply, now)
            case Ok(after) => error == None && p.Value() == after
            case Err(code) => error == Some(code) && p.Value() == old(p.Value())
    ensures error == Some(NotFound) <==> forall r :: r in old(p.refunds) ==> r.id != id
    ensures |p.refunds| == |old(p.refunds)|
    ensures forall i :: 0 <= i < |p.refunds| ==>
              var r := old(p.refunds)[i];
              p.refunds[i] == if r.id != id || r.status != D.RefundPending then r
                              else match reply
                                case Confirmed(gatewayRefundId) =>
                                  r.(status := D.RefundSucceeded, gatewayRefundId := gatewayRefundId,
                                     completedAt := Some(now), updatedAt := now)
                                case Denied(reason) =>
                                  r.(status := D.RefundFailed, failureReason := reason, updatedAt := now)
    ensures (exists r :: r in old(p.refunds) && r.id == id && r.status == D.RefundPending) ==> error == None
  {
    hide ById, DistinctIds, D.WithinAmount, D.Succeeded, D.Reserved;
    match reply {
      case Confirmed(gatewayRefundId) => error := p.CompleteRefund(id, gatewayRefundId, now);
      case Denied(reason) => error := p.FailRefund(id, reason, now);
    }
  }

  // ---------------------------------------------------------------- process_callback.go

  /** The report is of this refund, with its amount or an unreadable one. */
  predicate Reports(rn: RefundNotification, r: D.Refund) {
    rn.key == Some(r.id) && (rn.amount == 0 || rn.amount == r.amount)
  }

  /** A pending refund is completed by the first report of it; every other one stays as it was. */
  ghost predicate Reported(before: D.Refund, after: D.Refund, refunds: seq<RefundNotification>, now: Time) {
    if before.status != D.RefundPending || forall rn :: rn in refunds ==> !Reports(rn, before) then after == before
    else exists j :: 0 <= j < |refunds| && Reports(refunds[j], before)
           && (forall i :: 0 <= i < j ==> !Reports(refunds[i], before))
           && after == before.(status := D.RefundSucceeded, gatewayRefundId := refunds[j].gatewayRefundId,
                               completedAt := Some(now), updatedAt := now)
  }

  lemma NothingReported(list: seq<D.Refund>, refunds: seq<RefundNotification>, now: Time)
    ensures forall j :: 0 <= j < |list| ==> Reported(list[j], list[j], refunds[..0], now)
  {
  }

  lemma PendingIsUntouched(before: D.Refund, after: D.Refund, refunds: seq<RefundNotification>, now: Time)
    requires Reported(before, after, refunds, now) && after.status == D.RefundPending
    ensures before == after
  {
  }

  /** What one more report does to the refunds. */
  lemma ReportedNext(before: seq<D.Refund>, mid: seq<D.Refund>, refunds: seq<RefundNotification>, i: nat, now: Time)
    requires |before| == |mid| && i < |refunds|
    requires forall j :: 0 <= j < |before| ==> Reported(before[j], mid[j], refunds[..i], now)
    ensures forall j :: 0 <= j < |before| ==>
              var r := mid[j];
              Reported(before[j],
                       if r.status == D.RefundPending && Reports(refunds[i], r)
                       then r.(status := D.RefundSucceeded, gatewayRefundId := refunds[i].gatewayRefundId,
                               completedAt := Some(now), updatedAt := now)
                       else r,
                       refunds[..i + 1], now)
  {
    var next := refunds[..i + 1];
    assert next[i] == refunds[i] && next == refunds[..i] + [refunds[i]];
    forall j | 0 <= j < |before| && before[j].status == D.RefundPending && mid[j] != before[j]
      ensures exists k :: 0 <= k < i && Reports(next[k], before[j])
      ensures Reported(before[j], mid[j], next, now)
    {
      var k :| 0 <= k < i && Reports(refunds[..i][k], before[j])
               && (forall h :: 0 <= h < k ==> !Reports(refunds[..i][h], before[j]))
               && mid[j] == before[j].(status := D.RefundSucceeded, gatewayRefundId := refunds[..i][k].gatewayRefundId,
                                       completedAt := Some(now), updatedAt := now);
      assert next[k] == refunds[..i][k] && next[k] in next;
      assert forall h :: 0 <= h < k ==> next[h] == refunds[..i][h];
    }
  }

  /** Completes the pending refunds the gateway reports as done. */
  method ApplyRefundNotifications(p: Payment, refunds: seq<RefundNotification>, now: Time) returns (changed: bool)
    requires p.Valid()
    modifies p
    ensures p.Valid()
    ensures C.Applied(p.Value(), changed) == C.ApplyRefundNotifications(old(p.Value()), refunds, now)
    ensures |p.refunds| == |old(p.refunds)|
    ensures forall i :: 0 <= i < |p.refunds| ==> Reported(old(p.refunds)[i], p.refunds[i], refunds, now)
    ensures changed <==> p.refunds != old(p.refunds)
    ensures !changed ==> p.Value() == old(p.Value())
    ensures p.gatewayTxId == old(p.gatewayTxId) && p.paidAt == old(p.paidAt) && p.version == old(p.version)
    ensures p.status == old(p.status) || (changed && (p.status == D.PartiallyRefunded || p.status == D.Refunded))
  {
    hide ById, DistinctIds, D.WithinAmount, D.Succeeded, D.Reserved, Reported;
    ghost var before := p.refunds;
    changed := false;
    ghost var last := 0;
    NothingReported(before, refunds, now);
    for i := 0 to |refunds|
      invariant p.Valid()
      invariant C.Applied(p.Value(), changed) == C.ApplyRefundNotifications(old(p.Value()), refunds[..i], now)
      invariant |p.refunds| == |before|
      invariant forall j :: 0 <= j < |before| ==> Reported(before[j], p.refunds[j], refunds[..i], now)
      invariant changed ==> 0 <= last < |before| && before[last].status != p.refunds[last].status
      invariant !changed ==> p.Value() == old(p.Value()) && p.refunds == before
      invariant p.gatewayTxId == old(p.gatewayTxId) && p.paidAt == old(p.paidAt) && p.version == old(p.version)
      invariant p.status == old(p.status) || (changed && (p.status == D.PartiallyRefunded || p.status == D.Refunded))
    {
      assert refunds[..i + 1][..i] == refunds[..i];
      var rn := refunds[i];
      ReportedNext(before, p.refunds, refunds, i, now);
      if rn.key.None? {
        continue;
      }
      var at := p.FindRefund(rn.key.value);
      if at == -1 || p.refunds[at].status != D.RefundPending {
        continue;
      }
      if rn.amount != 0 && rn.amount != p.refunds[at].amount {
        continue;
      }
      PendingIsUntouched(before[at], p.refunds[at], refunds[..i], now);
      var error := p.CompleteRefund(rn.key.value, rn.gatewayRefundId, now);
      changed, last := true, at;
    }
    assert refunds[..|refunds|] == refunds;
  }

  /** Handle from the loaded payment to the save; without a change nothing is saved. */
  method HandleNotification(p: Payment, n: Notification, now: Time) returns (changed: bool, error: Option<Code>)
    requires p.Valid()
    modifies p
    ensures p.Valid()
    ensures match C.HandleNotification(old(p.Value()), n, now)
            case Ok(applied) => error == None && C.Applied(p.Value(), changed) == applied
            case Err(code) => error == Some(code)
    ensures !old(p.status).WasPaid() && p.status == D.Completed ==>
              && p.paidAt == Some(now) && |p.events| > 0 && p.events[|p.events| - 1] == D.PaymentCompleted(now, now)
    ensures old(p.status).WasPaid() ==>
              error == None && p.status.WasPaid() && p.paidAt == old(p.paidAt) && p.gatewayTxId == old(p.gatewayTxId)
    ensures old(p.refunds) == [] ==> p.refunds == []
    ensures old(p.refunds) == [] ==>
              var first := old(p.status) == D.Initiated && n.txId != "";
              var events := if first then old(p.events) + [D.PaymentPending(n.txId, now)] else old(p.events);
              var txId := if first then n.txId else old(p.gatewayTxId);
              if old(p.status).IsTerminal() || n.status.ReportsPending? || n.status.ReportsUnknown? then
                error == None && !changed && p.Value() == old(p.Value())
              else if n.status.ReportsFailed? then
                && error == None && changed && IsFailed(p, txId, now)
                && p.events == events + [D.PaymentFailed(n.gatewayStatus, now)]
              else if old(p.status) == D.Initiated && !first then
                error == Some(InvalidState) && p.Value() == old(p.Value())
              else
                && error == None && changed && IsPaid(p, txId, now)
                && p.events == events + [D.PaymentCompleted(now, now)]
  {
    hide ById, DistinctIds, D.WithinAmount, C.ApplyRefundNotifications;
    error := None;
    changed := ApplyRefundNotifications(p, n.refunds, now);
    if p.status == D.Initiated && n.txId != "" && (n.status.ReportsSettled? || n.status.ReportsFailed?) {
      error := p.MarkPending(n.txId, now);
      changed := true;
    }
    if !p.status.IsTerminal() {
      if n.status.ReportsSettled? {
        error := p.MarkCompleted(now, now);
        changed := true;
      } else if n.status.ReportsFailed? {
        error := p.MarkFailed(n.gatewayStatus, now);
        changed := true;
      }
    }
  }

  // ---------------------------------------------------------------- reconcile.go

  /** Settles a charge from what the gateway knows of it. */
  method SettleCharge(p: Payment, finding: C.ChargeFinding, now: Time) returns (error: Option<Code>)
    requires p.Valid()
    modifies p
    ensures p.Valid()
    ensures match C.SettleCharge(old(p.Value()), finding, now)
            case Ok(after) => error == None && p.Value() == after
            case Err(code) => error == Some(code)
    ensures old(p.status) == D.Initiated ==>
              && error == None && p.refunds == old(p.refunds)
              && match finding
                 case NeverCreated =>
                   IsFailed(p, old(p.gatewayTxId), now)
                   && p.events == old(p.events) + [D.PaymentFailed("CHARGE_NOT_CREATED", now)]
                 case FoundSettled(txId) =>
                   IsPaid(p, txId, now)
                   && p.events == old(p.events) + [D.PaymentPending(txId, now), D.PaymentCompleted(now, now)]
                 case FoundFailed(txId, gatewayStatus) =>
                   IsFailed(p, txId, now)
                   && p.events == old(p.events) + [D.PaymentPending(txId, now), D.PaymentFailed(gatewayStatus, now)]
                 case FoundPendingAndCancelled(txId) =>
                   IsFailed(p, txId, now)
                   && p.events
                      == old(p.events) + [D.PaymentPending(txId, now), D.PaymentFailed("CHARGE_REPLY_LOST", now)]
    ensures old(p.status) != D.Initiated && !finding.NeverCreated? ==>
              error == Some(InvalidState) && p.Value() == old(p.Value())
  {
    hide ById, DistinctIds, D.WithinAmount;
    if finding.NeverCreated? {
      error := p.MarkFailed("CHARGE_NOT_CREATED", now);
      return;
    }
    error := p.MarkPending(finding.txId, now);
    if error.Some? {
      return;
    }
    match finding {
      case NeverCreated =>
      case FoundSettled(_) => error := p.MarkCompleted(now, now);
      case FoundFailed(_, gatewayStatus) => error := p.MarkFailed(gatewayStatus, now);
      case FoundPendingAndCancelled(_) => error := p.MarkFailed("CHARGE_REPLY_LOST", now);
    }
  }

  /** A refund call of a reconciler pass: what the gateway would answer if asked, and when. */
  datatype Answered = Answered(outcome: RefundOutcome, at: Time)

  /** One refund of a pass that read the clock before it. */
  ghost function SweptOne(before: C.Applied, id: Id, answer: Answered, clock: Time, retryAfter: Time,
                          giveUpAfter: Time): C.Applied {
    var a := before.aggregate;
    if id !in a.state.refunds || !C.SweepRefund(a.state.refunds[id], clock, retryAfter, giveUpAfter).Resend? then before
    else match C.ReplyOf(answer.outcome)
      case None => before
      case Some(reply) =>
        match C.RecordReply(a, id, reply, answer.at)
        case Err(_) => before
        case Ok(after) => C.Applied(after, true)
  }

  ghost function Swept(before: C.Applied, ids: seq<Id>, answers: seq<Answered>, clock: Time, retryAfter: Time,
                       giveUpAfter: Time): C.Applied
    requires |ids| == |answers|
  {
    if ids == [] then before
    else
      var n := |ids| - 1;
      var earlier := Swept(before, ids[..n], answers[..n], clock, retryAfter, giveUpAfter);
      SweptOne(earlier, ids[n], answers[n], clock, retryAfter, giveUpAfter)
  }

  function Ids(refunds: seq<D.Refund>): seq<Id> {
    seq(|refunds|, i requires 0 <= i < |refunds| => refunds[i].id)
  }

  /** Where a refund ends that a pass with this answer met. */
  predicate SweptTo(before: D.Refund, after: D.Refund, answer: Answered, clock: Time, retryAfter: Time,
                    giveUpAfter: Time)
  {
    var age := clock - before.createdAt;
    if before.status != D.RefundPending || age < retryAfter || giveUpAfter <= age then after == before
    else match answer.outcome
      case RefundUnknown(_) => after == before
      case Accepted(gatewayRefundId) =>
        after == before.(status := D.RefundSucceeded, gatewayRefundId := gatewayRefundId,
                         completedAt := Some(answer.at), updatedAt := answer.at)
      case Declined(reason) =>
        after == before.(status := D.RefundFailed, failureReason := reason, updatedAt := answer.at)
  }

  /** One turn of the loop: a refund whose retry window is over is left for a person, one that is too
      young or whose outcome stays unknown for the next pass. */
  method SweepRefund(p: Payment, at: nat, answer: Answered, clock: Time, retryAfter: Time, giveUpAfter: Time)
    returns (changed: bool)
    requires p.Valid() && at < |p.refunds|
    modifies p
    ensures p.Valid()
    ensures forall applied ::
              C.Applied(p.Value(), applied || changed)
              == SweptOne(C.Applied(old(p.Value()), applied), old(p.refunds)[at].id, answer, clock, retryAfter,
                          giveUpAfter)
    ensures |p.refunds| == |old(p.refunds)| && p.refunds == old(p.refunds)[at := p.refunds[at]]
    ensures SweptTo(old(p.refunds)[at], p.refunds[at], answer, clock, retryAfter, giveUpAfter)
    ensures changed <==> p.refunds[at] != old(p.refunds)[at]
  {
    hide ById, DistinctIds, D.WithinAmount, C.RecordReply;
    var r := p.refunds[at];
    HeldById(p, at);
    if r.status != D.RefundPending {
      return false;
    }
    var age := clock - r.createdAt;
    if age >= giveUpAfter || age < retryAfter {
      return false;
    }
    match answer.outcome {
      case RefundUnknown(_) => changed := false;
      case Accepted(gatewayRefundId) =>
        var error := RecordReply(p, r.id, C.Confirmed(gatewayRefundId), answer.at);
        changed := true;
      case Declined(reason) =>
        var error := RecordReply(p, r.id, C.Denied(reason), answer.at);
        changed := true;
    }
  }

  lemma HeldById(p: Payment, at: nat)
    requires p.Valid() && at < |p.refunds|
    ensures var r := p.refunds[at]; r.id in p.Value().state.refunds && p.Value().state.refunds[r.id] == r
    ensures forall i :: 0 <= i < |p.refunds| ==> (p.refunds[i].id == p.refunds[at].id <==> i == at)
  {
    ByIdLookup(p.refunds);
  }

  /** reconcileRefunds after the lookup: applied says whether the gateway's list already changed the payment. */
  method SweepRefunds(p: Payment, answers: seq<Answered>, applied: bool, clock: Time, retryAfter: Time,
                      giveUpAfter: Time)
    returns (changed: bool)
    requires p.Valid() && |answers| == |p.refunds|
    modifies p
    ensures p.Valid()
    ensures C.Applied(p.Value(), changed)
            == Swept(C.Applied(old(p.Value()), applied), Ids(old(p.refunds)), answers, clock, retryAfter, giveUpAfter)
    ensures |p.refunds| == |answers|
    ensures forall i :: 0 <= i < |answers| ==>
              SweptTo(old(p.refunds)[i], p.refunds[i], answers[i], clock, retryAfter, giveUpAfter)
    ensures changed <==> applied || p.refunds != old(p.refunds)
  {
    hide ById, DistinctIds, D.WithinAmount, C.RecordReply, SweptOne, SweptTo;
    ghost var before := p.refunds;
    var ids := Ids(p.refunds);
    changed := applied;
    for i := 0 to |ids|
      invariant p.Valid() && |p.refunds| == |before|
      invariant C.Applied(p.Value(), changed)
                == Swept(C.Applied(old(p.Value()), applied), ids[..i], answers[..i], clock, retryAfter, giveUpAfter)
      invariant forall j :: 0 <= j < i ==> SweptTo(before[j], p.refunds[j], answers[j], clock, retryAfter, giveUpAfter)
      invariant forall j :: i <= j < |before| ==> p.refunds[j] == before[j]
      invariant changed <==> applied || p.refunds != before
    {
      assert ids[..i + 1][..i] == ids[..i] && answers[..i + 1][..i] == answers[..i];
      var swept := SweepRefund(p, i, answers[i], clock, retryAfter, giveUpAfter);
      changed := changed || swept;
    }
    assert ids[..|ids|] == ids && answers[..|ids|] == answers;
  }

  /** The loop body is the step the protocol interleaves. */
  lemma SweepStepIsSweptOne(w: P.World, run: nat, outcome: RefundOutcome)
    requires match P.RunAt(w, run) case Sweeping(_, todo, _, _) => todo != [] case _ => false
    ensures match P.RunAt(w, run)
            case Sweeping(s, todo, changed, clock) =>
              var next := SweptOne(C.Applied(s.aggregate, changed), todo[0], Answered(outcome, w.now), clock,
                                   w.config.retryAfter, w.config.giveUpAfter);
              P.RunAt(P.DoSweepOne(w, run, outcome), run)
              == P.Sweeping(s.(aggregate := next.aggregate), todo[1..], next.changed, clock)
            case _ => false
  {
    hide C.RecordReply;
  }

  // ---------------------------------------------------------------- cancel_payment.go, expiry_job.go

  /** CancelPaymentHandler.Handle up to its gateway call, which asks says it makes. */
  method CancelOwn(p: Payment, callerService: string, now: Time) returns (error: Option<Code>, asks: bool)
    requires p.Valid()
    modifies p
    ensures p.Valid()
    ensures match C.CancelOwn(old(p.Value()), callerService, now)
            case Ok(after) => error == None && p.Value() == after
            case Err(code) => error == Some(code) && p.Value() == old(p.Value())
    ensures error
            == if p.terms.callerService != callerService then Some(NotFound)
               else if old(p.status) != D.Pending && old(p.status) != D.Processing then Some(InvalidState)
               else None
    ensures error == None ==> p.status == D.Cancelled && p.events == old(p.events) + [D.PaymentCancelled(now)]
    ensures asks <==> error == None && p.gatewayTxId != ""
  {
    hide ById, DistinctIds, D.WithinAmount;
    if p.terms.callerService != callerService {
      return Some(NotFound), false;
    }
    error := p.Cancel(now);
    asks := error.None? && p.gatewayTxId != "";
  }

  /** expireOne up to its save: a payment whose deadline has not come is left alone. */
  method ExpireOverdue(p: Payment, now: Time) returns (error: Option<Code>, saves: bool)
    requires p.Valid()
    modifies p
    ensures p.Valid()
    ensures match C.ExpireOverdue(old(p.Value()), now)
            case None => error == None && !saves && p.Value() == old(p.Value())
            case Some(Ok(after)) => error == None && saves && p.Value() == after
            case Some(Err(code)) => error == Some(code) && !saves && p.Value() == old(p.Value())
    ensures saves <==> (p.terms.expiredAt == None || p.terms.expiredAt.value <= now)
                       && (old(p.status) == D.Initiated || old(p.status) == D.Pending)
    ensures saves ==> p.status == D.Expired && p.events == old(p.events) + [D.PaymentExpired(now)]
    ensures !saves ==> p.Value() == old(p.Value())
  {
    hide ById, DistinctIds, D.WithinAmount;
    if p.terms.expiredAt.Some? && p.terms.expiredAt.value > now {
      return None, false;
    }
    error := p.MarkExpired(now);
    saves := error.None?;
  }
}
