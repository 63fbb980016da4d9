/** A run that follows true gateway reports keeps its loaded payment sound, torn load or not. */
module Sessions {
  import opened Outcomes
  import opened PaymentDomain
  import opened Timestamps
  import opened EventLog
  import opened Store
  import opened Gateway
  import opened Commands
  import opened Protocol
  import opened Invariants

  /** A status transition: it raises one event and leaves the refunds alone. */
  lemma StatusChange(w: World, s: Session, b: Aggregate, e: Event)
    requires SessionSound(w, s)
    requires b == Raise(s.aggregate, b.state, e) && !e.PaymentInitiated?
    requires b.state.refunds == s.aggregate.state.refunds && b.state.terms == s.aggregate.state.terms
    requires Grounded(w, b.state)
    requires Untorn(s) ==> Tracks(w.history[b.version - 1].log, b)
    ensures SessionSound(w, s.(aggregate := b))
    ensures AtRest(w, s) ==> AtRest(w, s.(aggregate := b))
  {
    hide Tracks, Grounded, MethodRule, Covers, Reserved, IsNew;
    RaiseKeepsNew(s.aggregate, b.state, e);
    assert WithinAmount(b.state);
    SameMethodRule(w.config.capability, s.aggregate.state, b.state);
  }

  /** Only PaymentInitiated makes a payment new. */
  lemma RaiseKeepsNew(a: Aggregate, after: PaymentState, e: Event)
    requires !e.PaymentInitiated?
    ensures IsNew(Raise(a, after, e)) <==> IsNew(a)
  {
    var b := Raise(a, after, e);
    if i :| 0 <= i < |a.events| && a.events[i].PaymentInitiated? {
      assert b.events[i].PaymentInitiated?;
    }
  }

  lemma SameMethodRule(capability: Capability, s: PaymentState, after: PaymentState)
    requires after.refunds == s.refunds && after.terms == s.terms
    ensures MethodRule(capability, after) <==> MethodRule(capability, s)
  {
  }

  lemma MarkPendingSound(w: World, s: Session, txId: string, now: Time)
    requires SessionSound(w, s) && MarkPending(s.aggregate, txId, now).Ok?
    requires w.gateway.tx != Absent && txId == w.gateway.txId
    ensures SessionSound(w, s.(aggregate := MarkPending(s.aggregate, txId, now).value))
  {
    hide Consistent, Legal, Replay;
    if Untorn(s) { MarkPendingTracks(w.history[s.aggregate.version - 1].log, s.aggregate, txId, now); }
    StatusChange(w, s, MarkPending(s.aggregate, txId, now).value, PaymentPending(txId, now));
  }

  lemma MarkCompletedSound(w: World, s: Session, paid: Time, now: Time)
    requires SessionSound(w, s) && MarkCompleted(s.aggregate, paid, now).Ok?
    requires w.gateway.tx == TxSettled
    ensures SessionSound(w, s.(aggregate := MarkCompleted(s.aggregate, paid, now).value))
  {
    hide Consistent, Legal, Replay;
    if Untorn(s) { MarkCompletedTracks(w.history[s.aggregate.version - 1].log, s.aggregate, paid, now); }
    StatusChange(w, s, MarkCompleted(s.aggregate, paid, now).value, PaymentCompleted(paid, now));
  }

  lemma MarkFailedSound(w: World, s: Session, errorCode: string, now: Time)
    requires SessionSound(w, s) && MarkFailed(s.aggregate, errorCode, now).Ok?
    requires w.gateway.tx == TxFailed || LostForGood(w)
    ensures SessionSound(w, s.(aggregate := MarkFailed(s.aggregate, errorCode, now).value))
  {
    hide Consistent, Legal, Replay;
    if Untorn(s) { MarkFailedTracks(w.history[s.aggregate.version - 1].log, s.aggregate, errorCode, now); }
    StatusChange(w, s, MarkFailed(s.aggregate, errorCode, now).value, PaymentFailed(errorCode, now));
  }

  lemma MarkExpiredSound(w: World, s: Session, now: Time)
    requires SessionSound(w, s) && MarkExpired(s.aggregate, now).Ok?
    ensures SessionSound(w, s.(aggregate := MarkExpired(s.aggregate, now).value))
  {
    hide Consistent, Legal, Replay;
    if Untorn(s) { MarkExpiredTracks(w.history[s.aggregate.version - 1].log, s.aggregate, now); }
    StatusChange(w, s, MarkExpired(s.aggregate, now).value, PaymentExpired(now));
  }

  lemma CancelSound(w: World, s: Session, now: Time)
    requires AtRest(w, s) && Cancel(s.aggregate, now).Ok?
    ensures AtRest(w, s.(aggregate := Cancel(s.aggregate, now).value))
  {
    hide Consistent, Legal, Replay;
    if Untorn(s) { CancelTracks(w.history[s.aggregate.version - 1].log, s.aggregate, now); }
    StatusChange(w, s, Cancel(s.aggregate, now).value, PaymentCancelled(now));
  }

  /** Settling a refund as the gateway decided it. */
  lemma SettledGrounded(w: World, s: PaymentState, after: PaymentState, id: Id, r: Refund)
    requires Grounded(w, s) && id in s.refunds
    requires after == s.(refunds := s.refunds[id := r], status := after.status, updatedAt := after.updatedAt)
    requires r.status == RefundSucceeded ==> id in w.gateway.ledger
    requires r.status == RefundFailed ==> id in w.gateway.declined
    requires after.status == s.status || (after.status.WasPaid() && w.gateway.tx == TxSettled)
    ensures Grounded(w, after)
  {
  }

  /** A transition that settles one pending refund. */
  lemma RefundChange(w: World, s: Session, b: Aggregate, e: Event, id: Id, r: Refund)
    requires AtRest(w, s)
    requires b == Raise(s.aggregate, b.state, e) && !e.PaymentInitiated?
    requires id in s.aggregate.state.refunds && s.aggregate.state.refunds[id].status == RefundPending
    requires SameRequest(r, s.aggregate.state.refunds[id])
    requires b.state == s.aggregate.state.(refunds := s.aggregate.state.refunds[id := r], status := b.state.status,
             updatedAt := b.state.updatedAt)
    requires Grounded(w, b.state)
    requires Untorn(s) ==> Tracks(w.history[b.version - 1].log, b)
    ensures AtRest(w, s.(aggregate := b))
  {
    hide Grounded, Tracks, Reserved, WithinAmount, MethodRule, Covers, IsNew;
    SettlingStaysWithin(s.aggregate.state, b.state, id, r);
    RaiseKeepsNew(s.aggregate, b.state, e);
    SettlingKeepsRule(w.config.capability, s.aggregate.state, b.state, id, r);
    SettlingKeepsRequests(s.aggregate.state.refunds, s.base.refunds, id, r);
  }

  lemma SettlingKeepsRule(capability: Capability, s: PaymentState, after: PaymentState, id: Id, r: Refund)
    requires id in s.refunds && s.refunds[id].status == RefundPending && r.amount == s.refunds[id].amount
    requires after.terms == s.terms && after.refunds == s.refunds[id := r]
    ensures MethodRule(capability, s) ==> MethodRule(capability, after)
  {
  }

  lemma SettlingKeepsRequests(refunds: map<Id, Refund>, base: map<Id, Refund>, id: Id, r: Refund)
    requires Covers(refunds, base) && id in refunds && SameRequest(r, refunds[id])
    ensures Covers(refunds[id := r], base)
  {
    hide Cut;
  }

  lemma CompleteRefundSound(w: World, s: Session, id: Id, gatewayRefundId: string, now: Time)
    requires AtRest(w, s) && GatewaySound(w)
    requires CompleteRefund(s.aggregate, id, gatewayRefundId, now).Ok?
    requires id in w.gateway.ledger
    ensures AtRest(w, s.(aggregate := CompleteRefund(s.aggregate, id, gatewayRefundId, now).value))
  {
    hide Grounded, Tracks, Succeeded, Reserved, WithinAmount, MethodRule, Covers;
    var a := s.aggregate;
    var b := CompleteRefund(a, id, gatewayRefundId, now).value;
    if a.state.refunds[id].status == RefundPending {
      var r := b.state.refunds[id];
      if Untorn(s) { CompleteRefundTracks(w.history[a.version - 1].log, a, id, gatewayRefundId, now); }
      assert w.gateway.tx == TxSettled;
      SettledGrounded(w, a.state, b.state, id, r);
      RefundChange(w, s, b, b.events[|b.events| - 1], id, r);
    }
  }

  lemma FailRefundSound(w: World, s: Session, id: Id, reason: string, now: Time)
    requires AtRest(w, s)
    requires FailRefund(s.aggregate, id, reason, now).Ok?
    requires id in w.gateway.declined
    ensures AtRest(w, s.(aggregate := FailRefund(s.aggregate, id, reason, now).value))
  {
    hide Grounded, Tracks, WithinAmount, MethodRule, Covers;
    var a := s.aggregate;
    var b := FailRefund(a, id, reason, now).value;
    if Untorn(s) { FailRefundTracks(w.history[a.version - 1].log, a, id, reason, now); }
    SettledGrounded(w, a.state, b.state, id, b.state.refunds[id]);
    RefundChange(w, s, b, RefundDeclined(id, reason, now), id, b.state.refunds[id]);
  }

  lemma RecordReplySound(w: World, s: Session, id: Id, reply: RefundReply, now: Time)
    requires AtRest(w, s) && GatewaySound(w)
    requires RecordReply(s.aggregate, id, reply, now).Ok? && ReplyTrue(w, id, reply)
    ensures AtRest(w, s.(aggregate := RecordReply(s.aggregate, id, reply, now).value))
  {
    match reply {
      case Confirmed(gid) => CompleteRefundSound(w, s, id, gid, now);
      case Denied(reason) => FailRefundSound(w, s, id, reason, now);
    }
  }

  /** The checks before RequestRefund respect what the gateway supports for the method. */
  lemma ReserveRespectsMethod(a: Aggregate, capability: Capability, cmd: RefundCommand, id: Id, now: Time)
    requires WithinAmount(a.state) && MethodRule(capability, a.state)
    requires DecideRefund(a, capability, cmd, id, now).Reserve?
    ensures MethodRule(capability, DecideRefund(a, capability, cmd, id, now).aggregate.state)
  {
    if !capability.partialRefund {
      NothingReserved(a.state);
    }
  }

  /** Reserving: the new refund is within what is left. */
  lemma ReserveSound(w: World, s: Session, cmd: RefundCommand, id: Id, now: Time)
    requires AtRest(w, s) && id in w.issued && id !in s.aggregate.state.refunds
    requires DecideRefund(s.aggregate, w.config.capability, cmd, id, now).Reserve?
    ensures SessionSound(w, s.(aggregate := DecideRefund(s.aggregate, w.config.capability, cmd, id, now).aggregate))
  {
    hide Tracks, Succeeded, Reserved, MethodRule, WithinAmount, Covers, IsNew, Grounded, HasReference, RefundOf;
    var a := s.aggregate;
    var b := DecideRefund(a, w.config.capability, cmd, id, now).aggregate;
    var r := b.state.refunds[id];
    if Untorn(s) {
      RequestRefundTracks(w.history[a.version - 1].log, a, id, cmd.referenceId, r.amount, r.reason, r.requestedBy, now);
      ReserveRespectsMethod(a, w.config.capability, cmd, id, now);
    }
    RequestingStaysWithin(a.state, b.state, r);
    RaiseKeepsNew(a, b.state, RefundRequested(id, r.amount, now));
    RequestingStaysCovered(a.state.refunds, s.base.refunds, id, r);
    RequestGrounded(w, a.state, b.state, id, r);
  }

  lemma RequestingStaysCovered(refunds: map<Id, Refund>, base: map<Id, Refund>, id: Id, r: Refund)
    requires Covers(refunds, base) && id !in refunds
    ensures Covers(refunds[id := r], base)
  {
    hide Cut;
  }

  lemma RequestGrounded(w: World, s: PaymentState, after: PaymentState, id: Id, r: Refund)
    requires Grounded(w, s) && r.status == RefundPending
    requires after == s.(refunds := s.refunds[id := r], updatedAt := after.updatedAt)
    ensures Grounded(w, after)
  {
    hide Cut, CutOption;
  }

  /** If everything is still refundable, every refund so far has failed. */
  lemma NothingReserved(s: PaymentState)
    requires WithinAmount(s)
    ensures Refundable(s) == s.terms.amount ==>
              forall id :: id in s.refunds ==> s.refunds[id].status == RefundFailed
  {
    if Refundable(s) == s.terms.amount {
      forall id | id in s.refunds ensures s.refunds[id].status == RefundFailed {
        MapSum.SumAtLeast(ReservedWeights(s.refunds), id);
      }
    }
  }

  // ---------------------------------------------------------------- notifications and findings

  lemma {:induction false} NotificationsSound(w: World, s: Session, refunds: seq<RefundNotification>, now: Time)
    requires AtRest(w, s) && GatewaySound(w)
    requires TrueRefunds(w.gateway, w.config.foreign, refunds)
    ensures AtRest(w, s.(aggregate := ApplyRefundNotifications(s.aggregate, refunds, now).aggregate))
    decreases |refunds|
  {
    hide AtRest, SessionSound, GatewaySound;
    if refunds != [] {
      var n := |refunds| - 1;
      NotificationsSound(w, s, refunds[..n], now);
      var before := s.(aggregate := ApplyRefundNotifications(s.aggregate, refunds[..n], now).aggregate);
      NotificationSound(w, before, refunds[n], now);
    } else {
      assert s.(aggregate := s.aggregate) == s;
    }
  }

  lemma NotificationSound(w: World, s: Session, rn: RefundNotification, now: Time)
    requires AtRest(w, s) && GatewaySound(w)
    requires rn.key.Some? ==> rn.key.value in w.gateway.ledger || rn.key.value in w.config.foreign
    ensures AtRest(w, s.(aggregate := ApplyRefundNotification(s.aggregate, rn, now).aggregate))
  {
    if ApplyRefundNotification(s.aggregate, rn, now).changed {
      CompleteRefundSound(w, s, rn.key.value, rn.gatewayRefundId, now);
    } else {
      assert s.(aggregate := s.aggregate) == s;
    }
  }

  lemma HandleNotificationSound(w: World, s: Session, n: Notification, now: Time)
    requires AtRest(w, s) && GatewaySound(w) && StaysTrue(w, n)
    requires HandleNotification(s.aggregate, n, now).Ok?
    ensures SessionSound(w, s.(aggregate := HandleNotification(s.aggregate, n, now).value.aggregate))
  {
    hide SessionSound, GatewaySound, Grounded, ApplyRefundNotifications;
    NotificationsSound(w, s, n.refunds, now);
    var refunded := s.(aggregate := ApplyRefundNotifications(s.aggregate, n.refunds, now).aggregate);
    assert SessionSound(w, refunded);
    var p := refunded;
    if p.aggregate.state.status == Initiated && n.txId != "" && (n.status.ReportsSettled? || n.status.ReportsFailed?) {
      MarkPendingSound(w, refunded, n.txId, now);
      p := refunded.(aggregate := MarkPending(refunded.aggregate, n.txId, now).value);
    }
    if !p.aggregate.state.status.IsTerminal() {
      match n.status {
        case ReportsSettled => MarkCompletedSound(w, p, now, now);
        case ReportsFailed => MarkFailedSound(w, p, n.gatewayStatus, now);
        case _ =>
      }
    }
  }

  lemma SettleChargeSound(w: World, s: Session, finding: ChargeFinding, now: Time)
    requires SessionSound(w, s) && FindingTrue(w, finding)
    requires SettleCharge(s.aggregate, finding, now).Ok?
    ensures SessionSound(w, s.(aggregate := SettleCharge(s.aggregate, finding, now).value))
  {
    hide SessionSound, Grounded;
    match finding {
      case NeverCreated => MarkFailedSound(w, s, "CHARGE_NOT_CREATED", now);
      case FoundSettled(txId) =>
        MarkPendingSound(w, s, txId, now);
        MarkCompletedSound(w, s.(aggregate := MarkPending(s.aggregate, txId, now).value), now, now);
      case FoundFailed(txId, gatewayStatus) =>
        MarkPendingSound(w, s, txId, now);
        MarkFailedSound(w, s.(aggregate := MarkPending(s.aggregate, txId, now).value), gatewayStatus, now);
      case FoundPendingAndCancelled(txId) =>
        MarkPendingSound(w, s, txId, now);
        MarkFailedSound(w, s.(aggregate := MarkPending(s.aggregate, txId, now).value), "CHARGE_REPLY_LOST", now);
    }
  }
}
