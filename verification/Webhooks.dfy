/** Webhook handling is idempotent and confluent: whatever the order and however often the gateway
    repeats the notifications of one history, the payment ends the same
    (internal/application/command/process_callback.go). */
module Webhooks {
  import opened Outcomes
  import opened MapSum
  import opened PaymentDomain
  import opened Timestamps
  import opened EventLog
  import opened Gateway
  import opened Commands

  /** A refund the gateway paid out. Amount 0 if its reports of it are unreadable. */
  datatype Payout = Payout(gatewayRefundId: string, amount: int)

  /** What the gateway's history of one transaction comes to; outcome is ReportsPending while open. */
  datatype History = History(txId: string, outcome: Reported, payouts: map<Id, Payout>)

  /** n is a snapshot taken at some point of h. */
  predicate SnapshotOf(h: History, n: Notification) {
    && n.txId == h.txId
    && (n.status.ReportsSettled? || n.status.ReportsFailed? ==> n.status == h.outcome)
    && (forall i :: 0 <= i < |n.refunds| && n.refunds[i].key.Some? ==>
          && n.refunds[i].key.value in h.payouts
          && h.payouts[n.refunds[i].key.value] == Payout(n.refunds[i].gatewayRefundId, n.refunds[i].amount))
  }

  datatype Delivery = Delivery(n: Notification, at: Time)

  /** One webhook call on the stored payment, with no competing writer. */
  ghost function Deliver(a: Aggregate, d: Delivery): Aggregate {
    match HandleNotification(a, d.n, d.at)
    case Err(_) => a
    case Ok(applied) =>
      if applied.changed then Aggregate(CutState(applied.aggregate.state), a.version + 1, []) else a
  }

  ghost function DeliverAll(a: Aggregate, ds: seq<Delivery>): Aggregate {
    if ds == [] then a else Deliver(DeliverAll(a, ds[..|ds| - 1]), ds[|ds| - 1])
  }

  // ---------------------------------------------------------------- the result, without any order

  ghost function KeysOf(n: Notification): set<Id> {
    set i | 0 <= i < |n.refunds| && n.refunds[i].key.Some? :: n.refunds[i].key.value
  }

  predicate Decides(n: Notification) {
    n.status.ReportsSettled? || n.status.ReportsFailed?
  }

  /** Everything a set of notifications says: the refunds reported and whether an outcome was. */
  ghost function ReportedKeys(ns: set<Notification>): set<Id> {
    set n, id | n in ns && id in KeysOf(n) :: id
  }

  ghost predicate Decided(ns: set<Notification>) {
    exists n :: n in ns && Decides(n)
  }

  datatype RefundView = RefundView(amount: int, status: RefundStatus, gatewayRefundId: string)

  datatype View = View(status: Status, gatewayTxId: string, refunds: map<Id, RefundView>)

  function RefundViewOf(r: Refund): RefundView { RefundView(r.amount, r.status, r.gatewayRefundId) }

  function ViewRefunds(refunds: map<Id, Refund>): map<Id, RefundView> {
    map id | id in refunds :: RefundViewOf(refunds[id])
  }

  function ViewOf(s: PaymentState): View { View(s.status, s.gatewayTxId, ViewRefunds(s.refunds)) }

  /** Refund by refund: a pending refund reported with its amount has succeeded. */
  ghost function SettledRefund(r: Refund, h: History, keys: set<Id>): RefundView {
    if r.status == RefundPending && r.id in keys && r.id in h.payouts
       && (h.payouts[r.id].amount == 0 || h.payouts[r.id].amount == r.amount)
    then RefundView(r.amount, RefundSucceeded, h.payouts[r.id].gatewayRefundId)
    else RefundViewOf(r)
  }

  ghost function SettledRefunds(refunds: map<Id, Refund>, h: History, keys: set<Id>): map<Id, RefundView> {
    map id | id in refunds :: SettledRefund(refunds[id], h, keys)
  }

  ghost function PaidBackBy(refunds: map<Id, RefundView>): int {
    Sum(map id | id in refunds :: if refunds[id].status.RefundSucceeded? then refunds[id].amount else 0)
  }

  /** An unpaid payment closes once an outcome is reported. One the gateway never named a
      transaction for cannot be completed. */
  function UnpaidResult(s: PaymentState, h: History, decided: bool): (Status, string) {
    if s.status.IsTerminal() || !decided then (s.status, s.gatewayTxId)
    else if s.status == Initiated && h.txId == "" then
      (if h.outcome.ReportsFailed? then Failed else Initiated, s.gatewayTxId)
    else
      (if h.outcome.ReportsFailed? then Failed else Completed, if s.status == Initiated then h.txId else s.gatewayTxId)
  }

  /** Where every delivery of the notifications ns leaves a payment. */
  ghost function Result(s: PaymentState, h: History, ns: set<Notification>): View {
    var refunds := SettledRefunds(s.refunds, h, ReportedKeys(ns));
    if s.status.WasPaid() then
      var total := PaidBackBy(refunds);
      View(if total == 0 then Completed else if total < s.terms.amount then PartiallyRefunded else Refunded,
           s.gatewayTxId, refunds)
    else
      var unpaid := UnpaidResult(s, h, Decided(ns));
      View(unpaid.0, unpaid.1, refunds)
  }

  // ---------------------------------------------------------------- deliveries lead to the result

  /** a is what the payment first was, after the keys were reported and (if decided) an outcome. */
  ghost predicate Reached(s: PaymentState, h: History, keys: set<Id>, decided: bool, a: PaymentState) {
    && Consistent(a) && a.terms.amount == s.terms.amount
    && ViewRefunds(a.refunds) == SettledRefunds(s.refunds, h, keys)
    && (forall id :: id in s.refunds ==> s.refunds[id].id == id)
    && (s.status.WasPaid() ==> a.status.WasPaid() && a.gatewayTxId == s.gatewayTxId)
    && (!s.status.WasPaid() ==> (a.status, a.gatewayTxId) == UnpaidResult(s, h, decided))
  }

  /** A paid payment's status is determined by what was paid back. */
  lemma PaidStatus(s: PaymentState)
    requires Consistent(s) && s.status.WasPaid()
    ensures var total := PaidBackBy(ViewRefunds(s.refunds));
            s.status == if total == 0 then Completed else if total < s.terms.amount then PartiallyRefunded else Refunded
  {
    var view := ViewRefunds(s.refunds);
    assert (map id | id in view :: if view[id].status.RefundSucceeded? then view[id].amount else 0)
        == SucceededWeights(s.refunds);
  }

  lemma ReachedResult(s: PaymentState, h: History, ns: set<Notification>, a: PaymentState)
    requires Reached(s, h, ReportedKeys(ns), Decided(ns), a)
    ensures ViewOf(a) == Result(s, h, ns)
  {
    if s.status.WasPaid() {
      PaidStatus(a);
    }
  }

  /** One reported refund. */
  lemma RefundReached(s: PaymentState, h: History, keys: set<Id>, decided: bool, a: Aggregate, rn: RefundNotification,
      now: Time)
    requires Consistent(s) && Reached(s, h, keys, decided, a.state)
    requires rn.key.Some? ==>
             rn.key.value in h.payouts && h.payouts[rn.key.value] == Payout(rn.gatewayRefundId, rn.amount)
    ensures var applied := ApplyRefundNotification(a, rn, now);
            && Reached(s, h, if rn.key.Some? then keys + {rn.key.value} else keys, decided, applied.aggregate.state)
            && (!applied.changed ==> applied.aggregate == a)
            && (rn.key.Some? && rn.key.value in keys ==> !applied.changed)
  {
    hide Consistent;
    var applied := ApplyRefundNotification(a, rn, now);
    if rn.key.Some? {
      var id := rn.key.value;
      ViewStep(s, h, keys, a.state, applied.aggregate.state.refunds, rn);
      if applied.changed {
        SettleConsistent(a.state, applied.aggregate.state, id, applied.aggregate.state.refunds[id]);
        assert id in s.refunds;
        RefundsMeanPaid(s, id);
      }
    }
  }

  lemma RefundsMeanPaid(s: PaymentState, id: Id)
    requires Consistent(s) && id in s.refunds
    ensures s.status.WasPaid()
  {
  }

  /** What one reported refund does to the refunds. */
  lemma ViewStep(s: PaymentState, h: History, keys: set<Id>, a: PaymentState, after: map<Id, Refund>,
      rn: RefundNotification)
    requires ViewRefunds(a.refunds) == SettledRefunds(s.refunds, h, keys)
    requires forall id :: id in s.refunds ==> s.refunds[id].id == id
    requires rn.key.Some? && rn.key.value in h.payouts
    requires h.payouts[rn.key.value] == Payout(rn.gatewayRefundId, rn.amount)
    requires var id := rn.key.value;
             if id in a.refunds && Confirms(rn, a.refunds[id])
             then after.Keys == a.refunds.Keys
                  && RefundViewOf(after[id]) == RefundView(a.refunds[id].amount, RefundSucceeded, rn.gatewayRefundId)
                  && forall other :: other in after && other != id ==> after[other] == a.refunds[other]
             else after == a.refunds
    ensures ViewRefunds(after) == SettledRefunds(s.refunds, h, keys + {rn.key.value})
    ensures a.refunds.Keys == s.refunds.Keys
    ensures rn.key.value in keys && rn.key.value in a.refunds ==> !Confirms(rn, a.refunds[rn.key.value])
  {
    var id := rn.key.value;
    assert after.Keys == a.refunds.Keys == ViewRefunds(a.refunds).Keys == SettledRefunds(s.refunds, h, keys).Keys
        == s.refunds.Keys;
    forall other | other in after
      ensures RefundViewOf(after[other]) == SettledRefund(s.refunds[other], h, keys + {id})
    {
      assert ViewRefunds(a.refunds)[other] == SettledRefund(s.refunds[other], h, keys);
    }
    assert ViewRefunds(after) == SettledRefunds(s.refunds, h, keys + {id});
    if id in a.refunds {
      assert ViewRefunds(a.refunds)[id] == SettledRefund(s.refunds[id], h, keys);
    }
  }

  ghost function KeysUpTo(refunds: seq<RefundNotification>): set<Id> {
    set i | 0 <= i < |refunds| && refunds[i].key.Some? :: refunds[i].key.value
  }

  lemma {:induction false} RefundsReached(s: PaymentState, h: History, keys: set<Id>, decided: bool, a: Aggregate,
                                          refunds: seq<RefundNotification>, now: Time)
    requires Consistent(s) && Reached(s, h, keys, decided, a.state)
    requires forall i :: 0 <= i < |refunds| && refunds[i].key.Some? ==>
               && refunds[i].key.value in h.payouts
               && h.payouts[refunds[i].key.value] == Payout(refunds[i].gatewayRefundId, refunds[i].amount)
    ensures var applied := ApplyRefundNotifications(a, refunds, now);
            && Reached(s, h, keys + KeysUpTo(refunds), decided, applied.aggregate.state)
            && (!applied.changed ==> applied.aggregate == a)
            && (KeysUpTo(refunds) <= keys ==> !applied.changed)
    decreases |refunds|
  {
    hide Reached, Consistent;
    if refunds == [] {
      assert keys + KeysUpTo(refunds) == keys;
    } else {
      var n := |refunds| - 1;
      var pre, rn := refunds[..n], refunds[n];
      RefundsReached(s, h, keys, decided, a, pre, now);
      var before := ApplyRefundNotifications(a, pre, now);
      RefundReached(s, h, keys + KeysUpTo(pre), decided, before.aggregate, rn, now);
      KeysSnoc(refunds);
      assert keys + KeysUpTo(pre) + (if rn.key.Some? then {rn.key.value} else {}) == keys + KeysUpTo(refunds);
      assert keys + KeysUpTo(pre) + {} == keys + KeysUpTo(pre);
    }
  }

  lemma KeysSnoc(refunds: seq<RefundNotification>)
    requires refunds != []
    ensures var pre, rn := refunds[..|refunds| - 1], refunds[|refunds| - 1];
            KeysUpTo(refunds) == KeysUpTo(pre) + (if rn.key.Some? then {rn.key.value} else {})
  {
    var pre, rn := refunds[..|refunds| - 1], refunds[|refunds| - 1];
    forall id | id in KeysUpTo(pre) ensures id in KeysUpTo(refunds) {
      var i :| 0 <= i < |pre| && pre[i].key.Some? && pre[i].key.value == id;
      assert refunds[i].key.Some? && refunds[i].key.value == id;
    }
    forall id | id in KeysUpTo(refunds) ensures id in KeysUpTo(pre) || (rn.key.Some? && id == rn.key.value) {
      var i :| 0 <= i < |refunds| && refunds[i].key.Some? && refunds[i].key.value == id;
      if i < |pre| {
        assert pre[i].key.Some? && pre[i].key.value == id;
      }
    }
    if rn.key.Some? {
      assert refunds[|refunds| - 1].key.Some?;
    }
  }

  /** The reported outcome. */
  lemma StatusReached(s: PaymentState, after: PaymentState, h: History, keys: set<Id>, decided: bool, a: PaymentState)
    requires Consistent(s) && Reached(s, h, keys, decided, a)
    requires !s.status.WasPaid() && !a.status.WasPaid()
    requires after == a.(status := after.status, gatewayTxId := after.gatewayTxId, paidAt := after.paidAt,
             updatedAt := after.updatedAt)
    requires (after.status, after.gatewayTxId) == UnpaidResult(s, h, true)
    requires after.status == Completed ==> after.paidAt.Some?
    requires after.status != Completed ==> after.paidAt == a.paidAt && !after.status.WasPaid()
    ensures Reached(s, h, keys, true, after)
  {
    assert SucceededWeights(map[]) == map[];
  }

  /** One whole webhook. */
  lemma DeliverReached(s: PaymentState, h: History, keys: set<Id>, decided: bool, a: Aggregate, d: Delivery)
    requires Consistent(s) && Reached(s, h, keys, decided, a.state) && SnapshotOf(h, d.n)
    ensures Reached(s, h, keys + KeysOf(d.n), decided || Decides(d.n), Deliver(a, d).state)
    ensures KeysOf(d.n) <= keys && (Decides(d.n) ==> decided) ==>
              var r := HandleNotification(a, d.n, d.at); r.Ok? ==> !r.value.changed
  {
    hide Reached, Consistent, SnapshotOf, HandleNotification, CutState;
    HandledReached(s, h, keys, decided, a, d);
    var result := HandleNotification(a, d.n, d.at);
    if result.Ok? {
      ReachedCut(s, h, keys + KeysOf(d.n), decided || Decides(d.n), result.value.aggregate.state);
    }
  }

  lemma HandledReached(s: PaymentState, h: History, keys: set<Id>, decided: bool, a: Aggregate, d: Delivery)
    requires Consistent(s) && Reached(s, h, keys, decided, a.state) && SnapshotOf(h, d.n)
    ensures var after := match HandleNotification(a, d.n, d.at) case Ok(applied) => applied.aggregate case Err(_) => a;
            Reached(s, h, keys + KeysOf(d.n), decided || Decides(d.n), after.state)
    ensures var r := HandleNotification(a, d.n, d.at);
            r.Ok? ==> (KeysOf(d.n) <= keys && (Decides(d.n) ==> decided) ==> !r.value.changed)
                      && (!r.value.changed ==> r.value.aggregate == a)
  {
    hide ApplyRefundNotifications, Succeeded, Reserved, SettledRefunds;
    var n := d.n;
    var all := keys + KeysOf(n);
    RefundsReached(s, h, keys, decided, a, n.refunds, d.at);
    assert KeysUpTo(n.refunds) == KeysOf(n);
    var refunded := ApplyRefundNotifications(a, n.refunds, d.at).aggregate;
    assert Reached(s, h, all, decided, refunded.state);
    assert !s.status.WasPaid() && !refunded.state.status.WasPaid() ==> a.state.refunds == map[] by {
      if !s.status.WasPaid() && !refunded.state.status.WasPaid() { UnpaidStays(s, h, keys, decided, a.state); }
    }
    if Decides(n) && !refunded.state.status.IsTerminal() {
      UnpaidStays(s, h, all, decided, refunded.state);
      var result := HandleNotification(a, n, d.at);
      if result.Ok? {
        StatusReached(s, result.value.aggregate.state, h, all, decided, refunded.state);
      }
    }
  }

  lemma UnpaidStays(s: PaymentState, h: History, keys: set<Id>, decided: bool, a: PaymentState)
    requires Reached(s, h, keys, decided, a) && !a.status.WasPaid()
    ensures !s.status.WasPaid() && a.refunds == map[] && s.refunds == map[]
  {
    assert SettledRefunds(s.refunds, h, keys).Keys == s.refunds.Keys;
    assert ViewRefunds(a.refunds).Keys == a.refunds.Keys;
    assert s.refunds.Keys == {};
  }

  /** Saving it cuts its instants, which nothing here reads. */
  lemma ReachedCut(s: PaymentState, h: History, keys: set<Id>, decided: bool, a: PaymentState)
    requires Reached(s, h, keys, decided, a)
    ensures Reached(s, h, keys, decided, CutState(a))
  {
    hide Cut, CutOption, Consistent, SettledRefunds;
    CutConsistent(a);
    assert ViewRefunds(CutRefunds(a.refunds)) == ViewRefunds(a.refunds);
  }

  ghost function NotificationsOf(ds: seq<Delivery>): set<Notification> {
    set i | 0 <= i < |ds| :: ds[i].n
  }

  predicate AllSnapshots(h: History, ds: seq<Delivery>) {
    forall i :: 0 <= i < |ds| ==> SnapshotOf(h, ds[i].n)
  }

  lemma NotificationsSnoc(ds: seq<Delivery>)
    requires ds != []
    ensures var pre, last := NotificationsOf(ds[..|ds| - 1]), ds[|ds| - 1].n;
            && NotificationsOf(ds) == pre + {last}
            && ReportedKeys(pre + {last}) == ReportedKeys(pre) + KeysOf(last)
            && (Decided(pre + {last}) <==> Decided(pre) || Decides(last))
  {
    var pre, last := NotificationsOf(ds[..|ds| - 1]), ds[|ds| - 1].n;
    forall n | n in NotificationsOf(ds) ensures n in pre + {last} {
      var i :| 0 <= i < |ds| && ds[i].n == n;
      if i < |ds| - 1 {
        assert ds[..|ds| - 1][i].n == n;
      }
    }
    forall n | n in pre ensures n in NotificationsOf(ds) {
      var i :| 0 <= i < |ds| - 1 && ds[..|ds| - 1][i].n == n;
      assert ds[i].n == n;
    }
  }

  lemma {:induction false} DeliverAllReached(a: Aggregate, h: History, ds: seq<Delivery>)
    requires Consistent(a.state) && AllSnapshots(h, ds)
    ensures Reached(a.state, h, ReportedKeys(NotificationsOf(ds)), Decided(NotificationsOf(ds)),
            DeliverAll(a, ds).state)
    decreases |ds|
  {
    hide Reached, Consistent, Deliver, ReportedKeys, Decided;
    if ds == [] {
      assert NotificationsOf(ds) == {};
      NothingReported(a.state, h);
    } else {
      var n := |ds| - 1;
      DeliverAllReached(a, h, ds[..n]);
      NotificationsSnoc(ds);
      var ns := NotificationsOf(ds[..n]);
      DeliverReached(a.state, h, ReportedKeys(ns), Decided(ns), DeliverAll(a, ds[..n]), ds[n]);
    }
  }

  lemma NothingReported(s: PaymentState, h: History)
    requires Consistent(s)
    ensures Reached(s, h, ReportedKeys({}), Decided({}), s)
  {
    hide Succeeded, Reserved, DistinctReferences;
    assert ReportedKeys({}) == {} && !Decided({});
    SettledByNothing(s.refunds, h);
  }

  lemma SettledByNothing(refunds: map<Id, Refund>, h: History)
    ensures ViewRefunds(refunds) == SettledRefunds(refunds, h, {})
  {
  }

  /** Deliveries in any order and number lead to the result of the notifications they contain. */
  lemma DeliveriesReachResult(a: Aggregate, h: History, ds: seq<Delivery>)
    requires Consistent(a.state) && AllSnapshots(h, ds)
    ensures ViewOf(DeliverAll(a, ds).state) == Result(a.state, h, NotificationsOf(ds))
  {
    DeliverAllReached(a, h, ds);
    ReachedResult(a.state, h, NotificationsOf(ds), DeliverAll(a, ds).state);
  }

  /** Confluence: two delivery sequences of the same notifications, in whatever order, with whatever
      repetitions and at whatever times, leave the same payment status, transaction ID, refund
      statuses and gateway refund IDs. */
  lemma WebhooksConfluent(a: Aggregate, h: History, ds: seq<Delivery>, es: seq<Delivery>)
    requires Consistent(a.state) && AllSnapshots(h, ds) && AllSnapshots(h, es)
    requires NotificationsOf(ds) == NotificationsOf(es)
    ensures ViewOf(DeliverAll(a, ds).state) == ViewOf(DeliverAll(a, es).state)
  {
    DeliveriesReachResult(a, h, ds);
    DeliveriesReachResult(a, h, es);
  }

  /** Idempotence: a notification that was delivered before, however long ago, saves nothing. */
  lemma RepeatSavesNothing(a: Aggregate, h: History, ds: seq<Delivery>, d: Delivery)
    requires Consistent(a.state) && AllSnapshots(h, ds) && d.n in NotificationsOf(ds)
    ensures Deliver(DeliverAll(a, ds), d) == DeliverAll(a, ds)
    ensures var r := HandleNotification(DeliverAll(a, ds), d.n, d.at); r.Ok? ==> !r.value.changed
  {
    hide Reached, Consistent, HandleNotification;
    var ns := NotificationsOf(ds);
    DeliverAllReached(a, h, ds);
    var i :| 0 <= i < |ds| && ds[i].n == d.n;
    assert KeysOf(d.n) <= ReportedKeys(ns);
    DeliverReached(a.state, h, ReportedKeys(ns), Decided(ns), DeliverAll(a, ds), d);
  }
}
