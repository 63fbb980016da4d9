/** Payment event logs: what a log rebuilds, which logs are legal, and that every transition
    of the aggregate extends a legal log to a legal log that rebuilds the new state
    (internal/domain/payment/events.go, aggregate.go, refund.go). */
module EventLog {
  import opened Outcomes
  import opened MapSum
  import opened PaymentDomain
  import opened Timestamps

  datatype RefundSummary = RefundSummary(amount: int, status: RefundStatus)

  /** The part of a payment its events carry. */
  datatype Summary = Summary(status: Status, gatewayTxId: string, paidAt: Option<Time>, refunds: map<Id, RefundSummary>)

  ghost function Summarize(s: PaymentState): Summary {
    Summary(s.status, s.gatewayTxId, s.paidAt,
            map id | id in s.refunds :: RefundSummary(s.refunds[id].amount, s.refunds[id].status))
  }

  /** What the columns keep of it: the events hold nanoseconds. */
  function CutSummary(s: Summary): Summary {
    s.(paidAt := CutOption(s.paidAt))
  }

  const BLANK: Summary := Summary(Initiated, "", None, map[])

  /** What one event does to the payment a reader has rebuilt so far. */
  function Apply(s: Summary, e: Event): Summary {
    match e
    case PaymentInitiated(_) => BLANK
    case PaymentPending(txId, _) => s.(status := Pending, gatewayTxId := txId)
    case PaymentCompleted(paid, _) => s.(status := Completed, paidAt := Some(paid))
    case PaymentFailed(_, _) => s.(status := Failed)
    case PaymentCancelled(_) => s.(status := Cancelled)
    case PaymentExpired(_) => s.(status := Expired)
    case RefundRequested(id, amount, _) => s.(refunds := s.refunds[id := RefundSummary(amount, RefundPending)])
    case RefundCompleted(id, amount, _, status, _) =>
      s.(status := status, refunds := s.refunds[id := RefundSummary(amount, RefundSucceeded)])
    case RefundDeclined(id, _, _) =>
      if id in s.refunds then s.(refunds := s.refunds[id := s.refunds[id].(status := RefundFailed)]) else s
  }

  function Replay(log: seq<Event>): Summary {
    if log == [] then BLANK else Apply(Replay(log[..|log| - 1]), log[|log| - 1])
  }

  lemma ReplaySnoc(log: seq<Event>, e: Event)
    ensures Replay(log + [e]) == Apply(Replay(log), e)
  {
    assert (log + [e])[..|log|] == log;
  }

  ghost function CompletedWeights(refunds: map<Id, RefundSummary>): map<Id, int> {
    map id | id in refunds :: if refunds[id].status.RefundSucceeded? then refunds[id].amount else 0
  }

  ghost function CompletedTotal(refunds: map<Id, RefundSummary>): int { Sum(CompletedWeights(refunds)) }

  /** Whether a payment of the given amount, rebuilt so far as s, may raise e next. */
  ghost predicate Admissible(amount: int, s: Summary, e: Event) {
    match e
    case PaymentInitiated(_) => false
    case PaymentPending(_, _) => s.status == Initiated
    case PaymentCompleted(_, _) => s.status == Pending || s.status == Processing
    case PaymentFailed(_, _) => !s.status.IsTerminal()
    case PaymentCancelled(_) => s.status == Pending || s.status == Processing
    case PaymentExpired(_) => s.status == Pending || s.status == Initiated
    case RefundRequested(id, refund, _) =>
      (s.status == Completed || s.status == PartiallyRefunded) && id !in s.refunds && 0 < refund
    case RefundCompleted(id, refund, total, status, _) =>
      && (s.status == Completed || s.status == PartiallyRefunded)
      && id in s.refunds && s.refunds[id] == RefundSummary(refund, RefundPending)
      && total == CompletedTotal(Apply(s, e).refunds)
      && status == (if total >= amount then Refunded else PartiallyRefunded)
    case RefundDeclined(id, _, _) =>
      && (s.status == Completed || s.status == PartiallyRefunded)
      && id in s.refunds && s.refunds[id].status == RefundPending
  }

  /** Legal logs: opened by PaymentInitiated, every later event admissible where it stands. */
  ghost predicate Legal(amount: int, log: seq<Event>) {
    if |log| == 0 then false
    else if |log| == 1 then log[0].PaymentInitiated?
    else Legal(amount, log[..|log| - 1]) && Admissible(amount, Replay(log[..|log| - 1]), log[|log| - 1])
  }

  lemma LegalSnoc(amount: int, log: seq<Event>, e: Event)
    requires Legal(amount, log) && Admissible(amount, Replay(log), e)
    ensures Legal(amount, log + [e])
  {
    assert (log + [e])[..|log|] == log;
  }

  lemma {:induction false} LegalPrefix(amount: int, log: seq<Event>, n: nat)
    requires Legal(amount, log) && 1 <= n <= |log|
    ensures Legal(amount, log[..n])
    ensures 1 < n ==> Admissible(amount, Replay(log[..n - 1]), log[n - 1])
  {
    if n < |log| {
      LegalPrefix(amount, log[..|log| - 1], n);
      assert log[..|log| - 1][..n] == log[..n];
      if 1 < n {
        assert log[..|log| - 1][..n - 1] == log[..n - 1];
      }
    } else {
      assert log[..n] == log;
    }
  }

  // ---------------------------------------------------------------- transitions extend the log

  /** a's saved events (base) followed by its unsaved ones are a legal log that rebuilds a, up to what a
      column keeps of the paid time: a loaded payment's is a whole microsecond, its event's need not be. */
  ghost predicate Tracks(base: seq<Event>, a: Aggregate) {
    && Consistent(a.state)
    && Legal(a.state.terms.amount, base + a.events)
    && CutSummary(Replay(base + a.events)) == CutSummary(Summarize(a.state))
  }

  /** Raising e takes a consistent payment from s to another one, and e tells that change. */
  ghost predicate Extends(s: PaymentState, e: Event, after: PaymentState) {
    && after.terms == s.terms
    && Consistent(after)
    && Admissible(s.terms.amount, Summarize(s), e)
    && Apply(Summarize(s), e) == Summarize(after)
  }

  lemma TracksRaise(base: seq<Event>, a: Aggregate, after: PaymentState, e: Event)
    requires Tracks(base, a) && Extends(a.state, e, after)
    ensures Tracks(base, Raise(a, after, e))
  {
    hide Consistent, Legal, Replay, Admissible, Apply, CutOption;
    var log := base + a.events;
    CutDoesNotMatter(after.terms.amount, Replay(log), Summarize(a.state), e);
    assert base + (a.events + [e]) == log + [e];
    ReplaySnoc(log, e);
    LegalSnoc(after.terms.amount, log, e);
  }

  /** Which events may come next, and what they do, does not depend on the nanoseconds. */
  lemma CutDoesNotMatter(amount: int, s: Summary, t: Summary, e: Event)
    requires CutSummary(s) == CutSummary(t)
    ensures Admissible(amount, s, e) <==> Admissible(amount, t, e)
    ensures CutSummary(Apply(s, e)) == CutSummary(Apply(t, e))
  {
    hide CutOption, CompletedTotal;
  }

  lemma SummarizeCut(s: PaymentState)
    ensures Summarize(CutState(s)) == CutSummary(Summarize(s))
  {
    hide Cut, CutOption;
  }

  lemma NewTracks(terms: Terms)
    requires New(terms).Ok? && terms.amount <= MAX_INT64
    ensures Tracks([], New(terms).value)
  {
    var a := New(terms).value;
    assert [] + a.events == a.events;
    assert ReservedWeights(map[]) == map[] && SucceededWeights(map[]) == map[];
    assert a.events[..0] == [];
  }

  /** An unpaid payment changes status; only completing it makes it paid. */
  lemma StatusExtends(s: PaymentState, after: PaymentState, e: Event)
    requires Consistent(s) && !s.status.WasPaid()
    requires Admissible(s.terms.amount, Summarize(s), e)
    requires after == s.(status := after.status, gatewayTxId := after.gatewayTxId, paidAt := after.paidAt,
             updatedAt := after.updatedAt)
    requires after.status == Completed || (!after.status.WasPaid() && after.paidAt == s.paidAt)
    requires after.status == Completed ==> after.paidAt.Some?
    requires Apply(Summarize(s), e)
             == Summarize(s).(status := after.status, gatewayTxId := after.gatewayTxId, paidAt := after.paidAt)
    ensures Extends(s, e, after)
  {
    assert SucceededWeights(map[]) == map[];
  }

  lemma MarkPendingTracks(base: seq<Event>, a: Aggregate, txId: string, now: Time)
    requires Tracks(base, a)
    ensures var r := MarkPending(a, txId, now); r.Ok? ==> Tracks(base, r.value)
  {
    hide Consistent, Legal, Replay;
    var r := MarkPending(a, txId, now);
    if r.Ok? {
      var e := PaymentPending(txId, now);
      StatusExtends(a.state, r.value.state, e);
      TracksRaise(base, a, r.value.state, e);
    }
  }

  lemma MarkCompletedTracks(base: seq<Event>, a: Aggregate, paid: Time, now: Time)
    requires Tracks(base, a)
    ensures var r := MarkCompleted(a, paid, now); r.Ok? ==> Tracks(base, r.value)
  {
    hide Consistent, Legal, Replay;
    var r := MarkCompleted(a, paid, now);
    if r.Ok? {
      var e := PaymentCompleted(paid, now);
      StatusExtends(a.state, r.value.state, e);
      TracksRaise(base, a, r.value.state, e);
    }
  }

  lemma MarkFailedTracks(base: seq<Event>, a: Aggregate, errorCode: string, now: Time)
    requires Tracks(base, a)
    ensures var r := MarkFailed(a, errorCode, now); r.Ok? ==> Tracks(base, r.value)
  {
    hide Consistent, Legal, Replay;
    var r := MarkFailed(a, errorCode, now);
    if r.Ok? {
      var e := PaymentFailed(errorCode, now);
      StatusExtends(a.state, r.value.state, e);
      TracksRaise(base, a, r.value.state, e);
    }
  }

  lemma MarkExpiredTracks(base: seq<Event>, a: Aggregate, now: Time)
    requires Tracks(base, a)
    ensures var r := MarkExpired(a, now); r.Ok? ==> Tracks(base, r.value)
  {
    hide Consistent, Legal, Replay;
    var r := MarkExpired(a, now);
    if r.Ok? {
      var e := PaymentExpired(now);
      StatusExtends(a.state, r.value.state, e);
      TracksRaise(base, a, r.value.state, e);
    }
  }

  lemma CancelTracks(base: seq<Event>, a: Aggregate, now: Time)
    requires Tracks(base, a)
    ensures var r := Cancel(a, now); r.Ok? ==> Tracks(base, r.value)
  {
    hide Consistent, Legal, Replay;
    var r := Cancel(a, now);
    if r.Ok? {
      var e := PaymentCancelled(now);
      StatusExtends(a.state, r.value.state, e);
      TracksRaise(base, a, r.value.state, e);
    }
  }

  lemma SummarizeUpdate(s: PaymentState, after: PaymentState, id: Id, r: Refund)
    requires after.refunds == s.refunds[id := r]
    ensures Summarize(after).refunds == Summarize(s).refunds[id := RefundSummary(r.amount, r.status)]
  {
  }

  lemma RequestConsistent(s: PaymentState, after: PaymentState, r: Refund)
    requires Consistent(s) && (s.status == Completed || s.status == PartiallyRefunded)
    requires r.id !in s.refunds && !HasReference(s.refunds, r.referenceId)
    requires 0 < r.amount <= Refundable(s) && r.status == RefundPending
    requires after == s.(refunds := s.refunds[r.id := r], updatedAt := after.updatedAt)
    ensures Consistent(after)
  {
    SumsAfterUpdate(s.refunds, r.id, r);
    assert WithinAmount(after);
    forall i, j | i in after.refunds && j in after.refunds
        && after.refunds[i].referenceId == after.refunds[j].referenceId
      ensures i == j
    {
      assert i != r.id ==> i in s.refunds && s.refunds[i] == after.refunds[i];
      assert j != r.id ==> j in s.refunds && s.refunds[j] == after.refunds[j];
    }
  }

  lemma RequestRefundExtends(s: PaymentState, after: PaymentState, r: Refund, now: Time)
    requires Consistent(s) && (s.status == Completed || s.status == PartiallyRefunded)
    requires r.id !in s.refunds && !HasReference(s.refunds, r.referenceId)
    requires 0 < r.amount <= Refundable(s) && r.status == RefundPending
    requires after == s.(refunds := s.refunds[r.id := r], updatedAt := after.updatedAt)
    ensures Extends(s, RefundRequested(r.id, r.amount, now), after)
  {
    RequestConsistent(s, after, r);
    SummarizeUpdate(s, after, r.id, r);
  }

  lemma RequestRefundTracks(base: seq<Event>, a: Aggregate, id: Id, referenceId: string, amount: int,
                            reason: string, requestedBy: string, now: Time)
    requires Tracks(base, a) && id !in a.state.refunds
    ensures var r := RequestRefund(a, id, referenceId, amount, reason, requestedBy, now);
            r.Ok? ==> Tracks(base, r.value)
  {
    hide Consistent, Legal, Replay;
    var r := RequestRefund(a, id, referenceId, amount, reason, requestedBy, now);
    if r.Ok? {
      RequestRefundExtends(a.state, r.value.state, OpenRefund(id, referenceId, amount, reason, requestedBy, now), now);
      TracksRaise(base, a, r.value.state, RefundRequested(id, amount, now));
    }
  }

  /** A pending refund settles: it keeps its amount and reference, and releases or keeps its reserve. */
  lemma SettleConsistent(s: PaymentState, after: PaymentState, id: Id, r: Refund)
    requires Consistent(s) && id in s.refunds && s.refunds[id].status == RefundPending
    requires r.id == s.refunds[id].id && r.amount == s.refunds[id].amount && r.referenceId == s.refunds[id].referenceId
    requires r.status != RefundPending
    requires after == s.(refunds := s.refunds[id := r], status := after.status, updatedAt := after.updatedAt)
    requires r.status == RefundFailed ==> after.status == s.status
    requires r.status == RefundSucceeded ==>
               after.status == if Succeeded(after.refunds) >= s.terms.amount then Refunded else PartiallyRefunded
    ensures Consistent(after) && (s.status == Completed || s.status == PartiallyRefunded)
  {
    PendingIsReserved(s, id);
    SucceededBounds(s);
    SumsAfterUpdate(s.refunds, id, r);
    if s.status == Refunded {
      RefundedHasNothingPending(s, id);
    }
  }

  lemma CompleteRefundExtends(s: PaymentState, after: PaymentState, id: Id, r: Refund, now: Time)
    requires Consistent(s) && id in s.refunds && s.refunds[id].status == RefundPending
    requires r == s.refunds[id].(status := RefundSucceeded, gatewayRefundId := r.gatewayRefundId,
                                 updatedAt := r.updatedAt, completedAt := r.completedAt)
    requires after == s.(refunds := s.refunds[id := r], status := after.status, updatedAt := after.updatedAt)
    requires after.status == if Succeeded(after.refunds) >= s.terms.amount then Refunded else PartiallyRefunded
    ensures Extends(s, RefundCompleted(id, r.amount, Succeeded(after.refunds), after.status, now), after)
  {
    hide Consistent, Succeeded, CompletedTotal;
    SettleConsistent(s, after, id, r);
    SummarizeUpdate(s, after, id, r);
    CompletedTotalAgrees(after);
  }

  lemma CompleteRefundTracks(base: seq<Event>, a: Aggregate, id: Id, gatewayRefundId: string, now: Time)
    requires Tracks(base, a)
    ensures var r := CompleteRefund(a, id, gatewayRefundId, now);
            r.Ok? ==> Tracks(base, r.value)
  {
    hide Consistent, Legal, Replay, Succeeded, Extends;
    var s := a.state;
    if id in s.refunds && s.refunds[id].status == RefundPending {
      var after := CompleteRefund(a, id, gatewayRefundId, now).value.state;
      var e := RefundCompleted(id, s.refunds[id].amount, Succeeded(after.refunds), after.status, now);
      CompleteRefundExtends(s, after, id, after.refunds[id], now);
      TracksRaise(base, a, after, e);
    }
  }

  lemma FailRefundTracks(base: seq<Event>, a: Aggregate, id: Id, reason: string, now: Time)
    requires Tracks(base, a)
    ensures var r := FailRefund(a, id, reason, now);
            r.Ok? ==> Tracks(base, r.value)
  {
    hide Consistent, Legal, Replay;
    var s := a.state;
    if FailRefund(a, id, reason, now).Ok? {
      var after := FailRefund(a, id, reason, now).value.state;
      SettleConsistent(s, after, id, after.refunds[id]);
      SummarizeUpdate(s, after, id, after.refunds[id]);
      TracksRaise(base, a, after, RefundDeclined(id, reason, now));
    }
  }

  lemma CompletedTotalAgrees(s: PaymentState)
    ensures CompletedTotal(Summarize(s).refunds) == Succeeded(s.refunds)
  {
    assert CompletedWeights(Summarize(s).refunds) == SucceededWeights(s.refunds);
  }

  // ---------------------------------------------------------------- what a legal log looks like

  datatype Kind = Opens | Acknowledges | Closes | Requests(id: Id) | Settles(id: Id)

  predicate Is(e: Event, k: Kind) {
    match k
    case Opens => e.PaymentInitiated?
    case Acknowledges => e.PaymentPending?
    case Closes => e.PaymentCompleted? || e.PaymentFailed? || e.PaymentCancelled? || e.PaymentExpired?
    case Requests(id) => e.RefundRequested? && e.refundId == id
    case Settles(id) => (e.RefundCompleted? || e.RefundDeclined?) && e.refundId == id
  }

  /** How many events of kind k a log holds. */
  function Count(k: Kind, log: seq<Event>): nat {
    if log == [] then 0 else Count(k, log[..|log| - 1]) + (if Is(log[|log| - 1], k) then 1 else 0)
  }

  lemma {:induction false} CountFinds(k: Kind, log: seq<Event>)
    requires 0 < Count(k, log)
    ensures exists i :: 0 <= i < |log| && Is(log[i], k)
  {
    var n := |log| - 1;
    if !Is(log[n], k) {
      CountFinds(k, log[..n]);
      var i :| 0 <= i < n && Is(log[..n][i], k);
      assert Is(log[i], k);
    }
  }

  /** The amounts of a log's completed refunds. */
  function PaidBack(log: seq<Event>): int {
    if log == [] then 0
    else PaidBack(log[..|log| - 1]) + (if log[|log| - 1].RefundCompleted? then log[|log| - 1].amount else 0)
  }

  lemma CompletedTotalUpdate(refunds: map<Id, RefundSummary>, id: Id, r: RefundSummary)
    ensures CompletedTotal(refunds[id := r]) == CompletedTotal(refunds)
              + (if r.status.RefundSucceeded? then r.amount else 0)
              - (if id in refunds && refunds[id].status.RefundSucceeded? then refunds[id].amount else 0)
  {
    var w := if r.status.RefundSucceeded? then r.amount else 0;
    assert CompletedWeights(refunds[id := r]) == CompletedWeights(refunds)[id := w];
    SumUpdate(CompletedWeights(refunds), id, w);
  }

  /** Counting a legal log's events agrees with what replaying it rebuilds. */
  lemma {:induction false} LegalCounts(amount: int, log: seq<Event>, id: Id)
    requires Legal(amount, log)
    ensures var s := Replay(log);
            && log[0].PaymentInitiated?
            && Count(Opens, log) == 1
            && Count(Acknowledges, log) <= 1
            && (s.status == Initiated ==> Count(Acknowledges, log) == 0)
            && Count(Closes, log) == (if s.status.IsTerminal() then 1 else 0)
            && Count(Requests(id), log) == (if id in s.refunds then 1 else 0)
            && Count(Settles(id), log) == (if id in s.refunds && s.refunds[id].status != RefundPending then 1 else 0)
    decreases |log|
  {
    var n := |log| - 1;
    var pre := log[..n];
    if n > 0 {
      LegalCounts(amount, pre, id);
    } else {
      assert pre == [];
    }
  }

  /** The running total of completed refunds is what replaying rebuilds. */
  lemma {:induction false} LegalTotals(amount: int, log: seq<Event>)
    requires Legal(amount, log)
    ensures PaidBack(log) == CompletedTotal(Replay(log).refunds)
  {
    var n := |log| - 1;
    var pre := log[..n];
    if n > 0 {
      LegalTotals(amount, pre);
      var s := Replay(pre);
      match log[n] {
        case RefundRequested(id, refund, _) =>
          CompletedTotalUpdate(s.refunds, id, RefundSummary(refund, RefundPending));
        case RefundCompleted(id, refund, _, _, _) =>
          CompletedTotalUpdate(s.refunds, id, RefundSummary(refund, RefundSucceeded));
        case RefundDeclined(id, _, _) => CompletedTotalUpdate(s.refunds, id, s.refunds[id].(status := RefundFailed));
        case _ =>
      }
    } else {
      assert pre == [];
      assert CompletedWeights(map[]) == map[];
    }
  }

  ghost function SettledIds(refunds: map<Id, RefundSummary>): set<Id> {
    set id | id in refunds && refunds[id].status != RefundPending
  }

  /** How far a payment has come before its refunds: created, acknowledged, closed. */
  function Stage(s: Status): nat {
    match s
    case Initiated => 1
    case Pending => 2
    case _ => 3
  }

  /** Settling one more refund. */
  lemma SettledIdsUpdate(refunds: map<Id, RefundSummary>, id: Id, r: RefundSummary)
    requires r.status != RefundPending ==> id in refunds && refunds[id].status == RefundPending
    requires r.status == RefundPending ==> id !in refunds
    ensures |refunds[id := r]| == |refunds| + (if r.status == RefundPending then 1 else 0)
    ensures |SettledIds(refunds[id := r])| == |SettledIds(refunds)| + (if r.status == RefundPending then 0 else 1)
  {
    var after := refunds[id := r];
    SizeAfterUpdate(refunds, id, r);
    if r.status == RefundPending {
      assert SettledIds(after) == SettledIds(refunds);
    } else {
      assert SettledIds(after) == SettledIds(refunds) + {id};
    }
  }

  lemma SizeAfterUpdate(refunds: map<Id, RefundSummary>, id: Id, r: RefundSummary)
    ensures |refunds[id := r]| == |refunds| + (if id in refunds then 0 else 1)
  {
    var after := refunds[id := r];
    assert after.Keys == refunds.Keys + {id};
    assert |after.Keys| == |after| && |refunds.Keys| == |refunds|;
  }

  /** An admissible event moves the stage on or touches one refund. */
  lemma OneStepLength(amount: int, s: Summary, e: Event)
    requires Admissible(amount, s, e) && s.status != Processing
    ensures Apply(s, e).status != Processing
    ensures var t := Apply(s, e);
            Stage(t.status) + |t.refunds| + |SettledIds(t.refunds)|
            >= Stage(s.status) + |s.refunds| + |SettledIds(s.refunds)| + 1
  {
    hide SettledIds, CompletedTotal;
    match e {
      case RefundRequested(id, amount, _) => SettledIdsUpdate(s.refunds, id, RefundSummary(amount, RefundPending));
      case RefundCompleted(id, amount, _, _, _) =>
        SettledIdsUpdate(s.refunds, id, RefundSummary(amount, RefundSucceeded));
      case RefundDeclined(id, _, _) => SettledIdsUpdate(s.refunds, id, s.refunds[id].(status := RefundFailed));
      case _ =>
    }
  }

  /** Every event past the opening three belongs to a refund, two of them at most. */
  lemma {:induction false} LegalLength(amount: int, log: seq<Event>)
    requires Legal(amount, log)
    ensures Replay(log).status != Processing
    ensures var s := Replay(log); |log| <= Stage(s.status) + |s.refunds| + |SettledIds(s.refunds)|
    ensures |log| <= 3 + 2 * |Replay(log).refunds|
  {
    var n := |log| - 1;
    if n > 0 {
      LegalLength(amount, log[..n]);
      OneStepLength(amount, Replay(log[..n]), log[n]);
    }
    SettledWithin(Replay(log).refunds);
  }

  lemma SettledWithin(refunds: map<Id, RefundSummary>)
    ensures |SettledIds(refunds)| <= |refunds|
  {
    SubsetSize(SettledIds(refunds), refunds.Keys);
    assert |refunds.Keys| == |refunds|;
  }

  /** A refund is settled only after it was requested. */
  lemma SettledAfterRequested(amount: int, log: seq<Event>, j: nat, id: Id)
    requires Legal(amount, log) && j < |log| && Is(log[j], Settles(id))
    ensures exists i :: 0 <= i < j && Is(log[i], Requests(id))
  {
    hide Legal, Count, Replay, CompletedTotal;
    LegalCounts(amount, log, id);
    LegalPrefix(amount, log, j + 1);
    LegalPrefix(amount, log, j);
    LegalCounts(amount, log[..j], id);
    assert log[..j + 1 - 1] == log[..j];
    CountFinds(Requests(id), log[..j]);
    var i :| 0 <= i < j && Is(log[..j][i], Requests(id));
    assert Is(log[i], Requests(id));
  }

  /** RefundCompleted carries the running total, and ends the log when it says REFUNDED. */
  lemma CompletedCarriesTotal(amount: int, log: seq<Event>, j: nat)
    requires Legal(amount, log) && j < |log| && log[j].RefundCompleted?
    ensures log[j].refundedAmount == PaidBack(log[..j + 1])
    ensures log[j].paymentStatus == (if PaidBack(log[..j + 1]) >= amount then Refunded else PartiallyRefunded)
    ensures log[j].paymentStatus == Refunded ==> j == |log| - 1
  {
    hide Legal, Count, Replay, PaidBack, CompletedTotal;
    LegalCounts(amount, log, 0);
    var upTo := log[..j + 1];
    LegalPrefix(amount, log, j + 1);
    assert upTo == log[..j] + [log[j]];
    ReplaySnoc(log[..j], log[j]);
    LegalTotals(amount, upTo);
    if j + 1 < |log| {
      LegalPrefix(amount, log, j + 2);
      assert log[..j + 2 - 1] == upTo;
    }
  }

  /** The shape of every legal log: one opening event and at most one closing event; a refund is
      requested once, then settled at most once; each RefundCompleted carries the running total;
      a REFUNDED event is the last one; and the log is at most 3 events plus two per refund. */
  lemma LegalLogShape(amount: int, log: seq<Event>)
    requires Legal(amount, log)
    ensures log[0].PaymentInitiated? && Count(Opens, log) == 1 && Count(Closes, log) <= 1
    ensures forall id :: Count(Settles(id), log) <= Count(Requests(id), log) <= 1
    ensures forall j, id :: 0 <= j < |log| && Is(log[j], Settles(id)) ==>
              exists i :: 0 <= i < j && Is(log[i], Requests(id))
    ensures forall j :: 0 <= j < |log| && log[j].RefundCompleted? ==>
              log[j].refundedAmount == PaidBack(log[..j + 1])
              && (log[j].paymentStatus == Refunded ==> j == |log| - 1)
    ensures |log| <= 3 + 2 * |Replay(log).refunds|
  {
    LegalLength(amount, log);
    forall id ensures Count(Settles(id), log) <= Count(Requests(id), log) <= 1 {
      LegalCounts(amount, log, id);
    }
    LegalCounts(amount, log, 0);
    forall j | 0 <= j < |log| && log[j].RefundCompleted?
      ensures log[j].refundedAmount == PaidBack(log[..j + 1])
      ensures log[j].paymentStatus == Refunded ==> j == |log| - 1
    {
      CompletedCarriesTotal(amount, log, j);
    }
    forall j, id | 0 <= j < |log| && Is(log[j], Settles(id))
      ensures exists i :: 0 <= i < j && Is(log[i], Requests(id))
    {
      SettledAfterRequested(amount, log, j, id);
    }
  }
}
