/** Instants in memory and in the database. time.Now counts nanoseconds; a TIMESTAMPTZ column holds whole
    microseconds, and the driver cuts the rest off every instant it sends
    (migrations/001_create_payments.up.sql, migrations/006_create_refunds.up.sql). */
module Timestamps {
  import opened Outcomes
  import opened PaymentDomain

  const NANOS_PER_MICRO: int := 1000

  /** What a column keeps of an instant in nanoseconds. */
  function Cut(t: Time): Time {
    t - t % NANOS_PER_MICRO
  }

  predicate WholeMicro(t: Time) {
    t % NANOS_PER_MICRO == 0
  }

  lemma CutIsNearestBelow(t: Time)
    ensures WholeMicro(Cut(t)) && Cut(t) <= t < Cut(t) + NANOS_PER_MICRO
    ensures Cut(Cut(t)) == Cut(t)
    ensures Cut(t) == t <==> WholeMicro(t)
  {
  }

  /** Comparing cut instants never finds an order that the instants do not have. */
  lemma CutKeepsOrder(t: Time, u: Time)
    ensures t <= u ==> Cut(t) <= Cut(u)
    ensures Cut(t) < Cut(u) ==> t < u
  {
  }

  function CutOption(t: Option<Time>): Option<Time> {
    match t
    case None => None
    case Some(at) => Some(Cut(at))
  }

  function CutTerms(terms: Terms): Terms {
    terms.(createdAt := Cut(terms.createdAt), expiredAt := CutOption(terms.expiredAt))
  }

  function CutRefund(r: Refund): Refund {
    r.(createdAt := Cut(r.createdAt), updatedAt := Cut(r.updatedAt), completedAt := CutOption(r.completedAt))
  }

  function CutRefunds(refunds: map<Id, Refund>): map<Id, Refund> {
    map id | id in refunds :: CutRefund(refunds[id])
  }

  /** What the columns of a payment and its refunds keep of it. */
  function CutState(s: PaymentState): PaymentState {
    PaymentState(CutTerms(s.terms), s.status, s.gatewayTxId, CutOption(s.paidAt), Cut(s.updatedAt),
        CutRefunds(s.refunds))
  }

  predicate WholeOption(t: Option<Time>) {
    t.Some? ==> WholeMicro(t.value)
  }

  /** Every instant of the payment is a whole microsecond. */
  predicate WholeMicros(s: PaymentState) {
    && WholeMicro(s.terms.createdAt) && WholeOption(s.terms.expiredAt)
    && WholeOption(s.paidAt) && WholeMicro(s.updatedAt)
    && forall id :: id in s.refunds ==>
         WholeMicro(s.refunds[id].createdAt) && WholeMicro(s.refunds[id].updatedAt)
             && WholeOption(s.refunds[id].completedAt)
  }

  /** A payment survives being stored unchanged exactly if all its instants are whole microseconds. */
  lemma CutUnchangedIff(s: PaymentState)
    ensures CutState(s) == s <==> WholeMicros(s)
  {
    if WholeMicros(s) {
      assert CutRefunds(s.refunds) == s.refunds;
    }
    if CutState(s) == s {
      forall id | id in s.refunds ensures CutRefund(s.refunds[id]) == s.refunds[id] {
        assert CutRefunds(s.refunds)[id] == s.refunds[id];
      }
    }
  }

  /** What is stored comes back as it is. */
  lemma CutTwice(s: PaymentState)
    ensures CutTerms(CutTerms(s.terms)) == CutTerms(s.terms)
    ensures CutRefunds(CutRefunds(s.refunds)) == CutRefunds(s.refunds)
    ensures CutState(CutState(s)) == CutState(s)
  {
    assert CutRefunds(CutRefunds(s.refunds)) == CutRefunds(s.refunds);
  }

  /** No amount, status or reference depends on an instant. */
  lemma CutSums(refunds: map<Id, Refund>)
    ensures Reserved(CutRefunds(refunds)) == Reserved(refunds)
    ensures Succeeded(CutRefunds(refunds)) == Succeeded(refunds)
    ensures DistinctReferences(CutRefunds(refunds)) <==> DistinctReferences(refunds)
  {
    hide Cut, CutOption;
    assert ReservedWeights(CutRefunds(refunds)) == ReservedWeights(refunds);
    assert SucceededWeights(CutRefunds(refunds)) == SucceededWeights(refunds);
    if DistinctReferences(CutRefunds(refunds)) {
      forall i, j | i in refunds && j in refunds && refunds[i].referenceId == refunds[j].referenceId ensures i == j {
        assert CutRefunds(refunds)[i].referenceId == CutRefunds(refunds)[j].referenceId;
      }
    }
  }

  lemma CutConsistent(s: PaymentState)
    ensures WithinAmount(CutState(s)) <==> WithinAmount(s)
    ensures Consistent(CutState(s)) <==> Consistent(s)
  {
    hide Cut, Succeeded, Reserved, DistinctReferences;
    CutSums(s.refunds);
    forall id | id in s.refunds ensures CutRefunds(s.refunds)[id].id == s.refunds[id].id {}
    assert CutRefunds(s.refunds) == map[] <==> s.refunds == map[] by {
      assert CutRefunds(s.refunds).Keys == s.refunds.Keys;
    }
  }
}
