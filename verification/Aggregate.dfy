/** The Payment object commands work on: its methods change it in place and raise one event per
    change (internal/domain/payment/aggregate.go, refund.go). Value() is what PaymentDomain,
    whose transitions specify the methods, sees of it. */
module Aggregate {
  import opened Outcomes
  import opened MapSum
  import D = PaymentDomain

  /** The refunds of a slice, by id. */
  function ById(refunds: seq<D.Refund>): map<Id, D.Refund> {
    if refunds == [] then map[]
    else
      var last := refunds[|refunds| - 1];
      ById(refunds[..|refunds| - 1])[last.id := last]
  }

  ghost predicate DistinctIds(refunds: seq<D.Refund>) {
    forall i, j :: 0 <= i < j < |refunds| ==> refunds[i].id != refunds[j].id
  }

  lemma {:induction false} ByIdLookup(refunds: seq<D.Refund>)
    requires DistinctIds(refunds)
    ensures forall i :: 0 <= i < |refunds| ==>
            refunds[i].id in ById(refunds) && ById(refunds)[refunds[i].id] == refunds[i]
    ensures forall id :: id in ById(refunds) ==> exists i :: 0 <= i < |refunds| && refunds[i].id == id
  {
    if refunds != [] {
      var pre := refunds[..|refunds| - 1];
      ByIdLookup(pre);
      forall i | 0 <= i < |refunds|
        ensures refunds[i].id in ById(refunds) && ById(refunds)[refunds[i].id] == refunds[i]
      {
        if i < |pre| { assert pre[i] == refunds[i]; }
      }
      forall id | id in ById(refunds)
        ensures exists i :: 0 <= i < |refunds| && refunds[i].id == id
      {
        if id in ById(pre) {
          var i :| 0 <= i < |pre| && pre[i].id == id;
          assert refunds[i].id == id;
        } else {
          assert refunds[|refunds| - 1].id == id;
        }
      }
    }
  }

  /** Assigning through one refund of the slice changes that id's entry and nothing else. */
  lemma ByIdUpdate(refunds: seq<D.Refund>, i: nat, r: D.Refund)
    requires DistinctIds(refunds) && i < |refunds| && refunds[i].id == r.id
    ensures DistinctIds(refunds[i := r])
    ensures ById(refunds[i := r]) == ById(refunds)[r.id := r]
  {
    hide ById;
    ByIdLookup(refunds);
    var after := refunds[i := r];
    ByIdLookup(after);
    forall id | id in ById(after)
      ensures id in ById(refunds)[r.id := r] && ById(after)[id] == ById(refunds)[r.id := r][id]
    {
      var j :| 0 <= j < |after| && after[j].id == id;
      assert j != i ==> refunds[j] == after[j];
    }
    forall id | id in ById(refunds)[r.id := r] ensures id in ById(after) {
      var j :| 0 <= j < |refunds| && refunds[j].id == id;
      assert after[j].id == id;
    }
  }

  lemma ByIdAppend(refunds: seq<D.Refund>, r: D.Refund)
    requires DistinctIds(refunds) && r.id !in ById(refunds)
    ensures DistinctIds(refunds + [r])
    ensures ById(refunds + [r]) == ById(refunds)[r.id := r]
  {
    ByIdLookup(refunds);
    assert (refunds + [r])[..|refunds|] == refunds;
  }

  /** Partial sums stay below the whole ones, so the running totals fit an int64. */
  lemma PrefixSums(s: D.PaymentState, refunds: seq<D.Refund>, i: nat)
    requires D.WithinAmount(s) && s.refunds == ById(refunds) && DistinctIds(refunds) && i <= |refunds|
    ensures 0 <= D.Succeeded(ById(refunds[..i])) <= s.terms.amount
    ensures 0 <= D.Reserved(ById(refunds[..i])) <= s.terms.amount
  {
    hide ById, DistinctIds;
    PartOfWhole(refunds, i);
    PartSums(ById(refunds[..i]), s);
  }

  lemma PartOfWhole(refunds: seq<D.Refund>, i: nat)
    requires DistinctIds(refunds) && i <= |refunds|
    ensures forall id :: id in ById(refunds[..i]) ==> id in ById(refunds) && ById(refunds[..i])[id] == ById(refunds)[id]
  {
    hide ById;
    var part := ById(refunds[..i]);
    ByIdLookup(refunds);
    ByIdLookup(refunds[..i]);
    forall id | id in part ensures id in ById(refunds) && part[id] == ById(refunds)[id] {
      var j :| 0 <= j < i && refunds[..i][j].id == id;
      assert refunds[j].id == id;
    }
  }

  lemma PartSums(part: map<Id, D.Refund>, s: D.PaymentState)
    requires D.WithinAmount(s) && forall id :: id in part ==> id in s.refunds && part[id] == s.refunds[id]
    ensures 0 <= D.Succeeded(part) <= s.terms.amount
    ensures 0 <= D.Reserved(part) <= s.terms.amount
  {
    SumMonotone(D.ReservedWeights(part), D.ReservedWeights(s.refunds));
    SumMonotone(D.SucceededWeights(part), D.ReservedWeights(part));
    SumNonNegative(D.SucceededWeights(part));
  }

  lemma PrefixStep(refunds: seq<D.Refund>, i: nat)
    requires DistinctIds(refunds) && i < |refunds|
    ensures var r := refunds[i];
            && D.Succeeded(ById(refunds[..i + 1]))
               == D.Succeeded(ById(refunds[..i])) + (if r.status.RefundSucceeded? then r.amount else 0)
            && D.Reserved(ById(refunds[..i + 1]))
               == D.Reserved(ById(refunds[..i])) + (if r.status.RefundFailed? then 0 else r.amount)
  {
    var pre := refunds[..i];
    assert refunds[..i + 1] == pre + [refunds[i]];
    ByIdLookup(pre);
    assert refunds[i].id !in ById(pre) by {
      assert forall j :: 0 <= j < |pre| ==> pre[j] == refunds[j];
    }
    ByIdAppend(pre, refunds[i]);
    D.SumsAfterUpdate(ById(pre), refunds[i].id, refunds[i]);
  }

  class Payment {
    const terms: D.Terms
    var status: D.Status
    var gatewayTxId: string
    var paidAt: Option<Time>
    var updatedAt: Time
    var refunds: seq<D.Refund>
    var version: nat
    var events: seq<D.Event>

    function Value(): D.Aggregate
      reads this
    {
      D.Aggregate(D.PaymentState(terms, status, gatewayTxId, paidAt, updatedAt, ById(refunds)), version, events)
    }

    /** Holds even of a torn load: its refunds are those of some stored version. */
    ghost predicate Valid()
      reads this
    {
      DistinctIds(refunds) && D.WithinAmount(Value().state)
    }

    /** A payment as a repository hands it out: the columns of a row, the refunds it listed. */
    constructor (terms: D.Terms, status: D.Status, gatewayTxId: string, paidAt: Option<Time>,
                 updatedAt: Time, refunds: seq<D.Refund>, version: nat, events: seq<D.Event>)
      requires DistinctIds(refunds)
      requires D.WithinAmount(D.PaymentState(terms, status, gatewayTxId, paidAt, updatedAt, ById(refunds)))
      ensures Valid()
      ensures var s := D.PaymentState(terms, status, gatewayTxId, paidAt, updatedAt, ById(refunds));
              Value() == D.Aggregate(s, version, events)
    {
      this.terms, this.status, this.gatewayTxId, this.paidAt := terms, status, gatewayTxId, paidAt;
      this.updatedAt, this.refunds, this.version, this.events := updatedAt, refunds, version, events;
    }

    method Raise(e: D.Event)
      modifies this`events
      ensures events == old(events) + [e]
    {
      events := events + [e];
    }

    method PopEvents() returns (popped: seq<D.Event>)
      modifies this`events
      ensures popped == old(events) && events == []
    {
      popped := events;
      events := [];
    }

    method MarkPending(txId: string, now: Time) returns (error: Option<Code>)
      requires Valid()
      modifies this
      ensures Valid()
      ensures match D.MarkPending(old(Value()), txId, now)
              case Ok(after) => error == None && Value() == after
              case Err(code) => error == Some(code) && Value() == old(Value())
      ensures error == if old(status) == D.Initiated then None else Some(InvalidState)
      ensures error == None ==>
                && status == D.Pending && updatedAt == now && events == old(events) + [D.PaymentPending(txId, now)]
                && gatewayTxId == txId && paidAt == old(paidAt)
      ensures refunds == old(refunds) && version == old(version)
    {
      if status != D.Initiated {
        return Some(InvalidState);
      }
      gatewayTxId := txId;
      status := D.Pending;
      updatedAt := now;
      Raise(D.PaymentPending(txId, now));
      error := None;
    }

    method MarkCompleted(paid: Time, now: Time) returns (error: Option<Code>)
      requires Valid()
      modifies this
      ensures Valid()
      ensures match D.MarkCompleted(old(Value()), paid, now)
              case Ok(after) => error == None && Value() == after
              case Err(code) => error == Some(code) && Value() == old(Value())
      ensures error == if old(status) == D.Pending || old(status) == D.Processing then None else Some(InvalidState)
      ensures error == None ==>
                && status == D.Completed && updatedAt == now && events == old(events) + [D.PaymentCompleted(paid, now)]
                && gatewayTxId == old(gatewayTxId) && paidAt == Some(paid)
      ensures refunds == old(refunds) && version == old(version)
    {
      if status != D.Pending && status != D.Processing {
        return Some(InvalidState);
      }
      status := D.Completed;
      paidAt := Some(paid);
      updatedAt := now;
      Raise(D.PaymentCompleted(paid, now));
      error := None;
    }

    method MarkFailed(errorCode: string, now: Time) returns (error: Option<Code>)
      requires Valid()
      modifies this
      ensures Valid()
      ensures match D.MarkFailed(old(Value()), errorCode, now)
              case Ok(after) => error == None && Value() == after
              case Err(code) => error == Some(code) && Value() == old(Value())
      ensures error == if old(status) in {D.Initiated, D.Pending, D.Processing} then None else Some(InvalidState)
      ensures error == None ==>
                && status == D.Failed && updatedAt == now && events == old(events) + [D.PaymentFailed(errorCode, now)]
                && gatewayTxId == old(gatewayTxId) && paidAt == old(paidAt)
      ensures refunds == old(refunds) && version == old(version)
    {
      if status.IsTerminal() {
        return Some(InvalidState);
      }
      status := D.Failed;
      updatedAt := now;
      Raise(D.PaymentFailed(errorCode, now));
      error := None;
    }

    method MarkExpired(now: Time) returns (error: Option<Code>)
      requires Valid()
      modifies this
      ensures Valid()
      ensures match D.MarkExpired(old(Value()), now)
              case Ok(after) => error == None && Value() == after
              case Err(code) => error == Some(code) && Value() == old(Value())
      ensures error == if old(status) == D.Initiated || old(status) == D.Pending then None else Some(InvalidState)
      ensures error == None ==>
                && status == D.Expired && updatedAt == now && events == old(events) + [D.PaymentExpired(now)]
                && gatewayTxId == old(gatewayTxId) && paidAt == old(paidAt)
      ensures refunds == old(refunds) && version == old(version)
    {
      if status != D.Pending && status != D.Initiated {
        return Some(InvalidState);
      }
      status := D.Expired;
      updatedAt := now;
      Raise(D.PaymentExpired(now));
      error := None;
    }

    method Cancel(now: Time) returns (error: Option<Code>)
      requires Valid()
      modifies this
      ensures Valid()
      ensures match D.Cancel(old(Value()), now)
              case Ok(after) => error == None && Value() == after
              case Err(code) => error == Some(code) && Value() == old(Value())
      ensures error == if old(status) == D.Pending || old(status) == D.Processing then None else Some(InvalidState)
      ensures error == None ==>
                && status == D.Cancelled && updatedAt == now && events == old(events) + [D.PaymentCancelled(now)]
                && gatewayTxId == old(gatewayTxId) && paidAt == old(paidAt)
      ensures refunds == old(refunds) && version == old(version)
    {
      if status != D.Pending && status != D.Processing {
        return Some(InvalidState);
      }
      status := D.Cancelled;
      updatedAt := now;
      Raise(D.PaymentCancelled(now));
      error := None;
    }

    /** The total the gateway has confirmed; the running sum never overflows. */
    method RefundedAmount() returns (sum: int64)
      requires Valid()
      ensures sum as int == D.Succeeded(Value().state.refunds)
    {
      sum := 0;
      for i := 0 to |refunds|
        invariant sum as int == D.Succeeded(ById(refunds[..i]))
      {
        PrefixStep(refunds, i);
        PrefixSums(Value().state, refunds, i);
        PrefixSums(Value().state, refunds, i + 1);
        if refunds[i].status == D.RefundSucceeded {
          sum := sum + refunds[i].amount as int64;
        }
      }
      assert refunds[..|refunds|] == refunds;
    }

    /** What can still be refunded: with what is reserved it makes the amount paid. */
    method RefundableAmount() returns (refundable: int64)
      requires Valid()
      ensures refundable as int + D.Reserved(Value().state.refunds) == terms.amount
      ensures 0 <= refundable as int <= terms.amount
    {
      var reserved: int64 := 0;
      for i := 0 to |refunds|
        invariant reserved as int == D.Reserved(ById(refunds[..i]))
      {
        PrefixStep(refunds, i);
        PrefixSums(Value().state, refunds, i);
        PrefixSums(Value().state, refunds, i + 1);
        if refunds[i].status != D.RefundFailed {
          reserved := reserved + refunds[i].amount as int64;
        }
      }
      assert refunds[..|refunds|] == refunds;
      PrefixSums(Value().state, refunds, |refunds|);
      refundable := terms.amount as int64 - reserved;
    }

    /** The position of the refund with this id, or -1. */
    method FindRefund(id: Id) returns (at: int)
      requires Valid()
      ensures at == -1 <==> id !in Value().state.refunds
      ensures at != -1 ==> 0 <= at < |refunds| && refunds[at] == Value().state.refunds[id]
      ensures at == -1 <==> forall r :: r in refunds ==> r.id != id
      ensures at != -1 ==> forall i :: 0 <= i < |refunds| ==> (refunds[i].id == id <==> i == at)
    {
      ByIdLookup(refunds);
      for i := 0 to |refunds|
        invariant forall j :: 0 <= j < i ==> refunds[j].id != id
      {
        if refunds[i].id == id {
          return i;
        }
      }
      at := -1;
    }

    /** The position of the refund with the caller's reference, or -1. */
    method RefundByReference(referenceId: string) returns (at: int)
      requires Valid()
      ensures at == -1 <==> !D.HasReference(Value().state.refunds, referenceId)
      ensures at != -1 ==> 0 <= at < |refunds| && refunds[at].referenceId == referenceId
      ensures at == -1 <==> forall r :: r in refunds ==> r.referenceId != referenceId
    {
      ByIdLookup(refunds);
      for i := 0 to |refunds|
        invariant forall j :: 0 <= j < i ==> refunds[j].referenceId != referenceId
      {
        if refunds[i].referenceId == referenceId {
          assert refunds[i].id in Value().state.refunds;
          return i;
        }
      }
      at := -1;
    }

    /** id is the fresh UUID of the new refund. */
    method RequestRefund(id: Id, referenceId: string, amount: int64, reason: string, requestedBy: string, now: Time)
      returns (error: Option<Code>)
      requires Valid() && id !in Value().state.refunds
      modifies this
      ensures Valid()
      ensures match D.RequestRefund(old(Value()), id, referenceId, amount as int, reason, requestedBy, now)
              case Ok(after) => error == None && Value() == after
              case Err(code) => error == Some(code) && Value() == old(Value())
      ensures error
              == if old(status) != D.Completed && old(status) != D.PartiallyRefunded then Some(InvalidState)
                 else if referenceId == "" then Some(InvalidInput)
                 else if exists r :: r in old(refunds) && r.referenceId == referenceId then Some(AlreadyExists)
                 else if amount <= 0 || terms.amount < old(D.Reserved(ById(refunds))) + amount as int then
                   Some(InvalidInput)
                 else None
      ensures error == None ==>
                && refunds == old(refunds) + [D.Refund(id, referenceId, amount as int, reason, requestedBy, now,
                                                       D.RefundPending, "", "", now, None)]
                && updatedAt == now && events == old(events) + [D.RefundRequested(id, amount as int, now)]
      ensures status == old(status) && gatewayTxId == old(gatewayTxId)
      ensures paidAt == old(paidAt) && version == old(version)
      ensures error != None ==> refunds == old(refunds)
    {
      hide ById, D.Succeeded, D.Reserved, DistinctIds;
      if status != D.Completed && status != D.PartiallyRefunded {
        return Some(InvalidState);
      }
      if referenceId == "" {
        return Some(InvalidInput);
      }
      var existing := RefundByReference(referenceId);
      if existing != -1 {
        return Some(AlreadyExists);
      }
      if amount <= 0 {
        return Some(InvalidInput);
      }
      var refundable := RefundableAmount();
      if amount > refundable {
        return Some(InvalidInput);
      }
      var r := D.OpenRefund(id, referenceId, amount as int, reason, requestedBy, now);
      ByIdAppend(refunds, r);
      D.SumsAfterUpdate(ById(refunds), id, r);
      refunds := refunds + [r];
      updatedAt := now;
      Raise(D.RefundRequested(id, amount as int, now));
      error := None;
    }

    /** Assigns through the refund at this position. */
    method Assign(at: nat, r: D.Refund)
      requires Valid()
      requires at < |refunds| && refunds[at].status == D.RefundPending
      requires r == refunds[at].(status := r.status, gatewayRefundId := r.gatewayRefundId,
                                 failureReason := r.failureReason, updatedAt := r.updatedAt,
                                 completedAt := r.completedAt)
      modifies this`refunds
      ensures Valid()
      ensures refunds == old(refunds)[at := r]
      ensures ById(refunds) == old(ById(refunds))[r.id := r]
    {
      ByIdLookup(refunds);
      ByIdUpdate(refunds, at, r);
      D.SumsAfterUpdate(ById(refunds), r.id, r);
      refunds := refunds[at := r];
    }

    method CompleteRefund(id: Id, gatewayRefundId: string, now: Time) returns (error: Option<Code>)
      requires Valid()
      modifies this
      ensures Valid()
      ensures match D.CompleteRefund(old(Value()), id, gatewayRefundId, now)
              case Ok(after) => error == None && Value() == after
              case Err(code) => error == Some(code) && Value() == old(Value())
      ensures error == Some(NotFound) <==> forall r :: r in old(refunds) ==> r.id != id
      ensures error == Some(InvalidState)
              <==> exists r :: r in old(refunds) && r.id == id && r.status == D.RefundFailed
      ensures error in {None, Some(NotFound), Some(InvalidState)}
      ensures |refunds| == |old(refunds)|
      ensures forall i :: 0 <= i < |refunds| ==>
                var r := old(refunds)[i];
                refunds[i] == if r.id != id || r.status != D.RefundPending then r
                              else r.(status := D.RefundSucceeded, gatewayRefundId := gatewayRefundId,
                                      completedAt := Some(now), updatedAt := now)
      ensures refunds == old(refunds) ==> Value() == old(Value())
      ensures refunds != old(refunds) ==>
                && status == (if D.Succeeded(ById(refunds)) == terms.amount then D.Refunded else D.PartiallyRefunded)
                && updatedAt == now && paidAt == old(paidAt) && gatewayTxId == old(gatewayTxId)
                && version == old(version)
                && exists r :: r in old(refunds) && r.id == id
                     && events == old(events)
                                  + [D.RefundCompleted(id, r.amount, D.Succeeded(ById(refunds)), status, now)]
    {
      hide ById, D.Succeeded, D.Reserved, DistinctIds;
      var at := FindRefund(id);
      if at == -1 {
        return Some(NotFound);
      }
      match refunds[at].status {
        case RefundSucceeded => return None;
        case RefundFailed => return Some(InvalidState);
        case RefundPending =>
      }
      var r := D.SucceededRefund(refunds[at], gatewayRefundId, now);
      Assign(at, r);
      var refunded := RefundedAmount();
      D.SucceededBounds(Value().state);
      if refunded as int >= terms.amount {
        status := D.Refunded;
      } else {
        status := D.PartiallyRefunded;
      }
      updatedAt := now;
      Raise(D.RefundCompleted(id, r.amount, refunded as int, status, now));
      error := None;
    }

    method FailRefund(id: Id, reason: string, now: Time) returns (error: Option<Code>)
      requires Valid()
      modifies this
      ensures Valid()
      ensures match D.FailRefund(old(Value()), id, reason, now)
              case Ok(after) => error == None && Value() == after
              case Err(code) => error == Some(code) && Value() == old(Value())
      ensures error == Some(NotFound) <==> forall r :: r in old(refunds) ==> r.id != id
      ensures error == None <==> exists r :: r in old(refunds) && r.id == id && r.status == D.RefundPending
      ensures error in {None, Some(NotFound), Some(InvalidState)}
      ensures |refunds| == |old(refunds)|
      ensures forall i :: 0 <= i < |refunds| ==>
                var r := old(refunds)[i];
                refunds[i] == if r.id != id || r.status != D.RefundPending then r
                              else r.(status := D.RefundFailed, failureReason := reason, updatedAt := now)
      ensures error != None ==> Value() == old(Value())
      ensures error == None ==>
                && status == old(status) && paidAt == old(paidAt) && gatewayTxId == old(gatewayTxId)
                && version == old(version) && updatedAt == now
                && events == old(events) + [D.RefundDeclined(id, reason, now)]
    {
      hide ById, D.Succeeded, D.Reserved, DistinctIds;
      var at := FindRefund(id);
      if at == -1 {
        return Some(NotFound);
      }
      if refunds[at].status != D.RefundPending {
        return Some(InvalidState);
      }
      var r := D.FailedRefund(refunds[at], reason, now);
      Assign(at, r);
      updatedAt := now;
      Raise(D.RefundDeclined(id, reason, now));
      error := None;
    }
  }
}
