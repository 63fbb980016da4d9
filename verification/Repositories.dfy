/** The two repositories as objects: every statement of the Postgres save in order, and the in-memory
    save. Their methods are specified by Store.Save and Store.Remember
    (internal/adapter/outbound/postgres/payment_repo.go, internal/testsupport/fake/fake.go). */
module Repositories {
  import opened Outcomes
  import opened Store
  import opened Aggregate
  import opened Timestamps
  import D = PaymentDomain

  // ---------------------------------------------------------------- upserting one refund after another

  /** The refunds stored once the first i of a slice are upserted. */
  ghost function UpsertedFirst(stored: map<Id, D.Refund>, refunds: seq<D.Refund>, i: nat): map<Id, D.Refund>
    requires i <= |refunds|
  {
    Upserted(stored, ById(refunds[..i]))
  }

  function UpsertOne(refunds: map<Id, D.Refund>, r: D.Refund): map<Id, D.Refund> {
    refunds[r.id := if r.id in refunds then Merge(refunds[r.id], r) else r]
  }

  lemma UpsertNext(stored: map<Id, D.Refund>, refunds: seq<D.Refund>, i: nat)
    requires DistinctIds(refunds) && i < |refunds|
    ensures UpsertedFirst(stored, refunds, i + 1) == UpsertOne(UpsertedFirst(stored, refunds, i), refunds[i])
  {
    var before := refunds[..i];
    assert refunds[..i + 1][..i] == before && refunds[..i + 1][i] == refunds[i];
    assert refunds[i].id !in ById(before) by {
      ByIdLookup(before);
      assert forall j :: 0 <= j < i ==> before[j].id == refunds[j].id;
    }
    assert ById(refunds[..i + 1]) == ById(before)[refunds[i].id := refunds[i]];
    hide ById, DistinctIds;
    UpsertedWith(stored, ById(before), refunds[i]);
  }

  lemma UpsertedWith(stored: map<Id, D.Refund>, incoming: map<Id, D.Refund>, r: D.Refund)
    requires r.id !in incoming
    ensures Upserted(stored, incoming[r.id := r]) == UpsertOne(Upserted(stored, incoming), r)
  {
    hide Merge;
  }

  /** The CHECK and UNIQUE constraints hold of r's row once it is upserted. */
  predicate Admits(refunds: map<Id, D.Refund>, r: D.Refund) {
    var after := UpsertOne(refunds, r);
    0 < after[r.id].amount &&
    forall id :: id in after && id != r.id ==> after[id].referenceId != after[r.id].referenceId
  }

  lemma AdmitsKeeps(refunds: map<Id, D.Refund>, r: D.Refund)
    requires RefundConstraints(refunds)
    ensures Admits(refunds, r) <==> RefundConstraints(UpsertOne(refunds, r))
  {
    var after := UpsertOne(refunds, r);
    if RefundConstraints(after) {
      assert D.DistinctReferences(after);
      assert r.id in after;
    }
  }

  /** An upsert never changes a stored refund's amount or reference, so a row that violates a
      constraint half-way still does at the end. */
  lemma {:induction false} ViolationStays(stored: map<Id, D.Refund>, refunds: seq<D.Refund>, i: nat, n: nat)
    requires DistinctIds(refunds) && i <= n <= |refunds|
    requires RefundConstraints(UpsertedFirst(stored, refunds, n))
    ensures RefundConstraints(UpsertedFirst(stored, refunds, i))
    decreases n
  {
    if i < n {
      UpsertNext(stored, refunds, n - 1);
      hide UpsertedFirst, DistinctIds;
      OneLess(UpsertedFirst(stored, refunds, n - 1), refunds[n - 1]);
      ViolationStays(stored, refunds, i, n - 1);
    }
  }

  lemma OneLess(refunds: map<Id, D.Refund>, r: D.Refund)
    requires RefundConstraints(UpsertOne(refunds, r))
    ensures RefundConstraints(refunds)
  {
    var after := UpsertOne(refunds, r);
    forall id | id in refunds
      ensures id in after && after[id].amount == refunds[id].amount && after[id].referenceId == refunds[id].referenceId
    {
    }
    assert D.DistinctReferences(after);
  }

  lemma EmptyUpsert(stored: map<Id, D.Refund>, refunds: seq<D.Refund>)
    ensures UpsertedFirst(stored, refunds, 0) == stored
  {
  }

  lemma WholeUpsert(stored: map<Id, D.Refund>, refunds: seq<D.Refund>)
    ensures UpsertedFirst(stored, refunds, |refunds|) == Upserted(stored, ById(refunds))
  {
    assert refunds[..|refunds|] == refunds;
  }

  // ---------------------------------------------------------------- Postgres

  /** The parameters of the upserts. */
  function RefundParams(refunds: seq<D.Refund>): seq<D.Refund> {
    seq(|refunds|, i requires 0 <= i < |refunds| => CutRefund(refunds[i]))
  }

  lemma {:induction false} RefundParamsById(refunds: seq<D.Refund>)
    requires DistinctIds(refunds)
    ensures DistinctIds(RefundParams(refunds))
    ensures ById(RefundParams(refunds)) == CutRefunds(ById(refunds))
  {
    hide Cut, CutOption;
    if refunds != [] {
      var n := |refunds| - 1;
      RefundParamsById(refunds[..n]);
      assert RefundParams(refunds)[..n] == RefundParams(refunds[..n]);
    }
  }

  /** The upserts of one save, statement by statement; one that violates a constraint ends it. */
  method UpsertRefunds(stored: map<Id, D.Refund>, list: seq<D.Refund>)
    returns (refunds: map<Id, D.Refund>, violated: bool)
    requires DistinctIds(list) && RefundConstraints(stored)
    ensures violated <==> !RefundConstraints(Upserted(stored, ById(list)))
    ensures !violated ==> refunds == Upserted(stored, ById(list))
  {
    hide ById, DistinctIds, RefundConstraints, UpsertedFirst, UpsertOne, Admits, Upserted;
    EmptyUpsert(stored, list);
    WholeUpsert(stored, list);
    refunds := stored;
    for i := 0 to |list|
      invariant refunds == UpsertedFirst(stored, list, i) && RefundConstraints(refunds)
    {
      UpsertNext(stored, list, i);
      AdmitsKeeps(refunds, list[i]);
      if !Admits(refunds, list[i]) {
        if RefundConstraints(UpsertedFirst(stored, list, |list|)) {
          ViolationStays(stored, list, i + 1, |list|);
        }
        return refunds, true;
      }
      refunds := UpsertOne(refunds, list[i]);
    }
    violated := false;
  }

  method InsertEvents(rows: seq<EventRow>, lastSeq: nat, events: seq<D.Event>) returns (log: seq<EventRow>)
    ensures log == rows + Numbered(lastSeq, events)
  {
    log := rows;
    for i := 0 to |events|
      invariant log == rows + Numbered(lastSeq, events[..i])
    {
      log := log + [EventRow(lastSeq + i + 1, events[i])];
      assert events[..i + 1] == events[..i] + [events[i]];
    }
    assert events[..|events|] == events;
  }

  /** The row the first statement of a save writes, or why it fails. */
  ghost function RowToWrite(t: Tables, a: D.Aggregate, taken: bool): Result<Row> {
    if IsNew(a) then
      if taken then Err(AlreadyExists)
      else if t.row.Some? || a.state.terms.amount <= 0 then Err(InternalError)
      else Ok(RowOf(CutState(a.state), 1))
    else if t.row.None? || t.row.value.version != a.version then Err(Conflict)
    else Ok(UpdatedRow(t.row.value, CutState(a.state)))
  }

  lemma SaveByStatements(t: Tables, a: D.Aggregate, taken: bool, fate: Fate)
    ensures Store.Save(t, a, taken, fate) ==
              if fate == FailsEarly then Saved(t, a, Some(InternalError))
              else match RowToWrite(t, a, taken)
                case Err(code) => Saved(t, a, Some(code))
                case Ok(row) => Write(t, a, row, row.version, fate)
  {
    hide RefundConstraints, Upserted, Numbered, LastSequence, CutState, CutRefunds;
  }

  /** The rows of every payment, by payment id. */
  class PostgresRepo {
    var payments: map<Id, Tables>

    constructor ()
      ensures payments == map[]
    {
      payments := map[];
    }

    function At(id: Id): Tables
      reads this
    {
      if id in payments then payments[id] else NO_ROWS
    }

    /** UNIQUE (reference_id, caller_service). */
    predicate Taken(referenceId: string, callerService: string)
      reads this
    {
      exists id :: id in payments && payments[id].row.Some?
        && payments[id].row.value.terms.referenceId == referenceId
        && payments[id].row.value.terms.callerService == callerService
    }

    /** The transaction works on tx and becomes visible at the commit; an early return rolls it back. */
    method Save(p: Payment, fate: Fate) returns (error: Option<Code>)
      requires p.Valid() && RefundConstraints(At(p.terms.paymentId).refunds)
      modifies this, p
      ensures p.Valid()
      ensures var id, a := p.terms.paymentId, old(p.Value());
              var saved := Store.Save(old(At(id)), a, old(Taken(p.terms.referenceId, p.terms.callerService)), fate);
              && error == saved.error
              && p.Value() == saved.aggregate
              && At(id) == saved.tables
              && (forall other :: other != id ==> At(other) == old(At(other)))
              && RefundConstraints(At(id).refunds)
    {
      var id := p.terms.paymentId;
      var stored := At(id);
      ghost var a := p.Value();
      hide ById, DistinctIds, D.WithinAmount, RefundConstraints;
      if fate == FailsEarly {
        return Some(InternalError);
      }
      SaveByStatements(stored, a, Taken(p.terms.referenceId, p.terms.callerService), fate);
      hide Store.Save, Write, CutState;
      var row := PersistRow(p);
      if row.Err? {
        return Some(row.code);
      }
      hide RowToWrite;
      var written;
      written, error := PersistRest(p, stored, row.value, fate);
      payments := payments[id := written];
    }

    /** The refunds, the events and the commit; written is what the transaction leaves visible. */
    method PersistRest(p: Payment, stored: Tables, row: Row, fate: Fate) returns (written: Tables, error: Option<Code>)
      requires p.Valid() && RefundConstraints(stored.refunds) && fate != FailsEarly
      modifies p
      ensures p.Valid() && RefundConstraints(written.refunds)
      ensures Saved(written, p.Value(), error) == Write(stored, old(p.Value()), row, row.version, fate)
    {
      hide ById, DistinctIds, D.WithinAmount, RefundConstraints, Upserted, LastSequence, Numbered, CutRefunds,
           RefundParams;
      RefundParamsById(p.refunds);
      var refunds, violated := UpsertRefunds(stored.refunds, RefundParams(p.refunds));
      if violated {
        return stored, Some(InternalError);
      }
      var lastSeq := LastSequence(stored.events);
      var events := p.PopEvents();
      if fate == FailsLate {
        return stored, Some(InternalError);
      }
      var log := InsertEvents(stored.events, lastSeq, events);
      if fate == CommitReplyLost(false) {
        return stored, Some(InternalError);
      }
      written := Tables(Some(row), refunds, log, stored.outbox + events);
      if fate == CommitReplyLost(true) {
        return written, Some(InternalError);
      }
      p.version := row.version; // 1, or one more than before
      error := None;
    }

    /** Inserts a payment that was never stored, or updates the row it was loaded from. */
    method PersistRow(p: Payment) returns (row: Result<Row>)
      requires p.Valid()
      ensures row == RowToWrite(At(p.terms.paymentId), p.Value(), Taken(p.terms.referenceId, p.terms.callerService))
      ensures var stored, unsaved := At(p.terms.paymentId).row, exists e :: e in p.events && e.PaymentInitiated?;
              && (unsaved && Taken(p.terms.referenceId, p.terms.callerService) ==> row == Err(AlreadyExists))
              && (!unsaved && (stored.None? || stored.value.version != p.version) ==> row == Err(Conflict))
              && (row.Ok? ==> if unsaved then stored.None? && row.value.version == 1
                              else stored.Some? && row.value.version == stored.value.version + 1)
    {
      var stored := At(p.terms.paymentId);
      if exists i :: 0 <= i < |p.events| && p.events[i].PaymentInitiated? {
        if Taken(p.terms.referenceId, p.terms.callerService) {
          return Err(AlreadyExists);
        }
        if stored.row.Some? || p.terms.amount <= 0 {
          return Err(InternalError);
        }
        return Ok(RowOf(CutState(p.Value().state), 1));
      }
      if stored.row.None? || stored.row.value.version != p.version {
        return Err(Conflict);
      }
      row := Ok(UpdatedRow(stored.row.value, CutState(p.Value().state)));
    }
  }

  // ---------------------------------------------------------------- in memory

  class MemoryRepo {
    var byId: map<Id, Stored>
    var events: seq<D.Event>

    constructor ()
      ensures byId == map[] && events == []
    {
      byId, events := map[], [];
    }

    ghost function At(id: Id): Memory
      reads this
    {
      Memory(if id in byId then Some(byId[id]) else None, events)
    }

    predicate Taken(referenceId: string, callerService: string)
      reads this
    {
      exists id :: id in byId && byId[id].state.terms.referenceId == referenceId
        && byId[id].state.terms.callerService == callerService
    }

    /** Stores a copy of the whole payment. */
    method Save(p: Payment) returns (error: Option<Code>)
      requires p.Valid()
      modifies this, p
      ensures p.Valid()
      ensures var id, a := p.terms.paymentId, old(p.Value());
              var r := Remember(old(At(id)), a, old(Taken(p.terms.referenceId, p.terms.callerService)));
              && error == r.error
              && p.Value() == r.aggregate
              && At(id) == r.memory
              && (forall other :: other != id ==> At(other).stored == old(At(other).stored))
    {
      hide ById, DistinctIds, D.WithinAmount;
      var id := p.terms.paymentId;
      if id !in byId {
        if Taken(p.terms.referenceId, p.terms.callerService) {
          return Some(AlreadyExists);
        }
        p.version := 1;
      } else if byId[id].version != p.version {
        return Some(Conflict);
      } else {
        p.version := p.version + 1;
      }
      var popped := p.PopEvents();
      events := events + popped;
      byId := byId[id := Stored(p.Value().state, p.version)];
      error := None;
    }
  }
}
