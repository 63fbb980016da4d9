/** What a save does to the rows of one payment, in Postgres and in the in-memory repository
    (internal/adapter/outbound/postgres/payment_repo.go, db/payment.sql.go, db/refund.sql.go,
    db/payment_event.sql.go, internal/testsupport/fake/fake.go). */
module Store {
  import opened Outcomes
  import opened PaymentDomain
  import opened Timestamps

  /** A row of payments; version is its optimistic lock. */
  datatype Row = Row(
    terms: Terms, gatewayTxId: string, status: Status, paidAt: Option<Time>, updatedAt: Time, version: nat)

  datatype EventRow = EventRow(sequence: nat, event: Event)

  /** The rows of one payment: its own, its refunds, its numbered events and its outbox rows. */
  datatype Tables = Tables(row: Option<Row>, refunds: map<Id, Refund>, events: seq<EventRow>, outbox: seq<Event>)

  const NO_ROWS: Tables := Tables(None, map[], [], [])

  /** How the transaction ends: it may fail before or after it drained the aggregate's events,
      and a failed commit reply leaves open whether the commit was applied. */
  datatype Fate = Commits | FailsEarly | FailsLate | CommitReplyLost(applied: bool)

  datatype Saved = Saved(tables: Tables, aggregate: Aggregate, error: Option<Code>)

  /** A payment that still holds its PaymentInitiated event was never stored. */
  ghost predicate IsNew(a: Aggregate) {
    exists i :: 0 <= i < |a.events| && a.events[i].PaymentInitiated?
  }

  /** COALESCE(MAX(sequence_number), 0). */
  function LastSequence(events: seq<EventRow>): nat {
    if events == [] then 0
    else
      var before := LastSequence(events[..|events| - 1]);
      var last := events[|events| - 1].sequence;
      if last > before then last else before
  }

  function Numbered(last: nat, events: seq<Event>): seq<EventRow> {
    seq(|events|, i requires 0 <= i < |events| => EventRow(last + 1 + i, events[i]))
  }

  /** ON CONFLICT (id) DO UPDATE: the columns a refund upsert overwrites; the others keep the stored value. */
  function Merge(stored: Refund, incoming: Refund): Refund {
    stored.(gatewayRefundId := incoming.gatewayRefundId, status := incoming.status,
            failureReason := incoming.failureReason, updatedAt := incoming.updatedAt,
            completedAt := incoming.completedAt)
  }

  function Upserted(stored: map<Id, Refund>, incoming: map<Id, Refund>): map<Id, Refund> {
    map id | id in stored.Keys + incoming.Keys ::
      if id !in incoming then stored[id]
      else if id in stored then Merge(stored[id], incoming[id])
      else incoming[id]
  }

  /** CHECK (amount > 0) and UNIQUE (reference_id, payment_id) on refunds. */
  ghost predicate RefundConstraints(refunds: map<Id, Refund>) {
    && (forall id :: id in refunds ==> 0 < refunds[id].amount)
    && DistinctReferences(refunds)
  }

  function RowOf(s: PaymentState, version: nat): Row {
    Row(s.terms, s.gatewayTxId, s.status, s.paidAt, s.updatedAt, version)
  }

  /** The columns UpdatePaymentFull sets. */
  function UpdatedRow(row: Row, s: PaymentState): Row {
    row.(gatewayTxId := s.gatewayTxId, status := s.status, paidAt := s.paidAt, updatedAt := s.updatedAt,
         version := row.version + 1)
  }

  /** The part of the transaction after the payment row was written. */
  ghost function Write(t: Tables, a: Aggregate, row: Row, version: nat, fate: Fate): Saved {
    var refunds := Upserted(t.refunds, CutRefunds(a.state.refunds));
    if !RefundConstraints(refunds) then Saved(t, a, Some(InternalError))
    else
      var drained := a.(events := []);
      var numbered := Numbered(LastSequence(t.events), a.events);
      var written := Tables(Some(row), refunds, t.events + numbered, t.outbox + a.events);
      match fate
      case FailsEarly => Saved(t, a, Some(InternalError))
      case FailsLate => Saved(t, drained, Some(InternalError))
      case CommitReplyLost(applied) => Saved(if applied then written else t, drained, Some(InternalError))
      case Commits => Saved(written, drained.(version := version), None)
  }

  /** PaymentRepo.Save. taken: a stored payment holds this (reference_id, caller_service). Every instant is
      cut to whole microseconds on its way into a column; the events keep theirs. */
  ghost function Save(t: Tables, a: Aggregate, taken: bool, fate: Fate): Saved {
    if fate == FailsEarly then Saved(t, a, Some(InternalError))
    else if IsNew(a) then
      if taken then Saved(t, a, Some(AlreadyExists))
      else if t.row.Some? || a.state.terms.amount <= 0 then Saved(t, a, Some(InternalError))
      else Write(t, a, RowOf(CutState(a.state), 1), 1, fate)
    else if t.row.None? || t.row.value.version != a.version then Saved(t, a, Some(Conflict))
    else Write(t, a, UpdatedRow(t.row.value, CutState(a.state)), a.version + 1, fate)
  }

  function StateOf(t: Tables): PaymentState
    requires t.row.Some?
  {
    var r := t.row.value;
    PaymentState(r.terms, r.status, r.gatewayTxId, r.paidAt, r.updatedAt, t.refunds)
  }

  function LogOf(t: Tables): seq<Event> {
    seq(|t.events|, i requires 0 <= i < |t.events| => t.events[i].event)
  }

  /** Sequence numbers are 1..n and the outbox holds the same events in the same order. */
  ghost predicate WellNumbered(t: Tables) {
    && (forall i :: 0 <= i < |t.events| ==> t.events[i].sequence == i + 1)
    && t.outbox == LogOf(t)
  }

  lemma {:induction false} LastOfWellNumbered(events: seq<EventRow>)
    requires forall i :: 0 <= i < |events| ==> events[i].sequence == i + 1
    ensures LastSequence(events) == |events|
  {
    if events != [] {
      LastOfWellNumbered(events[..|events| - 1]);
    }
  }

  /** However a save ends, numbering stays contiguous and the log only ever gains exactly the
      aggregate's events, all of them or none. */
  lemma SaveNumbers(t: Tables, a: Aggregate, taken: bool, fate: Fate)
    requires WellNumbered(t)
    ensures var after := Save(t, a, taken, fate).tables;
            && WellNumbered(after)
            && (after == t || LogOf(after) == LogOf(t) + a.events)
  {
    var after := Save(t, a, taken, fate).tables;
    if after != t {
      LastOfWellNumbered(t.events);
      assert LogOf(after) == LogOf(t) + a.events;
    }
  }

  /** Only a save whose version still matches changes the tables of a stored payment. */
  lemma SaveChecksVersion(t: Tables, a: Aggregate, taken: bool, fate: Fate)
    requires !IsNew(a) && Save(t, a, taken, fate).tables != t
    ensures t.row.Some? && t.row.value.version == a.version
  {
  }

  /** What such a save leaves in the tables, if the aggregate covers the stored refunds. */
  lemma SaveWrites(t: Tables, a: Aggregate, taken: bool, fate: Fate)
    requires !IsNew(a) && Save(t, a, taken, fate).tables != t
    requires WellNumbered(t) && Covers(a.state.refunds, t.refunds)
    ensures var after := Save(t, a, taken, fate).tables;
            && t.row.Some? && after.row == Some(UpdatedRow(t.row.value, CutState(a.state)))
            && after.refunds == CutRefunds(a.state.refunds)
            && LogOf(after) == LogOf(t) + a.events
            && WellNumbered(after)
  {
    hide Cut, CutOption, CutRefunds;
    UpsertReplacesIffCovers(t.refunds, a.state.refunds);
    SaveNumbers(t, a, taken, fate);
  }

  // ---------------------------------------------------------------- the in-memory repository

  datatype Stored = Stored(state: PaymentState, version: nat)

  /** byID for one payment, and the events every save consumed, in order. */
  datatype Memory = Memory(stored: Option<Stored>, events: seq<Event>)

  datatype Remembered = Remembered(memory: Memory, aggregate: Aggregate, error: Option<Code>)

  /** fake.PaymentRepo.Save: replaces the whole payment under the same version check. */
  function Remember(m: Memory, a: Aggregate, taken: bool): Remembered {
    if m.stored.None? && taken then Remembered(m, a, Some(AlreadyExists))
    else if m.stored.Some? && m.stored.value.version != a.version then Remembered(m, a, Some(Conflict))
    else
      var version := if m.stored.None? then 1 else a.version + 1;
      Remembered(Memory(Some(Stored(a.state, version)), m.events + a.events),
                 a.(version := version, events := []), None)
  }

  /** Two refunds agree in the columns an upsert leaves alone. */
  predicate SameRequest(r: Refund, s: Refund) {
    r.id == s.id && r.referenceId == s.referenceId && r.amount == s.amount && r.reason == s.reason
    && r.requestedBy == s.requestedBy && r.createdAt == s.createdAt
  }

  /** incoming is the stored refund as far as the columns an upsert leaves alone can tell. */
  predicate KeepsRequest(incoming: Refund, stored: Refund) {
    SameRequest(incoming.(createdAt := Cut(incoming.createdAt)), stored)
  }

  /** incoming still has every stored refund, with the columns an upsert would not write unchanged. */
  ghost predicate Covers(incoming: map<Id, Refund>, stored: map<Id, Refund>) {
    forall id :: id in stored ==> id in incoming && KeepsRequest(incoming[id], stored[id])
  }

  /** Cutting the instants makes no difference to that. */
  lemma CoversCut(incoming: map<Id, Refund>, stored: map<Id, Refund>)
    ensures Covers(CutRefunds(incoming), stored) <==> Covers(incoming, stored)
    ensures Covers(incoming, CutRefunds(incoming))
  {
    forall id | id in incoming
      ensures KeepsRequest(CutRefund(incoming[id]), incoming[id].(createdAt := Cut(incoming[id].createdAt)))
    {
      CutIsNearestBelow(incoming[id].createdAt);
    }
    hide Cut, CutOption;
    if Covers(CutRefunds(incoming), stored) {
      forall id | id in stored ensures id in incoming && KeepsRequest(incoming[id], stored[id]) {
        assert id in CutRefunds(incoming);
      }
    }
  }

  /** The upsert amounts to replacing the whole refund list exactly when the aggregate covers
      what is stored: nothing deleted, no frozen column edited. */
  lemma UpsertReplacesIffCovers(stored: map<Id, Refund>, incoming: map<Id, Refund>)
    ensures Upserted(stored, CutRefunds(incoming)) == CutRefunds(incoming) <==> Covers(incoming, stored)
  {
    hide Cut, CutOption;
    var sent := CutRefunds(incoming);
    var u := Upserted(stored, sent);
    if Covers(incoming, stored) {
      forall id | id in u ensures id in sent && u[id] == sent[id] {}
      assert u.Keys == sent.Keys;
    }
    if u == sent {
      forall id | id in stored ensures id in incoming && KeepsRequest(incoming[id], stored[id]) {
        assert id in u;
      }
    }
  }

  /** What a save must bring along: it is new exactly if no row exists, and if its version still
      matches it carries the row's terms and covers its refunds. */
  ghost predicate Fits(t: Tables, a: Aggregate) {
    && (IsNew(a) <==> t.row.None?)
    && (t.row.None? ==> t.refunds == map[])
    && (t.row.Some? && t.row.value.version == a.version ==>
          CutTerms(a.state.terms) == t.row.value.terms && Covers(a.state.refunds, t.refunds))
    && 0 < a.state.terms.amount
    && (t.row.None? || t.row.value.version == a.version ==> RefundConstraints(a.state.refunds))
  }

  /** Tables and memory agree on the payment, up to what a column keeps of an instant. */
  predicate InStep(t: Tables, m: Memory) {
    && m.events == LogOf(t)
    && match m.stored
       case None => t.row.None?
       case Some(stored) =>
         t.row.Some? && t.row.value.version == stored.version && StateOf(t) == CutState(stored.state)
  }

  /** The statements of the Postgres save amount to the whole-payment replacement of the in-memory repository:
      same events, version, in-memory aggregate and error code, and the same payment up to the nanoseconds
      the columns cannot hold. */
  lemma SaveRefinesMemory(t: Tables, m: Memory, a: Aggregate, taken: bool)
    requires Fits(t, a) && InStep(t, m)
    ensures var saved, expected := Save(t, a, taken, Commits), Remember(m, a, taken);
            && InStep(saved.tables, expected.memory)
            && saved.aggregate == expected.aggregate
            && saved.error == expected.error
  {
    if IsNew(a) {
      FirstSaveRefines(t, m, a, taken);
    } else if t.row.value.version == a.version {
      LaterSaveRefines(t, m, a, taken);
    }
    hide Fits, IsNew, StateOf, LogOf, Write, CutState;
  }

  lemma FirstSaveRefines(t: Tables, m: Memory, a: Aggregate, taken: bool)
    requires Fits(t, a) && InStep(t, m) && IsNew(a)
    ensures var saved, expected := Save(t, a, taken, Commits), Remember(m, a, taken);
            && InStep(saved.tables, expected.memory)
            && saved.aggregate == expected.aggregate && saved.error == expected.error
  {
    assert Covers(a.state.refunds, t.refunds);
    hide CutTerms, CutOption, Cut, CutRefunds, Covers, RefundConstraints, IsNew, LogOf, Write;
    WriteReplaces(t, a, RowOf(CutState(a.state), 1), 1);
  }

  lemma LaterSaveRefines(t: Tables, m: Memory, a: Aggregate, taken: bool)
    requires Fits(t, a) && InStep(t, m) && !IsNew(a) && t.row.value.version == a.version
    ensures var saved, expected := Save(t, a, taken, Commits), Remember(m, a, taken);
            && InStep(saved.tables, expected.memory)
            && saved.aggregate == expected.aggregate && saved.error == expected.error
  {
    hide CutTerms, CutOption, Cut, CutRefunds, Covers, RefundConstraints, IsNew, LogOf, Write;
    WriteReplaces(t, a, UpdatedRow(t.row.value, CutState(a.state)), a.version + 1);
  }

  /** A write that brings along all refunds replaces them. */
  lemma WriteReplaces(t: Tables, a: Aggregate, row: Row, version: nat)
    requires Covers(a.state.refunds, t.refunds) && RefundConstraints(a.state.refunds)
    ensures var written := Write(t, a, row, version, Commits);
            && written.error == None && written.aggregate == Aggregate(a.state, version, [])
            && written.tables.row == Some(row) && written.tables.refunds == CutRefunds(a.state.refunds)
            && LogOf(written.tables) == LogOf(t) + a.events
  {
    hide Covers, RefundConstraints, CutRefunds, LastSequence, Upserted;
    UpsertReplacesIffCovers(t.refunds, a.state.refunds);
    CutConstraints(a.state.refunds);
    assert LogOf(Write(t, a, row, version, Commits).tables) == LogOf(t) + a.events;
  }

  lemma CutConstraints(refunds: map<Id, Refund>)
    ensures RefundConstraints(CutRefunds(refunds)) <==> RefundConstraints(refunds)
  {
    hide Cut, CutOption, DistinctReferences;
    CutSums(refunds);
    forall id | id in refunds ensures CutRefunds(refunds)[id].amount == refunds[id].amount {}
  }

  /** What is stored is the very payment that was saved if and only if all its instants are whole microseconds. */
  lemma StoredExactlyIff(t: Tables, a: Aggregate, taken: bool)
    requires Fits(t, a) && Save(t, a, taken, Commits).error == None
    ensures var after := Save(t, a, taken, Commits).tables;
            after.row.Some? && (StateOf(after) == a.state <==> WholeMicros(a.state))
  {
    UpsertReplacesIffCovers(t.refunds, a.state.refunds);
    CutUnchangedIff(a.state);
    hide Cut, CutOption, CutRefunds;
    var after := Save(t, a, taken, Commits).tables;
    assert StateOf(after) == CutState(a.state);
  }
}
