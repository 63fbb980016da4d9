/** The transactional outbox and any number of workers publishing from it
    (internal/adapter/outbound/postgres/outbox_worker.go, db/outbox.sql.go). A worker claims rows with
    SKIP LOCKED, publishes and marks them inside one transaction, and commits or rolls back. */
module Outbox {
  import opened Outcomes

  datatype RowStatus = RowPending | RowPublished | RowFailed

  /** Times are in seconds. */
  datatype OutboxRow = OutboxRow(status: RowStatus, retryCount: nat, scheduledAt: Time)

  const MAX_FAILURES: nat := 6

  /** markOutboxEventFailed; now is the start of the transaction, as NOW() is. */
  function MarkFailed(r: OutboxRow, now: Time): OutboxRow {
    OutboxRow(if r.retryCount >= 5 then RowFailed else RowPending, r.retryCount + 1, now + (r.retryCount + 1) * 30)
  }

  /** markOutboxEventPublished. */
  function MarkPublished(r: OutboxRow): OutboxRow {
    r.(status := RowPublished)
  }

  predicate Due(r: OutboxRow, now: Time) {
    r.status == RowPending && r.scheduledAt <= now
  }

  /** How a publish ends. Publish waits ten seconds for the broker's confirm: without it, it returns an
      error although the broker may have the message. */
  datatype Sending = Acknowledged | ConfirmLost | NotDelivered

  /** What one batch writes for a row: whether its publish was acknowledged decides. */
  function Marked(r: OutboxRow, sending: Sending, now: Time): OutboxRow {
    if sending.Acknowledged? then MarkPublished(r) else MarkFailed(r, now)
  }

  // ---------------------------------------------------------------- one worker, in place

  /** How a batch's transaction ends: the worker may stop after some publishes (whether it still marked the
      last of them makes no difference), or lose the commit's reply. */
  datatype BatchFate = Completes | StopsAfter(publishes: nat) | CommitReplyLost(applied: bool)

  /** The messages the broker received of these publishes. */
  function Received(batch: seq<Id>, sendings: seq<Sending>): seq<Id>
    requires |batch| == |sendings|
  {
    if batch == [] then []
    else
      var n := |batch| - 1;
      Received(batch[..n], sendings[..n]) + (if sendings[n].NotDelivered? then [] else [batch[n]])
  }

  lemma ReceivedNext(batch: seq<Id>, sendings: seq<Sending>, i: nat)
    requires |batch| == |sendings| && i < |batch|
    ensures Received(batch[..i + 1], sendings[..i + 1])
            == Received(batch[..i], sendings[..i]) + (if sendings[i].NotDelivered? then [] else [batch[i]])
  {
    assert batch[..i + 1][..i] == batch[..i] && sendings[..i + 1][..i] == sendings[..i];
  }

  class Table {
    var rows: map<Id, OutboxRow>
    var broker: seq<Id>

    constructor ()
      ensures rows == map[] && broker == []
    {
      rows, broker := map[], [];
    }

    /** Sends one message. */
    method Publish(id: Id, sending: Sending) returns (error: bool)
      modifies this`broker
      ensures error == !sending.Acknowledged?
      ensures broker == old(broker) + (if sending.NotDelivered? then [] else [id])
    {
      if !sending.NotDelivered? {
        broker := broker + [id];
      }
      error := !sending.Acknowledged?;
    }

    /** RunOnce on a claimed batch. The rows change all together at the commit or, if the worker stops
        before it, not at all; what the broker has received, it keeps. */
    method RunOnce(batch: seq<Id>, sendings: seq<Sending>, now: Time, fate: BatchFate)
      requires |sendings| == |batch| && (fate.StopsAfter? ==> fate.publishes <= |batch|)
      requires forall i :: 0 <= i < |batch| ==> batch[i] in rows && Due(rows[batch[i]], now)
      requires forall i, j :: 0 <= i < j < |batch| ==> batch[i] != batch[j]
      modifies this
      ensures rows.Keys == old(rows).Keys
      ensures forall id :: id in rows && id !in batch ==> rows[id] == old(rows)[id]
      ensures fate.Completes? || fate == CommitReplyLost(true) ==>
                forall i :: 0 <= i < |batch| ==> rows[batch[i]] == Marked(old(rows)[batch[i]], sendings[i], now)
      ensures fate == CommitReplyLost(false) || fate.StopsAfter? ==> rows == old(rows)
      ensures var n := if fate.StopsAfter? then fate.publishes else |batch|;
              broker == old(broker) + Received(batch[..n], sendings[..n])
    {
      hide Received, Due, MarkPublished, MarkFailed;
      var tx := rows;
      assert Received(batch[..0], sendings[..0]) == [] by { ReceivedNothing(); }
      for i := 0 to |batch|
        invariant tx.Keys == rows.Keys && rows == old(rows)
        invariant forall id :: id in tx && id !in batch[..i] ==> tx[id] == rows[id]
        invariant forall j :: 0 <= j < i ==> tx[batch[j]] == Marked(rows[batch[j]], sendings[j], now)
        invariant fate.StopsAfter? ==> i <= fate.publishes
        invariant broker == old(broker) + Received(batch[..i], sendings[..i])
      {
        if fate.StopsAfter? && i == fate.publishes {
          return;
        }
        ReceivedNext(batch, sendings, i);
        var error := Publish(batch[i], sendings[i]);
        var row := tx[batch[i]];
        tx := tx[batch[i] := if error then MarkFailed(row, now) else MarkPublished(row)];
        assert batch[..i + 1] == batch[..i] + [batch[i]];
      }
      assert batch[..|batch|] == batch && sendings[..|batch|] == sendings;
      if fate == CommitReplyLost(false) || fate.StopsAfter? {
        return;
      }
      rows := tx;
    }
  }

  lemma ReceivedNothing()
    ensures Received([], []) == []
  {
  }

  // ---------------------------------------------------------------- many workers

  /** An open transaction: rows still to publish (in any order), rows marked so far, whose message the
      broker received, and whose publish was acknowledged. */
  datatype Batch = Batch(start: Time, todo: set<Id>, marked: map<Id, OutboxRow>, received: set<Id>, acked: set<Id>)

  /** The history of one row: deliveries, acknowledged ones, those whose transaction rolled back, those whose
      batch committed the publish as failed, and the starts of the committed batches in which it failed. */
  datatype Past = Past(delivered: nat, acks: nat, undone: nat, silent: nat, failures: seq<Time>)

  datatype State = State(rows: map<Id, OutboxRow>, open: map<nat, Batch>, past: map<Id, Past>)

  const EMPTY: State := State(map[], map[], map[])

  datatype Step =
    | Insert(id: Id, now: Time)
    | Claim(worker: nat, batch: set<Id>, now: Time)
    | Publish(worker: nat, id: Id, sending: Sending)
    | Commit(worker: nat)
    | Rollback(worker: nat)
    | Straggle(id: Id, sending: Sending)

  function Claimed(b: Batch): set<Id> {
    b.todo + b.marked.Keys
  }

  /** FOR UPDATE SKIP LOCKED: no open transaction holds the row. */
  predicate Unlocked(s: State, id: Id) {
    forall worker :: worker in s.open ==> id !in Claimed(s.open[worker])
  }

  predicate Enabled(s: State, step: Step) {
    match step
    case Insert(id, _) => id !in s.rows
    case Claim(worker, batch, now) =>
      && worker !in s.open
      && (forall id :: id in batch ==> id in s.rows && Due(s.rows[id], now) && Unlocked(s, id))
    case Publish(worker, id, _) => worker in s.open && id in s.open[worker].todo && id in s.rows
    case Commit(worker) => worker in s.open && s.open[worker].todo == {}
    case Rollback(worker) => worker in s.open
    case Straggle(id, _) => id in s.rows
  }

  function AfterSending(p: Past, sending: Sending): Past {
    match sending
    case Acknowledged => p.(delivered := p.delivered + 1, acks := p.acks + 1)
    case ConfirmLost => p.(delivered := p.delivered + 1)
    case NotDelivered => p
  }

  function AfterCommit(p: Past, b: Batch, id: Id): Past {
    if id !in b.marked || id in b.acked then p
    else p.(silent := if id in b.received then p.silent + 1 else p.silent, failures := p.failures + [b.start])
  }

  function AfterRollback(p: Past, b: Batch, id: Id): Past {
    if id in b.received then p.(undone := p.undone + 1) else p
  }

  /** A worker whose transaction the database has already rolled back sends one more row before it learns
      of it by failing to mark the row. */
  function AfterStraggling(p: Past, sending: Sending): Past {
    var sent := AfterSending(p, sending);
    if sending.NotDelivered? then sent else sent.(undone := sent.undone + 1)
  }

  function Sent(b: Batch, r: OutboxRow, id: Id, sending: Sending): Batch {
    Batch(b.start, b.todo - {id}, b.marked[id := Marked(r, sending, b.start)],
          if sending.NotDelivered? then b.received else b.received + {id},
          if sending.Acknowledged? then b.acked + {id} else b.acked)
  }

  function Do(s: State, step: Step): State
    requires Enabled(s, step)
  {
    match step
    case Insert(id, now) =>
      State(s.rows[id := OutboxRow(RowPending, 0, now)], s.open, s.past[id := Past(0, 0, 0, 0, [])])
    case Claim(worker, batch, now) => s.(open := s.open[worker := Batch(now, batch, map[], {}, {})])
    case Publish(worker, id, sending) =>
      s.(open := s.open[worker := Sent(s.open[worker], s.rows[id], id, sending)],
         past := map other | other in s.past ::
                   if other == id then AfterSending(s.past[id], sending) else s.past[other])
    case Commit(worker) =>
      var b := s.open[worker];
      State(map id | id in s.rows :: if id in b.marked then b.marked[id] else s.rows[id],
            s.open - {worker},
            map id | id in s.past :: AfterCommit(s.past[id], b, id))
    case Rollback(worker) =>
      s.(open := s.open - {worker}, past := map id | id in s.past :: AfterRollback(s.past[id], s.open[worker], id))
    case Straggle(id, sending) =>
      s.(past := map other | other in s.past ::
                   if other == id then AfterStraggling(s.past[id], sending) else s.past[other])
  }

  ghost predicate Init(s: State) {
    s == EMPTY
  }

  /** A row's retry count is the number of batches in which its publish failed, each of which started
      no earlier than the backoff after the one before allowed. */
  ghost predicate RowSound(r: OutboxRow, failures: seq<Time>) {
    && r.retryCount == |failures| <= MAX_FAILURES
    && (r.status == RowFailed <==> r.retryCount == MAX_FAILURES)
    && (forall k :: 0 < k < |failures| ==> failures[k - 1] + k * 30 <= failures[k])
    && (failures != [] ==> r.scheduledAt == failures[|failures| - 1] + |failures| * 30)
  }

  ghost predicate BatchSound(s: State, b: Batch) {
    && (forall id :: id in Claimed(b) ==> id in s.rows && Due(s.rows[id], b.start))
    && b.todo !! b.marked.Keys
    && b.acked <= b.received <= b.marked.Keys
    && (forall id :: id in b.marked ==>
          b.marked[id] == if id in b.acked then MarkPublished(s.rows[id]) else MarkFailed(s.rows[id], b.start))
  }

  /** An open batch has sent the row and the broker received it; or it has acknowledged it. */
  ghost predicate ReceivedOpen(open: map<nat, Batch>, id: Id) {
    exists worker :: worker in open && id in open[worker].received
  }

  ghost predicate AckOpen(open: map<nat, Batch>, id: Id) {
    exists worker :: worker in open && id in open[worker].acked
  }

  /** Where every delivery of a row went: its batch rolled back, committed it as failed, committed it as
      published, or is still open. */
  predicate CountsSound(p: Past, published: bool, receivedOpen: bool, ackOpen: bool) {
    && p.delivered == p.undone + p.silent + (if published || receivedOpen then 1 else 0)
    && p.acks <= p.undone + (if published || ackOpen then 1 else 0)
    && (published || ackOpen ==> p.acks >= 1)
    && p.silent <= |p.failures|
  }

  ghost predicate Kept(s: State, id: Id)
    requires id in s.rows && id in s.past
  {
    && RowSound(s.rows[id], s.past[id].failures)
    && CountsSound(s.past[id], s.rows[id].status == RowPublished, ReceivedOpen(s.open, id), AckOpen(s.open, id))
  }

  ghost predicate Disjoint(open: map<nat, Batch>) {
    forall v, w :: v in open && w in open && v != w ==> Claimed(open[v]) !! Claimed(open[w])
  }

  ghost predicate Inv(s: State) {
    && s.past.Keys == s.rows.Keys
    && (forall id :: id in s.rows ==> Kept(s, id))
    && (forall worker :: worker in s.open ==> BatchSound(s, s.open[worker]))
    && Disjoint(s.open)
  }

  // ---------------------------------------------------------------- every step keeps it

  lemma MarkSound(r: OutboxRow, failures: seq<Time>, start: Time)
    requires RowSound(r, failures) && Due(r, start)
    ensures RowSound(MarkFailed(r, start), failures + [start])
    ensures RowSound(MarkPublished(r), failures)
  {
  }

  /** A batch over rows that did not change. */
  lemma BatchStays(s: State, t: State, b: Batch)
    requires BatchSound(s, b)
    requires forall id :: id in Claimed(b) ==> id in t.rows && t.rows[id] == s.rows[id]
    ensures BatchSound(t, b)
  {
  }

  /** A batch only holds rows that exist. */
  lemma BatchKnows(s: State, b: Batch, id: Id)
    requires BatchSound(s, b) && id !in s.rows
    ensures id !in b.received && forall other :: other in Claimed(b) ==> other in s.rows && other != id
  {
  }

  lemma InsertKeeps(s: State, id: Id, now: Time)
    requires Inv(s) && Enabled(s, Insert(id, now))
    ensures Inv(Do(s, Insert(id, now)))
  {
    hide BatchSound, Claimed, RowSound, AckOpen, ReceivedOpen, CountsSound, Disjoint;
    var t := Do(s, Insert(id, now));
    forall worker | worker in t.open ensures BatchSound(t, t.open[worker]) && id !in t.open[worker].received {
      BatchKnows(s, s.open[worker], id);
      BatchStays(s, t, s.open[worker]);
    }
    NewRowKept(t, id, now);
    forall other | other in t.rows && other != id ensures Kept(t, other) {
      assert Kept(s, other);
    }
  }

  lemma NewRowKept(s: State, id: Id, now: Time)
    requires forall worker :: worker in s.open ==> BatchSound(s, s.open[worker]) && id !in s.open[worker].received
    requires id in s.rows && s.rows[id] == OutboxRow(RowPending, 0, now)
    requires id in s.past && s.past[id] == Past(0, 0, 0, 0, [])
    ensures Kept(s, id)
  {
    hide Claimed, Due;
  }

  lemma ClaimKeeps(s: State, worker: nat, batch: set<Id>, now: Time)
    requires Inv(s) && Enabled(s, Claim(worker, batch, now))
    ensures Inv(Do(s, Claim(worker, batch, now)))
  {
    hide RowSound, Due, AckOpen, ReceivedOpen, CountsSound, Claimed, BatchSound, Disjoint;
    var t := Do(s, Claim(worker, batch, now));
    ClaimedBatch(s, worker, batch, now);
    forall other | other in t.open && other != worker ensures BatchSound(t, t.open[other]) {
      BatchStays(s, t, s.open[other]);
    }
    forall id | id in t.rows ensures Kept(t, id) {
      assert Kept(s, id);
      OpenStays(s.open, worker, t.open[worker], id);
    }
  }

  lemma ClaimedBatch(s: State, worker: nat, batch: set<Id>, now: Time)
    requires Inv(s) && Enabled(s, Claim(worker, batch, now))
    ensures var t := Do(s, Claim(worker, batch, now)); BatchSound(t, t.open[worker]) && Disjoint(t.open)
    ensures forall other :: other in s.open ==> forall id :: id in Claimed(s.open[other]) ==> id in s.rows
  {
    hide Due, Kept;
    forall other | other in s.open ensures forall id :: id in Claimed(s.open[other]) ==> id in s.rows {
      assert BatchSound(s, s.open[other]);
    }
  }

  /** A new batch has sent nothing yet. */
  lemma OpenStays(before: map<nat, Batch>, worker: nat, b: Batch, id: Id)
    requires worker !in before && b.acked == {} && b.received == {}
    ensures AckOpen(before[worker := b], id) == AckOpen(before, id)
    ensures ReceivedOpen(before[worker := b], id) == ReceivedOpen(before, id)
  {
    var after := before[worker := b];
    if v :| v in before && id in before[v].acked {
      assert after[v] == before[v];
    }
    if v :| v in before && id in before[v].received {
      assert after[v] == before[v];
    }
  }

  lemma SentSound(s: State, t: State, b: Batch, id: Id, sending: Sending)
    requires BatchSound(s, b) && id in b.todo && id in s.rows && t.rows == s.rows
    ensures Claimed(Sent(b, s.rows[id], id, sending)) == Claimed(b)
    ensures BatchSound(t, Sent(b, s.rows[id], id, sending))
  {
    hide Due, MarkFailed, MarkPublished;
  }

  lemma PublishKeeps(s: State, worker: nat, id: Id, sending: Sending)
    requires Inv(s) && Enabled(s, Publish(worker, id, sending))
    ensures Inv(Do(s, Publish(worker, id, sending)))
  {
    hide RowSound, Claimed, Sent, CountsSound, AckOpen, ReceivedOpen, AfterSending, BatchSound;
    var t := Do(s, Publish(worker, id, sending));
    SentSound(s, t, s.open[worker], id, sending);
    forall other | other in t.open && other != worker ensures BatchSound(t, t.open[other]) {
      SameRows(s, t, s.open[other]);
    }
    forall other | other in t.rows ensures Kept(t, other) {
      PublishCounts(s, worker, id, sending, other);
    }
  }

  lemma SameRows(s: State, t: State, b: Batch)
    requires BatchSound(s, b) && t.rows == s.rows
    ensures BatchSound(t, b)
  {
  }

  /** A publish changes at most its own row's counts. */
  lemma PublishCounts(s: State, worker: nat, id: Id, sending: Sending, other: Id)
    requires Inv(s) && Enabled(s, Publish(worker, id, sending)) && other in s.rows
    ensures var t := Do(s, Publish(worker, id, sending)); other in t.past && Kept(t, other)
  {
    hide RowSound, Sent, BatchSound, Claimed, ReceivedOpen, AckOpen, Disjoint;
    assert Kept(s, other);
    NothingSentYet(s, worker, id);
    OpenAfterSending(s.open, worker, s.rows[id], id, sending, other);
  }

  lemma OpenAfterSending(open: map<nat, Batch>, worker: nat, r: OutboxRow, id: Id, sending: Sending, other: Id)
    requires worker in open
    ensures var after := open[worker := Sent(open[worker], r, id, sending)];
            && (AckOpen(after, other) <==> AckOpen(open, other) || (other == id && sending.Acknowledged?))
            && (ReceivedOpen(after, other) <==> ReceivedOpen(open, other) || (other == id && !sending.NotDelivered?))
  {
    hide Marked;
    var after := open[worker := Sent(open[worker], r, id, sending)];
    forall v | v in open ensures open[v].acked <= after[v].acked && open[v].received <= after[v].received {}
    if v :| v in open && other in open[v].acked {
      assert other in after[v].acked;
    }
    if v :| v in open && other in open[v].received {
      assert other in after[v].received;
    }
    if v :| v in after && other in after[v].acked {
      assert other in open[v].acked || (other == id && sending.Acknowledged?);
    }
    if v :| v in after && other in after[v].received {
      assert other in open[v].received || (other == id && !sending.NotDelivered?);
    }
    if sending.Acknowledged? {
      assert id in after[worker].acked;
    }
    if !sending.NotDelivered? {
      assert id in after[worker].received;
    }
  }

  /** The next row to publish is pending, and no open batch has sent it. */
  lemma NothingSentYet(s: State, worker: nat, id: Id)
    requires Inv(s) && worker in s.open && id in s.open[worker].todo
    ensures !ReceivedOpen(s.open, id) && !AckOpen(s.open, id) && id in s.rows && s.rows[id].status == RowPending
  {
    hide Kept, MarkFailed, MarkPublished;
    assert BatchSound(s, s.open[worker]) && id in Claimed(s.open[worker]);
    forall v | v in s.open ensures id !in s.open[v].received && id !in s.open[v].acked {
      assert BatchSound(s, s.open[v]);
      if v != worker {
        assert Claimed(s.open[v]) !! Claimed(s.open[worker]);
      }
    }
  }

  /** The batches that stay open when one ends. */
  lemma OthersStay(s: State, t: State, worker: nat)
    requires Inv(s) && worker in s.open && t.open == s.open - {worker} && t.rows.Keys == s.rows.Keys
    requires forall id :: id in s.rows && id !in s.open[worker].marked ==> t.rows[id] == s.rows[id]
    ensures forall other :: other in t.open ==> BatchSound(t, t.open[other])
    ensures Disjoint(t.open)
  {
    hide Kept, MarkFailed, MarkPublished;
    forall other | other in t.open ensures BatchSound(t, t.open[other]) {
      assert BatchSound(s, s.open[other]);
      assert Claimed(s.open[other]) !! Claimed(s.open[worker]);
      BatchStays(s, t, s.open[other]);
    }
  }

  lemma CommitKeeps(s: State, worker: nat)
    requires Inv(s) && Enabled(s, Commit(worker))
    ensures Inv(Do(s, Commit(worker)))
  {
    hide RowSound, BatchSound, Claimed, AckOpen, ReceivedOpen, CountsSound, Disjoint, AfterCommit, Kept;
    var t := Do(s, Commit(worker));
    OthersStay(s, t, worker);
    forall id | id in t.rows ensures Kept(t, id) {
      CommitKeepsRow(s, t, worker, id);
    }
  }

  lemma CommitKeepsRow(s: State, t: State, worker: nat, id: Id)
    requires Inv(s) && worker in s.open && t.open == s.open - {worker} && id in s.rows && id in t.rows && id in t.past
    requires var b := s.open[worker];
             && t.rows[id] == (if id in b.marked then b.marked[id] else s.rows[id])
             && t.past[id] == AfterCommit(s.past[id], b, id)
    ensures Kept(t, id)
  {
    hide RowSound, BatchSound, AckOpen, ReceivedOpen, Disjoint;
    assert Kept(s, id);
    ClosingBatch(s, t, worker, id);
    if id in s.open[worker].marked {
      MarkSound(s.rows[id], s.past[id].failures, s.open[worker].start);
    }
  }

  lemma RollbackKeeps(s: State, worker: nat)
    requires Inv(s) && Enabled(s, Rollback(worker))
    ensures Inv(Do(s, Rollback(worker)))
  {
    hide RowSound, BatchSound, Claimed, AckOpen, ReceivedOpen, Disjoint;
    var t := Do(s, Rollback(worker));
    OthersStay(s, t, worker);
    forall id | id in t.rows ensures Kept(t, id) {
      assert Kept(s, id);
      ClosingBatch(s, t, worker, id);
    }
  }

  /** Closing a batch takes its own deliveries out of the open ones, and no other's. */
  lemma ClosingBatch(s: State, t: State, worker: nat, id: Id)
    requires Inv(s) && worker in s.open && t.open == s.open - {worker} && id in s.rows
    ensures var b := s.open[worker];
            && b.acked <= b.received <= b.marked.Keys
            && (AckOpen(s.open, id) <==> AckOpen(t.open, id) || id in b.acked)
            && (ReceivedOpen(s.open, id) <==> ReceivedOpen(t.open, id) || id in b.received)
            && (id in b.received ==> !ReceivedOpen(t.open, id) && !AckOpen(t.open, id))
            && (id in b.marked ==>
                  && s.rows[id].status == RowPending && Due(s.rows[id], b.start)
                  && b.marked[id]
                     == if id in b.acked then MarkPublished(s.rows[id]) else MarkFailed(s.rows[id], b.start))
  {
    hide Kept, MarkFailed, MarkPublished;
    var b := s.open[worker];
    assert BatchSound(s, b);
    if id in b.marked {
      assert id in Claimed(b);
    }
    forall v | v in t.open && id in b.received ensures id !in t.open[v].received && id !in t.open[v].acked {
      assert BatchSound(s, s.open[v]) && Claimed(s.open[v]) !! Claimed(b);
    }
    OpenSplits(s.open, t.open, worker, id);
  }

  lemma OpenSplits(open: map<nat, Batch>, rest: map<nat, Batch>, worker: nat, id: Id)
    requires worker in open && rest == open - {worker}
    ensures AckOpen(open, id) <==> AckOpen(rest, id) || id in open[worker].acked
    ensures ReceivedOpen(open, id) <==> ReceivedOpen(rest, id) || id in open[worker].received
  {
    if v :| v in open && id in open[v].acked && v != worker {
      assert v in rest && id in rest[v].acked;
    }
    if v :| v in open && id in open[v].received && v != worker {
      assert v in rest && id in rest[v].received;
    }
    if v :| v in rest && id in rest[v].acked {
      assert id in open[v].acked;
    }
    if v :| v in rest && id in rest[v].received {
      assert id in open[v].received;
    }
  }

  lemma StraggleKeeps(s: State, id: Id, sending: Sending)
    requires Inv(s) && Enabled(s, Straggle(id, sending))
    ensures Inv(Do(s, Straggle(id, sending)))
  {
    hide RowSound, BatchSound, Claimed, AckOpen, ReceivedOpen, Disjoint;
    var t := Do(s, Straggle(id, sending));
    forall worker | worker in t.open ensures BatchSound(t, t.open[worker]) {
      SameRows(s, t, s.open[worker]);
    }
    forall other | other in t.rows ensures Kept(t, other) {
      assert Kept(s, other);
    }
  }

  lemma StepKeeps(s: State, step: Step)
    requires Inv(s) && Enabled(s, step)
    ensures Inv(Do(s, step))
  {
    hide Inv;
    match step {
      case Insert(id, now) => InsertKeeps(s, id, now);
      case Claim(worker, batch, now) => ClaimKeeps(s, worker, batch, now);
      case Publish(worker, id, sending) => PublishKeeps(s, worker, id, sending);
      case Commit(worker) => CommitKeeps(s, worker);
      case Rollback(worker) => RollbackKeeps(s, worker);
      case Straggle(id, sending) => StraggleKeeps(s, id, sending);
    }
  }

  ghost predicate Behaviour(states: seq<State>, steps: seq<Step>) {
    && |states| == |steps| + 1 && Init(states[0])
    && forall i :: 0 <= i < |steps| ==> Enabled(states[i], steps[i]) && states[i + 1] == Do(states[i], steps[i])
  }

  lemma {:induction false} BehaviourSound(states: seq<State>, steps: seq<Step>, n: nat)
    requires Behaviour(states, steps) && n < |states|
    ensures Inv(states[n])
  {
    hide Enabled, Do;
    if n > 0 {
      BehaviourSound(states, steps, n - 1);
      hide Inv;
      StepKeeps(states[n - 1], steps[n - 1]);
    }
  }

  /** With any number of workers, crashes, rollbacks and lost confirms: a row is PUBLISHED only after an
      acknowledged publish, and beyond one delivery every other belongs to a batch that rolled back or
      that committed the publish as failed because its confirm was lost. Without rollbacks that is at most
      six deliveries, and one acknowledged publish. */
  lemma PublishedOnlyAcknowledged(states: seq<State>, steps: seq<Step>, n: nat, id: Id)
    requires Behaviour(states, steps) && n < |states| && id in states[n].rows
    ensures id in states[n].past
    ensures var p := states[n].past[id];
            && (states[n].rows[id].status == RowPublished ==> p.acks >= 1)
            && p.acks <= p.undone + 1
            && p.undone + p.silent <= p.delivered <= p.undone + p.silent + 1
            && p.silent <= |p.failures|
            && p.delivered <= p.undone + MAX_FAILURES
  {
    hide Enabled, Do;
    BehaviourSound(states, steps, n);
    var s := states[n];
    assert Kept(s, id);
    if worker :| worker in s.open && id in s.open[worker].received {
      assert BatchSound(s, s.open[worker]) && id in Claimed(s.open[worker]);
    }
  }

  /** A publish inside its transaction can deliver a message the broker already has if and only if an earlier
      delivery of it was rolled back or committed as a failure. */
  lemma RepeatsIff(states: seq<State>, steps: seq<Step>, n: nat, worker: nat, id: Id, sending: Sending)
    requires Behaviour(states, steps) && n < |states| && Enabled(states[n], Publish(worker, id, sending))
    ensures id in states[n].past
    ensures var p, after := states[n].past[id], Do(states[n], Publish(worker, id, sending)).past;
            && (p.delivered >= 1 <==> p.undone >= 1 || p.silent >= 1)
            && id in after && after[id].delivered == p.delivered + (if sending.NotDelivered? then 0 else 1)
  {
    BehaviourSound(states, steps, n);
    NothingSentYet(states[n], worker, id);
    assert Kept(states[n], id);
  }

  function Alone(id: Id, row: OutboxRow, p: Past): State {
    State(map[id := row], map[], map[id := p])
  }

  function Rounds(id: Id, at: Time, sending: Sending): seq<Step> {
    [Claim(0, {id}, at), Publish(0, id, sending), Commit(0)]
  }

  /** A worker claims the only row, publishes it, with or without a confirm, and commits. */
  lemma Round(id: Id, row: OutboxRow, p: Past, at: Time, sending: Sending) returns (claimed: State, published: State)
    requires Due(row, at) && !sending.NotDelivered?
    ensures var s, steps := Alone(id, row, p), Rounds(id, at, sending);
            && Enabled(s, steps[0]) && claimed == Do(s, steps[0])
            && Enabled(claimed, steps[1]) && published == Do(claimed, steps[1])
            && Enabled(published, steps[2])
            && Do(published, steps[2])
               == if sending.Acknowledged? then Alone(id, MarkPublished(row), AfterSending(p, sending))
                  else Alone(id, MarkFailed(row, at),
                      Past(p.delivered + 1, p.acks, p.undone, p.silent + 1, p.failures + [at]))
  {
    hide MarkPublished, MarkFailed;
    var s, steps := Alone(id, row, p), Rounds(id, at, sending);
    claimed := Do(s, steps[0]);
    assert claimed.open == map[0 := Batch(at, {id}, map[], {}, {})];
    published := Do(claimed, steps[1]);
    var b := published.open[0];
    assert b.todo == {} && b.received == {id} && b.marked == map[id := Marked(row, sending, at)];
    assert b.acked == if sending.Acknowledged? then {id} else {};
    assert published.past == map[id := AfterSending(p, sending)];
    assert Do(published, steps[2]).open == map[];
  }

  /** The second cause is real: one message delivered twice although no batch rolled back. */
  lemma LostConfirmDeliversTwice(id: Id, at: Time) returns (states: seq<State>, steps: seq<Step>)
    ensures Behaviour(states, steps)
    ensures var s := states[|steps|];
            && id in s.rows && id in s.past
            && s.rows[id].status == RowPublished && s.past[id].delivered == 2 && s.past[id].undone == 0
  {
    hide Enabled, Do;
    var row, retried := OutboxRow(RowPending, 0, at), OutboxRow(RowPending, 1, at + 30);
    InsertFirst(id, at);
    var s2, s3 := Round(id, row, Past(0, 0, 0, 0, []), at, ConfirmLost);
    assert [] + [at] == [at];
    var s5, s6 := Round(id, retried, Past(1, 0, 0, 1, [at]), at + 30, Acknowledged);
    states := [EMPTY, Alone(id, row, Past(0, 0, 0, 0, [])), s2, s3, Alone(id, retried, Past(1, 0, 0, 1, [at])), s5, s6,
               Alone(id, MarkPublished(retried), Past(2, 1, 0, 1, [at]))];
    steps := [Insert(id, at)] + Rounds(id, at, ConfirmLost) + Rounds(id, at + 30, Acknowledged);
  }

  lemma InsertFirst(id: Id, at: Time)
    ensures Enabled(EMPTY, Insert(id, at))
    ensures Do(EMPTY, Insert(id, at)) == Alone(id, OutboxRow(RowPending, 0, at), Past(0, 0, 0, 0, []))
  {
  }

  /** A row is FAILED exactly when its publish failed in six committed batches, never more; and the
      sixth of them starts at least 450 seconds after the first. */
  lemma FailedAfterSix(states: seq<State>, steps: seq<Step>, n: nat, id: Id)
    requires Behaviour(states, steps) && n < |states| && id in states[n].rows
    ensures id in states[n].past
    ensures var r, failures := states[n].rows[id], states[n].past[id].failures;
            && r.retryCount == |failures| <= MAX_FAILURES
            && (r.status == RowFailed <==> |failures| == MAX_FAILURES)
            && (|failures| == MAX_FAILURES ==> failures[0] + 450 <= failures[5])
  {
    hide Enabled, Do;
    BehaviourSound(states, steps, n);
    var s := states[n];
    assert Kept(s, id);
    var f := s.past[id].failures;
    if |f| == MAX_FAILURES {
      assert f[0] + 30 <= f[1] && f[1] + 60 <= f[2] && f[2] + 90 <= f[3] && f[3] + 120 <= f[4] && f[4] + 150 <= f[5];
    }
  }
}
