/** Reconciler passes over the INITIATED payments of the store, with no competing writer
    (internal/application/command/reconcile.go): they settle every charge the gateway can decide,
    as long as the undecidable ones leave room in a batch. */
module ReconcilePass {
  import opened Outcomes
  import opened MapSum
  import opened PaymentDomain
  import opened Timestamps
  import opened Store
  import opened Gateway
  import opened Commands
  import opened Protocol

  /** The gateway's fixed answers: what a lookup of each payment returns, and whose cancel succeeds. */
  datatype Answers = Answers(lookups: map<Id, LookupAnswer>, cancellable: set<Id>)

  /** What a pass learns of a charge, or None if it must leave it for a later pass. */
  function Finding(answers: Answers, id: Id): Option<ChargeFinding> {
    if id !in answers.lookups then None
    else match answers.lookups[id]
      case LookupError => None
      case NotFoundAtGateway => Some(NeverCreated)
      case FoundAtGateway(ReportsSettled, txId, _) => Some(FoundSettled(txId))
      case FoundAtGateway(ReportsFailed, txId, gatewayStatus) => Some(FoundFailed(txId, gatewayStatus))
      case FoundAtGateway(ReportsPending, txId, _) =>
        if id in answers.cancellable then Some(FoundPendingAndCancelled(txId)) else None
      case FoundAtGateway(ReportsUnknown, _, _) => None
  }

  /** The gateway's answers decide this charge. */
  predicate Answerable(answers: Answers, id: Id) {
    id in answers.lookups &&
    match answers.lookups[id]
    case NotFoundAtGateway => true
    case FoundAtGateway(status, _, _) =>
      status.ReportsSettled? || status.ReportsFailed? || (status.ReportsPending? && id in answers.cancellable)
    case LookupError => false
  }

  /** What an INITIATED payment must become: paid exactly if the gateway says so. */
  predicate SettledAs(answers: Answers, before: PaymentState, after: PaymentState) {
    var id := before.terms.paymentId;
    Answerable(answers, id) &&
    match answers.lookups[id]
    case NotFoundAtGateway => after.status == Failed && after.gatewayTxId == before.gatewayTxId
    case FoundAtGateway(ReportsSettled, txId, _) =>
      after.status == Completed && after.gatewayTxId == txId && after.paidAt.Some?
    case FoundAtGateway(_, txId, _) => after.status == Failed && after.gatewayTxId == txId
    case LookupError => false
  }

  lemma AnswerableIffFinding(answers: Answers, id: Id)
    ensures Answerable(answers, id) <==> Finding(answers, id).Some?
  {
  }

  /** A pass finds what a run of the protocol finds: where the answers leave the charge open the run stops,
      and otherwise it goes on to settle the charge with the same finding. */
  lemma FindsAsTheProtocolDoes(w: World, run: nat, s: Session, answers: Answers, id: Id)
    requires RunAt(w, run) == Ready(s, GoalCharge) && id in answers.lookups
    ensures var looked := DoLookUpCharge(w, run, answers.lookups[id]);
            var cancel := if id in answers.cancellable then CancelDone else CancelError(false);
            var next := if RunAt(looked, run).CancellingCharge? then DoCancelCharge(looked, run, cancel) else looked;
            RunAt(next, run) == match Finding(answers, id) case None => Stopped case Some(f) => SettlingCharge(s, f)
  {
  }

  type Payments = map<Id, Aggregate>

  predicate Awaiting(a: Aggregate, cutoff: Time) {
    a.state.status == Initiated && a.state.terms.createdAt < cutoff
  }

  /** The query of a pass is the one the protocol's runs load from: INITIATED and older than the grace period. */
  lemma AwaitsAsTheProtocolDoes(w: World, row: Row)
    ensures AwaitsCharge(w, row) <==>
              Awaiting(Loaded(row, map[], row.version).aggregate, Cut(w.now - w.config.chargeGrace))
    ensures AwaitsCharge(w, row) ==> row.status == Initiated && row.terms.createdAt < w.now - w.config.chargeGrace
  {
  }

  predicate WellKeyed(store: Payments) {
    forall id :: id in store ==> store[id].state.terms.paymentId == id
  }

  /** What FindAwaitingChargeOutcome may return: distinct awaiting payments, the oldest ones, as
      many as there are up to the limit. */
  ghost predicate IsBatch(store: Payments, cutoff: Time, limit: nat, batch: seq<Id>) {
    && (forall i :: 0 <= i < |batch| ==> batch[i] in store && Awaiting(store[batch[i]], cutoff))
    && (forall i, j :: 0 <= i < j < |batch| ==> batch[i] != batch[j])
    && |batch| <= limit
    && (forall id :: id in store && Awaiting(store[id], cutoff) && id !in batch ==>
          && |batch| == limit
          && forall i :: 0 <= i < |batch| ==> store[batch[i]].state.terms.createdAt <= store[id].state.terms.createdAt)
  }

  /** What one pass leaves of each payment. */
  function Reconciled(a: Aggregate, answers: Answers, now: Time): Aggregate {
    match Finding(answers, a.state.terms.paymentId)
    case None => a
    case Some(finding) =>
      match SettleCharge(a, finding, now)
      case Err(_) => a
      case Ok(settled) => Aggregate(CutState(settled.state), a.version + 1, [])
  }

  function AfterPass(store: Payments, answers: Answers, batch: seq<Id>, now: Time): Payments {
    map id | id in store :: if id in batch then Reconciled(store[id], answers, now) else store[id]
  }

  class Reconciler {
    const answers: Answers
    var store: Payments

    constructor (answers: Answers, store: Payments)
      ensures this.answers == answers && this.store == store
    {
      this.answers, this.store := answers, store;
    }

    /** reconcileCharge of one payment of the batch. */
    method ReconcileCharge(p: Aggregate, now: Time)
      requires p.state.terms.paymentId in store && store[p.state.terms.paymentId] == p
      modifies this
      ensures store == old(store)[p.state.terms.paymentId := Reconciled(p, answers, now)]
      ensures var id := p.state.terms.paymentId;
              && id in store
              && (p.state.status == Initiated && Answerable(answers, id) ==>
                    && SettledAs(answers, p.state, store[id].state)
                    && (store[id].state.status == Completed ==> store[id].state.paidAt == Some(Cut(now)))
                    && store[id].version == p.version + 1)
              && (!Answerable(answers, id) ==> store == old(store))
    {
      var id := p.state.terms.paymentId;
      if id !in answers.lookups {
        return;
      }
      var found := answers.lookups[id];
      var result: Result<Aggregate>;
      if found.LookupError? {
        return;
      } else if found.NotFoundAtGateway? {
        result := MarkFailed(p, "CHARGE_NOT_CREATED", now);
      } else if found.status.ReportsSettled? {
        result := MarkPending(p, found.txId, now);
        if result.Ok? {
          result := MarkCompleted(result.value, now, now);
        }
      } else if found.status.ReportsFailed? {
        result := MarkPending(p, found.txId, now);
        if result.Ok? {
          result := MarkFailed(result.value, found.gatewayStatus, now);
        }
      } else if found.status.ReportsPending? {
        if id !in answers.cancellable {
          return;
        }
        result := MarkPending(p, found.txId, now);
        if result.Ok? {
          result := MarkFailed(result.value, "CHARGE_REPLY_LOST", now);
        }
      } else {
        return;
      }
      if result.Ok? {
        store := store[id := Aggregate(CutState(result.value.state), p.version + 1, [])];
      }
    }

    /** The charge half of RunOnce: the query's rows were read before the loop. */
    method RunOnce(batch: seq<Id>, now: Time)
      requires WellKeyed(store)
      requires forall i :: 0 <= i < |batch| ==> batch[i] in store
      requires forall i, j :: 0 <= i < j < |batch| ==> batch[i] != batch[j]
      modifies this
      ensures store == AfterPass(old(store), answers, batch, now)
    {
      ghost var before := store;
      assert AfterPass(before, answers, [], now) == before;
      for i := 0 to |batch|
        invariant store == AfterPass(before, answers, batch[..i], now)
      {
        assert batch[i] !in batch[..i];
        ReconcileCharge(store[batch[i]], now);
        assert batch[..i + 1] == batch[..i] + [batch[i]];
      }
      assert batch[..|batch|] == batch;
    }
  }

  // ---------------------------------------------------------------- one pass

  /** The charges awaiting an outcome. */
  ghost function AwaitingIds(store: Payments, cutoff: Time): set<Id> {
    set id | id in store && Awaiting(store[id], cutoff)
  }

  /** Those of them that the gateway can decide. */
  ghost function Decidable(store: Payments, answers: Answers, cutoff: Time): set<Id> {
    set id | id in store && Awaiting(store[id], cutoff) && Answerable(answers, id)
  }

  function CreatedAt(store: Payments, id: Id): Time
    requires id in store
  {
    store[id].state.terms.createdAt
  }

  /** The undecidable charges the query may return before d. */
  ghost function Ahead(store: Payments, answers: Answers, d: Id): set<Id>
    requires d in store
  {
    set u | u in store && store[u].state.status == Initiated && !Answerable(answers, u)
        && CreatedAt(store, u) <= CreatedAt(store, d)
  }

  /** The decidable charges that undecidable ones cannot keep out of a batch. */
  ghost function Settleable(store: Payments, answers: Answers, cutoff: Time, limit: nat): set<Id> {
    set d | d in Decidable(store, answers, cutoff) && |Ahead(store, answers, d)| < limit
  }

  /** A pass settles exactly the decidable charges of its batch, each with the gateway's outcome, and
      changes nothing else. */
  lemma PassSettles(store: Payments, answers: Answers, cutoff: Time, limit: nat, batch: seq<Id>, now: Time)
    requires WellKeyed(store) && IsBatch(store, cutoff, limit, batch)
    ensures var after := AfterPass(store, answers, batch, now);
            && WellKeyed(after) && after.Keys == store.Keys
            && (forall id :: id in store ==>
                  if id in batch && Answerable(answers, id)
                  then && SettledAs(answers, store[id].state, after[id].state)
                       && (after[id].state.status == Completed ==> after[id].state.paidAt == Some(Cut(now)))
                  else after[id] == store[id])
  {
    hide Reconciled, SettledAs, Answerable;
    forall id | id in store && id in batch
      ensures AsAnswered(store[id], answers, now, Reconciled(store[id], answers, now))
    {
      var i :| 0 <= i < |batch| && batch[i] == id;
      ReconciledAsAnswered(store[id], answers, now);
    }
  }

  /** What the charge becomes, read off the gateway's answers. */
  predicate AsAnswered(a: Aggregate, answers: Answers, now: Time, after: Aggregate) {
    if Answerable(answers, a.state.terms.paymentId) then
      && SettledAs(answers, a.state, after.state) && after.state.terms.paymentId == a.state.terms.paymentId
      && (after.state.status == Completed ==> after.state.paidAt == Some(Cut(now)))
    else after == a
  }

  lemma ReconciledAsAnswered(a: Aggregate, answers: Answers, now: Time)
    requires a.state.status == Initiated
    ensures AsAnswered(a, answers, now, Reconciled(a, answers, now))
  {
    hide CutRefunds;
  }

  /** So it takes exactly its batch out of the decidable charges, and leaves the undecidable ones. */
  lemma PassTakesBatch(store: Payments, answers: Answers, since: Time, cutoff: Time, limit: nat, batch: seq<Id>,
      now: Time)
    requires WellKeyed(store) && IsBatch(store, cutoff, limit, batch)
    ensures var after := AfterPass(store, answers, batch, now);
            && WellKeyed(after) && after.Keys == store.Keys
            && Decidable(after, answers, since) == Decidable(store, answers, since) - (set id | id in batch)
            && (forall d :: d in Decidable(after, answers, since) ==>
               Ahead(after, answers, d) == Ahead(store, answers, d))
  {
    PassSettles(store, answers, cutoff, limit, batch, now);
    hide IsBatch, AfterPass;
    var after := AfterPass(store, answers, batch, now);
    assert Decidable(after, answers, since) == Decidable(store, answers, since) - (set id | id in batch);
    forall d | d in Decidable(after, answers, since) ensures Ahead(after, answers, d) == Ahead(store, answers, d) {
      assert after[d] == store[d];
    }
  }

  // ---------------------------------------------------------------- which batches the query may return

  lemma {:induction false} DistinctWithin(batch: seq<Id>, s: set<Id>)
    requires forall i, j :: 0 <= i < j < |batch| ==> batch[i] != batch[j]
    requires forall i :: 0 <= i < |batch| ==> batch[i] in s
    ensures |batch| <= |s|
    decreases |batch|
  {
    if batch != [] {
      var n := |batch| - 1;
      DistinctWithin(batch[..n], s - {batch[n]});
    }
  }

  lemma {:induction false} WithinBatch(s: set<Id>, batch: seq<Id>)
    requires forall id :: id in s ==> id in batch
    ensures |s| <= |batch|
    decreases |batch|
  {
    if batch != [] {
      var n := |batch| - 1;
      WithinBatch(s - {batch[n]}, batch[..n]);
    } else {
      assert s == {};
    }
  }

  lemma {:induction false} Eldest(store: Payments, s: set<Id>) returns (m: Id)
    requires s != {} && s <= store.Keys
    ensures m in s && forall id :: id in s ==> CreatedAt(store, m) <= CreatedAt(store, id)
    decreases |s|
  {
    m :| m in s;
    if s != {m} {
      var other := Eldest(store, s - {m});
      if CreatedAt(store, other) < CreatedAt(store, m) {
        m := other;
      }
    }
  }

  /** The n oldest of a set of payments. */
  lemma {:induction false} Oldest(store: Payments, s: set<Id>, n: nat) returns (batch: seq<Id>)
    requires s <= store.Keys && n <= |s|
    ensures |batch| == n
    ensures forall i :: 0 <= i < |batch| ==> batch[i] in s
    ensures forall i, j :: 0 <= i < j < |batch| ==> batch[i] != batch[j]
    ensures forall i, id :: 0 <= i < |batch| && id in s && id !in batch ==>
            CreatedAt(store, batch[i]) <= CreatedAt(store, id)
    decreases n
  {
    batch := [];
    if n > 0 {
      var m := Eldest(store, s);
      var rest := Oldest(store, s - {m}, n - 1);
      batch := [m] + rest;
    }
  }

  /** If limit members of s are at least as old as each awaiting charge outside s, the query may return
      a batch of members of s only. */
  lemma BatchWithin(store: Payments, cutoff: Time, limit: nat, s: set<Id>) returns (batch: seq<Id>)
    requires s <= AwaitingIds(store, cutoff)
    requires forall x :: x in AwaitingIds(store, cutoff) - s ==>
               limit <= |set u | u in s && CreatedAt(store, u) <= CreatedAt(store, x)|
    ensures IsBatch(store, cutoff, limit, batch)
    ensures forall i :: 0 <= i < |batch| ==> batch[i] in s
  {
    batch := Oldest(store, s, if limit <= |s| then limit else |s|);
    forall x | x in AwaitingIds(store, cutoff) && x !in batch
      ensures |batch| == limit
      ensures forall i :: 0 <= i < |batch| ==> CreatedAt(store, batch[i]) <= CreatedAt(store, x)
    {
      if x in s {
        DistinctWithin(batch, s - {x});
      } else {
        OlderFills(store, s, x, limit, batch);
      }
    }
  }

  lemma OlderFills(store: Payments, s: set<Id>, x: Id, limit: nat, batch: seq<Id>)
    requires s <= store.Keys && x in store && |batch| <= limit
    requires |batch| == limit || |batch| == |s|
    requires forall i :: 0 <= i < |batch| ==> batch[i] in s
    requires forall i, id :: 0 <= i < |batch| && id in s && id !in batch ==>
             CreatedAt(store, batch[i]) <= CreatedAt(store, id)
    requires limit <= |set u | u in s && CreatedAt(store, u) <= CreatedAt(store, x)|
    ensures |batch| == limit
    ensures forall i :: 0 <= i < |batch| ==> CreatedAt(store, batch[i]) <= CreatedAt(store, x)
  {
    var older := set u | u in s && CreatedAt(store, u) <= CreatedAt(store, x);
    SubsetSize(older, s);
    forall i | 0 <= i < |batch| ensures CreatedAt(store, batch[i]) <= CreatedAt(store, x) {
      if CreatedAt(store, x) < CreatedAt(store, batch[i]) {
        var others := batch[..i] + batch[i + 1..];
        forall u | u in older ensures u in others {
          assert u in batch;
          var j :| 0 <= j < |batch| && batch[j] == u;
          assert j < i ==> others[j] == u;
          assert j > i ==> others[j - 1] == u;
        }
        WithinBatch(older, others);
      }
    }
  }

  // ---------------------------------------------------------------- progress of one pass

  /** While a charge is settleable, every batch the query may return holds a settleable charge. */
  lemma BatchSettles(store: Payments, answers: Answers, since: Time, cutoff: Time, limit: nat, batch: seq<Id>, d: Id)
    returns (settled: Id)
    requires IsBatch(store, cutoff, limit, batch) && since <= cutoff
    requires d in Settleable(store, answers, since, limit)
    ensures settled in batch && settled in Settleable(store, answers, since, limit)
  {
    settled := d;
    if d !in batch {
      if forall i :: 0 <= i < |batch| ==> !Answerable(answers, batch[i]) {
        DistinctWithin(batch, Ahead(store, answers, d));
      }
      var i :| 0 <= i < |batch| && Answerable(answers, batch[i]);
      settled := batch[i];
      SubsetSize(Ahead(store, answers, settled), Ahead(store, answers, d));
    }
  }

  /** A batch of undecidable charges changes nothing. */
  lemma UndecidableBatchStays(store: Payments, answers: Answers, batch: seq<Id>, now: Time)
    requires WellKeyed(store) && forall i :: 0 <= i < |batch| ==> !Answerable(answers, batch[i])
    ensures AfterPass(store, answers, batch, now) == store
  {
  }

  /** The exact condition for progress: every pass settles a decidable charge, whichever batch the query
      returns, if and only if some decidable charge has fewer than a batch of undecidable ones no younger
      than it. */
  lemma ProgressIff(store: Payments, answers: Answers, cutoff: Time, limit: nat, now: Time)
    requires WellKeyed(store)
    ensures (forall batch :: IsBatch(store, cutoff, limit, batch) ==>
               Decidable(AfterPass(store, answers, batch, now), answers, cutoff) < Decidable(store, answers, cutoff))
            <==> (exists d :: d in Decidable(store, answers, cutoff) && |Ahead(store, answers, d)| < limit)
  {
    if d :| d in Decidable(store, answers, cutoff) && |Ahead(store, answers, d)| < limit {
      forall batch | IsBatch(store, cutoff, limit, batch)
        ensures Decidable(AfterPass(store, answers, batch, now), answers, cutoff) < Decidable(store, answers, cutoff)
      {
        var settled := BatchSettles(store, answers, cutoff, cutoff, limit, batch, d);
        PassTakesBatch(store, answers, cutoff, cutoff, limit, batch, now);
        assert settled in set id | id in batch;
      }
    } else {
      var batch := StarvingBatch(store, answers, cutoff, limit);
      UndecidableBatchStays(store, answers, batch, now);
    }
  }

  /** Otherwise the query may return undecidable charges only. */
  lemma StarvingBatch(store: Payments, answers: Answers, cutoff: Time, limit: nat) returns (batch: seq<Id>)
    requires forall d :: d in Decidable(store, answers, cutoff) ==> limit <= |Ahead(store, answers, d)|
    ensures IsBatch(store, cutoff, limit, batch)
    ensures forall i :: 0 <= i < |batch| ==> !Answerable(answers, batch[i])
  {
    var undecidable := AwaitingIds(store, cutoff) - Decidable(store, answers, cutoff);
    forall x | x in AwaitingIds(store, cutoff) - undecidable
      ensures limit <= |set u | u in undecidable && CreatedAt(store, u) <= CreatedAt(store, x)|
    {
      assert Ahead(store, answers, x) == set u | u in undecidable && CreatedAt(store, u) <= CreatedAt(store, x);
    }
    batch := BatchWithin(store, cutoff, limit, undecidable);
  }

  // ---------------------------------------------------------------- progress of many passes

  datatype Pass = Pass(cutoff: Time, batch: seq<Id>, now: Time)

  ghost function AfterPasses(store: Payments, answers: Answers, passes: seq<Pass>): Payments {
    if passes == [] then store
    else AfterPass(AfterPasses(store, answers, passes[..|passes| - 1]), answers,
                   passes[|passes| - 1].batch, passes[|passes| - 1].now)
  }

  /** Every pass ran on the store the passes before it left, past the cutoff. */
  ghost predicate Runs(store: Payments, answers: Answers, since: Time, limit: nat, passes: seq<Pass>) {
    passes != [] ==>
      var n := |passes| - 1;
      && Runs(store, answers, since, limit, passes[..n])
      && since <= passes[n].cutoff
      && IsBatch(AfterPasses(store, answers, passes[..n]), passes[n].cutoff, limit, passes[n].batch)
  }

  /** One pass shrinks what is settleable, while there is anything. */
  lemma PassShrinks(store: Payments, answers: Answers, since: Time, limit: nat, p: Pass)
    requires WellKeyed(store) && IsBatch(store, p.cutoff, limit, p.batch) && since <= p.cutoff
    ensures var after := AfterPass(store, answers, p.batch, p.now);
            && WellKeyed(after)
            && Settleable(after, answers, since, limit) <= Settleable(store, answers, since, limit)
            && (Settleable(store, answers, since, limit) == {}
                || |Settleable(after, answers, since, limit)| < |Settleable(store, answers, since, limit)|)
  {
    PassTakesBatch(store, answers, since, p.cutoff, limit, p.batch, p.now);
    var before, after := Settleable(store, answers, since, limit),
                         Settleable(AfterPass(store, answers, p.batch, p.now), answers, since, limit);
    if d :| d in before {
      var settled := BatchSettles(store, answers, since, p.cutoff, limit, p.batch, d);
      assert settled in set id | id in p.batch;
    }
    SubsetSize(after, before);
  }

  /** Each pass shrinks what is left, so after as many passes as there were settleable charges past the
      cutoff, every one of them is settled. */
  lemma {:induction false} PassesSettleAll(store: Payments, answers: Answers, since: Time, limit: nat,
      passes: seq<Pass>)
    requires WellKeyed(store) && Runs(store, answers, since, limit, passes)
    ensures WellKeyed(AfterPasses(store, answers, passes))
    ensures var left := |Settleable(AfterPasses(store, answers, passes), answers, since, limit)|;
            left == 0 || left + |passes| <= |Settleable(store, answers, since, limit)|
    decreases |passes|
  {
    hide AfterPass, IsBatch, WellKeyed, Settleable;
    if passes != [] {
      var n := |passes| - 1;
      PassesSettleAll(store, answers, since, limit, passes[..n]);
      PassShrinks(AfterPasses(store, answers, passes[..n]), answers, since, limit, passes[n]);
    }
  }

  /** If fewer charges are undecidable than fill a batch, every decidable one is settleable. */
  lemma FewUndecidable(store: Payments, answers: Answers, cutoff: Time, limit: nat)
    requires |AwaitingIds(store, cutoff) - Decidable(store, answers, cutoff)| < limit
    ensures Settleable(store, answers, cutoff, limit) == Decidable(store, answers, cutoff)
  {
    forall d | d in Decidable(store, answers, cutoff) ensures |Ahead(store, answers, d)| < limit {
      SubsetSize(Ahead(store, answers, d), AwaitingIds(store, cutoff) - Decidable(store, answers, cutoff));
    }
  }

  /** A charge is left as it was until a pass settles it with the gateway's outcome, for good; what is
      undecidable ahead of it stays. */
  lemma {:induction false} StaysOrSettles(store: Payments, answers: Answers, since: Time, limit: nat,
      passes: seq<Pass>, d: Id)
    requires WellKeyed(store) && Runs(store, answers, since, limit, passes) && d in Decidable(store, answers, since)
    ensures var after := AfterPasses(store, answers, passes);
            && WellKeyed(after) && d in after
            && if d in Decidable(after, answers, since)
               then after[d] == store[d] && Ahead(after, answers, d) == Ahead(store, answers, d)
               else SettledAs(answers, store[d].state, after[d].state)
    decreases |passes|
  {
    hide Ahead, AfterPass, IsBatch, WellKeyed;
    if passes != [] {
      var n := |passes| - 1;
      var before := AfterPasses(store, answers, passes[..n]);
      StaysOrSettles(store, answers, since, limit, passes[..n], d);
      PassSettles(before, answers, passes[n].cutoff, limit, passes[n].batch, passes[n].now);
      PassTakesBatch(before, answers, since, passes[n].cutoff, limit, passes[n].batch, passes[n].now);
      if d in passes[n].batch && d !in Decidable(before, answers, since) {
        NotInBatch(before, since, passes[n].cutoff, limit, passes[n].batch, d);
      }
    }
  }

  lemma NotInBatch(store: Payments, since: Time, cutoff: Time, limit: nat, batch: seq<Id>, d: Id)
    requires IsBatch(store, cutoff, limit, batch) && d in batch
    ensures d in store && store[d].state.status == Initiated
  {
  }

  /** A batch that leaves d out. */
  lemma BatchWithout(store: Payments, answers: Answers, cutoff: Time, limit: nat, d: Id) returns (batch: seq<Id>)
    requires d in Decidable(store, answers, cutoff) && limit <= |Ahead(store, answers, d)|
    ensures IsBatch(store, cutoff, limit, batch) && d !in batch
  {
    var others := AwaitingIds(store, cutoff) - {d};
    SubsetSize(Ahead(store, answers, d), set u | u in others && CreatedAt(store, u) <= CreatedAt(store, d));
    batch := BatchWithin(store, cutoff, limit, others);
  }

  /** A run of n passes that never settles d. */
  lemma {:induction false} StarvingRun(store: Payments, answers: Answers, since: Time, limit: nat, d: Id, n: nat)
    returns (passes: seq<Pass>)
    requires WellKeyed(store) && d in Decidable(store, answers, since) && limit <= |Ahead(store, answers, d)|
    ensures |passes| == n && Runs(store, answers, since, limit, passes)
    ensures d in Decidable(AfterPasses(store, answers, passes), answers, since)
  {
    hide Ahead, Decidable, AfterPass, IsBatch, WellKeyed;
    passes := [];
    if n > 0 {
      var shorter := StarvingRun(store, answers, since, limit, d, n - 1);
      var before := AfterPasses(store, answers, shorter);
      StaysOrSettles(store, answers, since, limit, shorter, d);
      var batch := BatchWithout(before, answers, since, limit, d);
      passes := shorter + [Pass(since, batch, since)];
      assert passes[..n - 1] == shorter;
      PassTakesBatch(before, answers, since, since, limit, batch, since);
    }
  }

  /** The exact condition for one charge: as many passes as there were decidable charges settle it with
      the gateway's outcome, whichever batches the queries return, if and only if fewer than a batch of
      undecidable charges are no younger. */
  lemma SettledInTimeIff(store: Payments, answers: Answers, since: Time, limit: nat, d: Id)
    requires WellKeyed(store) && d in Decidable(store, answers, since)
    ensures (forall passes ::
               Runs(store, answers, since, limit, passes) && |Decidable(store, answers, since)| <= |passes| ==>
               && d in AfterPasses(store, answers, passes)
               && SettledAs(answers, store[d].state, AfterPasses(store, answers, passes)[d].state))
            <==> |Ahead(store, answers, d)| < limit
  {
    hide AfterPasses, Runs;
    if |Ahead(store, answers, d)| < limit {
      SubsetSize(Settleable(store, answers, since, limit), Decidable(store, answers, since));
      forall passes | Runs(store, answers, since, limit, passes) && |Decidable(store, answers, since)| <= |passes|
        ensures d in AfterPasses(store, answers, passes)
        ensures SettledAs(answers, store[d].state, AfterPasses(store, answers, passes)[d].state)
      {
        PassesSettleAll(store, answers, since, limit, passes);
        StaysOrSettles(store, answers, since, limit, passes, d);
        assert d in Settleable(store, answers, since, limit);
        var left := Settleable(AfterPasses(store, answers, passes), answers, since, limit);
        assert d !in left;
      }
    } else {
      var passes := StarvingRun(store, answers, since, limit, d, |Decidable(store, answers, since)|);
    }
  }
}
