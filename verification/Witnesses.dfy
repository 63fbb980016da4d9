/** Concrete behaviours: the statuses that can hide money the customer paid really do, and refunds reach
    the ledger, also when the gateway's answer is lost. */
module Witnesses {
  import opened Outcomes
  import opened PaymentDomain
  import opened Timestamps
  import opened Store
  import opened Gateway
  import opened Commands
  import opened Protocol

  function FirstWorld(config: Config, terms: Terms): World
    requires New(terms).Ok?
  {
    World(config, terms, terms.createdAt, NO_ROWS, [], NO_GATEWAY_STATE, {}, Created(New(terms).value), map[])
  }

  /** One more step of a behaviour. */
  lemma Extend(worlds: seq<World>, steps: seq<Step>, step: Step)
    requires Behaviour(worlds, steps) && Enabled(worlds[|steps|], step)
    ensures Behaviour(worlds + [Do(worlds[|steps|], step)], steps + [step])
  {
    hide Do, Enabled, Init;
    var more, longer := worlds + [Do(worlds[|steps|], step)], steps + [step];
    forall i | 0 <= i < |longer| ensures Enabled(more[i], longer[i]) && more[i + 1] == Do(more[i], longer[i]) {
      if i < |steps| {
        assert more[i] == worlds[i] && more[i + 1] == worlds[i + 1];
      }
    }
  }

  /** The first save of a payment without refunds. */
  lemma FirstSave(a: Aggregate)
    requires IsNew(a) && a.state.refunds == map[] && 0 < a.state.terms.amount
    ensures var after := Save(NO_ROWS, a, false, Commits).tables;
            after.row == Some(RowOf(CutState(a.state), 1)) && after.refunds == map[]
  {
    hide Cut, CutOption, Numbered, LastSequence, IsNew;
    assert CutRefunds(map[]) == map[] && Upserted(map[], map[]) == map[];
  }

  /** The charge is answered and the payment stored. */
  lemma StoredAs(config: Config, terms: Terms, tx: Transaction, reported: Reported, s: PaymentState)
    returns (worlds: seq<World>, steps: seq<Step>)
    requires New(terms).Ok? && terms.amount <= MAX_INT64 && 0 <= config.chargeGrace
    requires TrueStatus(tx, reported) && tx != Absent
    requires AfterCharge(New(terms).value, ChargeReply(reported, "tx"), terms.createdAt).Some?
    requires s == AfterCharge(New(terms).value, ChargeReply(reported, "tx"), terms.createdAt).value.state
    ensures Behaviour(worlds, steps) && |worlds| == |steps| + 1
    ensures var w := worlds[|steps|];
            && w.terms == terms && w.config == config && w.runs == map[] && w.now == terms.createdAt && w.issued == {}
            && w.tables.row == Some(RowOf(CutState(s), 1)) && w.tables.refunds == map[]
            && w.gateway == NO_GATEWAY_STATE.(tx := tx, txId := "tx", charge := Sent)
  {
    hide CutState, Behaviour, Enabled, Do, Save, AfterCharge, StateOf, LogOf;
    worlds, steps := [FirstWorld(config, terms)], [];
    assert Behaviour(worlds, steps) by { FirstIsBehaviour(config, terms); }
    var w := worlds[0];
    Charging(w, New(terms).value, reported, tx);
    worlds, steps, w := Go(worlds, steps, CallCharge(ChargeReply(reported, "tx"), tx));
    var a := w.creator.aggregate;
    FirstEventStays(terms, ChargeReply(reported, "tx"));
    assert a.events[0].PaymentInitiated?;
    FirstSave(a);
    SavingNew(w, a);
    worlds, steps, w := Go(worlds, steps, SaveNew(false, Commits));
  }

  lemma FirstEventStays(terms: Terms, answer: ChargeAnswer)
    requires New(terms).Ok? && AfterCharge(New(terms).value, answer, terms.createdAt).Some?
    ensures var a := AfterCharge(New(terms).value, answer, terms.createdAt).value;
            && a.events != [] && a.events[0].PaymentInitiated?
            && a.state.refunds == map[] && 0 < a.state.terms.amount
  {
  }

  lemma Charging(w: World, a: Aggregate, reported: Reported, tx: Transaction)
    requires w.creator == Created(a) && AfterCharge(a, ChargeReply(reported, "tx"), w.now).Some?
    requires w.gateway == NO_GATEWAY_STATE && !PastGrace(w) && tx != Absent && TrueStatus(tx, reported)
    ensures var step := CallCharge(ChargeReply(reported, "tx"), tx);
            && Enabled(w, step)
            && Do(w, step) == w.(gateway := NO_GATEWAY_STATE.(tx := tx, txId := "tx", charge := Sent),
                                 creator := Charged(AfterCharge(a, ChargeReply(reported, "tx"), w.now).value))
  {
    hide AfterCharge;
  }

  lemma SavingNew(w: World, a: Aggregate)
    requires w.creator == Charged(a)
    ensures Enabled(w, SaveNew(false, Commits))
    ensures Do(w, SaveNew(false, Commits)) == AfterSave(w, a, false, Commits).(creator := Finished)
  {
    hide AfterSave;
  }

  lemma FirstIsBehaviour(config: Config, terms: Terms)
    requires New(terms).Ok? && terms.amount <= MAX_INT64
    ensures Behaviour([FirstWorld(config, terms)], [])
  {
  }

  /** A save of a loaded payment whose version still matches and that keeps every refund. */
  lemma PlainSave(t: Tables, a: Aggregate)
    requires t.row.Some? && t.row.value.version == a.version && !IsNew(a)
    requires Covers(a.state.refunds, t.refunds) && RefundConstraints(a.state.refunds)
    ensures var saved := Save(t, a, false, Commits);
            && saved.error == None && saved.aggregate == Aggregate(a.state, a.version + 1, [])
            && saved.tables != t
            && saved.tables.row == Some(UpdatedRow(t.row.value, CutState(a.state)))
            && saved.tables.refunds == CutRefunds(a.state.refunds)
  {
    hide Cut, CutOption, CutRefunds, Covers, RefundConstraints, IsNew;
    UpsertReplacesIffCovers(t.refunds, a.state.refunds);
    CutConstraints(a.state.refunds);
  }

  /** A run has loaded the payment, undisturbed. */
  lemma Load(worlds: seq<World>, steps: seq<Step>, run: nat, goal: Goal)
    returns (more: seq<World>, longer: seq<Step>, w: World)
    requires Behaviour(worlds, steps) && |worlds| == |steps| + 1
    requires run !in worlds[|steps|].runs && worlds[|steps|].tables.row.Some?
    requires goal.GoalRefund? || goal.GoalSweep? || goal.GoalCancel? || goal.GoalForceExpire?
    ensures Behaviour(more, longer) && |more| == |longer| + 1 && steps <= longer && w == more[|longer|]
    ensures var last := worlds[|steps|];
            w == SetRun(last, run, Ready(Loaded(last.tables.row.value, last.tables.refunds, |last.history|), goal))
  {
    hide Behaviour, Enabled, Do;
    var last := worlds[|steps|];
    Starting(last, run, goal);
    more, longer, w := Go(worlds, steps, Start(run, goal));
    ReadingRow(w, run, goal);
    more, longer, w := Go(more, longer, ReadRow(run));
    ReadingRefunds(w, run, last.tables.row.value, goal);
    more, longer, w := Go(more, longer, ReadRefunds(run));
    SetRunTwice(last, run, Waiting(goal), RowRead(last.tables.row.value, goal));
    SetRunTwice(last, run, RowRead(last.tables.row.value, goal),
                Ready(Loaded(last.tables.row.value, last.tables.refunds, |last.history|), goal));
  }

  lemma SetRunTwice(w: World, run: nat, first: Run, last: Run)
    ensures SetRun(SetRun(w, run, first), run, last) == SetRun(w, run, last)
  {
    assert w.runs[run := first][run := last] == w.runs[run := last];
  }

  lemma Starting(w: World, run: nat, goal: Goal)
    requires run !in w.runs && (goal.GoalRefund? || goal.GoalSweep? || goal.GoalCancel? || goal.GoalForceExpire?)
    ensures Enabled(w, Start(run, goal)) && Do(w, Start(run, goal)) == SetRun(w, run, Waiting(goal))
  {
  }

  lemma ReadingRow(w: World, run: nat, goal: Goal)
    requires RunAt(w, run) == Waiting(goal) && !goal.GoalCharge? && !goal.GoalExpiryJob? && w.tables.row.Some?
    ensures Enabled(w, ReadRow(run)) && Do(w, ReadRow(run)) == SetRun(w, run, RowRead(w.tables.row.value, goal))
  {
  }

  lemma ReadingRefunds(w: World, run: nat, row: Row, goal: Goal)
    requires RunAt(w, run) == RowRead(row, goal)
    ensures Enabled(w, ReadRefunds(run))
    ensures Do(w, ReadRefunds(run)) == SetRun(w, run, Ready(Loaded(row, w.tables.refunds, |w.history|), goal))
  {
  }

  lemma Settling(w: World)
    requires w.gateway.tx == TxPending
    ensures Enabled(w, TransactionEnds(TxSettled))
    ensures Do(w, TransactionEnds(TxSettled)) == w.(gateway := w.gateway.(tx := TxSettled))
  {
  }

  /** A PENDING payment, as it is stored. */
  function PendingState(terms: Terms): PaymentState {
    PaymentState(terms, Pending, "tx", None, terms.createdAt, map[])
  }

  lemma CallingCancel(w: World, s: Session, terms: Terms)
    requires RunAt(w, 0) == Ready(s, GoalCancel(terms.callerService))
    requires s.aggregate.state == CutState(PendingState(terms))
    ensures var a := Cancel(s.aggregate, w.now).value; var step := CallCancel(0, CancelError(false));
            && Cancel(s.aggregate, w.now).Ok?
            && Enabled(w, step) && Do(w, step) == SetRun(w, 0, SavingCancel(s.(aggregate := a)))
  {
    hide Cut, CutOption, CutRefunds;
  }

  lemma SavingCancelled(w: World, s: Session)
    requires RunAt(w, 0) == SavingCancel(s)
    ensures Enabled(w, SaveCancel(0, Commits))
    ensures Do(w, SaveCancel(0, Commits)) == SaveAndStop(w, 0, s.aggregate, Commits)
  {
    hide AfterSave;
  }

  lemma Expiring(w: World, s: Session)
    requires RunAt(w, 0) == Ready(s, GoalForceExpire) && MarkExpired(s.aggregate, w.now).Ok?
    ensures Enabled(w, Expire(0, Commits))
    ensures Do(w, Expire(0, Commits)) == SaveAndStop(w, 0, MarkExpired(s.aggregate, w.now).value, Commits)
  {
    hide AfterSave;
  }

  /** The loaded PENDING payment. */
  lemma PendingLoaded(terms: Terms)
    ensures var s := CutState(PendingState(terms));
            && Loaded(RowOf(s, 1), map[], 1).aggregate == Aggregate(s, 1, [])
            && s.refunds == map[] && s.status == Pending && s.terms.callerService == terms.callerService
  {
    NoRefunds();
  }

  /** CANCELLED although settled: the gateway cancel fails, the local cancel continues, and the
      customer pays. */
  lemma CancelledCanHideMoney(config: Config, terms: Terms) returns (worlds: seq<World>, steps: seq<Step>)
    requires New(terms).Ok? && terms.amount <= MAX_INT64 && 0 <= config.chargeGrace
    ensures Behaviour(worlds, steps)
    ensures var w := worlds[|steps|];
            w.tables.row.Some? && w.tables.row.value.status == Cancelled && w.gateway.tx == TxSettled
  {
    hide Behaviour, Enabled, Do, SaveAndStop, CutTerms, CutRefunds, Covers, RefundConstraints, New, AfterCharge;
    worlds, steps := StoredPending(config, terms);
    var w;
    NoRefunds();
    PendingLoaded(terms);
    worlds, steps, w := Load(worlds, steps, 0, GoalCancel(terms.callerService));
    var s := RunAt(w, 0).s;
    CallingCancel(w, s, terms);
    worlds, steps, w := Go(worlds, steps, CallCancel(0, CancelError(false)));
    var a := Cancel(s.aggregate, w.now).value;
    SavingCancelled(w, s.(aggregate := a));
    worlds, steps, w := SaveRun(worlds, steps, SaveCancel(0, Commits), 0, a);
    Settling(w);
    worlds, steps, w := Go(worlds, steps, TransactionEnds(TxSettled));
  }

  /** EXPIRED although settled: the payment is force-expired, then the customer pays. */
  lemma ExpiredCanHideMoney(config: Config, terms: Terms) returns (worlds: seq<World>, steps: seq<Step>)
    requires New(terms).Ok? && terms.amount <= MAX_INT64 && 0 <= config.chargeGrace
    ensures Behaviour(worlds, steps)
    ensures var w := worlds[|steps|];
            w.tables.row.Some? && w.tables.row.value.status == Expired && w.gateway.tx == TxSettled
  {
    hide Behaviour, Enabled, Do, SaveAndStop, CutTerms, CutRefunds, Covers, RefundConstraints, New, AfterCharge;
    worlds, steps := StoredPending(config, terms);
    var w;
    NoRefunds();
    PendingLoaded(terms);
    worlds, steps, w := Load(worlds, steps, 0, GoalForceExpire);
    var s := RunAt(w, 0).s;
    Expiring(w, s);
    worlds, steps, w := SaveRun(worlds, steps, Expire(0, Commits), 0, MarkExpired(s.aggregate, w.now).value);
    Settling(w);
    worlds, steps, w := Go(worlds, steps, TransactionEnds(TxSettled));
  }

  lemma StoredPending(config: Config, terms: Terms) returns (worlds: seq<World>, steps: seq<Step>)
    requires New(terms).Ok? && terms.amount <= MAX_INT64 && 0 <= config.chargeGrace
    ensures Behaviour(worlds, steps) && |worlds| == |steps| + 1
    ensures var w := worlds[|steps|];
            && w.runs == map[] && w.tables.refunds == map[]
            && w.tables.row == Some(RowOf(CutState(PendingState(terms)), 1))
            && w.gateway == NO_GATEWAY_STATE.(tx := TxPending, txId := "tx", charge := Sent)
  {
    hide Behaviour, CutState;
    worlds, steps := StoredAs(config, terms, TxPending, ReportsPending, PendingState(terms));
  }

  lemma Go(worlds: seq<World>, steps: seq<Step>, step: Step) returns (more: seq<World>, longer: seq<Step>, w: World)
    requires Behaviour(worlds, steps) && Enabled(worlds[|steps|], step)
    ensures |worlds| == |steps| + 1 && Behaviour(more, longer) && |more| == |longer| + 1
    ensures w == more[|longer|] == Do(worlds[|steps|], step)
    ensures longer == steps + [step]
  {
    hide Do, Enabled, Init;
    Extend(worlds, steps, step);
    w := Do(worlds[|steps|], step);
    more, longer := worlds + [w], steps + [step];
  }

  /** A run saves a and stops. */
  lemma SaveRun(worlds: seq<World>, steps: seq<Step>, step: Step, run: nat, a: Aggregate)
    returns (more: seq<World>, longer: seq<Step>, w: World)
    requires Behaviour(worlds, steps) && |worlds| == |steps| + 1 && Enabled(worlds[|steps|], step)
    requires Do(worlds[|steps|], step) == SaveAndStop(worlds[|steps|], run, a, Commits)
    requires var t := worlds[|steps|].tables;
             t.row.Some? && t.row.value.version == a.version && Covers(a.state.refunds, t.refunds)
    requires RefundConstraints(a.state.refunds)
    requires |a.events| == 1 && !a.events[0].PaymentInitiated?
    ensures Behaviour(more, longer) && |more| == |longer| + 1
    ensures w == more[|longer|] && w.gateway == worlds[|steps|].gateway
    ensures w.tables.row == Some(UpdatedRow(worlds[|steps|].tables.row.value, CutState(a.state)))
    ensures w.tables.refunds == CutRefunds(a.state.refunds)
    ensures longer == steps + [step]
  {
    hide Enabled, Init, Behaviour, Save, Covers, RefundConstraints, CutState, CutRefunds;
    more, longer, w := Go(worlds, steps, step);
    PlainSave(worlds[|steps|].tables, a);
  }

  lemma OneEventIsOld(a: Aggregate)
    requires |a.events| == 1 && !a.events[0].PaymentInitiated?
    ensures !IsNew(a)
  {
  }

  lemma SavedTables(w: World, a: Aggregate)
    requires Save(w.tables, a, false, Commits).tables.row.Some?
    ensures AfterSave(w, a, false, Commits)
            == w.(tables := Save(w.tables, a, false, Commits).tables,
                history := AfterSave(w, a, false, Commits).history)
  {
    hide Save, StateOf, LogOf;
  }

  lemma NoRefunds()
    ensures Covers(map[], map[]) && RefundConstraints(map[]) && CutRefunds(map[]) == map[]
    ensures Reserved(map[]) == 0
  {
    assert ReservedWeights(map[]) == map[];
  }

  // ---------------------------------------------------------------- refunds

  const ALL_OF_IT: RefundCommand := RefundCommand("R", 0, "", "", true)

  /** The one refund of these behaviours: everything that was paid. */
  function FullRefund(terms: Terms, id: Id): Refund {
    OpenRefund(id, "R", terms.amount, "", "admin", terms.createdAt)
  }

  lemma OneRefund(id: Id, r: Refund, later: Refund)
    requires 0 < r.amount && SameRequest(later, r)
    ensures Covers(map[id := r], map[]) && Covers(map[id := later], map[id := CutRefund(r)])
    ensures RefundConstraints(map[id := r]) && CutRefunds(map[id := r]) == map[id := CutRefund(r)]
    ensures Succeeded(map[id := r]) == if r.status.RefundSucceeded? then r.amount else 0
  {
    hide Cut, CutOption;
    var weights := SucceededWeights(map[id := r]);
    MapSum.SumRemove(weights, id);
    assert weights - {id} == map[];
  }

  /** The completed payment with its refund reserved. */
  function WithRefund(terms: Terms, r: Refund): PaymentState {
    PaymentState(CutTerms(terms), Completed, "tx", Some(Cut(terms.createdAt)), terms.createdAt, map[r.id := r])
  }

  /** The completed payment as a run loads it. */
  function LoadedPaid(terms: Terms): PaymentState {
    CutState(PaymentState(terms, Completed, "tx", Some(terms.createdAt), terms.createdAt, map[]))
  }

  lemma PaidLoaded(terms: Terms)
    ensures Loaded(RowOf(LoadedPaid(terms), 1), map[], 1).aggregate == Aggregate(LoadedPaid(terms), 1, [])
    ensures LoadedPaid(terms).(updatedAt := terms.createdAt)
            == WithRefund(terms, FullRefund(terms, 0)).(refunds := map[])
  {
    NoRefunds();
  }

  lemma DecidesToReserve(terms: Terms, capability: Capability, id: Id)
    requires 0 < terms.amount && capability.refund
    ensures DecideRefund(Aggregate(LoadedPaid(terms), 1, []), capability, ALL_OF_IT, id, terms.createdAt)
            == Reserve(Reserving(terms, id))
  {
    hide Cut;
    NoRefunds();
  }

  /** The payment with the refund just reserved. */
  function Reserving(terms: Terms, id: Id): Aggregate {
    Aggregate(WithRefund(terms, FullRefund(terms, id)), 1, [RefundRequested(id, terms.amount, terms.createdAt)])
  }

  lemma Reserves(w: World, s: Session, id: Id, a: Aggregate)
    requires RunAt(w, 0) == Ready(s, GoalRefund(ALL_OF_IT)) && id !in w.issued && id !in w.config.foreign
    requires DecideRefund(s.aggregate, w.config.capability, ALL_OF_IT, id, w.now) == Reserve(a)
    requires Save(w.tables, a, false, Commits).error == None
    ensures var step, saved := ReserveRefund(0, id, Commits), Save(w.tables, a, false, Commits);
            && Enabled(w, step)
            && Do(w, step)
               == SetRun(AfterSave(w.(issued := w.issued + {id}), a, false, Commits), 0,
                         CallingRefund(Session(saved.aggregate, CutState(a.state), saved.aggregate.version), id))
  {
    hide AfterSave, Save, DecideRefund, CutState;
  }

  /** The row once the refund is reserved. */
  lemma ReservedRow(terms: Terms, id: Id)
    ensures UpdatedRow(RowOf(LoadedPaid(terms), 1), CutState(Reserving(terms, id).state))
            == RowOf(CutState(Reserving(terms, id).state), 2)
  {
    hide CutRefunds;
    CutIsNearestBelow(terms.createdAt);
    CutTwice(LoadedPaid(terms));
  }

  /** A payment completed at once, and its refund reserved by run 0. */
  lemma RefundReserved(config: Config, terms: Terms, id: Id) returns (worlds: seq<World>, steps: seq<Step>)
    requires New(terms).Ok? && terms.amount <= MAX_INT64 && 0 <= config.chargeGrace
    requires config.capability.refund && id !in config.foreign
    ensures Behaviour(worlds, steps) && |worlds| == |steps| + 1
    ensures var w, s := worlds[|steps|], WithRefund(terms, FullRefund(terms, id));
            && w.config == config && w.now == terms.createdAt
            && w.runs == map[0 := CallingRefund(Session(Aggregate(s, 2, []), CutState(s), 2), id)]
            && w.tables.row == Some(RowOf(CutState(s), 2))
            && w.tables.refunds == map[id := CutRefund(FullRefund(terms, id))]
            && w.gateway == NO_GATEWAY_STATE.(tx := TxSettled, txId := "tx", charge := Sent)
  {
    hide Behaviour, Enabled, Do, Save, AfterSave, IsNew, CutTerms, CutOption, Cut, CutRefunds, Covers,
         RefundConstraints, DecideRefund;
    worlds, steps := StoredPaid(config, terms);
    var w, a := worlds[|steps|], Reserving(terms, id);
    PaidLoaded(terms);
    OneRefund(id, FullRefund(terms, id), FullRefund(terms, id));
    ReservedRow(terms, id);
    worlds, steps, w := Load(worlds, steps, 0, GoalRefund(ALL_OF_IT));
    DecidesToReserve(terms, config.capability, id);
    OneEventIsOld(a);
    PlainSave(w.tables, a);
    SavedTables(w.(issued := w.issued + {id}), a);
    Reserves(w, RunAt(w, 0).s, id, a);
    worlds, steps, w := Go(worlds, steps, ReserveRefund(0, id, Commits));
  }

  lemma StoredPaid(config: Config, terms: Terms) returns (worlds: seq<World>, steps: seq<Step>)
    requires New(terms).Ok? && terms.amount <= MAX_INT64 && 0 <= config.chargeGrace
    ensures Behaviour(worlds, steps) && |worlds| == |steps| + 1
    ensures var w := worlds[|steps|];
            && w.config == config && w.runs == map[] && w.now == terms.createdAt && w.issued == {}
            && w.tables.row == Some(RowOf(LoadedPaid(terms), 1)) && w.tables.refunds == map[]
            && w.gateway == NO_GATEWAY_STATE.(tx := TxSettled, txId := "tx", charge := Sent)
  {
    hide Behaviour, CutState;
    worlds, steps := StoredAs(config, terms, TxSettled, ReportsSettled,
                              PaymentState(terms, Completed, "tx", Some(terms.createdAt), terms.createdAt, map[]));
  }

  /** The refund succeeded, and with it everything that was paid went back. */
  predicate PaidBack(w: World, terms: Terms, id: Id) {
    && w.tables.row.Some? && w.tables.row.value.status == Refunded
    && id in w.tables.refunds && w.tables.refunds[id].status == RefundSucceeded
    && w.gateway.ledger == map[id := terms.amount]
  }

  /** A payment whose one refund is pending, as loaded or in memory. */
  ghost predicate OpenlyRefunding(a: Aggregate, terms: Terms, id: Id) {
    && a.events == [] && a.state.terms == CutTerms(terms) && a.state.status == Completed
    && exists r :: a.state.refunds == map[id := r] && r.status == RefundPending
                   && KeepsRequest(r, CutRefund(FullRefund(terms, id)))
  }

  lemma Completes(terms: Terms, id: Id, a: Aggregate, now: Time)
    requires 0 < terms.amount && OpenlyRefunding(a, terms, id)
    ensures var done := CompleteRefund(a, id, "G", now);
            && done.Ok? && done.value.version == a.version
            && |done.value.events| == 1 && !done.value.events[0].PaymentInitiated?
            && done.value.state.status == Refunded
            && id in CutRefunds(done.value.state.refunds)
            && CutRefunds(done.value.state.refunds)[id].status == RefundSucceeded
            && Covers(done.value.state.refunds, map[id := CutRefund(FullRefund(terms, id))])
            && RefundConstraints(done.value.state.refunds)
  {
    hide Cut, CutOption;
    var r :| a.state.refunds == map[id := r] && r.status == RefundPending
        && KeepsRequest(r, CutRefund(FullRefund(terms, id)));
    var settled := SucceededRefund(r, "G", now);
    OneRefund(id, settled, settled);
    assert a.state.refunds[id := settled] == map[id := settled];
  }

  lemma SendingRefund(w: World, s: Session, id: Id, outcome: RefundOutcome)
    requires RunAt(w, 0) == CallingRefund(s, id) && id in s.aggregate.state.refunds
    requires id !in w.gateway.declined && (outcome == Accepted("G") || outcome == RefundUnknown(true))
    ensures var amount := s.aggregate.state.refunds[id].amount;
            && Enabled(w, CallRefund(0, outcome))
            && Do(w, CallRefund(0, outcome))
               == SetRun(w.(gateway := AfterRefundCall(w.gateway, id, amount, outcome)), 0,
                         if outcome.Accepted? then Recording(s, id, Confirmed("G")) else Stopped)
  {
    hide AfterRefundCall;
  }

  lemma RecordingRefund(w: World, s: Session, id: Id)
    requires RunAt(w, 0) == Recording(s, id, Confirmed("G")) && CompleteRefund(s.aggregate, id, "G", w.now).Ok?
    requires Save(w.tables, CompleteRefund(s.aggregate, id, "G", w.now).value, false, Commits).error == None
    ensures Enabled(w, RecordRefund(0, Commits))
    ensures Do(w, RecordRefund(0, Commits))
            == SaveAndStop(w, 0, CompleteRefund(s.aggregate, id, "G", w.now).value, Commits)
  {
    hide AfterSave, Save, CompleteRefund;
  }

  /** Undisturbed, a refund ends SUCCEEDED and in the ledger. */
  lemma RefundReachesLedger(config: Config, terms: Terms, id: Id) returns (worlds: seq<World>, steps: seq<Step>)
    requires New(terms).Ok? && terms.amount <= MAX_INT64 && 0 <= config.chargeGrace
    requires config.capability.refund && id !in config.foreign
    ensures Behaviour(worlds, steps) && PaidBack(worlds[|steps|], terms, id)
  {
    hide Behaviour, Enabled, Do, Save, SaveAndStop, IsNew, CutTerms, CutRefund, Cut, CutOption, Covers,
         RefundConstraints, CompleteRefund, OpenlyRefunding, FullRefund;
    worlds, steps := RefundReserved(config, terms, id);
    var w, held := worlds[|steps|], Aggregate(WithRefund(terms, FullRefund(terms, id)), 2, []);
    HeldIsOpen(terms, id);
    SendingRefund(w, w.runs[0].s, id, Accepted("G"));
    worlds, steps, w := Go(worlds, steps, CallRefund(0, Accepted("G")));
    Completes(terms, id, held, w.now);
    var a := CompleteRefund(held, id, "G", w.now).value;
    OneEventIsOld(a);
    PlainSave(w.tables, a);
    RecordingRefund(w, RunAt(w, 0).s, id);
    worlds, steps, w := SaveRun(worlds, steps, RecordRefund(0, Commits), 0, a);
  }

  lemma HeldIsOpen(terms: Terms, id: Id)
    ensures OpenlyRefunding(Aggregate(WithRefund(terms, FullRefund(terms, id)), 2, []), terms, id)
    ensures FullRefund(terms, id).id == id && FullRefund(terms, id).amount == terms.amount
  {
    assert KeepsRequest(FullRefund(terms, id), CutRefund(FullRefund(terms, id)));
  }

  /** The gateway pays the refund out, its answer is lost, and time passes. */
  lemma ReplyLost(config: Config, terms: Terms, id: Id) returns (worlds: seq<World>, steps: seq<Step>)
    requires New(terms).Ok? && terms.amount <= MAX_INT64 && 0 <= config.chargeGrace
    requires config.capability.refund && id !in config.foreign
    requires NANOS_PER_MICRO <= config.retryAfter
    ensures Behaviour(worlds, steps) && |worlds| == |steps| + 1 && CallRefund(0, RefundUnknown(true)) in steps
    ensures var w, s := worlds[|steps|], WithRefund(terms, FullRefund(terms, id));
            && w.config == config && w.now == Cut(terms.createdAt) + config.retryAfter
            && 1 !in w.runs
            && w.tables.row == Some(RowOf(CutState(s), 2))
            && w.tables.refunds == map[id := CutRefund(FullRefund(terms, id))]
            && w.gateway.ledger == map[id := terms.amount] && w.gateway.declined == {}
  {
    hide Behaviour, Enabled, Do, CutState, CutRefund, FullRefund;
    worlds, steps := RefundReserved(config, terms, id);
    var w := worlds[|steps|];
    CutIsNearestBelow(terms.createdAt);
    HeldIsOpen(terms, id);
    hide Cut;
    SendingRefund(w, w.runs[0].s, id, RefundUnknown(true));
    worlds, steps, w := Go(worlds, steps, CallRefund(0, RefundUnknown(true)));
    Ticking(w, Cut(terms.createdAt) + config.retryAfter);
    worlds, steps, w := Go(worlds, steps, Tick(Cut(terms.createdAt) + config.retryAfter));
  }

  lemma Ticking(w: World, to: Time)
    requires w.now <= to
    ensures Enabled(w, Tick(to)) && Do(w, Tick(to)) == w.(now := to)
  {
  }

  lemma SweepStarts(w: World, s: Session, todo: seq<Id>)
    requires RunAt(w, 1) == Ready(s, GoalSweep)
    ensures Enabled(w, LookUpRefunds(1, [], todo))
    ensures Do(w, LookUpRefunds(1, [], todo)) == SetRun(w, 1, Sweeping(s, todo, false, w.now))
  {
  }

  lemma SweepingOne(w: World, s: Session, id: Id)
    requires RunAt(w, 1) == Sweeping(s, [id], false, w.now)
    requires id in s.aggregate.state.refunds && id !in w.gateway.declined
    requires var r := s.aggregate.state.refunds[id];
             r.status == RefundPending && w.config.retryAfter <= w.now - r.createdAt < w.config.giveUpAfter
    requires CompleteRefund(s.aggregate, id, "G", w.now).Ok?
    ensures var a := CompleteRefund(s.aggregate, id, "G", w.now).value;
            && Enabled(w, SweepOne(1, Accepted("G")))
            && Do(w, SweepOne(1, Accepted("G")))
               == SetRun(w.(gateway := AfterRefundCall(w.gateway, id, s.aggregate.state.refunds[id].amount,
                   Accepted("G"))), 1,
                         Sweeping(s.(aggregate := a), [], true, w.now))
  {
    hide AfterRefundCall, CompleteRefund;
    assert [id][1..] == [];
  }

  lemma SavingSweep(w: World, s: Session)
    requires RunAt(w, 1) == Sweeping(s, [], true, w.now)
    ensures Enabled(w, SaveSweep(1, Commits))
    ensures Do(w, SaveSweep(1, Commits)) == SaveAndStop(w, 1, s.aggregate, Commits)
  {
    hide AfterSave;
  }

  /** The reconciler then sends the refund again under its key, which pays nothing twice, and records it. */
  lemma LostReplyIsSwept(config: Config, terms: Terms, id: Id) returns (worlds: seq<World>, steps: seq<Step>)
    requires New(terms).Ok? && terms.amount <= MAX_INT64 && 0 <= config.chargeGrace
    requires config.capability.refund && id !in config.foreign
    requires NANOS_PER_MICRO <= config.retryAfter < config.giveUpAfter
    ensures Behaviour(worlds, steps) && PaidBack(worlds[|steps|], terms, id)
    ensures CallRefund(0, RefundUnknown(true)) in steps && SweepOne(1, Accepted("G")) in steps
  {
    hide Behaviour, Enabled, Do, Save, SaveAndStop, CutTerms, CutRefund, CutRefunds, Cut, CutOption, Covers,
         RefundConstraints, CompleteRefund, OpenlyRefunding, WithRefund, FullRefund;
    var w, loaded;
    worlds, steps := ReplyLost(config, terms, id);
    worlds, steps, w := Load(worlds, steps, 1, GoalSweep);
    loaded := RunAt(w, 1).s.aggregate;
    LoadedBack(terms, id, loaded);
    SweepStarts(w, RunAt(w, 1).s, [id]);
    worlds, steps, w := Go(worlds, steps, LookUpRefunds(1, [], [id]));
    Completes(terms, id, loaded, w.now);
    SweepingOne(w, RunAt(w, 1).s, id);
    worlds, steps, w := Go(worlds, steps, SweepOne(1, Accepted("G")));
    SavingSweep(w, RunAt(w, 1).s);
    worlds, steps, w := SaveRun(worlds, steps, SaveSweep(1, Commits), 1, CompleteRefund(loaded, id, "G", w.now).value);
  }

  /** What a load makes of the payment with its open refund. */
  lemma LoadedBack(terms: Terms, id: Id, a: Aggregate)
    requires var s := CutState(WithRefund(terms, FullRefund(terms, id)));
             a == Aggregate(PaymentState(s.terms, s.status, s.gatewayTxId, s.paidAt, s.updatedAt,
                                         map[id := CutRefund(FullRefund(terms, id))]), 2, [])
    ensures OpenlyRefunding(a, terms, id)
    ensures a.state.refunds[id].status == RefundPending
    ensures a.state.refunds[id].createdAt == Cut(terms.createdAt) && a.state.refunds[id].amount == terms.amount
  {
    hide CutRefunds;
    CutTwice(WithRefund(terms, FullRefund(terms, id)));
    CutIsNearestBelow(terms.createdAt);
    assert KeepsRequest(CutRefund(FullRefund(terms, id)), CutRefund(FullRefund(terms, id)));
  }
}
