/** What holds in every behaviour of the protocol: any number of concurrent runs, interleaved at
    every store and gateway call, with lost replies, crashed runs and failing saves. */
module Theorems {
  import opened Outcomes
  import opened MapSum
  import opened PaymentDomain
  import opened Timestamps
  import opened EventLog
  import opened Store
  import opened Gateway
  import opened Commands
  import opened Protocol
  import opened Invariants
  import opened Sessions
  import opened Steps

  // ---------------------------------------------------------------- growth over whole behaviours

  lemma GrowsTransitive(a: World, b: World, c: World)
    requires Grows(a, b) && Grows(b, c)
    ensures Grows(a, c)
  {
    hide LostForGood;
    assert a.history == b.history[..|a.history|] == c.history[..|a.history|];
  }

  lemma StepGrows(w: World, step: Step)
    requires Inv(w) && Enabled(w, step)
    ensures Grows(w, Do(w, step))
  {
    hide Inv, Enabled, Grows;
    match step {
      case Tick(_) => GatewayStepGrows(w, step);
      case ChargeLands(_, _) => GatewayStepGrows(w, step);
      case TransactionEnds(_) => GatewayStepGrows(w, step);
      case RefundLands(_) => GatewayStepGrows(w, step);
      case CallCharge(_, _) => GatewayStepGrows(w, step);
      case CallRefund(_, _) => RefundStepGrows(w, step);
      case LookUpCharge(_, _) => CallStepGrows(w, step);
      case CancelCharge(_, _) => CallStepGrows(w, step);
      case LookUpRefunds(_, _, _) => CallStepGrows(w, step);
      case SweepOne(_, _) => RefundStepGrows(w, step);
      case CallCancel(_, _) => CallStepGrows(w, step);
      case SaveNew(_, _) => SaveNewGrows(w, step);
      case Start(_, _) => LoadStepGrows(w, step);
      case ReadRow(_) => LoadStepGrows(w, step);
      case ReadRefunds(_) => LoadStepGrows(w, step);
      case ReadRowOnly(_) => LoadStepGrows(w, step);
      case ReserveRefund(_, _, _) => ReserveStepGrows(w, step);
      case _ => SaveStepGrows(w, step);
    }
  }

  lemma GatewayStepGrows(w: World, step: Step)
    requires Inv(w) && Enabled(w, step)
    requires step.Tick? || step.ChargeLands? || step.TransactionEnds? || step.RefundLands? || step.CallCharge?
    ensures Grows(w, Do(w, step))
  {
    hide HistorySound, TablesSound, RunSound, AfterCharge;
  }

  lemma CallStepGrows(w: World, step: Step)
    requires Inv(w) && Enabled(w, step)
    requires step.LookUpCharge? || step.CancelCharge? || step.LookUpRefunds? || step.CallCancel?
    ensures Grows(w, Do(w, step))
  {
    hide HistorySound, TablesSound, RunSound, CreatorSound, RecordReply, ApplyRefundNotifications, Cancel;
  }

  lemma RefundAnswerGrows(w: World, id: Id, amount: int, outcome: RefundOutcome)
    ensures Grows(w, w.(gateway := AfterRefundCall(w.gateway, id, amount, outcome)))
  {
  }

  lemma RunsDoNotMatter(w: World, after: World, run: nat, r: Run)
    requires Grows(w, after)
    ensures Grows(w, SetRun(after, run, r))
  {
  }

  lemma RefundStepGrows(w: World, step: Step)
    requires step.CallRefund? || step.SweepOne?
    ensures Grows(w, Do(w, step))
  {
    hide Grows, RecordReply, SweepRefund, AfterRefundCall;
    var run := step.run;
    GrowsReflexive(w);
    if RunAt(w, run).CallingRefund? || (RunAt(w, run).Sweeping? && RunAt(w, run).todo != []) {
      var s := RunAt(w, run).s;
      var id := if RunAt(w, run).CallingRefund? then RunAt(w, run).refundId else RunAt(w, run).todo[0];
      RunsDoNotMatter(w, w, run, RunAt(Do(w, step), run));
      if id in s.aggregate.state.refunds {
        var amount := s.aggregate.state.refunds[id].amount;
        RefundAnswerGrows(w, id, amount, step.outcome);
        RunsDoNotMatter(w, w.(gateway := AfterRefundCall(w.gateway, id, amount, step.outcome)), run,
            RunAt(Do(w, step), run));
      }
    }
  }

  lemma LoadStepGrows(w: World, step: Step)
    requires step.Start? || step.ReadRow? || step.ReadRefunds? || step.ReadRowOnly?
    ensures Grows(w, Do(w, step))
  {
    hide Grows;
    var run := step.run;
    GrowsReflexive(w);
    RunsDoNotMatter(w, w, run, RunAt(Do(w, step), run));
  }

  lemma SaveNewGrows(w: World, step: Step)
    requires step.SaveNew?
    ensures Grows(w, Do(w, step))
  {
    hide AfterSave;
    if w.creator.Charged? {
      SaveGrows(w, w.creator.aggregate, step.taken, step.fate);
    }
  }

  lemma ReserveStepGrows(w: World, step: Step)
    requires step.ReserveRefund?
    ensures Grows(w, Do(w, step))
  {
    hide AfterSave, DecideRefund, Save, Grows;
    var run, id := step.run, step.refundId;
    GrowsReflexive(w);
    if RunAt(w, run).Ready? {
      RunsDoNotMatter(w, w, run, Stopped);
      var a := SavedBy(w, step);
      if a.Some? {
        var issuing := w.(issued := w.issued + {id});
        IssuingGrows(w, id);
        SaveGrows(issuing, a.value, false, step.fate);
        var after := AfterSave(issuing, a.value, false, step.fate);
        GrowsTransitive(w, issuing, after);
        RunsDoNotMatter(w, after, run, RunAt(Do(w, step), run));
      }
    }
  }

  lemma IssuingGrows(w: World, id: Id)
    ensures Grows(w, w.(issued := w.issued + {id}))
  {
  }

  lemma SaveStepGrows(w: World, step: Step)
    requires step.RecordRefund? || step.RecordAgain? || step.Notify? || step.SaveCharge? || step.SaveSweep?
             || step.SaveCancel?
             || step.Expire?
    ensures Grows(w, Do(w, step))
  {
    hide AfterSave, RecordReply, HandleNotification, SettleCharge, ExpireOverdue, MarkExpired, Save, Grows;
    var run := step.run;
    GrowsReflexive(w);
    RunsDoNotMatter(w, w, run, Stopped);
    var a := SavedBy(w, step);
    if a.Some? {
      SaveGrows(w, a.value, false, step.fate);
      RunsDoNotMatter(w, AfterSave(w, a.value, false, step.fate), run, RunAt(Do(w, step), run));
    }
  }

  /** Time, versions, the ledger and final gateway states only ever grow. */
  lemma {:induction false} BehaviourGrows(worlds: seq<World>, steps: seq<Step>, n: nat, m: nat)
    requires Behaviour(worlds, steps) && n <= m < |worlds|
    ensures Grows(worlds[n], worlds[m])
    decreases m
  {
    hide Inv, Do, Enabled, Grows, Init;
    if n == m {
      GrowsReflexive(worlds[n]);
    } else {
      BehaviourGrows(worlds, steps, n, m - 1);
      BehaviourSound(worlds, steps, m - 1);
      StepGrows(worlds[m - 1], steps[m - 1]);
      GrowsTransitive(worlds[n], worlds[m - 1], worlds[m]);
    }
  }

  lemma GrowsReflexive(w: World)
    ensures Grows(w, w)
  {
  }

  // ---------------------------------------------------------------- refunds

  /** Money paid back never exceeds what is reserved, nor what was paid; SUCCEEDED refunds are
      exactly in the ledger, FAILED ones are not and never will be. */
  lemma RefundsSafe(worlds: seq<World>, steps: seq<Step>, n: nat, m: nat)
    requires Behaviour(worlds, steps) && n <= m < |worlds|
    ensures var w := worlds[n];
            && Sum(w.gateway.ledger) <= Reserved(w.tables.refunds) <= w.terms.amount
            && (forall id :: id in w.gateway.ledger ==>
                  id in w.tables.refunds && w.gateway.ledger[id] == w.tables.refunds[id].amount)
            && (forall id :: id in w.tables.refunds && w.tables.refunds[id].status == RefundSucceeded ==>
                  id in w.gateway.ledger && w.gateway.ledger[id] == w.tables.refunds[id].amount)
            && (forall id :: id in w.tables.refunds && w.tables.refunds[id].status == RefundFailed ==>
                  id !in worlds[m].gateway.ledger)
  {
    hide Do, Enabled, Init;
    BehaviourSound(worlds, steps, n);
    BehaviourSound(worlds, steps, m);
    BehaviourGrows(worlds, steps, n, m);
    LedgerBelowReserve(worlds[n]);
    StoredVersion(worlds[n]);
    StoredVersion(worlds[m]);
  }

  /** The stored payment is the last version, so everything known of versions holds of it. */
  lemma StoredVersion(w: World)
    requires Inv(w)
    ensures w.history == [] ==> w.tables == NO_ROWS && w.gateway.ledger == map[]
    ensures w.history != [] ==>
              && w.tables.row.Some? && VersionSound(w, Version(StateOf(w.tables), LogOf(w.tables)))
              && w.tables.row.value.version == |w.history|
  {
    hide Grounded, Consistent, Legal, Replay, RunSound, CreatorSound, MethodRule;
    if w.history != [] {
      var last := w.history[|w.history| - 1];
      assert VersionSound(w, last);
      assert StateOf(w.tables) == last.state;
    } else {
      assert w.gateway.sent == map[];
    }
  }

  lemma LedgerBelowReserve(w: World)
    requires Inv(w)
    ensures Sum(w.gateway.ledger) <= Reserved(w.tables.refunds) <= w.terms.amount
  {
    hide RunSound, CreatorSound, Legal, Replay, MethodRule, HistorySound, TablesSound, DistinctReferences;
    StoredVersion(w);
    if w.history != [] {
      var refunds := w.tables.refunds;
      forall id | id in w.gateway.ledger
        ensures id in refunds && w.gateway.ledger[id] == ReservedWeights(refunds)[id]
      {
        assert id in w.gateway.sent;
      }
      SumMonotone(w.gateway.ledger, ReservedWeights(refunds));
    } else {
      assert ReservedWeights(map[]) == map[];
      assert Reserved(map[]) == 0;
    }
  }

  /** A stored refund is never removed, and what was requested never changes. */
  lemma RefundsStay(worlds: seq<World>, steps: seq<Step>, n: nat, m: nat)
    requires Behaviour(worlds, steps) && n <= m < |worlds|
    ensures forall id :: id in worlds[n].tables.refunds ==>
              id in worlds[m].tables.refunds && SameRequest(worlds[m].tables.refunds[id], worlds[n].tables.refunds[id])
  {
    hide Do, Enabled, Init, VersionSound, GatewaySound, RunSound, CreatorSound, Covers, KeepsRequest;
    BehaviourSound(worlds, steps, n);
    BehaviourSound(worlds, steps, m);
    BehaviourGrows(worlds, steps, n, m);
    StoredIsCut(worlds[m]);
    CoversExactly(worlds[m].tables.refunds, worlds[n].tables.refunds);
  }

  /** Stored refunds hold whole microseconds already. */
  lemma StoredIsCut(w: World)
    requires Inv(w)
    ensures CutRefunds(w.tables.refunds) == w.tables.refunds
  {
    hide Grounded, Consistent, Legal, Replay, RunSound, CreatorSound, MethodRule, GatewaySound, Cut, CutOption;
    if w.history != [] {
      assert VersionSound(w, w.history[|w.history| - 1]);
    }
  }

  lemma CoversExactly(refunds: map<Id, Refund>, stored: map<Id, Refund>)
    requires CutRefunds(refunds) == refunds
    ensures Covers(refunds, stored) || stored == map[] ==>
              forall id :: id in stored ==> id in refunds && SameRequest(refunds[id], stored[id])
  {
    hide Cut;
    forall id | id in refunds ensures Cut(refunds[id].createdAt) == refunds[id].createdAt {
      assert CutRefunds(refunds)[id] == refunds[id];
    }
  }

  /** Retrying a refund request is safe: once a refund is stored, a request with its reference, at any
      later time and whatever became of the refund, finds it instead of reserving another; with another
      amount it is refused. */
  lemma RetriesReplay(worlds: seq<World>, steps: seq<Step>, n: nat, m: nat, id: Id, a: Aggregate, cmd: RefundCommand,
      otherId: Id)
    requires Behaviour(worlds, steps) && n <= m < |worlds|
    requires id in worlds[n].tables.refunds && cmd.referenceId == worlds[n].tables.refunds[id].referenceId != ""
    requires worlds[m].tables.row.Some? && a.state == StateOf(worlds[m].tables)
    requires cmd.admin || cmd.callerService == a.state.terms.callerService
    ensures id in worlds[m].tables.refunds
    ensures DecideRefund(a, worlds[m].config.capability, cmd, otherId, worlds[m].now)
            == if cmd.amount != 0 && cmd.amount != worlds[n].tables.refunds[id].amount then Refuse(IdempotencyConflict)
               else ReplayEarlier(worlds[m].tables.refunds[id])
  {
    hide Behaviour, RefundOf, HasReference, Reserved, Succeeded, DistinctReferences;
    RefundsStay(worlds, steps, n, m);
    StatusAndRefundsAgree(worlds, steps, m);
    ReferenceDetermines(worlds[m].tables.refunds, id);
  }

  // ---------------------------------------------------------------- charges

  /** A stored FAILED payment was never paid and never will be; a paid one has settled money, for good.
      So only CANCELLED and EXPIRED can hide money the customer paid. */
  lemma ChargesSafe(worlds: seq<World>, steps: seq<Step>, n: nat, m: nat)
    requires Behaviour(worlds, steps) && n <= m < |worlds|
    requires worlds[n].tables.row.Some?
    ensures var status := worlds[n].tables.row.value.status;
            && (status == Failed ==> worlds[m].gateway.tx == TxFailed || LostForGood(worlds[m]))
            && (status == Failed ==> worlds[m].gateway.tx != TxSettled)
            && (status.WasPaid() ==> worlds[m].gateway.tx == TxSettled)
            && (status.IsTerminal() && !status.WasPaid() && worlds[m].gateway.tx == TxSettled ==>
                  status == Cancelled || status == Expired)
  {
    hide Do, Enabled, Init, RunSound, CreatorSound, Legal, Replay, MethodRule, Consistent;
    BehaviourSound(worlds, steps, n);
    BehaviourGrows(worlds, steps, n, m);
    StoredVersion(worlds[n]);
  }

  // ---------------------------------------------------------------- saves

  /** The aggregate a step saves, if it saves one. */
  ghost function SavedBy(w: World, step: Step): Option<Aggregate> {
    match step
    case SaveNew(_, _) => (match w.creator case Charged(a) => Some(a) case _ => None)
    case ReserveRefund(run, id, _) =>
      (match RunAt(w, run)
       case Ready(s, GoalRefund(cmd)) =>
         (match DecideRefund(s.aggregate, w.config.capability, cmd, id, w.now)
          case Reserve(a) => Some(a)
          case _ => None)
       case _ => None)
    case RecordRefund(run, _) =>
      (match RunAt(w, run)
       case Recording(s, id, reply) =>
         (match RecordReply(s.aggregate, id, reply, w.now) case Ok(a) => Some(a) case Err(_) => None)
       case _ => None)
    case RecordAgain(run, _) =>
      (match RunAt(w, run)
       case Ready(s, GoalRecord(id, reply)) =>
         (match RecordReply(s.aggregate, id, reply, w.now) case Ok(a) => Some(a) case Err(_) => None)
       case _ => None)
    case Notify(run, _) =>
      (match RunAt(w, run)
       case Ready(s, GoalNotification(n)) =>
         (match HandleNotification(s.aggregate, n, w.now)
          case Ok(applied) => if applied.changed then Some(applied.aggregate) else None
          case Err(_) => None)
       case _ => None)
    case SaveCharge(run, _) =>
      (match RunAt(w, run)
       case SettlingCharge(s, finding) =>
         (match SettleCharge(s.aggregate, finding, w.now) case Ok(a) => Some(a) case Err(_) => None)
       case _ => None)
    case SaveSweep(run, _) =>
      (match RunAt(w, run)
       case Sweeping(s, _, changed, _) => if changed then Some(s.aggregate) else None
       case _ => None)
    case SaveCancel(run, _) => (match RunAt(w, run) case SavingCancel(s) => Some(s.aggregate) case _ => None)
    case Expire(run, _) =>
      (match RunAt(w, run)
       case Ready(s, goal) =>
         (match (if goal.GoalExpiryJob? then ExpireOverdue(s.aggregate, w.now)
                 else Some(MarkExpired(s.aggregate, w.now)))
          case Some(Ok(a)) => Some(a)
          case _ => None)
       case _ => None)
    case _ => None
  }

  function FateOf(step: Step): Fate {
    match step
    case SaveNew(_, fate) => fate
    case ReserveRefund(_, _, fate) => fate
    case RecordRefund(_, fate) => fate
    case RecordAgain(_, fate) => fate
    case Notify(_, fate) => fate
    case SaveCharge(_, fate) => fate
    case SaveSweep(_, fate) => fate
    case SaveCancel(_, fate) => fate
    case Expire(_, fate) => fate
    case _ => Commits
  }

  predicate TakenOf(step: Step) {
    step.SaveNew? && step.taken
  }

  /** The payment a run has loaded. */
  function HeldBy(r: Run): Option<Session> {
    match r
    case Ready(s, _) => Some(s)
    case CallingRefund(s, _) => Some(s)
    case Recording(s, _, _) => Some(s)
    case CancellingCharge(s, _) => Some(s)
    case SettlingCharge(s, _) => Some(s)
    case Sweeping(s, _, _, _) => Some(s)
    case SavingCancel(s) => Some(s)
    case _ => None
  }

  /** The run a saving step belongs to. */
  function RunOf(step: Step): nat {
    match step
    case ReserveRefund(run, _, _) => run
    case RecordRefund(run, _) => run
    case RecordAgain(run, _) => run
    case Notify(run, _) => run
    case SaveCharge(run, _) => run
    case SaveSweep(run, _) => run
    case SaveCancel(run, _) => run
    case Expire(run, _) => run
    case _ => 0
  }

  /** Only saves touch the tables, and they do exactly what Save does. */
  lemma TablesChangeBySaves(w: World, step: Step)
    requires Inv(w) && Enabled(w, step)
    ensures match SavedBy(w, step)
            case None => Do(w, step).tables == w.tables
            case Some(a) => Do(w, step).tables == Save(w.tables, a, TakenOf(step), FateOf(step)).tables
  {
    hide Save, DecideRefund, RecordReply, HandleNotification, ApplyRefundNotifications, SettleCharge, AfterCharge,
         Inv, Loaded, AfterRefundCall, MayAnswerRefund, TrueNotification, TrueRefunds, AfterSave, MarkExpired, Cancel;
    if SavedBy(w, step).Some? {
      AfterSaveTables(w, SavedBy(w, step).value, TakenOf(step), FateOf(step));
      if step.ReserveRefund? {
        AfterSaveTables(w.(issued := w.issued + {step.refundId}), SavedBy(w, step).value, TakenOf(step), FateOf(step));
      }
    }
  }

  lemma AfterSaveTables(w: World, a: Aggregate, taken: bool, fate: Fate)
    ensures AfterSave(w, a, taken, fate).tables == Save(w.tables, a, taken, fate).tables
  {
    hide Save, StateOf, LogOf;
    SaveKeepsRow(w.tables, a, taken, fate);
  }

  /** A save that changes the tables leaves a row. */
  lemma SaveKeepsRow(t: Tables, a: Aggregate, taken: bool, fate: Fate)
    ensures var after := Save(t, a, taken, fate).tables; after == t || after.row.Some?
  {
  }

  lemma {:induction false} NotificationsKeepVersion(a: Aggregate, refunds: seq<RefundNotification>, now: Time)
    ensures ApplyRefundNotifications(a, refunds, now).aggregate.version == a.version
  {
    if refunds != [] {
      NotificationsKeepVersion(a, refunds[..|refunds| - 1], now);
    }
  }

  /** What a command does in memory keeps the version it loaded. */
  lemma SavedAtLoadedVersion(w: World, step: Step)
    requires Enabled(w, step) && SavedBy(w, step).Some? && !step.SaveNew?
    ensures var held := HeldBy(RunAt(w, RunOf(step)));
            held.Some? && SavedBy(w, step).value.version == held.value.aggregate.version
  {
    hide Refundable, HasReference, Succeeded;
    if step.Notify? {
      var goal := RunAt(w, step.run).goal;
      NotificationsKeepVersion(RunAt(w, step.run).s.aggregate, goal.n.refunds, w.now);
    }
  }

  /** A run saves the payment it loaded, as its command changed it. */
  lemma SavedIsSound(w: World, step: Step) returns (issued: set<Id>)
    requires Inv(w) && Enabled(w, step) && SavedBy(w, step).Some? && !step.SaveNew?
    ensures HeldBy(RunAt(w, RunOf(step))).Some?
    ensures SessionSound(w.(issued := issued),
            HeldBy(RunAt(w, RunOf(step))).value.(aggregate := SavedBy(w, step).value))
  {
    hide SessionSound, VersionSound, TablesSound, HistorySound, GatewaySound, DecideRefund, RecordReply,
         HandleNotification, SettleCharge, MarkExpired;
    var run := RunOf(step);
    var s, a := HeldBy(RunAt(w, run)).value, SavedBy(w, step).value;
    assert RunSound(w, w.runs[run]);
    issued := w.issued;
    match step {
      case ReserveRefund(_, id, _) =>
        issued := w.issued + {id};
        IssueKeeps(w, id);
        SessionStays(w, w.(issued := issued), s);
        UnissuedIsUnknown(w, s, id);
        assert AtRest(w.(issued := issued), s);
        ReserveSound(w.(issued := issued), s, RunAt(w, run).goal.cmd, id, w.now);
      case RecordRefund(_, _) => RecordReplySound(w, s, RunAt(w, run).refundId, RunAt(w, run).reply, w.now);
      case RecordAgain(_, _) => RecordReplySound(w, s, RunAt(w, run).goal.refundId, RunAt(w, run).goal.reply, w.now);
      case Notify(_, _) => HandleNotificationSound(w, s, RunAt(w, run).goal.n, w.now);
      case SaveCharge(_, _) => SettleChargeSound(w, s, RunAt(w, run).finding, w.now);
      case Expire(_, _) => MarkExpiredSound(w, s, w.now);
      case _ =>
    }
    if step.SaveSweep? || step.SaveCancel? {
      assert s.(aggregate := s.aggregate) == s;
    }
  }

  /** Every save by a run fits the tables it meets, in every reachable world. */
  lemma SavesFit(w: World, step: Step)
    requires Inv(w) && Enabled(w, step) && SavedBy(w, step).Some?
    ensures Fits(w.tables, SavedBy(w, step).value)
    ensures !step.SaveNew? ==> !IsNew(SavedBy(w, step).value) && w.tables.row.Some?
  {
    if step.SaveNew? {
      NewFits(w, w.creator.aggregate);
    } else {
      var issued := SavedIsSound(w, step);
      var s := HeldBy(RunAt(w, RunOf(step))).value.(aggregate := SavedBy(w, step).value);
      hide SavedBy, Enabled, HeldBy, RunAt;
      SessionFits(w, issued, s);
    }
  }

  lemma NewFits(w: World, a: Aggregate)
    requires Inv(w) && w.creator == Charged(a)
    ensures Fits(w.tables, a)
  {
    hide HistorySound, GatewaySound, RunSound, Legal, Replay;
    assert w.tables == NO_ROWS;
  }

  lemma SessionFits(w: World, issued: set<Id>, s: Session)
    requires StoreSound(w) && SessionSound(w.(issued := issued), s)
    ensures Fits(w.tables, s.aggregate) && !IsNew(s.aggregate) && w.tables.row.Some?
  {
    hide VersionSound, HistorySound, GatewaySound, Grounded, Tracks, MethodRule, IsNew, WellNumbered, LogOf, Covers,
         Reserved, Cut, CutOption, CutTerms, RefundConstraints;
    GroundedTermsOf(w.(issued := issued), s.aggregate.state);
    LastTerms(w);
    if w.tables.row.value.version == s.aggregate.version {
      assert Untorn(s) && s.base.refunds == w.tables.refunds;
      TrackedConstraints(w.history[s.aggregate.version - 1].log, s.aggregate);
    }
  }

  lemma TrackedConstraints(base: seq<Event>, a: Aggregate)
    requires Tracks(base, a)
    ensures RefundConstraints(a.state.refunds)
  {
  }

  /** Every save in every behaviour does what the in-memory repository's whole-payment replacement
      would do: same events, version, aggregate and error code, and the same payment up to the nanoseconds
      the columns cut off; the very same payment exactly if all its instants are whole microseconds. */
  lemma SavesRefineMemory(worlds: seq<World>, steps: seq<Step>, n: nat, m: Memory)
    requires Behaviour(worlds, steps) && n < |steps| && SavedBy(worlds[n], steps[n]).Some?
    requires InStep(worlds[n].tables, m)
    ensures var t, a := worlds[n].tables, SavedBy(worlds[n], steps[n]).value;
            var saved, expected := Save(t, a, TakenOf(steps[n]), Commits), Remember(m, a, TakenOf(steps[n]));
            && InStep(saved.tables, expected.memory)
            && saved.aggregate == expected.aggregate && saved.error == expected.error
            && (saved.error == None ==>
                  saved.tables.row.Some? && (StateOf(saved.tables) == a.state <==> WholeMicros(a.state)))
  {
    hide Inv, Do, Enabled, SavedBy, Save, Remember, InStep, Fits, WholeMicros;
    BehaviourSound(worlds, steps, n);
    SavesFit(worlds[n], steps[n]);
    var t, a := worlds[n].tables, SavedBy(worlds[n], steps[n]).value;
    SaveRefinesMemory(t, m, a, TakenOf(steps[n]));
    if Save(t, a, TakenOf(steps[n]), Commits).error == None {
      StoredExactlyIff(t, a, TakenOf(steps[n]));
    }
  }

  /** The in-memory repository, fed with every save of a behaviour that took effect. */
  ghost function MemoryOf(worlds: seq<World>, steps: seq<Step>, n: nat): Memory
    requires n <= |steps| < |worlds|
  {
    if n == 0 then Memory(None, [])
    else
      var before := MemoryOf(worlds, steps, n - 1);
      if worlds[n].tables == worlds[n - 1].tables then before
      else match SavedBy(worlds[n - 1], steps[n - 1])
        case None => before
        case Some(a) => Remember(before, a, TakenOf(steps[n - 1])).memory
  }

  /** It stays in step with the tables along the whole behaviour, whatever saves failed. */
  lemma {:induction false} TablesRefineMemory(worlds: seq<World>, steps: seq<Step>, n: nat)
    requires Behaviour(worlds, steps) && n <= |steps|
    ensures InStep(worlds[n].tables, MemoryOf(worlds, steps, n))
  {
    hide Inv, Do, Enabled, SavedBy, Save, Remember, InStep, Init;
    if n == 0 {
      InitInStep(worlds[0]);
    } else {
      TablesRefineMemory(worlds, steps, n - 1);
      var w, step := worlds[n - 1], steps[n - 1];
      BehaviourSound(worlds, steps, n - 1);
      TablesChangeBySaves(w, step);
      if worlds[n].tables != w.tables {
        var a := SavedBy(w, step).value;
        EffectIsCommit(w.tables, a, TakenOf(step), FateOf(step));
        SavesRefineMemory(worlds, steps, n - 1, MemoryOf(worlds, steps, n - 1));
      }
    }
  }

  lemma InitInStep(w: World)
    requires Init(w)
    ensures InStep(w.tables, Memory(None, []))
  {
  }

  /** A save that took effect did what a committing one does to the tables. */
  lemma EffectIsCommit(t: Tables, a: Aggregate, taken: bool, fate: Fate)
    requires Save(t, a, taken, fate).tables != t
    ensures Save(t, a, taken, fate).tables == Save(t, a, taken, Commits).tables
  {
    hide Upserted, RefundConstraints, LastSequence, Numbered, CutState, CutRefunds, IsNew;
  }

  /** Serialisability: when a run's save commits, what its two load queries returned, row and
      refunds, is exactly what is stored at that moment. */
  lemma CommitsSawTheStore(worlds: seq<World>, steps: seq<Step>, n: nat)
    requires Behaviour(worlds, steps) && n < |steps| && !steps[n].SaveNew?
    requires worlds[n + 1].tables != worlds[n].tables
    ensures var w := worlds[n];
            && SavedBy(w, steps[n]).Some? && w.tables.row.Some?
            && var held := HeldBy(RunAt(w, RunOf(steps[n])));
               held.Some? && Untorn(held.value) && held.value.base == StateOf(w.tables)
  {
    hide Inv, Do, Enabled, SavedBy, Save, HeldBy, RunAt, RunOf, Fits, VersionSound, HistorySound;
    var w, step := worlds[n], steps[n];
    BehaviourSound(worlds, steps, n);
    TablesChangeBySaves(w, step);
    SavesFit(w, step);
    SavedAtLoadedVersion(w, step);
    SaveChecksVersion(w.tables, SavedBy(w, step).value, TakenOf(step), FateOf(step));
    HeldIsLoaded(w, RunOf(step));
    InvTables(w);
    VersionCheckPasses(w, HeldBy(RunAt(w, RunOf(step))).value);
  }

  lemma InvTables(w: World)
    requires Inv(w)
    ensures TablesSound(w)
  {
  }

  lemma HeldIsLoaded(w: World, run: nat)
    requires Inv(w) && HeldBy(RunAt(w, run)).Some?
    ensures LoadedFrom(w, HeldBy(RunAt(w, run)).value) && WithinAmount(HeldBy(RunAt(w, run)).value.aggregate.state)
  {
    hide StoreSound, CreatorSound, Grounded, LoadedFrom, WithinAmount;
    assert RunSound(w, w.runs[run]);
  }

  /** A torn load is harmless: in no later world does any save at its version do more than answer
      CONFLICT. */
  lemma TornLoadsConflict(worlds: seq<World>, steps: seq<Step>, n: nat, m: nat, run: nat, a: Aggregate, fate: Fate)
    requires Behaviour(worlds, steps) && n <= m < |worlds|
    requires HeldBy(RunAt(worlds[n], run)).Some? && !Untorn(HeldBy(RunAt(worlds[n], run)).value)
    requires a.version == HeldBy(RunAt(worlds[n], run)).value.aggregate.version && !IsNew(a)
    ensures var saved := Save(worlds[m].tables, a, false, fate);
            && saved.tables == worlds[m].tables
            && saved.error == Some(if fate == FailsEarly then InternalError else Conflict)
  {
    hide Inv, Do, Enabled, HeldBy, RunAt, IsNew;
    BehaviourSound(worlds, steps, n);
    BehaviourSound(worlds, steps, m);
    BehaviourGrows(worlds, steps, n, m);
    HeldIsLoaded(worlds[n], run);
    InvTables(worlds[m]);
  }

  /** A payment loaded without its refunds commits only if it has none. */
  lemma LoadedWithoutRefundsHasNone(worlds: seq<World>, steps: seq<Step>, n: nat)
    requires Behaviour(worlds, steps) && n < |steps| && !steps[n].SaveNew?
    requires worlds[n + 1].tables != worlds[n].tables
    requires var held := HeldBy(RunAt(worlds[n], RunOf(steps[n]))); held.Some? && held.value.base.refunds == map[]
    ensures worlds[n].tables.refunds == map[]
  {
    hide Inv, Do, Enabled, SavedBy, HeldBy, RunAt, RunOf;
    CommitsSawTheStore(worlds, steps, n);
  }

  // ---------------------------------------------------------------- what is stored

  /** The stored events, numbered 1..n, are a legal log that rebuilds the stored payment: its status,
      gateway transaction and refunds exactly, its paid time up to the microsecond the column holds, and
      exactly if and only if it was paid at a whole microsecond. The outbox rows were inserted for the same
      events in the same order. */
  lemma LogRebuildsPayment(worlds: seq<World>, steps: seq<Step>, n: nat)
    requires Behaviour(worlds, steps) && n < |worlds| && worlds[n].tables.row.Some?
    ensures var t := worlds[n].tables;
            var rebuilt, stored := Replay(LogOf(t)), Summarize(StateOf(t));
            && (rebuilt.status, rebuilt.gatewayTxId, rebuilt.refunds)
               == (stored.status, stored.gatewayTxId, stored.refunds)
            && stored.paidAt == CutOption(rebuilt.paidAt)
            && (rebuilt == stored <==> WholeOption(rebuilt.paidAt))
            && (forall i :: 0 <= i < |t.events| ==> t.events[i].sequence == i + 1)
            && t.outbox == LogOf(t)
            && Legal(worlds[n].terms.amount, LogOf(t))
            && |LogOf(t)| <= 3 + 2 * |t.refunds|
  {
    hide Do, Enabled, RunSound, CreatorSound, Legal, Replay, Grounded, MethodRule, Consistent, GatewaySound,
         HistorySound, CutState;
    var w := worlds[n];
    BehaviourSound(worlds, steps, n);
    StoredVersion(w);
    LegalLogShape(w.terms.amount, LogOf(w.tables));
    assert Summarize(StateOf(w.tables)).refunds.Keys == w.tables.refunds.Keys;
    assert |Summarize(StateOf(w.tables)).refunds| == |w.tables.refunds|;
  }

  /** Status and refunds agree in everything that is stored. */
  lemma StatusAndRefundsAgree(worlds: seq<World>, steps: seq<Step>, n: nat)
    requires Behaviour(worlds, steps) && n < |worlds| && worlds[n].tables.row.Some?
    ensures var s := StateOf(worlds[n].tables);
            && (!s.status.WasPaid() <==> s.paidAt.None?)
            && (!s.status.WasPaid() ==> s.refunds == map[])
            && (s.status == Completed ==> forall id :: id in s.refunds ==> s.refunds[id].status != RefundSucceeded)
            && (s.status == PartiallyRefunded ==> 0 < Succeeded(s.refunds) < s.terms.amount)
            && (s.status == Refunded ==>
                  && Succeeded(s.refunds) == s.terms.amount
                  && forall id :: id in s.refunds ==> s.refunds[id].status != RefundPending)
            && 0 <= Succeeded(s.refunds) <= Reserved(s.refunds) <= s.terms.amount <= MAX_INT64
            && Reserved(s.refunds) + Refundable(s) == s.terms.amount
            && DistinctReferences(s.refunds)
  {
    hide Do, Enabled, RunSound, CreatorSound, Legal, Replay, Grounded, MethodRule, TablesSound, GatewaySound,
         HistorySound, DistinctReferences, Succeeded, Reserved;
    BehaviourSound(worlds, steps, n);
    StoredVersion(worlds[n]);
    var s := StateOf(worlds[n].tables);
    assert Consistent(s);
    SucceededBounds(s);
    forall id | id in s.refunds && s.status == Refunded ensures s.refunds[id].status != RefundPending {
      RefundedHasNothingPending(s, id);
    }
    forall id | id in s.refunds && s.status == Completed ensures s.refunds[id].status != RefundSucceeded {
      if s.refunds[id].status == RefundSucceeded {
        SucceededHasAmount(s, id);
      }
    }
  }

  lemma SucceededHasAmount(s: PaymentState, id: Id)
    requires WithinAmount(s) && id in s.refunds && s.refunds[id].status == RefundSucceeded
    ensures s.refunds[id].amount <= Succeeded(s.refunds)
  {
    SumAtLeast(SucceededWeights(s.refunds), id);
  }

  /** Even the payment of a torn load reserves no more than was paid, so no int64 sum overflows. */
  lemma HeldPaymentsStayWithinAmount(worlds: seq<World>, steps: seq<Step>, n: nat, run: nat)
    requires Behaviour(worlds, steps) && n < |worlds| && HeldBy(RunAt(worlds[n], run)).Some?
    ensures var s := HeldBy(RunAt(worlds[n], run)).value.aggregate.state;
            0 <= Succeeded(s.refunds) <= Reserved(s.refunds) <= s.terms.amount <= MAX_INT64
  {
    hide Inv, Do, Enabled, HeldBy, RunAt;
    BehaviourSound(worlds, steps, n);
    HeldIsLoaded(worlds[n], run);
    SucceededBounds(HeldBy(RunAt(worlds[n], run)).value.aggregate.state);
  }

  /** A method that cannot be refunded never has a refund; one that only takes full refunds is never
      PARTIALLY_REFUNDED and has at most one refund that has not failed, for the full amount. */
  lemma MethodsRespected(worlds: seq<World>, steps: seq<Step>, n: nat)
    requires Behaviour(worlds, steps) && n < |worlds| && worlds[n].tables.row.Some?
    ensures var s, capability := StateOf(worlds[n].tables), worlds[n].config.capability;
            && (!capability.refund ==> s.refunds == map[])
            && (!capability.partialRefund ==>
                  && s.status != PartiallyRefunded
                  && (forall id :: id in s.refunds && s.refunds[id].status != RefundFailed ==>
                     s.refunds[id].amount == s.terms.amount)
                  && (forall i, j :: i in s.refunds && j in s.refunds && i != j ==>
                        s.refunds[i].status == RefundFailed || s.refunds[j].status == RefundFailed))
  {
    hide Do, Enabled, RunSound, CreatorSound, Legal, Replay, Grounded, TablesSound, GatewaySound, HistorySound;
    BehaviourSound(worlds, steps, n);
    StoredVersion(worlds[n]);
    var s, capability := StateOf(worlds[n].tables), worlds[n].config.capability;
    if !capability.partialRefund {
      FullRefundsOnly(s);
    }
  }

  lemma FullRefundsOnly(s: PaymentState)
    requires Consistent(s)
    requires forall id :: id in s.refunds && s.refunds[id].status != RefundFailed ==>
             s.refunds[id].amount == s.terms.amount
    ensures s.status != PartiallyRefunded
    ensures forall i, j :: i in s.refunds && j in s.refunds && i != j ==>
              s.refunds[i].status == RefundFailed || s.refunds[j].status == RefundFailed
  {
    var weights := ReservedWeights(s.refunds);
    forall i, j | i in s.refunds && j in s.refunds && i != j
      ensures s.refunds[i].status == RefundFailed || s.refunds[j].status == RefundFailed
    {
      SumAtLeastTwo(weights, i, j);
    }
    if s.status == PartiallyRefunded {
      if id :| id in s.refunds && s.refunds[id].status == RefundSucceeded {
        SucceededHasAmount(s, id);
      } else {
        SumZero(SucceededWeights(s.refunds));
      }
    }
  }
}
