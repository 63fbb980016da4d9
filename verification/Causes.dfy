/** Why the stored payment says what it says: every refund answers a request its requester was entitled to,
    the paid time is the moment the settlement was handled, and a payment is cancelled or expired only by
    those who may. */
module Causes {
  import opened Outcomes
  import opened PaymentDomain
  import opened Timestamps
  import opened EventLog
  import opened Store
  import opened Gateway
  import opened Commands
  import opened Protocol
  import opened Invariants
  import opened Steps
  import opened Theorems

  // ---------------------------------------------------------------- what a run is for

  function GoalOf(r: Run): Option<Goal> {
    match r
    case Waiting(goal) => Some(goal)
    case RowRead(_, goal) => Some(goal)
    case Ready(_, goal) => Some(goal)
    case _ => None
  }

  /** A run's goal is the one it was started with, except that a conflict makes it record again. */
  lemma GoalComesFrom(w: World, step: Step, run: nat)
    requires GoalOf(RunAt(Do(w, step), run)).Some? && !GoalOf(RunAt(Do(w, step), run)).value.GoalRecord?
    ensures GoalOf(RunAt(Do(w, step), run)) == GoalOf(RunAt(w, run))
            || step == Start(run, GoalOf(RunAt(Do(w, step), run)).value)
  {
    hide Save, StateOf, LogOf, DecideRefund, RecordReply, HandleNotification, ApplyRefundNotifications, SettleCharge,
         AfterCharge, AfterRefundCall, SweepRefundOf, MarkExpired, ExpireOverdue, CancelOwn, Loaded;
    if step.SweepOne? {
      SweepingStaysSweeping(w, step.run, step.outcome);
    }
  }

  lemma SweepingStaysSweeping(w: World, run: nat, outcome: RefundOutcome)
    ensures DoSweepOne(w, run, outcome) == w
            || (RunAt(DoSweepOne(w, run, outcome), run).Sweeping?
                && DoSweepOne(w, run, outcome).runs == w.runs[run := RunAt(DoSweepOne(w, run, outcome), run)])
  {
    hide AfterRefundCall, RecordReply, SweepRefund;
  }

  lemma {:induction false} GoalsAreStarted(worlds: seq<World>, steps: seq<Step>, n: nat, run: nat, goal: Goal)
    requires Behaviour(worlds, steps) && n < |worlds|
    requires GoalOf(RunAt(worlds[n], run)) == Some(goal) && !goal.GoalRecord?
    ensures Start(run, goal) in steps[..n]
  {
    hide Do, Enabled;
    if n > 0 {
      assert steps[..n] == steps[..n - 1] + [steps[n - 1]];
      GoalComesFrom(worlds[n - 1], steps[n - 1], run);
      if GoalOf(RunAt(worlds[n - 1], run)) == Some(goal) {
        GoalsAreStarted(worlds, steps, n - 1, run, goal);
      }
    }
  }

  // ---------------------------------------------------------------- refunds answer requests

  /** cmd asks for the refund r of a payment of callerService, and may. */
  predicate Asks(cmd: RefundCommand, callerService: string, r: Refund) {
    && (cmd.admin || cmd.callerService == callerService)
    && r.requestedBy == (if cmd.admin then "admin" else callerService)
    && r.referenceId == cmd.referenceId != "" && r.reason == cmd.reason
    && (cmd.amount == 0 || cmd.amount == r.amount)
  }

  ghost predicate Asked(steps: seq<Step>, callerService: string, r: Refund) {
    exists k, run, cmd :: 0 <= k < |steps| && steps[k] == Start(run, GoalRefund(cmd)) && Asks(cmd, callerService, r)
  }

  lemma AskedStays(steps: seq<Step>, step: Step, callerService: string, r: Refund)
    requires Asked(steps, callerService, r)
    ensures Asked(steps + [step], callerService, r)
  {
    var k, run, cmd :| 0 <= k < |steps| && steps[k] == Start(run, GoalRefund(cmd)) && Asks(cmd, callerService, r);
    assert (steps + [step])[k] == steps[k];
  }

  /** A reservation adds one refund, which the command asks for. */
  lemma ReserveAsks(a: Aggregate, capability: Capability, cmd: RefundCommand, id: Id, now: Time)
    requires DecideRefund(a, capability, cmd, id, now).Reserve?
    ensures var after := DecideRefund(a, capability, cmd, id, now).aggregate.state.refunds;
            && id in after && after == a.state.refunds[id := after[id]]
            && Asks(cmd, a.state.terms.callerService, after[id])
  {
    hide HasReference, Reserved;
  }

  lemma {:induction false} NotificationsKeepKeys(a: Aggregate, refunds: seq<RefundNotification>, now: Time)
    ensures ApplyRefundNotifications(a, refunds, now).aggregate.state.refunds.Keys == a.state.refunds.Keys
    ensures forall e :: e in ApplyRefundNotifications(a, refunds, now).aggregate.events ==>
              e in a.events || e.RefundCompleted?
  {
    hide Succeeded;
    if refunds != [] {
      NotificationsKeepKeys(a, refunds[..|refunds| - 1], now);
    }
  }

  lemma RecordKeepsKeys(a: Aggregate, id: Id, reply: RefundReply, now: Time)
    requires RecordReply(a, id, reply, now).Ok?
    ensures RecordReply(a, id, reply, now).value.state.refunds.Keys == a.state.refunds.Keys
    ensures forall e :: e in RecordReply(a, id, reply, now).value.events ==>
              e in a.events || e.RefundCompleted? || e.RefundDeclined?
  {
    hide Succeeded;
  }

  /** Only a reservation brings a new refund. */
  lemma SavedKeys(w: World, step: Step)
    requires SavedBy(w, step).Some? && !step.SaveNew? && !step.ReserveRefund?
    ensures var held := HeldBy(RunAt(w, RunOf(step)));
            held.Some? && SavedBy(w, step).value.state.refunds.Keys == held.value.aggregate.state.refunds.Keys
  {
    hide RecordReply, ApplyRefundNotifications, DecideRefund;
    match step {
      case RecordRefund(run, _) =>
        RecordKeepsKeys(RunAt(w, run).s.aggregate, RunAt(w, run).refundId, RunAt(w, run).reply, w.now);
      case RecordAgain(run, _) =>
        RecordKeepsKeys(RunAt(w, run).s.aggregate, RunAt(w, run).goal.refundId, RunAt(w, run).goal.reply, w.now);
      case Notify(run, _) =>
        NotificationsKeepKeys(RunAt(w, run).s.aggregate, RunAt(w, run).goal.n.refunds, w.now);
      case _ =>
    }
  }

  /** What a committing save leaves of the refunds. */
  lemma SaveLeavesRefunds(worlds: seq<World>, steps: seq<Step>, n: nat)
    requires Behaviour(worlds, steps) && n < |steps| && worlds[n + 1].tables != worlds[n].tables
    ensures SavedBy(worlds[n], steps[n]).Some?
    ensures var a := SavedBy(worlds[n], steps[n]).value;
            && worlds[n + 1].tables.row.Some? && worlds[n + 1].tables.refunds == CutRefunds(a.state.refunds)
            && worlds[n + 1].tables.row.value.status == a.state.status
            && LogOf(worlds[n + 1].tables) == LogOf(worlds[n].tables) + a.events
            && StateOf(worlds[n + 1].tables) == CutState(a.state)
  {
    hide Do, Enabled, Inv, SavedBy, Cut, CutOption, CutRefunds, Init;
    var w, step := worlds[n], steps[n];
    BehaviourSound(worlds, steps, n);
    TablesChangeBySaves(w, step);
    SavesFit(w, step);
    InvTables(w);
    var a := SavedBy(w, step).value;
    hide TablesSound;
    FittingSaveLeaves(w.tables, a, TakenOf(step), FateOf(step));
  }

  lemma FittingSaveLeaves(t: Tables, a: Aggregate, taken: bool, fate: Fate)
    requires Fits(t, a) && Save(t, a, taken, fate).tables != t
    ensures var after := Save(t, a, taken, fate).tables;
            && after.row.Some? && StateOf(after) == CutState(a.state) && LogOf(after) == LogOf(t) + a.events
  {
    EffectIsCommit(t, a, taken, fate);
    var row := if IsNew(a) then RowOf(CutState(a.state), 1) else UpdatedRow(t.row.value, CutState(a.state));
    WriteReplaces(t, a, row, row.version);
    hide Cut, CutOption, CutRefunds, Covers, RefundConstraints, IsNew, LogOf, Write;
  }

  lemma SameColumnsAsked(steps: seq<Step>, callerService: string, r: Refund, later: Refund)
    requires Asked(steps, callerService, r)
    requires r.requestedBy == later.requestedBy && r.referenceId == later.referenceId
    requires r.reason == later.reason && r.amount == later.amount
    ensures Asked(steps, callerService, later)
  {
    var k, run, cmd :| 0 <= k < |steps| && steps[k] == Start(run, GoalRefund(cmd)) && Asks(cmd, callerService, r);
    assert Asks(cmd, callerService, later);
  }

  lemma HeldRests(w: World, run: nat)
    requires Inv(w) && HeldBy(RunAt(w, run)).Some?
    ensures var s := HeldBy(RunAt(w, run)).value;
            AtRest(w, s) && s.aggregate.state.terms.callerService == w.terms.callerService
  {
    hide StoreSound, CreatorSound, LoadedFrom, WithinAmount, Covers, Tracks, MethodRule, Cut, CutOption;
    assert RunSound(w, w.runs[run]);
    var s := HeldBy(RunAt(w, run)).value;
    assert CutTerms(s.aggregate.state.terms).callerService == CutTerms(w.terms).callerService;
  }

  /** A save by a run keeps the stored refunds' columns, and adds none but a reservation's. */
  lemma SavedRefunds(worlds: seq<World>, steps: seq<Step>, n: nat)
    requires Behaviour(worlds, steps) && n < |steps| && worlds[n + 1].tables != worlds[n].tables && !steps[n].SaveNew?
    ensures forall id :: id in worlds[n].tables.refunds ==>
              id in worlds[n + 1].tables.refunds
              && SameRequest(worlds[n + 1].tables.refunds[id], worlds[n].tables.refunds[id])
    ensures steps[n].ReserveRefund? || worlds[n + 1].tables.refunds.Keys == worlds[n].tables.refunds.Keys
    ensures steps[n].ReserveRefund? ==>
              var after, run, id := worlds[n + 1].tables.refunds, steps[n].run, steps[n].refundId;
              && after.Keys <= worlds[n].tables.refunds.Keys + {id}
              && GoalOf(RunAt(worlds[n], run)).Some? && GoalOf(RunAt(worlds[n], run)).value.GoalRefund?
              && id in after
              && Asks(GoalOf(RunAt(worlds[n], run)).value.cmd, worlds[n].terms.callerService, after[id])
  {
    hide Do, Enabled, Inv, Init, SavedBy, HeldBy, RunAt, RunOf, Cut, CutOption, SameRequest, Asks;
    var w, step := worlds[n], steps[n];
    RefundsStay(worlds, steps, n, n + 1);
    SaveLeavesRefunds(worlds, steps, n);
    CommitsSawTheStore(worlds, steps, n);
    BehaviourSound(worlds, steps, n);
    HeldRests(w, RunOf(step));
    if step.ReserveRefund? {
      ReservationAsks(w, step.run, step.refundId, step.fate);
    } else {
      SavedKeys(w, step);
    }
  }

  lemma ReservationAsks(w: World, run: nat, id: Id, fate: Fate)
    requires SavedBy(w, ReserveRefund(run, id, fate)).Some?
    ensures var r, after := RunAt(w, run), SavedBy(w, ReserveRefund(run, id, fate)).value.state.refunds;
            && r.Ready? && r.goal.GoalRefund? && id in after
            && after.Keys == r.s.aggregate.state.refunds.Keys + {id}
            && Asks(r.goal.cmd, r.s.aggregate.state.terms.callerService, CutRefund(after[id]))
            && RunOf(ReserveRefund(run, id, fate)) == run && HeldBy(r) == Some(r.s)
            && GoalOf(r) == Some(r.goal)
  {
    hide DecideRefund;
    var r := RunAt(w, run);
    ReserveAsks(r.s.aggregate, w.config.capability, r.goal.cmd, id, w.now);
  }

  /** Every stored refund answers a request that some run was started with: by an admin or by the payment's
      own service, with the refund's reference and reason, and for its amount or for all that was left. */
  lemma {:induction false} RefundsAnswerRequests(worlds: seq<World>, steps: seq<Step>, n: nat)
    requires Behaviour(worlds, steps) && n < |worlds|
    ensures worlds[n].terms == worlds[0].terms
    ensures forall id :: id in worlds[n].tables.refunds ==>
              Asked(steps[..n], worlds[n].terms.callerService, worlds[n].tables.refunds[id])
  {
    hide Do, Enabled, Inv, Asked, Asks;
    if n > 0 {
      RefundsAnswerRequests(worlds, steps, n - 1);
      BehaviourGrows(worlds, steps, n - 1, n);
      hide Init;
      var before, after := worlds[n - 1].tables, worlds[n].tables;
      assert steps[..n] == steps[..n - 1] + [steps[n - 1]];
      forall id | id in before.refunds ensures Asked(steps[..n], worlds[n].terms.callerService, before.refunds[id]) {
        AskedStays(steps[..n - 1], steps[n - 1], worlds[n].terms.callerService, before.refunds[id]);
      }
      if after != before {
        if steps[n - 1].SaveNew? {
          NothingRefundedYet(worlds, steps, n - 1);
        } else {
          SavedRefunds(worlds, steps, n - 1);
          forall id | id in after.refunds ensures Asked(steps[..n], worlds[n].terms.callerService, after.refunds[id]) {
            if id in before.refunds {
              SameColumnsAsked(steps[..n], worlds[n].terms.callerService, before.refunds[id], after.refunds[id]);
            } else {
              var goal := GoalOf(RunAt(worlds[n - 1], steps[n - 1].run)).value;
              GoalsAreStarted(worlds, steps, n - 1, steps[n - 1].run, goal);
              StartedAsks(steps[..n], steps[n - 1].run, goal.cmd, worlds[n].terms.callerService, after.refunds[id]);
            }
          }
        }
      }
    }
  }

  lemma StartedAsks(steps: seq<Step>, run: nat, cmd: RefundCommand, callerService: string, r: Refund)
    requires Start(run, GoalRefund(cmd)) in steps && Asks(cmd, callerService, r)
    ensures Asked(steps, callerService, r)
  {
    var k :| 0 <= k < |steps| && steps[k] == Start(run, GoalRefund(cmd));
  }

  lemma NothingRefundedYet(worlds: seq<World>, steps: seq<Step>, n: nat)
    requires Behaviour(worlds, steps) && n < |steps| && steps[n].SaveNew? && worlds[n + 1].tables != worlds[n].tables
    ensures worlds[n + 1].tables.refunds == map[]
  {
    hide StoreSound, RunSound, Save, Init;
    SaveLeavesRefunds(worlds, steps, n);
    BehaviourSound(worlds, steps, n);
    assert CutRefunds(map[]) == map[];
  }

  // ---------------------------------------------------------------- who closes a payment, and when

  /** Between two calls a run holds no event that says the payment was paid or expired, and one that says it
      was cancelled only while it cancels. */
  predicate Quiet(r: Run) {
    HeldBy(r).Some? ==>
      forall e :: e in HeldBy(r).value.aggregate.events ==>
        !e.PaymentCompleted? && !e.PaymentExpired? && (e.PaymentCancelled? ==> r.SavingCancel?)
  }

  predicate AllQuiet(w: World) {
    forall run :: run in w.runs ==> Quiet(w.runs[run])
  }

  lemma SaveDrains(t: Tables, a: Aggregate, taken: bool, fate: Fate)
    requires Save(t, a, taken, fate).error == None
    ensures Save(t, a, taken, fate).aggregate.events == []
  {
    hide Upserted, RefundConstraints, LastSequence, Numbered, CutState, CutRefunds, IsNew;
  }

  predicate Loads(step: Step) {
    step.Start? || step.ReadRow? || step.ReadRefunds? || step.ReadRowOnly?
  }

  predicate Calls(step: Step) {
    step.CallRefund? || step.LookUpCharge? || step.CancelCharge? || step.LookUpRefunds? || step.CallCancel?
  }

  predicate SavesRun(step: Step) {
    step.RecordRefund? || step.RecordAgain? || step.Notify? || step.SaveCharge? || step.SaveSweep? || step.SaveCancel?
    || step.Expire?
  }

  predicate OfRun(step: Step) {
    Loads(step) || Calls(step) || SavesRun(step) || step.SweepOne? || step.ReserveRefund?
  }

  /** A step changes at most its own run. */
  lemma OtherRunsStay(w: World, step: Step)
    ensures if OfRun(step)
            then Do(w, step).runs == w.runs || Do(w, step).runs == w.runs[step.run := RunAt(Do(w, step), step.run)]
            else Do(w, step).runs == w.runs
  {
    hide Do, SetRun, RunAt;
    if Loads(step) {
      LoadsOwnRun(w, step);
    } else if Calls(step) {
      CallsOwnRun(w, step);
    } else if SavesRun(step) {
      SavesOwnRun(w, step);
    } else if step.ReserveRefund? {
      ReservesOwnRun(w, step);
    } else {
      OtherStepsRuns(w, step);
    }
  }

  lemma LoadsOwnRun(w: World, step: Step)
    requires Loads(step)
    ensures Do(w, step).runs == w.runs || Do(w, step).runs == w.runs[step.run := RunAt(Do(w, step), step.run)]
  {
    hide Loaded;
  }

  lemma CallsOwnRun(w: World, step: Step)
    requires Calls(step)
    ensures Do(w, step).runs == w.runs || Do(w, step).runs == w.runs[step.run := RunAt(Do(w, step), step.run)]
    ensures var r := RunAt(Do(w, step), step.run); Do(w, step).runs == w.runs || (!r.Ready? && !r.RowRead?)
  {
    hide AfterRefundCall, AfterCancelCall, ApplyRefundNotifications, CancelOwn;
  }

  lemma SavesOwnRun(w: World, step: Step)
    requires SavesRun(step)
    ensures Do(w, step).runs == w.runs || Do(w, step).runs == w.runs[step.run := RunAt(Do(w, step), step.run)]
    ensures Do(w, step).runs == w.runs || RunAt(Do(w, step), step.run).Stopped? || RunAt(Do(w, step), step.run).Waiting?
  {
    hide Do;
    if step.RecordRefund? || step.RecordAgain? || step.Notify? {
      AnswersOwnRun(w, step);
    } else {
      ClosesOwnRun(w, step);
    }
  }

  lemma AnswersOwnRun(w: World, step: Step)
    requires step.RecordRefund? || step.RecordAgain? || step.Notify?
    ensures Do(w, step).runs == w.runs || Do(w, step).runs == w.runs[step.run := RunAt(Do(w, step), step.run)]
    ensures Do(w, step).runs == w.runs || RunAt(Do(w, step), step.run).Stopped? || RunAt(Do(w, step), step.run).Waiting?
  {
    hide Save, StateOf, LogOf, RecordReply, HandleNotification;
  }

  lemma ClosesOwnRun(w: World, step: Step)
    requires step.SaveCharge? || step.SaveSweep? || step.SaveCancel? || step.Expire?
    ensures Do(w, step).runs == w.runs || Do(w, step).runs == w.runs[step.run := RunAt(Do(w, step), step.run)]
    ensures Do(w, step).runs == w.runs || RunAt(Do(w, step), step.run).Stopped? || RunAt(Do(w, step), step.run).Waiting?
  {
    hide Save, StateOf, LogOf, SettleCharge, MarkExpired, ExpireOverdue;
  }

  lemma ReservesOwnRun(w: World, step: Step)
    requires step.ReserveRefund?
    ensures Do(w, step).runs == w.runs || Do(w, step).runs == w.runs[step.run := RunAt(Do(w, step), step.run)]
    ensures var r := RunAt(Do(w, step), step.run);
            Do(w, step).runs == w.runs || r.Stopped? || (r.CallingRefund? && r.s.aggregate.events == [])
  {
    hide Save, StateOf, LogOf, DecideRefund, CutState;
    var r := RunAt(w, step.run);
    if r.Ready? && r.goal.GoalRefund? {
      var decided := DecideRefund(r.s.aggregate, w.config.capability, r.goal.cmd, step.refundId, w.now);
      if decided.Reserve? && Save(w.tables, decided.aggregate, false, step.fate).error == None {
        SaveDrains(w.tables, decided.aggregate, false, step.fate);
      }
    }
  }

  lemma OtherStepsRuns(w: World, step: Step)
    requires !Loads(step) && !Calls(step) && !SavesRun(step) && !step.ReserveRefund?
    ensures if step.SweepOne? then DoSweepOne(w, step.run, step.outcome) == Do(w, step) else Do(w, step).runs == w.runs
    ensures step.SweepOne? ==>
              Do(w, step).runs == w.runs || Do(w, step).runs == w.runs[step.run := RunAt(Do(w, step), step.run)]
  {
    hide Save, StateOf, LogOf, AfterCharge, DoSweepOne;
    if step.SweepOne? {
      SweepingStaysSweeping(w, step.run, step.outcome);
    }
  }

  lemma StepStaysQuiet(w: World, step: Step)
    requires AllQuiet(w)
    ensures AllQuiet(Do(w, step))
  {
    hide Do, Quiet;
    OtherRunsStay(w, step);
    if OfRun(step) {
      StoppedIsQuiet();
      assert Quiet(RunAt(w, step.run));
      RunStaysQuiet(w, step);
    }
  }

  lemma StoppedIsQuiet()
    ensures Quiet(Stopped)
  {
  }

  lemma RunStaysQuiet(w: World, step: Step)
    requires OfRun(step) && Quiet(RunAt(w, step.run))
    ensures Do(w, step).runs == w.runs || Quiet(RunAt(Do(w, step), step.run))
  {
    hide Do, RunAt;
    if Loads(step) {
      LoadStaysQuiet(w, step);
    } else if Calls(step) {
      CallStaysQuiet(w, step);
    } else if SavesRun(step) {
      SavesOwnRun(w, step);
    } else if step.ReserveRefund? {
      ReservesOwnRun(w, step);
    } else {
      SweepStaysQuiet(w, step);
    }
  }

  lemma LoadStaysQuiet(w: World, step: Step)
    requires Loads(step) && Quiet(RunAt(w, step.run))
    ensures Quiet(RunAt(Do(w, step), step.run))
  {
  }

  lemma CallStaysQuiet(w: World, step: Step)
    requires Calls(step) && Quiet(RunAt(w, step.run))
    ensures Quiet(RunAt(Do(w, step), step.run))
  {
    hide AfterRefundCall, AfterCancelCall, DoLookUpRefunds;
    if step.LookUpRefunds? {
      LookUpStaysQuiet(w, step.run, step.refunds, step.todo);
    }
  }

  lemma LookUpStaysQuiet(w: World, run: nat, refunds: seq<RefundNotification>, todo: seq<Id>)
    requires Quiet(RunAt(w, run))
    ensures Quiet(RunAt(DoLookUpRefunds(w, run, refunds, todo), run))
  {
    hide ApplyRefundNotifications;
    if RunAt(w, run).Ready? {
      NotificationsKeepKeys(RunAt(w, run).s.aggregate, refunds, w.now);
    }
  }

  lemma SweepStaysQuiet(w: World, step: Step)
    requires step.SweepOne? && Quiet(RunAt(w, step.run))
    ensures Quiet(RunAt(Do(w, step), step.run))
  {
    hide AfterRefundCall, RecordReply, SweepRefund;
    var r := RunAt(w, step.run);
    if r.Sweeping? && r.todo != [] && ReplyOf(step.outcome).Some?
       && RecordReply(r.s.aggregate, r.todo[0], ReplyOf(step.outcome).value, w.now).Ok? {
      RecordKeepsKeys(r.s.aggregate, r.todo[0], ReplyOf(step.outcome).value, w.now);
    }
  }

  lemma {:induction false} BehaviourQuiet(worlds: seq<World>, steps: seq<Step>, n: nat)
    requires Behaviour(worlds, steps) && n < |worlds|
    ensures AllQuiet(worlds[n])
  {
    hide Do, Enabled, Quiet;
    if n > 0 {
      BehaviourQuiet(worlds, steps, n - 1);
      hide Init, AllQuiet;
      StepStaysQuiet(worlds[n - 1], steps[n - 1]);
    }
  }

  /** What the events of a saved payment say of its closing. */
  lemma SavedEvents(w: World, step: Step, e: Event)
    requires AllQuiet(w) && SavedBy(w, step).Some? && !step.SaveNew? && e in SavedBy(w, step).value.events
    ensures e.PaymentCompleted? ==> e == PaymentCompleted(w.now, w.now) && (step.Notify? || step.SaveCharge?)
    ensures e.PaymentCancelled? ==> step.SaveCancel?
    ensures e.PaymentExpired? ==> step.Expire?
  {
    hide SavedBy;
    SavingRunExists(w, step);
    assert Quiet(RunAt(w, RunOf(step)));
    if step.Notify? {
      NotifiedEvents(w, step, e);
    } else {
      CommandEvents(w, step, e);
    }
  }

  lemma SavingRunExists(w: World, step: Step)
    requires SavedBy(w, step).Some? && !step.SaveNew?
    ensures RunOf(step) in w.runs && RunAt(w, RunOf(step)) == w.runs[RunOf(step)]
  {
    hide RecordReply, HandleNotification, SettleCharge, DecideRefund, MarkExpired, ExpireOverdue;
  }

  lemma NotifiedEvents(w: World, step: Step, e: Event)
    requires step.Notify? && Quiet(RunAt(w, step.run)) && SavedBy(w, step).Some? && e in SavedBy(w, step).value.events
    ensures e.PaymentCompleted? ==> e == PaymentCompleted(w.now, w.now)
    ensures !e.PaymentCancelled? && !e.PaymentExpired?
  {
    hide ApplyRefundNotifications;
    var r := RunAt(w, step.run);
    NotificationsKeepKeys(r.s.aggregate, r.goal.n.refunds, w.now);
  }

  lemma CommandEvents(w: World, step: Step, e: Event)
    requires !step.SaveNew? && !step.Notify? && Quiet(RunAt(w, RunOf(step)))
    requires SavedBy(w, step).Some? && e in SavedBy(w, step).value.events
    ensures e.PaymentCompleted? ==> e == PaymentCompleted(w.now, w.now) && step.SaveCharge?
    ensures e.PaymentCancelled? ==> step.SaveCancel?
    ensures e.PaymentExpired? ==> step.Expire?
  {
    hide RecordReply, DecideRefund, HandleNotification;
    var r := RunAt(w, RunOf(step));
    match step {
      case ReserveRefund(_, id, _) => ReserveRaises(r.s.aggregate, w.config.capability, r.goal.cmd, id, w.now);
      case RecordRefund(_, _) => RecordKeepsKeys(r.s.aggregate, r.refundId, r.reply, w.now);
      case RecordAgain(_, _) => RecordKeepsKeys(r.s.aggregate, r.goal.refundId, r.goal.reply, w.now);
      case _ =>
    }
  }

  lemma ReserveRaises(a: Aggregate, capability: Capability, cmd: RefundCommand, id: Id, now: Time)
    requires DecideRefund(a, capability, cmd, id, now).Reserve?
    ensures forall e :: e in DecideRefund(a, capability, cmd, id, now).aggregate.events ==>
              e in a.events || e.RefundRequested?
  {
    hide HasReference, Reserved;
  }

  /** Where the status and the paid time that a reader rebuilds come from. */
  lemma {:induction false} RebuiltFrom(amount: int, log: seq<Event>, more: seq<Event>)
    requires log != [] && Legal(amount, log + more)
    ensures var before, after := Replay(log), Replay(log + more);
            && (after.paidAt != before.paidAt ==>
                  exists e :: e in more && e.PaymentCompleted? && after.paidAt == Some(e.paid))
            && (after.status == Cancelled ==>
                  before.status == Cancelled || exists e :: e in more && e.PaymentCancelled?)
            && (after.status == Expired ==> before.status == Expired || exists e :: e in more && e.PaymentExpired?)
    decreases |more|
  {
    if more == [] {
      assert log + more == log;
    } else {
      var n := |more| - 1;
      assert (log + more)[..|log + more| - 1] == log + more[..n];
      RebuiltFrom(amount, log, more[..n]);
      hide Replay, Legal;
      assert log + more == (log + more[..n]) + [more[n]];
      ReplaySnoc(log + more[..n], more[n]);
      assert more[n] in more && forall e :: e in more[..n] ==> e in more;
    }
  }

  /** A step that saves over a stored payment: what it appends to the log, and that log before and after. */
  lemma Appends(worlds: seq<World>, steps: seq<Step>, n: nat) returns (more: seq<Event>)
    requires Behaviour(worlds, steps) && n < |steps| && worlds[n].tables.row.Some?
    requires worlds[n + 1].tables != worlds[n].tables
    ensures SavedBy(worlds[n], steps[n]).Some? && !steps[n].SaveNew?
    ensures more == SavedBy(worlds[n], steps[n]).value.events
    ensures worlds[n + 1].tables.row.Some? && LogOf(worlds[n + 1].tables) == LogOf(worlds[n].tables) + more
    ensures LogOf(worlds[n].tables) != [] && Legal(worlds[n].terms.amount, LogOf(worlds[n].tables) + more)
    ensures AllQuiet(worlds[n])
  {
    hide Do, Enabled, Init, SavedBy, Replay, CutState, CutRefunds, CutOption, LogOf, AllQuiet;
    SaveLeavesRefunds(worlds, steps, n);
    LogRebuildsPayment(worlds, steps, n);
    LogRebuildsPayment(worlds, steps, n + 1);
    BehaviourGrows(worlds, steps, n, n + 1);
    BehaviourQuiet(worlds, steps, n);
    BehaviourSound(worlds, steps, n);
    if steps[n].SaveNew? {
      OnlyNewIsCreated(worlds[n], steps[n]);
    }
    more := SavedBy(worlds[n], steps[n]).value.events;
  }

  lemma OnlyNewIsCreated(w: World, step: Step)
    requires Inv(w) && Enabled(w, step) && step.SaveNew?
    ensures w.tables.row.None?
  {
    hide HistorySound, GatewaySound, RunSound, Tracks, Grounded;
  }

  /** The step that makes a stored payment paid is the handling of a notification or the settling of its
      charge, and the stored paid time is that moment. */
  lemma PaidWhenHandled(worlds: seq<World>, steps: seq<Step>, n: nat)
    requires Behaviour(worlds, steps) && n < |steps|
    requires worlds[n].tables.row.Some? && !worlds[n].tables.row.value.status.WasPaid()
    requires worlds[n + 1].tables.row.Some? && worlds[n + 1].tables.row.value.status.WasPaid()
    ensures steps[n].Notify? || steps[n].SaveCharge?
    ensures worlds[n + 1].tables.row.value.paidAt == Some(Cut(worlds[n].now))
  {
    hide SavedBy, Cut, Replay, Legal, LogOf, Quiet, AllQuiet, Do, Enabled, Init;
    var more := Appends(worlds, steps, n);
    LogRebuildsPayment(worlds, steps, n);
    LogRebuildsPayment(worlds, steps, n + 1);
    StatusAndRefundsAgree(worlds, steps, n);
    StatusAndRefundsAgree(worlds, steps, n + 1);
    RebuiltFrom(worlds[n].terms.amount, LogOf(worlds[n].tables), more);
    var e :| e in more && e.PaymentCompleted? && Replay(LogOf(worlds[n + 1].tables)).paidAt == Some(e.paid);
    SavedEvents(worlds[n], steps[n], e);
  }

  /** A run that is about to save a cancellation was started by the payment's own service. */
  lemma {:induction false} CancelsOwn(worlds: seq<World>, steps: seq<Step>, n: nat, run: nat)
    requires Behaviour(worlds, steps) && n < |worlds| && RunAt(worlds[n], run).SavingCancel?
    ensures Start(run, GoalCancel(worlds[n].terms.callerService)) in steps[..n]
  {
    hide Do, Enabled, Inv, RunAt;
    assert n > 0 by { NoRunsFirst(worlds[0], run); }
    assert steps[..n] == steps[..n - 1] + [steps[n - 1]];
    BehaviourGrows(worlds, steps, n - 1, n);
    if RunAt(worlds[n - 1], run).SavingCancel? {
      CancelsOwn(worlds, steps, n - 1, run);
    } else {
      SavingCancelComesFrom(worlds[n - 1], steps[n - 1], run);
      BehaviourSound(worlds, steps, n - 1);
      HeldRests(worlds[n - 1], run);
      GoalsAreStarted(worlds, steps, n - 1, run, GoalCancel(worlds[n].terms.callerService));
    }
  }

  lemma NoRunsFirst(w: World, run: nat)
    ensures Init(w) ==> RunAt(w, run) == Stopped
  {
  }

  lemma SavingCancelComesFrom(w: World, step: Step, run: nat)
    requires RunAt(Do(w, step), run).SavingCancel? && !RunAt(w, run).SavingCancel?
    ensures step.CallCancel? && step.run == run
    ensures var r := RunAt(w, run); r.Ready? && r.goal == GoalCancel(r.s.aggregate.state.terms.callerService)
  {
    OwnRunOnly(w, step, run);
    hide Save, StateOf, LogOf, RecordReply, HandleNotification, SettleCharge, ApplyRefundNotifications, AfterCharge,
         AfterRefundCall, SweepRefund, DecideRefund, MarkExpired, ExpireOverdue, Loaded;
  }

  lemma OwnRunOnly(w: World, step: Step, run: nat)
    requires RunAt(Do(w, step), run) != RunAt(w, run)
    ensures OfRun(step) && step.run == run
  {
    hide Do;
    OtherRunsStay(w, step);
  }

  /** A stored payment is cancelled only by a run that its own service started. */
  lemma CancelledByOwner(worlds: seq<World>, steps: seq<Step>, n: nat)
    requires Behaviour(worlds, steps) && n < |steps|
    requires worlds[n].tables.row.Some? && worlds[n].tables.row.value.status != Cancelled
    requires worlds[n + 1].tables.row.Some? && worlds[n + 1].tables.row.value.status == Cancelled
    ensures steps[n].SaveCancel? && Start(steps[n].run, GoalCancel(worlds[n].terms.callerService)) in steps[..n]
  {
    hide SavedBy, Replay, Legal, LogOf, Quiet, AllQuiet, Do, Init;
    var more := Appends(worlds, steps, n);
    LogRebuildsPayment(worlds, steps, n);
    LogRebuildsPayment(worlds, steps, n + 1);
    RebuiltFrom(worlds[n].terms.amount, LogOf(worlds[n].tables), more);
    var e :| e in more && e.PaymentCancelled?;
    SavedEvents(worlds[n], steps[n], e);
    CancelsOwn(worlds, steps, n, steps[n].run);
  }

  /** Nor does any other service's cancel command reach the gateway: where a cancel call changes the
      transaction, the run was started by the payment's own service or settles the charge. */
  lemma GatewayCancelledByOwner(worlds: seq<World>, steps: seq<Step>, n: nat)
    requires Behaviour(worlds, steps) && n < |steps| && steps[n].CallCancel?
    requires worlds[n + 1] != SetRun(worlds[n], steps[n].run, Stopped)
    ensures Start(steps[n].run, GoalCancel(worlds[n].terms.callerService)) in steps[..n]
  {
    hide Inv;
    var r := RunAt(worlds[n], steps[n].run);
    BehaviourSound(worlds, steps, n);
    HeldRests(worlds[n], steps[n].run);
    GoalsAreStarted(worlds, steps, n, steps[n].run, r.goal);
  }

  /** The expiry job only loads pending payments whose deadline has passed. */
  predicate JobOverdue(w: World, r: Run) {
    match r
    case Ready(s, GoalExpiryJob) => IsOverdue(w, s.aggregate.state)
    case RowRead(_, GoalExpiryJob) => false
    case _ => true
  }

  ghost predicate JobsOverdue(w: World) {
    forall run :: run in w.runs ==> JobOverdue(w, w.runs[run])
  }

  predicate IsOverdue(w: World, s: PaymentState) {
    s.terms.expiredAt.Some? && s.terms.expiredAt.value < w.now && s.status == Pending
  }

  lemma StepKeepsOverdue(w: World, step: Step)
    requires JobsOverdue(w) && Enabled(w, step)
    ensures JobsOverdue(Do(w, step))
  {
    hide Do, Enabled, JobOverdue;
    OtherRunsStay(w, step);
    ClockAdvances(w, step);
    forall run | run in Do(w, step).runs ensures JobOverdue(Do(w, step), Do(w, step).runs[run]) {
      if run in w.runs && w.runs[run] == Do(w, step).runs[run] {
        OverdueStays(w, Do(w, step), w.runs[run]);
      } else {
        JobLoads(w, step);
      }
    }
  }

  lemma OverdueStays(w: World, after: World, r: Run)
    requires JobOverdue(w, r) && w.now <= after.now
    ensures JobOverdue(after, r)
  {
  }

  lemma ClockAdvances(w: World, step: Step)
    requires Enabled(w, step)
    ensures w.now <= Do(w, step).now
  {
    hide Save, StateOf, LogOf, RecordReply, HandleNotification, SettleCharge, ApplyRefundNotifications, AfterCharge,
         AfterRefundCall, SweepRefund, DecideRefund, MarkExpired, ExpireOverdue, Loaded, CancelOwn, MayAnswerRefund,
         TrueNotification, MayAnswerCancel;
  }

  lemma JobLoads(w: World, step: Step)
    requires Enabled(w, step) && OfRun(step) && JobsOverdue(w) && Do(w, step).runs != w.runs
    ensures JobOverdue(Do(w, step), RunAt(Do(w, step), step.run))
  {
    hide Do, Enabled, RunAt;
    if Loads(step) {
      LoadedOverdue(w, step);
    } else if Calls(step) {
      CallsOwnRun(w, step);
    } else if SavesRun(step) {
      SavesOwnRun(w, step);
    } else if step.ReserveRefund? {
      ReservesOwnRun(w, step);
    } else {
      OtherStepsRuns(w, step);
      SweepingStaysSweeping(w, step.run, step.outcome);
    }
  }

  lemma LoadedOverdue(w: World, step: Step)
    requires Enabled(w, step) && Loads(step) && JobsOverdue(w)
    ensures JobOverdue(Do(w, step), RunAt(Do(w, step), step.run))
  {
    CutIsNearestBelow(w.now);
    hide Cut;
    assert step.ReadRefunds? ==> JobOverdue(w, w.runs[step.run]);
  }

  lemma {:induction false} BehaviourOverdue(worlds: seq<World>, steps: seq<Step>, n: nat)
    requires Behaviour(worlds, steps) && n < |worlds|
    ensures JobsOverdue(worlds[n])
  {
    hide Do, Enabled, JobOverdue;
    if n > 0 {
      BehaviourOverdue(worlds, steps, n - 1);
      hide Init, JobsOverdue;
      StepKeepsOverdue(worlds[n - 1], steps[n - 1]);
    }
  }

  /** A stored payment expires only by an admin's command, or by the job if its deadline has passed. */
  lemma ExpiredOnTime(worlds: seq<World>, steps: seq<Step>, n: nat)
    requires Behaviour(worlds, steps) && n < |steps|
    requires worlds[n].tables.row.Some? && worlds[n].tables.row.value.status != Expired
    requires worlds[n + 1].tables.row.Some? && worlds[n + 1].tables.row.value.status == Expired
    ensures steps[n].Expire?
    ensures Start(steps[n].run, GoalForceExpire) in steps[..n]
            || (Start(steps[n].run, GoalExpiryJob) in steps[..n]
                && var deadline := worlds[n].tables.row.value.terms.expiredAt;
                   deadline.Some? && deadline.value < worlds[n].now)
  {
    hide SavedBy, Replay, Legal, LogOf, Quiet, AllQuiet, Do, Init, JobsOverdue;
    var more := Appends(worlds, steps, n);
    LogRebuildsPayment(worlds, steps, n);
    LogRebuildsPayment(worlds, steps, n + 1);
    RebuiltFrom(worlds[n].terms.amount, LogOf(worlds[n].tables), more);
    var e :| e in more && e.PaymentExpired?;
    SavedEvents(worlds[n], steps[n], e);
    ExpiryAllowed(worlds, steps, n);
  }

  lemma ExpiryAllowed(worlds: seq<World>, steps: seq<Step>, n: nat)
    requires Behaviour(worlds, steps) && n < |steps| && steps[n].Expire? && worlds[n].tables.row.Some?
    ensures Start(steps[n].run, GoalForceExpire) in steps[..n]
            || (Start(steps[n].run, GoalExpiryJob) in steps[..n]
                && var deadline := worlds[n].tables.row.value.terms.expiredAt;
                   deadline.Some? && deadline.value < worlds[n].now)
  {
    hide Do, Init, Inv;
    var r := RunAt(worlds[n], steps[n].run);
    assert r.Ready? && (r.goal.GoalForceExpire? || r.goal.GoalExpiryJob?);
    hide Enabled, RunAt;
    GoalsAreStarted(worlds, steps, n, steps[n].run, r.goal);
    if r.goal.GoalExpiryJob? {
      BehaviourOverdue(worlds, steps, n);
      DeadlinePassed(worlds[n], steps[n].run, r);
      BehaviourSound(worlds, steps, n);
      StoredDeadline(worlds[n], steps[n].run);
    }
  }

  lemma DeadlinePassed(w: World, run: nat, r: Run)
    requires JobsOverdue(w) && r == RunAt(w, run) && r.Ready? && r.goal.GoalExpiryJob?
    ensures IsOverdue(w, r.s.aggregate.state)
  {
    assert JobOverdue(w, w.runs[run]);
  }

  lemma StoredDeadline(w: World, run: nat)
    requires Inv(w) && HeldBy(RunAt(w, run)).Some? && w.tables.row.Some?
    ensures w.tables.row.value.terms.expiredAt == CutOption(HeldBy(RunAt(w, run)).value.aggregate.state.terms.expiredAt)
  {
    hide CreatorSound, GatewaySound, LoadedFrom, WithinAmount, Covers, Tracks, MethodRule, Legal, Replay, Consistent;
    assert RunSound(w, w.runs[run]);
    assert VersionSound(w, w.history[|w.history| - 1]);
  }

  /** A payment stored paid from the start was settled by the gateway's answer to its charge, and its paid time
      is the moment of that answer. */
  lemma PaidAtOnce(worlds: seq<World>, steps: seq<Step>, n: nat) returns (k: nat)
    requires Behaviour(worlds, steps) && n < |steps| && worlds[n].tables.row.None?
    requires worlds[n + 1].tables.row.Some? && worlds[n + 1].tables.row.value.status.WasPaid()
    ensures k < n && steps[k].CallCharge? && steps[k].answer.ChargeReply? && steps[k].answer.status.ReportsSettled?
    ensures worlds[n + 1].tables.row.value.paidAt == Some(Cut(worlds[k].now))
    ensures worlds[n + 1].tables.row.value.gatewayTxId == steps[k].answer.txId
  {
    hide Do, Enabled, Init, Inv, SavedBy, CutRefunds, Cut, CutTerms;
    SaveLeavesRefunds(worlds, steps, n);
    BehaviourSound(worlds, steps, n);
    assert steps[n].SaveNew? by {
      if !steps[n].SaveNew? {
        BehaviourSound(worlds, steps, n);
        SavesFit(worlds[n], steps[n]);
      }
    }
    var a := SavedBy(worlds[n], steps[n]).value;
    SavedIsCharged(worlds[n], steps[n]);
    k := ChargedBy(worlds, steps, n, a);
    PaidByAnswer(worlds[k].terms, steps[k].answer, worlds[k].now);
  }

  lemma SavedIsCharged(w: World, step: Step)
    requires step.SaveNew? && SavedBy(w, step).Some?
    ensures w.creator == Charged(SavedBy(w, step).value)
  {
  }

  lemma PaidByAnswer(terms: Terms, answer: ChargeAnswer, now: Time)
    requires New(terms).Ok? && AfterCharge(New(terms).value, answer, now).Some?
    ensures var s := AfterCharge(New(terms).value, answer, now).value.state;
            s.status.WasPaid() ==>
              && answer.ChargeReply? && answer.status.ReportsSettled?
              && s.paidAt == Some(now) && s.gatewayTxId == answer.txId
  {
  }

  /** The payment to be stored is what the charge's answer made of the new one. */
  lemma {:induction false} ChargedBy(worlds: seq<World>, steps: seq<Step>, n: nat, a: Aggregate) returns (k: nat)
    requires Behaviour(worlds, steps) && n < |worlds| && worlds[n].creator == Charged(a)
    ensures k < n && steps[k].CallCharge? && New(worlds[k].terms).Ok?
    ensures AfterCharge(New(worlds[k].terms).value, steps[k].answer, worlds[k].now) == Some(a)
  {
    hide Do, Enabled, Inv;
    assert n > 0;
    hide Init;
    if worlds[n - 1].creator == Charged(a) {
      k := ChargedBy(worlds, steps, n - 1, a);
    } else {
      k := n - 1;
      BehaviourSound(worlds, steps, k);
      ChargedNow(worlds[k], steps[k]);
    }
  }

  lemma ChargedNow(w: World, step: Step)
    requires Inv(w) && Do(w, step).creator.Charged? && Do(w, step).creator != w.creator
    ensures step.CallCharge? && New(w.terms).Ok?
    ensures AfterCharge(New(w.terms).value, step.answer, w.now) == Some(Do(w, step).creator.aggregate)
  {
    hide StoreSound, RunSound, Tracks, Grounded, New, AfterCharge;
    OnlyChargeCharges(w, step);
  }

  lemma OnlyChargeCharges(w: World, step: Step)
    ensures step.CallCharge? || Do(w, step).creator == w.creator || Do(w, step).creator == Finished
  {
    hide Save, StateOf, LogOf, DecideRefund, RecordReply, HandleNotification, ApplyRefundNotifications, SettleCharge,
         AfterCharge, AfterRefundCall, SweepRefund, MarkExpired, ExpireOverdue, CancelOwn, Loaded;
  }

  // ---------------------------------------------------------------- which refunds a pass sends again

  /** A pass sends a refund again exactly if it is pending and its age, by the clock the pass read, lies in the
      retry window; any other refund it passes over, leaving gateway and payment as they were. */
  lemma SweepRespectsAges(w: World, run: nat, outcome: RefundOutcome)
    requires RunAt(w, run).Sweeping? && RunAt(w, run).todo != []
    requires RunAt(w, run).todo[0] in RunAt(w, run).s.aggregate.state.refunds
    ensures var r, after := RunAt(w, run), DoSweepOne(w, run, outcome);
            var id := r.todo[0];
            var refund := r.s.aggregate.state.refunds[id];
            var age := r.clock - refund.createdAt;
            if refund.status == RefundPending && w.config.retryAfter <= age < w.config.giveUpAfter then
              && after.gateway == AfterRefundCall(w.gateway, id, refund.amount, outcome) && id in after.gateway.sent
              && (outcome.Accepted? ==> id in after.gateway.ledger)
              && (outcome.Declined? ==> id in after.gateway.declined)
            else after == SetRun(w, run, r.(todo := r.todo[1..]))
  {
    hide RecordReply;
  }

  /** The clock of a pass is that of its lookup. */
  lemma {:induction false} ClockOfLookUp(worlds: seq<World>, steps: seq<Step>, n: nat, run: nat) returns (k: nat)
    requires Behaviour(worlds, steps) && n < |worlds| && RunAt(worlds[n], run).Sweeping?
    ensures k < n && steps[k].LookUpRefunds? && steps[k].run == run && worlds[k].now == RunAt(worlds[n], run).clock
  {
    hide Do, Enabled, RunAt;
    assert n > 0 by { NoRunsFirst(worlds[0], run); }
    if RunAt(worlds[n - 1], run).Sweeping? && RunAt(worlds[n - 1], run).clock == RunAt(worlds[n], run).clock {
      k := ClockOfLookUp(worlds, steps, n - 1, run);
    } else {
      k := n - 1;
      SweepingComesFrom(worlds[k], steps[k], run);
    }
  }

  lemma SweepingComesFrom(w: World, step: Step, run: nat)
    requires RunAt(Do(w, step), run).Sweeping?
    requires !RunAt(w, run).Sweeping? || RunAt(w, run).clock != RunAt(Do(w, step), run).clock
    ensures step.LookUpRefunds? && step.run == run && w.now == RunAt(Do(w, step), run).clock
  {
    OwnRunOnly(w, step, run);
    hide Save, StateOf, LogOf, RecordReply, HandleNotification, SettleCharge, ApplyRefundNotifications, AfterCharge,
         AfterRefundCall, SweepRefund, DecideRefund, MarkExpired, ExpireOverdue, CancelOwn, Loaded;
  }

  /** In every behaviour: where a pass asks the gateway for a refund, the refund was pending and in the retry
      window when the pass looked it up. So nothing is sent again once the gateway may have forgotten its key. */
  lemma SentAgainInWindow(worlds: seq<World>, steps: seq<Step>, n: nat) returns (k: nat)
    requires Behaviour(worlds, steps) && n < |steps| && steps[n].SweepOne? && worlds[n + 1].gateway != worlds[n].gateway
    ensures k < n && steps[k].LookUpRefunds? && steps[k].run == steps[n].run
    ensures var r := RunAt(worlds[n], steps[n].run);
            && r.Sweeping? && r.todo != [] && r.todo[0] in r.s.aggregate.state.refunds
            && var refund := r.s.aggregate.state.refunds[r.todo[0]];
               && refund.status == RefundPending
               && worlds[n].config.retryAfter <= worlds[k].now - refund.createdAt < worlds[n].config.giveUpAfter
  {
    hide Init, AfterRefundCall, RecordReply, SweepRefundOf;
    k := ClockOfLookUp(worlds, steps, n, steps[n].run);
    var r := RunAt(worlds[n], steps[n].run);
    if r.todo[0] in r.s.aggregate.state.refunds {
      SweepRespectsAges(worlds[n], steps[n].run, steps[n].outcome);
    }
  }

  // ---------------------------------------------------------------- recording a refund's outcome

  /** A recording that lost a race loads the payment and records once more, and then no more. */
  lemma RecordsOnceMore(w: World, run: nat, fate: Fate)
    ensures RunAt(w, run).Recording? ==>
              var r := RunAt(w, run);
              var recorded := RecordReply(r.s.aggregate, r.refundId, r.reply, w.now);
              RunAt(DoRecord(w, run, fate), run)
              == if recorded.Ok? && Save(w.tables, recorded.value, false, fate).error == Some(Conflict)
                 then Waiting(GoalRecord(r.refundId, r.reply)) else Stopped
    ensures RunAt(w, run).Ready? && RunAt(w, run).goal.GoalRecord? ==>
              RunAt(DoRecordAgain(w, run, fate), run) == Stopped
  {
    hide RecordReply, Save, StateOf, LogOf;
  }

  /** If nobody else saves after that load, the outcome is stored: a lost race loses no answer. */
  lemma RecordedAfterReload(worlds: seq<World>, steps: seq<Step>, n: nat)
    requires Behaviour(worlds, steps) && n < |steps| && steps[n].RecordAgain? && steps[n].fate == Commits
    requires var t, id := worlds[n].tables, RunAt(worlds[n], steps[n].run).goal.refundId;
             && t.row.Some? && id in t.refunds && t.refunds[id].status == RefundPending
             && RunAt(worlds[n], steps[n].run).s.aggregate == Loaded(t.row.value, t.refunds, 0).aggregate
    ensures var goal, after := RunAt(worlds[n], steps[n].run).goal, worlds[n + 1].tables.refunds;
            && goal.refundId in after
            && match goal.reply
               case Confirmed(gatewayRefundId) =>
                 && after[goal.refundId].status == RefundSucceeded
                 && after[goal.refundId].gatewayRefundId == gatewayRefundId
               case Denied(reason) =>
                 after[goal.refundId].status == RefundFailed && after[goal.refundId].failureReason == reason
  {
    hide Init, Inv, Save, Fits, CutState, Cut, CutOption, Succeeded;
    var w, step := worlds[n], steps[n];
    var r := RunAt(w, step.run);
    BehaviourSound(worlds, steps, n);
    SavesFit(w, step);
    TablesChangeBySaves(w, step);
    RecordedSaves(w.tables, RecordReply(r.s.aggregate, r.goal.refundId, r.goal.reply, w.now).value);
  }

  lemma RecordedSaves(t: Tables, a: Aggregate)
    requires Fits(t, a) && t.row.Some? && t.row.value.version == a.version
    ensures Save(t, a, false, Commits).tables.refunds == CutRefunds(a.state.refunds)
  {
    hide CutRefunds, Covers, RefundConstraints, IsNew, LogOf, Write;
    WriteReplaces(t, a, UpdatedRow(t.row.value, CutState(a.state)), a.version + 1);
  }
}
