/** Every step of the protocol keeps its invariant. */
module Steps {
  import opened Outcomes
  import opened PaymentDomain
  import opened Timestamps
  import opened EventLog
  import opened Store
  import opened Gateway
  import opened Commands
  import opened Protocol
  import opened Invariants
  import opened Sessions

  /** A step of the clock or of the gateway on its own. */
  lemma EnvironmentMoves(w: World, after: World)
    requires Inv(w) && Grows(w, after)
    requires after == w.(now := after.now, gateway := after.gateway)
    requires GatewaySound(after) && after.gateway.charge == w.gateway.charge
    ensures Inv(after)
  {
    hide VersionSound, RunSound, GatewaySound, Grounded, Tracks, Covers;
    HistoryStays(w, after);
    forall run | run in after.runs ensures RunSound(after, after.runs[run]) {
      RunStays(w, after, w.runs[run]);
    }
    if w.creator.Charged? {
      GroundedStays(w, after, w.creator.aggregate.state);
    }
  }

  lemma EnvironmentKeeps(w: World, step: Step)
    requires Inv(w) && Enabled(w, step)
    requires step.Tick? || step.ChargeLands? || step.TransactionEnds? || step.RefundLands?
    ensures Inv(Do(w, step))
  {
    hide VersionSound, RunSound, HistorySound, TablesSound, CreatorSound;
    EnvironmentMoves(w, Do(w, step));
  }

  // ---------------------------------------------------------------- creation

  /** What AfterCharge makes of a new payment and a true answer. */
  lemma AfterChargeSound(w: World, a: Aggregate, answer: ChargeAnswer, now: Time)
    requires New(w.terms) == Ok(a) && w.terms.amount <= MAX_INT64
    requires answer.DefiniteError? ==> LostForGood(w)
    requires answer.ChargeReply? ==>
             TrueStatus(w.gateway.tx, answer.status) && w.gateway.tx != Absent && answer.txId == w.gateway.txId
    ensures match AfterCharge(a, answer, now)
            case None => answer.RejectedInput?
            case Some(p) =>
              p.version == 0 && IsNew(p) && p.state.refunds == map[] && Tracks([], p) && Grounded(w, p.state)
  {
    hide Tracks;
    NewTracks(w.terms);
    assert a.events[0].PaymentInitiated?;
    match answer {
      case RejectedInput =>
      case DefiniteError => MarkFailedTracks([], a, "GATEWAY_ERROR", now);
      case ChargeUnknown =>
      case ChargeReply(status, txId) =>
        MarkPendingTracks([], a, txId, now);
        var pending := MarkPending(a, txId, now).value;
        assert pending.events[0].PaymentInitiated?;
        match status {
          case ReportsSettled =>
            MarkCompletedTracks([], pending, now, now);
            assert MarkCompleted(pending, now, now).value.events[0].PaymentInitiated?;
          case ReportsFailed =>
            MarkFailedTracks([], pending, "DECLINED", now);
            assert MarkFailed(pending, "DECLINED", now).value.events[0].PaymentInitiated?;
          case _ =>
        }
    }
    if answer.DefiniteError? {
      assert MarkFailed(a, "GATEWAY_ERROR", now).value.events[0].PaymentInitiated?;
    }
  }

  lemma CallChargeKeeps(w: World, answer: ChargeAnswer, tx: Transaction)
    requires Inv(w) && Enabled(w, CallCharge(answer, tx))
    ensures Inv(Do(w, CallCharge(answer, tx)))
  {
    hide VersionSound, Tracks, Covers, AfterCharge, SessionSound, RunSound, HistorySound, WellNumbered;
    var after := Do(w, CallCharge(answer, tx));
    assert w.gateway.tx == Absent;
    assert Grows(w, after);
    HistoryStays(w, after);
    AfterChargeSound(after, w.creator.aggregate, answer, w.now);
    forall run | run in after.runs ensures RunSound(after, after.runs[run]) {
      RunStays(w, after, w.runs[run]);
    }
  }

  /** The insert of a payment that was never stored. */
  lemma InsertWrites(a: Aggregate, taken: bool, fate: Fate)
    requires IsNew(a) && a.state.refunds == map[]
    ensures var after := Save(NO_ROWS, a, taken, fate).tables;
            after == NO_ROWS
            || (after.row == Some(RowOf(CutState(a.state), 1)) && after.refunds == map[] && LogOf(after) == a.events
                && WellNumbered(after))
  {
    hide Cut, CutOption, CutTerms, IsNew, Numbered, LogOf, LastSequence, WellNumbered;
    NoRowsNumbered();
    SaveNumbers(NO_ROWS, a, taken, fate);
    var after := Save(NO_ROWS, a, taken, fate).tables;
    if after != NO_ROWS {
      assert CutRefunds(map[]) == map[];
      assert after.refunds == map[];
    }
  }

  lemma NoRowsNumbered()
    ensures WellNumbered(NO_ROWS) && LogOf(NO_ROWS) == []
  {
  }

  lemma FirstVersionSound(w: World, a: Aggregate)
    requires Tracks([], a) && Grounded(w, a.state) && a.state.refunds == map[]
    ensures VersionSound(w, Version(CutState(a.state), a.events))
  {
    hide Consistent, Legal, Replay, Cut, CutOption;
    assert [] + a.events == a.events;
    assert CutRefunds(map[]) == map[];
    CutVersionSound(w, a.state);
    SummarizeCut(a.state);
  }

  /** The save of a new payment, however it ends, makes it version 1 or leaves no trace. */
  lemma SaveNewKeepsStore(w: World, a: Aggregate, taken: bool, fate: Fate)
    requires StoreSound(w) && w.history == []
    requires IsNew(a) && a.state.refunds == map[] && Tracks([], a) && Grounded(w, a.state)
    ensures var after := AfterSave(w, a, taken, fate);
            StoreSound(after) && Grows(w, after) && after.runs == w.runs && after.gateway == w.gateway
  {
    hide Save, VersionSound, Tracks, Grounded, IsNew, WellNumbered, Cut, CutOption, CutTerms;
    var after := AfterSave(w, a, taken, fate);
    InsertWrites(a, taken, fate);
    SaveGrows(w, a, taken, fate);
    if after.history != w.history {
      FirstVersionSound(w, a);
      assert CutRefunds(map[]) == map[];
      var v := Version(CutState(a.state), a.events);
      assert after.history == w.history + [v];
      HistoryAppend(w, after, v);
    }
  }

  lemma SaveNewKeeps(w: World, taken: bool, fate: Fate)
    requires Inv(w) && Enabled(w, SaveNew(taken, fate))
    ensures Inv(Do(w, SaveNew(taken, fate)))
  {
    hide AfterSave, VersionSound, RunSound, Tracks, TablesSound, GatewaySound, Grounded, IsNew;
    var saved := AfterSave(w, w.creator.aggregate, taken, fate);
    var after := Do(w, SaveNew(taken, fate));
    SaveNewKeepsStore(w, w.creator.aggregate, taken, fate);
    StoreSame(saved, after);
    assert Grows(w, after);
    forall run | run in after.runs ensures RunSound(after, after.runs[run]) {
      RunStays(w, after, w.runs[run]);
    }
  }

  /** Who creates and who runs does not matter to the store. */
  lemma StoreSame(w: World, after: World)
    requires StoreSound(w) && after == w.(creator := after.creator, runs := after.runs)
    ensures StoreSound(after)
  {
    hide VersionSound, Covers;
    HistoryStays(w, after);
  }

  // ---------------------------------------------------------------- runs

  /** A step that only moves one run. */
  lemma RunAlone(w: World, run: nat, r: Run)
    requires Inv(w) && RunSound(w, r)
    ensures Inv(SetRun(w, run, r))
  {
    hide VersionSound, TablesSound, GatewaySound;
    var after := SetRun(w, run, r);
    StoreSame(w, after);
    RunStays(w, after, r);
    RunMoves(w, after, run, r);
  }

  lemma LoadKeeps(w: World, step: Step)
    requires Inv(w) && Enabled(w, step)
    requires step.Start? || step.ReadRow? || step.ReadRefunds? || step.ReadRowOnly?
    ensures Inv(Do(w, step))
  {
    hide StoreSound, CreatorSound;
    match step {
      case Start(run, goal) => RunAlone(w, run, Waiting(goal));
      case ReadRow(run) => ReadRowSound(w, run);
      case ReadRefunds(run) => ReadRefundsSound(w, run);
      case ReadRowOnly(run) => ReadRowOnlySound(w, run);
    }
  }

  lemma ReadRowSound(w: World, run: nat)
    requires Inv(w) && Enabled(w, ReadRow(run))
    ensures Inv(DoReadRow(w, run))
  {
    hide VersionSound, GatewaySound;
    var goal := RunAt(w, run).goal;
    RunAlone(w, run, if w.tables.row.Some? then RowRead(w.tables.row.value, goal) else Stopped);
  }

  /** Any version's refunds respect the amount and what the gateway did. */
  lemma RefundsGrounded(w: World, i: nat, s: PaymentState)
    requires HistorySound(w) && i < |w.history|
    requires s.terms.amount == w.terms.amount && s.refunds == w.history[i].state.refunds
    ensures WithinAmount(s) && s.refunds.Keys <= w.issued && Covers(s.refunds, s.refunds)
    ensures forall id :: id in s.refunds && s.refunds[id].status == RefundSucceeded ==> id in w.gateway.ledger
    ensures forall id :: id in s.refunds && s.refunds[id].status == RefundFailed ==> id in w.gateway.declined
  {
    hide Legal, Replay, DistinctReferences, Reserved, Succeeded, MethodRule, Covers, Cut, CutOption, CutRefunds;
    assert VersionSound(w, w.history[i]);
    CoversCut(s.refunds, map[]);
  }

  /** A load whose refunds come from the version at refundsAt. */
  lemma LoadedSound(w: World, version: nat, refundsAt: nat)
    requires StoreSound(w) && 1 <= version <= refundsAt <= |w.history|
    ensures var v := w.history[version - 1].state;
            AtRest(w, Loaded(RowOf(v, version), w.history[refundsAt - 1].state.refunds, refundsAt))
  {
    hide Legal, Replay, Consistent, WithinAmount, Covers, TablesSound, GatewaySound, Cut, CutOption, CutRefunds;
    var v, u := w.history[version - 1], w.history[refundsAt - 1];
    assert VersionSound(w, v);
    var s := Loaded(RowOf(v.state, version), u.state.refunds, refundsAt);
    RefundsGrounded(w, refundsAt - 1, s.base);
    assert v.log + [] == v.log;
    assert Untorn(s) ==> s.aggregate.state == v.state;
  }

  lemma ReadRefundsSound(w: World, run: nat)
    requires Inv(w) && RunAt(w, run).RowRead?
    ensures Inv(DoReadRefunds(w, run))
  {
    hide VersionSound, GatewaySound, HistorySound, AtRest, Loaded;
    var row, goal := RunAt(w, run).row, RunAt(w, run).goal;
    assert RunSound(w, w.runs[run]);
    LoadedSound(w, row.version, |w.history|);
    var s := Loaded(row, w.tables.refunds, |w.history|);
    RunAlone(w, run, Ready(s, goal));
  }

  /** The list queries load no refunds, and lose none: an unpaid payment has none. */
  lemma ReadRowOnlySound(w: World, run: nat)
    requires Inv(w) && Enabled(w, ReadRowOnly(run))
    ensures Inv(DoReadRowOnly(w, run))
  {
    hide GatewaySound, HistorySound, AtRest, Loaded, Grounded, WellNumbered, LogOf, Cut, CutOption;
    var goal, row := RunAt(w, run).goal, w.tables.row.value;
    var n := |w.history|;
    LastUnpaid(w);
    LastTerms(w);
    CutKeepsOrder(w.terms.createdAt, w.now - w.config.chargeGrace);
    LoadedSound(w, n, n);
    RunAlone(w, run, Ready(Loaded(row, map[], row.version), goal));
  }

  /** The row holds what its columns keep of the terms. */
  lemma LastTerms(w: World)
    requires StoreSound(w) && w.history != []
    ensures w.tables.row.value.terms == CutTerms(w.terms)
  {
    hide Consistent, Legal, Replay, MethodRule, Cut, CutOption, CutRefunds, GatewaySound, WellNumbered, LogOf;
    assert VersionSound(w, w.history[|w.history| - 1]);
  }

  lemma LastUnpaid(w: World)
    requires HistorySound(w) && w.history != []
    ensures var last := w.history[|w.history| - 1].state; !last.status.WasPaid() ==> last.refunds == map[]
  {
    hide Legal, Replay, MethodRule, Grounded, WithinAmount, DistinctReferences;
    assert VersionSound(w, w.history[|w.history| - 1]);
  }

  /** A run saves s and goes on as r. */
  lemma RunSaves(w: World, run: nat, s: Session, fate: Fate, r: Run)
    requires Inv(w) && SessionSound(w, s)
    requires RunSound(AfterSave(w, s.aggregate, false, fate), r)
    ensures Inv(SetRun(AfterSave(w, s.aggregate, false, fate), run, r))
  {
    hide AfterSave, VersionSound, TablesSound, GatewaySound, Grounded, Tracks, Covers, WithinAmount;
    var saved := AfterSave(w, s.aggregate, false, fate);
    SaveKeepsStore(w, s, fate);
    var after := SetRun(saved, run, r);
    StoreSame(saved, after);
    RunStays(saved, after, r);
    assert w.creator.Finished? || w.history == [];
    RunMoves(w, after, run, r);
  }

  lemma RecordKeeps(w: World, run: nat, fate: Fate)
    requires Inv(w) && Enabled(w, RecordRefund(run, fate))
    ensures Inv(DoRecord(w, run, fate))
  {
    hide AfterSave, SessionSound, VersionSound, TablesSound, GatewaySound, HistorySound, Save, RecordReply;
    assert RunSound(w, w.runs[run]);
    var s, id, reply := RunAt(w, run).s, RunAt(w, run).refundId, RunAt(w, run).reply;
    match RecordReply(s.aggregate, id, reply, w.now) {
      case Err(_) => RunAlone(w, run, Stopped);
      case Ok(a) =>
        RecordReplySound(w, s, id, reply, w.now);
        var b := s.(aggregate := a);
        SaveKeepsStore(w, b, fate);
        var conflict := Save(w.tables, a, false, fate).error == Some(Conflict);
        var next := if conflict then Waiting(GoalRecord(id, reply)) else Stopped;
        RunSaves(w, run, b, fate, next);
    }
  }

  lemma RecordAgainKeeps(w: World, run: nat, fate: Fate)
    requires Inv(w) && Enabled(w, RecordAgain(run, fate))
    ensures Inv(DoRecordAgain(w, run, fate))
  {
    hide AfterSave, SessionSound, VersionSound, TablesSound, GatewaySound, HistorySound, RecordReply;
    assert RunSound(w, w.runs[run]);
    var s, goal := RunAt(w, run).s, RunAt(w, run).goal;
    match RecordReply(s.aggregate, goal.refundId, goal.reply, w.now) {
      case Err(_) => RunAlone(w, run, Stopped);
      case Ok(a) =>
        RecordReplySound(w, s, goal.refundId, goal.reply, w.now);
        RunSaves(w, run, s.(aggregate := a), fate, Stopped);
    }
  }

  lemma NotifyKeeps(w: World, run: nat, fate: Fate)
    requires Inv(w) && Enabled(w, Notify(run, fate))
    ensures Inv(DoNotify(w, run, fate))
  {
    hide AfterSave, SessionSound, VersionSound, TablesSound, GatewaySound, HistorySound, HandleNotification;
    assert RunSound(w, w.runs[run]);
    var s, n := RunAt(w, run).s, RunAt(w, run).goal.n;
    match HandleNotification(s.aggregate, n, w.now) {
      case Err(_) => RunAlone(w, run, Stopped);
      case Ok(applied) =>
        HandleNotificationSound(w, s, n, w.now);
        if applied.changed {
          RunSaves(w, run, s.(aggregate := applied.aggregate), fate, Stopped);
        } else {
          RunAlone(w, run, Stopped);
        }
    }
  }

  lemma SaveChargeKeeps(w: World, run: nat, fate: Fate)
    requires Inv(w) && Enabled(w, SaveCharge(run, fate))
    ensures Inv(DoSaveCharge(w, run, fate))
  {
    hide AfterSave, SessionSound, VersionSound, TablesSound, GatewaySound, HistorySound, SettleCharge;
    assert RunSound(w, w.runs[run]);
    var s, finding := RunAt(w, run).s, RunAt(w, run).finding;
    match SettleCharge(s.aggregate, finding, w.now) {
      case Err(_) => RunAlone(w, run, Stopped);
      case Ok(a) =>
        SettleChargeSound(w, s, finding, w.now);
        RunSaves(w, run, s.(aggregate := a), fate, Stopped);
    }
  }

  lemma SaveSweepKeeps(w: World, run: nat, fate: Fate)
    requires Inv(w) && Enabled(w, SaveSweep(run, fate))
    ensures Inv(DoSaveSweep(w, run, fate))
  {
    hide AfterSave, SessionSound, VersionSound, TablesSound, GatewaySound, HistorySound;
    assert RunSound(w, w.runs[run]);
    if RunAt(w, run).changed {
      RunSaves(w, run, RunAt(w, run).s, fate, Stopped);
    } else {
      RunAlone(w, run, Stopped);
    }
  }

  lemma SaveCancelKeeps(w: World, run: nat, fate: Fate)
    requires Inv(w) && Enabled(w, SaveCancel(run, fate))
    ensures Inv(DoSaveCancel(w, run, fate))
  {
    hide AfterSave, SessionSound, VersionSound, TablesSound, GatewaySound, HistorySound;
    assert RunSound(w, w.runs[run]);
    RunSaves(w, run, RunAt(w, run).s, fate, Stopped);
  }

  lemma ExpireKeeps(w: World, run: nat, fate: Fate)
    requires Inv(w) && Enabled(w, Expire(run, fate))
    ensures Inv(DoExpire(w, run, fate))
  {
    hide AfterSave, SessionSound, VersionSound, TablesSound, GatewaySound, HistorySound, MarkExpired;
    assert RunSound(w, w.runs[run]);
    var s := RunAt(w, run).s;
    if MarkExpired(s.aggregate, w.now).Ok? {
      MarkExpiredSound(w, s, w.now);
      RunSaves(w, run, s.(aggregate := MarkExpired(s.aggregate, w.now).value), fate, Stopped);
    }
    RunAlone(w, run, Stopped);
  }

  // ---------------------------------------------------------------- gateway calls by runs

  /** A call changed the gateway; the run goes on as r. */
  lemma RunCalls(w: World, run: nat, gw: Gateway, r: Run)
    requires Inv(w) && Grows(w, w.(gateway := gw)) && GatewaySound(w.(gateway := gw))
    requires gw.charge == w.gateway.charge
    requires RunSound(w.(gateway := gw), r)
    ensures Inv(SetRun(w.(gateway := gw), run, r))
  {
    hide VersionSound, GatewaySound, TablesSound, RunSound, Grows;
    EnvironmentMoves(w, w.(gateway := gw));
    RunAlone(w.(gateway := gw), run, r);
  }

  lemma LookUpChargeKeeps(w: World, run: nat, found: LookupAnswer)
    requires Inv(w) && Enabled(w, LookUpCharge(run, found))
    ensures Inv(DoLookUpCharge(w, run, found))
  {
    hide SessionSound, StoreSound, CreatorSound;
    assert RunSound(w, w.runs[run]);
    RunAlone(w, run, RunAt(DoLookUpCharge(w, run, found), run));
  }

  lemma CancelChargeKeeps(w: World, run: nat, cancel: CancelOutcome)
    requires Inv(w) && Enabled(w, CancelCharge(run, cancel))
    ensures Inv(DoCancelCharge(w, run, cancel))
  {
    hide SessionSound, HistorySound, TablesSound, CreatorSound;
    assert RunSound(w, w.runs[run]);
    var gw := AfterCancelCall(w.gateway, cancel);
    CancelGrows(w, cancel);
    var r := RunAt(w, run);
    SessionStays(w, w.(gateway := gw), r.s);
    assert AtRest(w.(gateway := gw), r.s);
    RunCalls(w, run, gw, if cancel.CancelDone? then SettlingCharge(r.s, FoundPendingAndCancelled(r.txId)) else Stopped);
  }

  lemma CancelGrows(w: World, cancel: CancelOutcome)
    requires GatewaySound(w) && MayAnswerCancel(w.gateway, cancel)
    ensures var after := w.(gateway := AfterCancelCall(w.gateway, cancel));
            Grows(w, after) && GatewaySound(after) && after.gateway.charge == w.gateway.charge
  {
  }

  lemma CallCancelKeeps(w: World, run: nat, cancel: CancelOutcome)
    requires Inv(w) && Enabled(w, CallCancel(run, cancel))
    ensures Inv(DoCallCancel(w, run, cancel))
  {
    hide SessionSound, HistorySound, TablesSound, CreatorSound, Cancel;
    assert RunSound(w, w.runs[run]);
    var gw := AfterCancelCall(w.gateway, cancel);
    CancelGrows(w, cancel);
    var s := RunAt(w, run).s;
    if Cancel(s.aggregate, w.now).Ok? {
      CancelSound(w, s, w.now);
      var t := s.(aggregate := Cancel(s.aggregate, w.now).value);
      SessionStays(w, w.(gateway := gw), t);
      assert AtRest(w.(gateway := gw), t);
      RunCalls(w, run, gw, SavingCancel(t));
    }
    RunAlone(w, run, Stopped);
  }

  /** A refund of any version is still stored, with its amount, and belongs to settled money. */
  lemma VersionRefundStored(w: World, i: nat, id: Id)
    requires StoreSound(w) && i < |w.history| && id in w.history[i].state.refunds
    ensures id in w.tables.refunds && w.tables.refunds[id].amount == w.history[i].state.refunds[id].amount
    ensures w.gateway.tx == TxSettled
  {
    hide Legal, Replay, MethodRule, WithinAmount, DistinctReferences, GatewaySound;
    var u, last := w.history[i], w.history[|w.history| - 1];
    assert VersionSound(w, u);
    assert Covers(last.state.refunds, u.state.refunds);
    assert KeepsRequest(last.state.refunds[id], u.state.refunds[id]);
  }

  lemma StoredRefund(w: World, s: Session, id: Id)
    requires StoreSound(w) && AtRest(w, s) && id in s.aggregate.state.refunds
    ensures id in w.tables.refunds && w.tables.refunds[id].amount == s.aggregate.state.refunds[id].amount
    ensures w.gateway.tx == TxSettled
  {
    hide VersionSound, Tracks, WithinAmount, MethodRule, GatewaySound, TablesSound, HistorySound, Grounded;
    assert id in s.base.refunds;
    VersionRefundStored(w, s.refundsAt - 1, id);
    assert KeepsRequest(s.aggregate.state.refunds[id], s.base.refunds[id]);
  }

  /** Asking for a stored refund keeps the ledger in step with the store. */
  lemma RefundCallGrows(w: World, s: Session, id: Id, outcome: RefundOutcome)
    requires StoreSound(w) && AtRest(w, s) && id in s.aggregate.state.refunds
    requires MayAnswerRefund(w.gateway, id, outcome)
    ensures var after := w.(gateway := AfterRefundCall(w.gateway, id, s.aggregate.state.refunds[id].amount, outcome));
            && Grows(w, after) && GatewaySound(after) && after.gateway.charge == w.gateway.charge
            && (match ReplyOf(outcome) case None => true case Some(reply) => ReplyTrue(after, id, reply))
  {
    hide HistorySound, TablesSound, AtRest;
    StoredRefund(w, s, id);
  }

  lemma CallRefundKeeps(w: World, run: nat, outcome: RefundOutcome)
    requires Inv(w) && Enabled(w, CallRefund(run, outcome))
    ensures Inv(DoCallRefund(w, run, outcome))
  {
    hide SessionSound, StoreSound, CreatorSound, AfterRefundCall, GatewaySound;
    assert RunSound(w, w.runs[run]);
    var s, id := RunAt(w, run).s, RunAt(w, run).refundId;
    if id in s.aggregate.state.refunds {
      RefundCallGrows(w, s, id, outcome);
      var gw := AfterRefundCall(w.gateway, id, s.aggregate.state.refunds[id].amount, outcome);
      SessionStays(w, w.(gateway := gw), s);
      assert AtRest(w.(gateway := gw), s);
      RunCalls(w, run, gw, match ReplyOf(outcome) case None => Stopped case Some(reply) => Recording(s, id, reply));
    } else {
      RunAlone(w, run, Stopped);
    }
  }

  lemma LookUpRefundsKeeps(w: World, run: nat, refunds: seq<RefundNotification>, todo: seq<Id>)
    requires Inv(w) && Enabled(w, LookUpRefunds(run, refunds, todo))
    ensures Inv(DoLookUpRefunds(w, run, refunds, todo))
  {
    hide SessionSound, HistorySound, TablesSound, CreatorSound, GatewaySound, ApplyRefundNotifications;
    assert RunSound(w, w.runs[run]);
    NotificationsSound(w, RunAt(w, run).s, refunds, w.now);
    RunAlone(w, run, RunAt(DoLookUpRefunds(w, run, refunds, todo), run));
  }

  lemma SweepOneKeeps(w: World, run: nat, outcome: RefundOutcome)
    requires Inv(w) && Enabled(w, SweepOne(run, outcome))
    ensures Inv(DoSweepOne(w, run, outcome))
  {
    hide SessionSound, HistorySound, TablesSound, CreatorSound, GatewaySound, AfterRefundCall, RecordReply;
    assert RunSound(w, w.runs[run]);
    var s, todo, changed, clock := RunAt(w, run).s, RunAt(w, run).todo, RunAt(w, run).changed, RunAt(w, run).clock;
    var id := todo[0];
    RunAlone(w, run, Sweeping(s, todo[1..], changed, clock));
    if id in s.aggregate.state.refunds {
      RefundCallGrows(w, s, id, outcome);
      var gw := AfterRefundCall(w.gateway, id, s.aggregate.state.refunds[id].amount, outcome);
      var called := w.(gateway := gw);
      SessionStays(w, called, s);
      assert AtRest(called, s);
      RunCalls(w, run, gw, Sweeping(s, todo[1..], changed, clock));
      match ReplyOf(outcome) {
        case None =>
        case Some(reply) =>
          if RecordReply(s.aggregate, id, reply, w.now).Ok? {
            RecordReplySound(called, s, id, reply, w.now);
            var recorded := s.(aggregate := RecordReply(s.aggregate, id, reply, w.now).value);
            RunCalls(w, run, gw, Sweeping(recorded, todo[1..], true, clock));
          }
      }
    }
  }

  // ---------------------------------------------------------------- reserving a refund

  /** The reserving save: if it succeeds the run goes on from the version it just wrote. */
  lemma ReserveKeeps(w: World, run: nat, id: Id, fate: Fate)
    requires Inv(w) && Enabled(w, ReserveRefund(run, id, fate))
    ensures Inv(DoReserve(w, run, id, fate))
  {
    hide AfterSave, SessionSound, VersionSound, TablesSound, GatewaySound, HistorySound, DecideRefund, Save,
         StoreSound, CreatorSound, CutState;
    assert RunSound(w, w.runs[run]);
    var s, cmd := RunAt(w, run).s, RunAt(w, run).goal.cmd;
    match DecideRefund(s.aggregate, w.config.capability, cmd, id, w.now) {
      case Reserve(a) =>
        var issuing := w.(issued := w.issued + {id});
        IssueKeeps(w, id);
        SessionStays(w, issuing, s);
        UnissuedIsUnknown(w, s, id);
        assert AtRest(issuing, s);
        ReserveSound(issuing, s, cmd, id, w.now);
        var b := s.(aggregate := a);
        SavedSessionSound(issuing, b, fate);
        var saved := Save(w.tables, a, false, fate);
        var next := if saved.error == None
                    then CallingRefund(Session(saved.aggregate, CutState(a.state), saved.aggregate.version), id)
                    else Stopped;
        RunSaves(issuing, run, b, fate, next);
      case _ => RunAlone(w, run, Stopped);
    }
  }

  lemma UnissuedIsUnknown(w: World, s: Session, id: Id)
    requires AtRest(w, s) && id !in w.issued
    ensures id !in s.aggregate.state.refunds
  {
  }

  lemma IssueKeeps(w: World, id: Id)
    requires Inv(w) && id !in w.config.foreign
    ensures var issuing := w.(issued := w.issued + {id}); Inv(issuing) && Grows(w, issuing)
  {
    hide VersionSound, RunSound, Grounded, Tracks, Covers;
    var issuing := w.(issued := w.issued + {id});
    HistoryStays(w, issuing);
    forall run | run in issuing.runs ensures RunSound(issuing, issuing.runs[run]) {
      RunStays(w, issuing, w.runs[run]);
    }
    if w.creator.Charged? {
      GroundedStays(w, issuing, w.creator.aggregate.state);
    }
  }

  /** After a successful save the aggregate in memory is the stored payment at its new version, up to the
      nanoseconds only memory holds. */
  lemma SavedSessionSound(w: World, s: Session, fate: Fate)
    requires StoreSound(w) && SessionSound(w, s)
    ensures var saved := Save(w.tables, s.aggregate, false, fate);
            saved.error == None ==>
              AtRest(AfterSave(w, s.aggregate, false, fate),
                     Session(saved.aggregate, CutState(s.aggregate.state), saved.aggregate.version))
  {
    hide SessionSound, StoreSound, VersionSound, Upserted, Numbered, LogOf, CutState, CutRefunds, AtRest,
         RefundConstraints;
    var saved := Save(w.tables, s.aggregate, false, fate);
    if saved.error == None {
      var after := AfterSave(w, s.aggregate, false, fate);
      SaveKeepsStore(w, s, fate);
      SessionStays(w, after, s);
      SavedAggregate(w, s, fate);
      StoredIsAtRest(after, s.aggregate.state, saved.aggregate);
    }
  }

  lemma SavedAggregate(w: World, s: Session, fate: Fate)
    requires StoreSound(w) && SessionSound(w, s) && Save(w.tables, s.aggregate, false, fate).error == None
    ensures var saved, after := Save(w.tables, s.aggregate, false, fate).aggregate,
            AfterSave(w, s.aggregate, false, fate);
            && saved == Aggregate(s.aggregate.state, |w.history| + 1, [])
            && |after.history| == |w.history| + 1
            && after.history[|w.history|].state == CutState(s.aggregate.state)
            && Grounded(after, s.aggregate.state)
  {
    hide VersionSound, HistorySound, GatewaySound, Grounded, Tracks, WithinAmount, Covers, MethodRule, Upserted,
         Numbered, LogOf, Cut, CutOption, CutTerms, CutRefunds, RefundConstraints, WellNumbered, IsNew;
    SaveKeepsStore(w, s, fate);
    SaveGrows(w, s.aggregate, false, fate);
    GroundedStays(w, AfterSave(w, s.aggregate, false, fate), s.aggregate.state);
  }

  /** A payment in memory whose cut is the last version, with nothing left to save. */
  lemma StoredIsAtRest(w: World, s: PaymentState, a: Aggregate)
    requires StoreSound(w) && w.history != [] && w.history[|w.history| - 1].state == CutState(s)
    requires a == Aggregate(s, |w.history|, [])
    ensures AtRest(w, Session(a, CutState(s), |w.history|))
  {
    hide Legal, Replay, Consistent, WithinAmount, Covers, TablesSound, GatewaySound, MethodRule, Cut, CutOption,
         Grounded;
    var v := w.history[|w.history| - 1];
    assert VersionSound(w, v);
    CutVersionSound(w, s);
    CutConsistent(s);
    ConsistentWithin(s);
    SummarizeCut(s);
    CoversCut(s.refunds, map[]);
    assert v.log + [] == v.log;
    GroundedTermsOf(w, s);
  }

  lemma ConsistentWithin(s: PaymentState)
    requires Consistent(s)
    ensures WithinAmount(s)
  {
  }

  lemma GroundedTermsOf(w: World, s: PaymentState)
    requires Grounded(w, s)
    ensures CutTerms(s.terms) == CutTerms(w.terms)
  {
  }

  // ---------------------------------------------------------------- all steps

  lemma InitSound(w: World)
    requires Init(w)
    ensures Inv(w)
  {
  }

  lemma StepKeeps(w: World, step: Step)
    requires Inv(w) && Enabled(w, step)
    ensures Inv(Do(w, step))
  {
    hide Inv, Enabled;
    match step {
      case Tick(_) => EnvironmentKeeps(w, step);
      case ChargeLands(_, _) => EnvironmentKeeps(w, step);
      case TransactionEnds(_) => EnvironmentKeeps(w, step);
      case RefundLands(_) => EnvironmentKeeps(w, step);
      case CallCharge(answer, tx) => CallChargeKeeps(w, answer, tx);
      case SaveNew(taken, fate) => SaveNewKeeps(w, taken, fate);
      case Start(_, _) => LoadKeeps(w, step);
      case ReadRow(_) => LoadKeeps(w, step);
      case ReadRefunds(_) => LoadKeeps(w, step);
      case ReadRowOnly(_) => LoadKeeps(w, step);
      case ReserveRefund(run, id, fate) => ReserveKeeps(w, run, id, fate);
      case CallRefund(run, outcome) => CallRefundKeeps(w, run, outcome);
      case RecordRefund(run, fate) => RecordKeeps(w, run, fate);
      case RecordAgain(run, fate) => RecordAgainKeeps(w, run, fate);
      case Notify(run, fate) => NotifyKeeps(w, run, fate);
      case LookUpCharge(run, found) => LookUpChargeKeeps(w, run, found);
      case CancelCharge(run, cancel) => CancelChargeKeeps(w, run, cancel);
      case SaveCharge(run, fate) => SaveChargeKeeps(w, run, fate);
      case LookUpRefunds(run, refunds, todo) => LookUpRefundsKeeps(w, run, refunds, todo);
      case SweepOne(run, outcome) => SweepOneKeeps(w, run, outcome);
      case SaveSweep(run, fate) => SaveSweepKeeps(w, run, fate);
      case CallCancel(run, cancel) => CallCancelKeeps(w, run, cancel);
      case SaveCancel(run, fate) => SaveCancelKeeps(w, run, fate);
      case Expire(run, fate) => ExpireKeeps(w, run, fate);
    }
  }

  /** In every behaviour, of any length and with any number of runs, every world satisfies the invariant. */
  lemma {:induction false} BehaviourSound(worlds: seq<World>, steps: seq<Step>, n: nat)
    requires Behaviour(worlds, steps) && n < |worlds|
    ensures Inv(worlds[n])
  {
    hide Inv, Do, Enabled;
    if n == 0 {
      InitSound(worlds[0]);
    } else {
      BehaviourSound(worlds, steps, n - 1);
      StepKeeps(worlds[n - 1], steps[n - 1]);
    }
  }
}
