/** The invariant of the protocol, and how the facts runs rely on survive every other run's steps. */
module Invariants {
  import opened Outcomes
  import opened PaymentDomain
  import opened Timestamps
  import opened EventLog
  import opened Store
  import opened Gateway
  import opened Commands
  import opened Protocol

  /** No charge of this payment exists at the gateway and none can appear any more. */
  predicate LostForGood(w: World) {
    w.gateway.tx == Absent && (w.gateway.charge == ChargeCall.Refused || PastGrace(w))
  }

  /** The gateway bears out what this payment says. */
  ghost predicate Grounded(w: World, s: PaymentState) {
    && CutTerms(s.terms) == CutTerms(w.terms)
    && (s.gatewayTxId != "" ==> w.gateway.tx != Absent && s.gatewayTxId == w.gateway.txId)
    && (s.status.WasPaid() ==> w.gateway.tx == TxSettled)
    && (s.status == Failed ==> w.gateway.tx == TxFailed || LostForGood(w))
    && (forall id :: id in s.refunds && s.refunds[id].status == RefundSucceeded ==> id in w.gateway.ledger)
    && (forall id :: id in s.refunds && s.refunds[id].status == RefundFailed ==> id in w.gateway.declined)
  }

  /** Refunds respect what the gateway supports for the payment's method. */
  ghost predicate MethodRule(capability: Capability, s: PaymentState) {
    && (!capability.refund ==> s.refunds == map[])
    && (!capability.partialRefund ==>
          forall id :: id in s.refunds && s.refunds[id].status != RefundFailed ==>
              s.refunds[id].amount == s.terms.amount)
  }

  // ---------------------------------------------------------------- the store

  ghost predicate VersionSound(w: World, v: Version) {
    && Grounded(w, v.state)
    && Consistent(v.state)
    && CutState(v.state) == v.state
    && Legal(w.terms.amount, v.log)
    && CutSummary(Replay(v.log)) == Summarize(v.state)
    && MethodRule(w.config.capability, v.state)
    && v.state.refunds.Keys <= w.issued
  }

  ghost predicate HistorySound(w: World) {
    && (forall i :: 0 <= i < |w.history| ==> VersionSound(w, w.history[i]))
    && (forall i, j :: 0 <= i <= j < |w.history| ==> Covers(w.history[j].state.refunds, w.history[i].state.refunds))
  }

  /** The tables hold the last version, whose number is the row's version. */
  ghost predicate TablesSound(w: World) {
    && WellNumbered(w.tables)
    && (w.history == [] ==> w.tables == NO_ROWS)
    && (w.history != [] ==>
          var last := w.history[|w.history| - 1];
          && w.tables.row == Some(RowOf(last.state, |w.history|))
          && w.tables.refunds == last.state.refunds
          && LogOf(w.tables) == last.log)
  }

  /** PayGate only ever asks for refunds it has stored, and only for settled transactions. */
  ghost predicate GatewaySound(w: World) {
    var gw := w.gateway;
    && gw.ledger.Keys <= gw.sent.Keys
    && (forall id :: id in gw.ledger ==> gw.ledger[id] == gw.sent[id])
    && gw.ledger.Keys !! gw.declined
    && (forall id :: id in gw.sent ==> id in w.tables.refunds && w.tables.refunds[id].amount == gw.sent[id])
    && (gw.sent != map[] ==> gw.tx == TxSettled)
    && (gw.charge == NotSent ==> gw.tx == Absent)
    && (gw.tx != Absent ==> gw.txId != "")
    && w.issued !! w.config.foreign
  }

  ghost predicate StoreSound(w: World) {
    && 0 < w.terms.amount <= MAX_INT64
    && HistorySound(w) && TablesSound(w) && GatewaySound(w)
  }

  // ---------------------------------------------------------------- runs

  /** base is what the load returned: the row of one version, the refunds of that or a later one. */
  ghost predicate LoadedFrom(w: World, s: Session) {
    && 1 <= s.aggregate.version <= s.refundsAt <= |w.history|
    && s.base == w.history[s.aggregate.version - 1].state.(refunds := w.history[s.refundsAt - 1].state.refunds)
  }

  /** Row and refunds of the load are of the same version. */
  predicate Untorn(s: Session) {
    s.refundsAt == s.aggregate.version
  }

  ghost predicate SessionSound(w: World, s: Session) {
    var a := s.aggregate;
    && LoadedFrom(w, s)
    && !IsNew(a)
    && Grounded(w, a.state)
    && WithinAmount(a.state)
    && Covers(a.state.refunds, s.base.refunds)
    && a.state.refunds.Keys <= w.issued
    && (Untorn(s) ==> Tracks(w.history[a.version - 1].log, a) && MethodRule(w.config.capability, a.state))
  }

  /** Between two calls a run holds no refund it has not stored. */
  ghost predicate AtRest(w: World, s: Session) {
    SessionSound(w, s) && s.aggregate.state.refunds.Keys == s.base.refunds.Keys
  }

  predicate ReplyTrue(w: World, id: Id, reply: RefundReply) {
    match reply
    case Confirmed(_) => id in w.gateway.ledger
    case Denied(_) => id in w.gateway.declined
  }

  /** What of a notification stays true although the gateway moves on. */
  predicate StaysTrue(w: World, n: Notification) {
    && (n.status.ReportsSettled? ==> w.gateway.tx == TxSettled)
    && (n.status.ReportsFailed? ==> w.gateway.tx == TxFailed)
    && (n.txId == "" || (w.gateway.tx != Absent && n.txId == w.gateway.txId))
    && TrueRefunds(w.gateway, w.config.foreign, n.refunds)
  }

  predicate FindingTrue(w: World, finding: ChargeFinding) {
    match finding
    case NeverCreated => LostForGood(w)
    case FoundSettled(txId) => w.gateway.tx == TxSettled && txId == w.gateway.txId
    case FoundFailed(txId, _) => w.gateway.tx == TxFailed && txId == w.gateway.txId
    case FoundPendingAndCancelled(txId) => w.gateway.tx == TxFailed && txId == w.gateway.txId
  }

  predicate GoalSound(w: World, goal: Goal) {
    match goal
    case GoalRecord(id, reply) => ReplyTrue(w, id, reply)
    case GoalNotification(n) => StaysTrue(w, n)
    case _ => true
  }

  ghost predicate RunSound(w: World, r: Run) {
    match r
    case Waiting(goal) => GoalSound(w, goal)
    case RowRead(row, goal) =>
      && GoalSound(w, goal) && !goal.GoalCharge?
      && 1 <= row.version <= |w.history|
      && row == RowOf(w.history[row.version - 1].state, row.version)
    case Ready(s, goal) => AtRest(w, s) && GoalSound(w, goal) && (goal.GoalCharge? ==> PastGrace(w))
    case CallingRefund(s, id) => AtRest(w, s)
    case Recording(s, id, reply) => AtRest(w, s) && ReplyTrue(w, id, reply)
    case CancellingCharge(s, txId) => AtRest(w, s) && w.gateway.tx != Absent && txId == w.gateway.txId
    case SettlingCharge(s, finding) => AtRest(w, s) && FindingTrue(w, finding)
    case Sweeping(s, _, _, _) => AtRest(w, s)
    case SavingCancel(s) => AtRest(w, s)
    case Stopped => true
  }

  ghost predicate CreatorSound(w: World) {
    match w.creator
    case Created(a) => New(w.terms) == Ok(a) && w.history == [] && w.gateway.charge == NotSent
    case Charged(a) =>
      && w.history == []
      && a.version == 0 && IsNew(a) && a.state.refunds == map[]
      && Tracks([], a) && Grounded(w, a.state)
    case Finished => true
  }

  ghost predicate Inv(w: World) {
    && StoreSound(w)
    && CreatorSound(w)
    && (forall run :: run in w.runs ==> RunSound(w, w.runs[run]))
  }

  // ---------------------------------------------------------------- what other runs may do

  /** Everything a run relies on only ever grows: time, versions, the ledger, final gateway states. */
  ghost predicate Grows(w: World, after: World) {
    && after.config == w.config && after.terms == w.terms
    && w.now <= after.now
    && w.history <= after.history
    && w.issued <= after.issued
    && (forall id :: id in w.gateway.ledger ==> id in after.gateway.ledger)
    && w.gateway.declined <= after.gateway.declined
    && (w.gateway.tx != Absent ==> after.gateway.tx != Absent && after.gateway.txId == w.gateway.txId)
    && (w.gateway.tx == TxSettled ==> after.gateway.tx == TxSettled)
    && (w.gateway.tx == TxFailed ==> after.gateway.tx == TxFailed)
    && (LostForGood(w) ==> LostForGood(after))
  }

  lemma GroundedStays(w: World, after: World, s: PaymentState)
    requires Grows(w, after) && Grounded(w, s)
    ensures Grounded(after, s)
  {
  }

  lemma SessionStays(w: World, after: World, s: Session)
    requires Grows(w, after) && SessionSound(w, s)
    ensures SessionSound(after, s)
  {
    GroundedStays(w, after, s.aggregate.state);
    assert w.history == after.history[..|w.history|];
  }

  lemma RunStays(w: World, after: World, r: Run)
    requires Grows(w, after) && RunSound(w, r)
    ensures RunSound(after, r)
  {
    match r {
      case Waiting(_) =>
      case RowRead(row, _) => assert w.history == after.history[..|w.history|];
      case Ready(s, _) => SessionStays(w, after, s);
      case CallingRefund(s, _) => SessionStays(w, after, s);
      case Recording(s, _, _) => SessionStays(w, after, s);
      case CancellingCharge(s, _) => SessionStays(w, after, s);
      case SettlingCharge(s, _) => SessionStays(w, after, s);
      case Sweeping(s, _, _, _) => SessionStays(w, after, s);
      case SavingCancel(s) => SessionStays(w, after, s);
      case Stopped =>
    }
  }

  /** A step that grows the world, keeps the store sound and leaves run in a sound state keeps the invariant. */
  lemma RunMoves(w: World, after: World, run: nat, r: Run)
    requires Inv(w) && Grows(w, after)
    requires after.runs == w.runs[run := r] && after.creator == w.creator
    requires StoreSound(after) && RunSound(after, r)
    requires w.creator.Finished? || (after.history == w.history && after.gateway.charge == w.gateway.charge)
    ensures Inv(after)
  {
    forall other | other in after.runs ensures RunSound(after, after.runs[other]) {
      if other != run {
        RunStays(w, after, w.runs[other]);
      }
    }
    if w.creator.Charged? {
      GroundedStays(w, after, w.creator.aggregate.state);
    }
  }

  lemma VersionStays(w: World, after: World, v: Version)
    requires Grows(w, after) && VersionSound(w, v)
    ensures VersionSound(after, v)
  {
    hide Consistent, Legal, Replay, MethodRule, CutState, Cut, CutTerms, Grounded;
    GroundedStays(w, after, v.state);
  }

  /** A step that only changes clock or gateway and lets the world grow keeps the history sound. */
  lemma HistoryStays(w: World, after: World)
    requires Grows(w, after) && HistorySound(w) && after.history == w.history
    ensures HistorySound(after)
  {
    hide VersionSound, Covers;
    forall i | 0 <= i < |after.history| ensures VersionSound(after, after.history[i]) {
      VersionStays(w, after, w.history[i]);
    }
  }

  // ---------------------------------------------------------------- saves

  lemma CoversTransitive(a: map<Id, Refund>, b: map<Id, Refund>, c: map<Id, Refund>)
    requires Covers(a, b) && Covers(b, c)
    ensures Covers(a, c)
  {
  }

  /** A save whose version check passes saw exactly the stored payment, both its row and its refunds. */
  lemma VersionCheckPasses(w: World, s: Session)
    requires TablesSound(w) && LoadedFrom(w, s)
    requires w.tables.row.Some? && w.tables.row.value.version == s.aggregate.version
    ensures Untorn(s) && s.aggregate.version == |w.history|
    ensures s.base == StateOf(w.tables)
  {
  }

  /** The tables a committing save leaves. */
  lemma CommitWrites(w: World, s: Session, fate: Fate)
    requires TablesSound(w) && LoadedFrom(w, s) && !IsNew(s.aggregate)
    requires Covers(s.aggregate.state.refunds, s.base.refunds) && CutTerms(s.aggregate.state.terms) == s.base.terms
    requires Save(w.tables, s.aggregate, false, fate).tables != w.tables
    ensures var after, a := Save(w.tables, s.aggregate, false, fate).tables, s.aggregate;
            && Untorn(s) && a.version == |w.history| && s.base == StateOf(w.tables)
            && after.row == Some(RowOf(CutState(a.state), a.version + 1))
            && after.refunds == CutRefunds(a.state.refunds)
            && LogOf(after) == w.history[a.version - 1].log + a.events
            && WellNumbered(after)
  {
    hide Cut, CutOption, CutRefunds, Covers;
    SaveChecksVersion(w.tables, s.aggregate, false, fate);
    VersionCheckPasses(w, s);
    SaveWrites(w.tables, s.aggregate, false, fate);
  }

  lemma SaveGrows(w: World, a: Aggregate, taken: bool, fate: Fate)
    ensures Grows(w, AfterSave(w, a, taken, fate))
  {
  }

  lemma CoversItself(w: World, v: Version)
    requires VersionSound(w, v)
    ensures Covers(v.state.refunds, v.state.refunds)
  {
    hide Consistent, Legal, Replay, MethodRule, Cut, CutTerms, CutRefunds, Grounded, Covers;
    CoversCut(v.state.refunds, v.state.refunds);
  }

  /** Appending a version. */
  lemma HistoryAppend(w: World, after: World, v: Version)
    requires HistorySound(w) && after == w.(tables := after.tables, history := w.history + [v])
    requires VersionSound(w, v)
    requires w.history != [] ==> Covers(v.state.refunds, w.history[|w.history| - 1].state.refunds)
    ensures HistorySound(after)
  {
    assert Grows(w, after);
    hide VersionSound, Covers, Grows;
    forall i | 0 <= i < |after.history| ensures VersionSound(after, after.history[i]) {
      VersionStays(w, after, if i < |w.history| then w.history[i] else v);
    }
    forall i, j | 0 <= i <= j < |after.history|
      ensures Covers(after.history[j].state.refunds, after.history[i].state.refunds)
    {
      if i == j {
        CoversItself(after, after.history[i]);
      } else if j == |w.history| {
        CoversTransitive(v.state.refunds, w.history[j - 1].state.refunds, w.history[i].state.refunds);
      }
    }
  }

  /** The version a committing save appends. */
  lemma NewVersionSound(w: World, s: Session)
    requires SessionSound(w, s) && Untorn(s) && s.aggregate.version == |w.history|
    ensures VersionSound(w, Version(CutState(s.aggregate.state), w.history[|w.history| - 1].log + s.aggregate.events))
    ensures Covers(CutRefunds(s.aggregate.state.refunds), w.history[|w.history| - 1].state.refunds)
  {
    hide Consistent, Legal, Replay, MethodRule, Cut, CutOption, CutRefunds, Covers;
    CutVersionSound(w, s.aggregate.state);
    SummarizeCut(s.aggregate.state);
    CoversCut(s.aggregate.state.refunds, w.history[|w.history| - 1].state.refunds);
  }

  /** What the columns keep of a payment is as sound as the payment. */
  lemma CutVersionSound(w: World, s: PaymentState)
    ensures Grounded(w, CutState(s)) <==> Grounded(w, s)
    ensures Consistent(CutState(s)) <==> Consistent(s)
    ensures MethodRule(w.config.capability, CutState(s)) <==> MethodRule(w.config.capability, s)
    ensures CutState(CutState(s)) == CutState(s) && CutRefunds(s.refunds).Keys == s.refunds.Keys
  {
    CutTwice(s);
    CutConsistent(s);
    hide Cut, CutOption, Consistent;
    CutMethodRule(w.config.capability, s);
    forall id | id in s.refunds ensures CutRefunds(s.refunds)[id].status == s.refunds[id].status {}
  }

  lemma CutMethodRule(capability: Capability, s: PaymentState)
    ensures MethodRule(capability, CutState(s)) <==> MethodRule(capability, s)
  {
    hide Cut, CutOption;
    assert CutRefunds(s.refunds).Keys == s.refunds.Keys;
    forall id | id in s.refunds
      ensures CutRefunds(s.refunds)[id].status == s.refunds[id].status
              && CutRefunds(s.refunds)[id].amount == s.refunds[id].amount
    {
    }
  }

  lemma GatewayStays(w: World, after: World)
    requires GatewaySound(w) && after == w.(tables := after.tables, history := after.history)
    requires Covers(after.tables.refunds, w.tables.refunds)
    ensures GatewaySound(after)
  {
  }

  lemma CommitKeepsStore(w: World, after: World, v: Version)
    requires StoreSound(w) && w.history != []
    requires VersionSound(w, v) && Covers(v.state.refunds, w.history[|w.history| - 1].state.refunds)
    requires after == w.(tables := after.tables, history := w.history + [v])
    requires after.tables.row == Some(RowOf(v.state, |w.history| + 1)) && after.tables.refunds == v.state.refunds
    requires LogOf(after.tables) == v.log && WellNumbered(after.tables)
    ensures StoreSound(after)
  {
    hide VersionSound, WellNumbered, Covers;
    HistoryAppend(w, after, v);
    GatewayStays(w, after);
    assert after.history[|after.history| - 1] == v;
  }

  /** A save by any run, however it ends, keeps the store sound; if it commits, the run had seen
      exactly what is stored and the aggregate becomes the next version. */
  lemma SaveKeepsStore(w: World, s: Session, fate: Fate)
    requires StoreSound(w) && SessionSound(w, s)
    ensures var after := AfterSave(w, s.aggregate, false, fate);
            && StoreSound(after) && Grows(w, after)
            && after.gateway == w.gateway && after.runs == w.runs && after.creator == w.creator
            && (after.history != w.history ==>
                  && s.base == StateOf(w.tables)
                  && s.aggregate.version == |w.history|
                  && StateOf(after.tables) == CutState(s.aggregate.state))
  {
    hide VersionSound, Consistent, Legal, Replay, MethodRule, Tracks, WithinAmount, Write, Upserted, IsNew, Cut,
         CutOption, CutRefunds, CutTerms;
    var after := AfterSave(w, s.aggregate, false, fate);
    SaveGrows(w, s.aggregate, false, fate);
    if Save(w.tables, s.aggregate, false, fate).tables != w.tables {
      GroundedTerms(w, s);
      CommitWrites(w, s, fate);
      assert StateOf(after.tables) == CutState(s.aggregate.state);
      NewVersionSound(w, s);
      CommitKeepsStore(w, after, after.history[|w.history|]);
    }
  }

  lemma GroundedTerms(w: World, s: Session)
    requires HistorySound(w) && SessionSound(w, s)
    ensures CutTerms(s.aggregate.state.terms) == s.base.terms == CutTerms(w.terms)
  {
    hide Cut, CutOption, Consistent, Legal, Replay, MethodRule, Tracks;
    assert VersionSound(w, w.history[s.aggregate.version - 1]);
  }
}
