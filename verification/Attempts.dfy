/** Numbering a payment's gateway attempts by optimistic retry
    (internal/adapter/outbound/postgres/attempt_recorder.go, db/attempt.sql.go). */
module Attempts {
  /** A row of payment_attempts for one payment, and the Record call that inserted it. */
  datatype Row = Row(number: nat, caller: nat)

  const MAX_NUMBER_RETRIES: nat := 3

  /** COALESCE(MAX(attempt_number), 0). */
  function LastNumber(rows: seq<Row>): nat {
    if rows == [] then 0
    else
      var before := LastNumber(rows[..|rows| - 1]);
      var last := rows[|rows| - 1].number;
      if last > before then last else before
  }

  /** The unique index would reject the number. */
  predicate Taken(rows: seq<Row>, number: nat) {
    exists i :: 0 <= i < |rows| && rows[i].number == number
  }

  /** Attempt numbers are exactly 1..n, in the order of the commits. */
  predicate Contiguous(rows: seq<Row>) {
    forall i :: 0 <= i < |rows| ==> rows[i].number == i + 1
  }

  lemma {:induction false} LastOfContiguous(rows: seq<Row>)
    requires Contiguous(rows)
    ensures LastNumber(rows) == |rows|
  {
    if rows != [] {
      LastOfContiguous(rows[..|rows| - 1]);
    }
  }

  /** A number picked earlier is free exactly if nothing was committed since. */
  lemma FreeIffNothingCommitted(rows: seq<Row>, number: nat)
    requires Contiguous(rows) && 1 <= number <= |rows| + 1
    ensures Taken(rows, number) <==> number <= |rows|
  {
    if number <= |rows| {
      assert rows[number - 1].number == number;
    }
  }

  // ---------------------------------------------------------------- one call

  class Table {
    var rows: seq<Row>

    constructor ()
      ensures rows == []
    {
      rows := [];
    }

    /** Another call's insert commits. */
    method Rival(caller: nat)
      requires Contiguous(rows)
      modifies this
      ensures Contiguous(rows) && rows == old(rows) + [Row(|old(rows)| + 1, caller)]
    {
      LastOfContiguous(rows);
      rows := rows + [Row(LastNumber(rows) + 1, caller)];
    }

    /** Record by call c. rivals[i] are the calls that commit between the moment the i-th insert reads
        the maximum and the moment it writes. The call fails on numbering exactly if each of its tries
        met a rival. */
    method Record(c: nat, rivals: seq<seq<nat>>) returns (recorded: bool)
      requires |rivals| == MAX_NUMBER_RETRIES && Contiguous(rows)
      modifies this
      ensures Contiguous(rows) && old(rows) <= rows
      ensures recorded <==> exists i :: 0 <= i < MAX_NUMBER_RETRIES && rivals[i] == []
      ensures recorded ==> rows != [] && rows[|rows| - 1] == Row(|rows|, c)
      ensures !recorded ==> |rows| >= |old(rows)| + MAX_NUMBER_RETRIES
    {
      recorded := false;
      for try := 0 to MAX_NUMBER_RETRIES
        invariant Contiguous(rows) && old(rows) <= rows
        invariant !recorded && |rows| >= |old(rows)| + try
        invariant forall i :: 0 <= i < try ==> rivals[i] != []
      {
        var number := LastNumber(rows) + 1;
        LastOfContiguous(rows);
        ghost var read := rows;
        for j := 0 to |rivals[try]|
          invariant Contiguous(rows) && read <= rows && |rows| == |read| + j
        {
          Rival(rivals[try][j]);
        }
        FreeIffNothingCommitted(rows, number);
        if !Taken(rows, number) {
          rows := rows + [Row(number, c)];
          return true;
        }
      }
    }
  }

  // ---------------------------------------------------------------- any number of calls

  /** tries counts unique violations so far; start is how many rows there were when the call began. */
  datatype Call =
    | Trying(start: nat, tries: nat)
    | Picked(start: nat, tries: nat, number: nat)

  /** numbering are the calls that failed on numbering, with the rows there were when they began and
      ended; started are all calls so far. */
  datatype State = State(rows: seq<Row>, open: map<nat, Call>, numbering: map<nat, (nat, nat)>, started: set<nat>)

  datatype Step =
    | Begin(c: nat)
    | Pick(c: nat)
    | Insert(c: nat)
    | LoseReply(c: nat)
    | Abort(c: nat)

  predicate Enabled(s: State, step: Step) {
    match step
    case Begin(c) => c !in s.started
    case Pick(c) => c in s.open && s.open[c].Trying?
    case Insert(c) => c in s.open && s.open[c].Picked?
    case LoseReply(c) => c in s.open && s.open[c].Picked? && !Taken(s.rows, s.open[c].number)
    case Abort(c) => c in s.open
  }

  function Do(s: State, step: Step): State
    requires Enabled(s, step)
  {
    match step
    case Begin(c) => s.(open := s.open[c := Trying(|s.rows|, 0)], started := s.started + {c})
    case Pick(c) => s.(open := s.open[c := Picked(s.open[c].start, s.open[c].tries, LastNumber(s.rows) + 1)])
    case Insert(c) =>
      var call := s.open[c];
      if !Taken(s.rows, call.number) then s.(rows := s.rows + [Row(call.number, c)], open := s.open - {c})
      else if call.tries + 1 < MAX_NUMBER_RETRIES then s.(open := s.open[c := Trying(call.start, call.tries + 1)])
      else s.(open := s.open - {c}, numbering := s.numbering[c := (call.start, |s.rows|)])
    case LoseReply(c) => s.(rows := s.rows + [Row(s.open[c].number, c)], open := s.open - {c})
    case Abort(c) => s.(open := s.open - {c})
  }

  predicate Init(s: State) {
    s.rows == [] && s.open == map[] && s.numbering == map[] && s.started == {}
  }

  /** Every violation so far cost a commit by someone else. */
  predicate CallSound(rows: seq<Row>, c: nat, call: Call) {
    && call.tries < MAX_NUMBER_RETRIES
    && (call.Trying? ==> call.start + call.tries <= |rows|)
    && (call.Picked? ==> call.start + call.tries < call.number <= |rows| + 1)
    && NotBy(rows, c)
  }

  predicate NotBy(rows: seq<Row>, c: nat) {
    forall i :: 0 <= i < |rows| ==> rows[i].caller != c
  }

  predicate EachOnce(rows: seq<Row>) {
    forall i, j :: 0 <= i < j < |rows| ==> rows[i].caller != rows[j].caller
  }

  ghost predicate Inv(s: State) {
    && Contiguous(s.rows)
    && EachOnce(s.rows)
    && (forall i :: 0 <= i < |s.rows| ==> s.rows[i].caller in s.started)
    && (forall c :: c in s.open ==> c in s.started && CallSound(s.rows, c, s.open[c]))
    && (forall c :: c in s.numbering ==>
          && c in s.started && c !in s.open && NotBy(s.rows, c)
          && s.numbering[c].0 + MAX_NUMBER_RETRIES <= s.numbering[c].1 <= |s.rows|)
  }

  lemma AppendKeeps(s: State, c: nat)
    requires Inv(s) && c in s.open && s.open[c].Picked? && !Taken(s.rows, s.open[c].number)
    ensures Inv(s.(rows := s.rows + [Row(s.open[c].number, c)], open := s.open - {c}))
  {
    FreeIffNothingCommitted(s.rows, s.open[c].number);
    var t := s.(rows := s.rows + [Row(s.open[c].number, c)], open := s.open - {c});
    assert CallSound(s.rows, c, s.open[c]);
    forall d | d in t.open ensures CallSound(t.rows, d, t.open[d]) {
      assert CallSound(s.rows, d, s.open[d]);
    }
  }

  lemma StepKeeps(s: State, step: Step)
    requires Inv(s) && Enabled(s, step)
    ensures Inv(Do(s, step))
  {
    match step {
      case Begin(c) =>
      case Pick(c) =>
        LastOfContiguous(s.rows);
      case Insert(c) =>
        if Taken(s.rows, s.open[c].number) {
          FreeIffNothingCommitted(s.rows, s.open[c].number);
        } else {
          AppendKeeps(s, c);
        }
      case LoseReply(c) => AppendKeeps(s, c);
      case Abort(c) =>
    }
  }

  ghost predicate Behaviour(states: seq<State>, steps: seq<Step>) {
    && |states| == |steps| + 1 && Init(states[0])
    && forall i :: 0 <= i < |steps| ==> Enabled(states[i], steps[i]) && states[i + 1] == Do(states[i], steps[i])
  }

  lemma {:induction false} BehaviourSound(states: seq<State>, steps: seq<Step>, n: nat)
    requires Behaviour(states, steps) && n < |states|
    ensures Inv(states[n])
  {
    hide Enabled, Do;
    if n > 0 {
      BehaviourSound(states, steps, n - 1);
      hide Inv;
      StepKeeps(states[n - 1], steps[n - 1]);
    }
  }

  /** Whatever the interleaving, a payment's attempt numbers are exactly 1..n. */
  lemma NumbersAreContiguous(states: seq<State>, steps: seq<Step>, n: nat)
    requires Behaviour(states, steps) && n < |states|
    ensures Contiguous(states[n].rows)
  {
    hide Enabled, Do;
    BehaviourSound(states, steps, n);
  }

  /** An open or failed call remembers how many rows there were when it began. */
  lemma {:induction false} StartIsRemembered(states: seq<State>, steps: seq<Step>, i: nat, n: nat, c: nat)
    requires Behaviour(states, steps) && i < n < |states| && steps[i] == Begin(c)
    ensures c in states[n].started
    ensures c in states[n].open ==> states[n].open[c].start == |states[i].rows|
    ensures c in states[n].numbering ==> states[n].numbering[c].0 == |states[i].rows|
    decreases n
  {
    BehaviourSound(states, steps, n - 1);
    assert Enabled(states[n - 1], steps[n - 1]) && states[n] == Do(states[n - 1], steps[n - 1]);
    if i < n - 1 {
      StartIsRemembered(states, steps, i, n - 1, c);
    }
  }

  /** A call that fails on numbering saw at least three other calls commit since it began, each once. */
  lemma FailingTakesThreeRivals(states: seq<State>, steps: seq<Step>, i: nat, j: nat, c: nat)
    requires Behaviour(states, steps) && i < j < |steps|
    requires steps[i] == Begin(c) && steps[j] == Insert(c) && c in states[j + 1].numbering
    ensures var before, now := |states[i].rows|, states[j + 1].rows;
            && before + 3 <= |now|
            && NotBy(now[before..], c)
            && EachOnce(now[before..])
  {
    BehaviourSound(states, steps, j + 1);
    StartIsRemembered(states, steps, i, j + 1, c);
  }
}
