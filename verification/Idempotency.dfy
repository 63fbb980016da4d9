/** Claiming an idempotency key, replaying stored responses, and what that keeps out
    (internal/adapter/inbound/http/middleware/idempotency.go, internal/adapter/inbound/http/payment_handler.go).
    Keys and request fingerprints are SHA-256 digests, taken as opaque; times are in seconds. */
module Idempotency {
  import opened Outcomes

  datatype Record =
    | Processing(hash: string)
    | Done(hash: string, status: nat, body: string)
    | Unreadable

  /** A cache entry; it is gone once expires has come. */
  datatype Entry = Entry(record: Record, expires: Time)

  datatype Outcome = New | Replay(status: nat, body: string) | InFlight | Mismatch

  const PROCESSING_TTL: nat := 60

  function ClaimTTL(ttl: nat): nat {
    if ttl < PROCESSING_TTL then ttl else PROCESSING_TTL
  }

  predicate Live(entry: Option<Entry>, now: Time) {
    entry.Some? && now < entry.value.expires
  }

  function Claim(hash: string, ttl: nat, now: Time): Entry {
    Entry(Processing(hash), now + ClaimTTL(ttl))
  }

  /** What Begin answers when the key was taken, from what it then reads. */
  function Answer(entry: Option<Entry>, hash: string, now: Time): Outcome {
    if !Live(entry, now) then InFlight
    else
      match entry.value.record
      case Unreadable => InFlight
      case Processing(h) => if h != hash then Mismatch else InFlight
      case Done(h, status, body) => if h != hash then Mismatch else Replay(status, body)
  }

  /** The four answers, told apart by what the cache holds. */
  lemma AnswerMeans(entry: Option<Entry>, hash: string, now: Time)
    ensures Answer(entry, hash, now) != New
    ensures forall status, body ::
              (Answer(entry, hash, now) == Replay(status, body))
              == (Live(entry, now) && entry.value.record == Done(hash, status, body))
    ensures (Answer(entry, hash, now) == Mismatch)
            == (Live(entry, now) && !entry.value.record.Unreadable? && entry.value.record.hash != hash)
  {
  }

  // ---------------------------------------------------------------- the service, one call at a time

  /** IdempotencyService over a cache that is up. Between the two steps of Begin the cache may change,
      which the state machine below covers. */
  class Service {
    var entries: map<string, Entry>
    const ttl: nat

    constructor (ttl: nat)
      ensures entries == map[] && this.ttl == ttl
    {
      entries := map[];
      this.ttl := ttl;
    }

    function At(key: string): Option<Entry>
      reads this
    {
      if key in entries then Some(entries[key]) else None
    }

    method SetNX(key: string, value: Entry, now: Time) returns (acquired: bool)
      modifies this
      ensures acquired == !Live(old(At(key)), now)
      ensures entries == if acquired then old(entries)[key := value] else old(entries)
    {
      acquired := !(key in entries && now < entries[key].expires);
      if acquired {
        entries := entries[key := value];
      }
    }

    method Begin(key: string, hash: string, now: Time, later: Time) returns (outcome: Outcome)
      requires now <= later
      modifies this
      ensures outcome == if Live(old(At(key)), now) then Answer(old(At(key)), hash, later) else New
      ensures entries == if outcome == New then old(entries)[key := Claim(hash, ttl, now)] else old(entries)
      ensures outcome == New ==>
                key in entries && entries[key] == Entry(Processing(hash), now + if ttl < 60 then ttl else 60)
    {
      var acquired := SetNX(key, Entry(Processing(hash), now + ClaimTTL(ttl)), now);
      if acquired {
        return New;
      }
      if key !in entries || later >= entries[key].expires {
        return InFlight;
      }
      var rec := entries[key].record;
      if rec.Unreadable? {
        return InFlight;
      }
      if rec.hash != hash {
        return Mismatch;
      }
      if rec.Done? {
        return Replay(rec.status, rec.body);
      }
      return InFlight;
    }

    method Complete(key: string, hash: string, status: nat, body: string, now: Time)
      modifies this
      ensures entries == old(entries)[key := Entry(Done(hash, status, body), now + ttl)]
    {
      entries := entries[key := Entry(Done(hash, status, body), now + ttl)];
    }

    method Release(key: string)
      modifies this
      ensures entries == old(entries) - {key}
    {
      entries := entries - {key};
    }
  }

  // ---------------------------------------------------------------- any number of requests for one key

  /** Where a request is: about to claim, about to read after losing the claim, running the command
      (holding the key or, when the cache failed, not), or about to store its response. */
  datatype Phase =
    | Asking(hash: string)
    | Reading(hash: string)
    | Running(hash: string, holds: bool, since: Time)
    | Storing(hash: string, since: Time, status: nat, body: string)

  datatype Response = Response(hash: string, status: nat, body: string)

  /** A run that claimed the key; one that stored its response through Complete; a replay. */
  datatype Claimed = Claimed(r: nat, hash: string, at: Time)

  datatype Stored = Stored(claim: Claimed, response: Response, at: Time)

  datatype Replayed = Replayed(response: Response, at: Time)

  /** finished, claimed, stored and replayed are history: the responses runs produced, the claims that
      were acquired, the responses stored under them, and those replayed to a request with their fingerprint. */
  datatype State = State(
    now: Time,
    entry: Option<Entry>,
    requests: map<nat, Phase>,
    finished: set<Response>,
    claimed: set<Claimed>,
    stored: set<Stored>,
    replayed: set<Replayed>)

  datatype Step =
    | Tick(now: Time)
    | Arrive(r: nat, hash: string)
    | SetNX(r: nat)
    | SetNXFails(r: nat, applied: bool)
    | Get(r: nat)
    | GetFails(r: nat)
    | Succeed(r: nat, status: nat, body: string)
    | Complete(r: nat, applied: bool)
    | Release(r: nat, applied: bool)
    | Crash(r: nat)

  predicate Enabled(s: State, step: Step) {
    match step
    case Tick(now) => s.now <= now
    case Arrive(r, _) => r !in s.requests
    case SetNX(r) => r in s.requests && s.requests[r].Asking?
    case SetNXFails(r, _) => r in s.requests && s.requests[r].Asking?
    case Get(r) => r in s.requests && s.requests[r].Reading?
    case GetFails(r) => r in s.requests && s.requests[r].Reading?
    case Succeed(r, _, _) => r in s.requests && s.requests[r].Running?
    case Complete(r, _) => r in s.requests && s.requests[r].Storing?
    case Release(r, _) => r in s.requests && s.requests[r].Running?
    case Crash(r) => r in s.requests
  }

  function StoredBy(s: State, r: nat): Stored
    requires r in s.requests && s.requests[r].Storing?
  {
    var p := s.requests[r];
    Stored(Claimed(r, p.hash, p.since), Response(p.hash, p.status, p.body), s.now)
  }

  function Do(s: State, step: Step, ttl: nat): State
    requires Enabled(s, step)
  {
    match step
    case Tick(now) => s.(now := now)
    case Arrive(r, hash) => s.(requests := s.requests[r := Asking(hash)])
    case SetNX(r) =>
      var hash := s.requests[r].hash;
      if Live(s.entry, s.now) then s.(requests := s.requests[r := Reading(hash)])
      else s.(entry := Some(Claim(hash, ttl, s.now)), requests := s.requests[r := Running(hash, true, s.now)],
              claimed := s.claimed + {Claimed(r, hash, s.now)})
    case SetNXFails(r, applied) =>
      var hash := s.requests[r].hash;
      s.(entry := if applied && !Live(s.entry, s.now) then Some(Claim(hash, ttl, s.now)) else s.entry,
         requests := s.requests[r := Running(hash, false, s.now)])
    case Get(r) =>
      var hash := s.requests[r].hash;
      var answer := Answer(s.entry, hash, s.now);
      s.(requests := s.requests - {r},
         replayed := s.replayed
             + (if answer.Replay? then {Replayed(Response(hash, answer.status, answer.body), s.now)} else {}))
    case GetFails(r) =>
      s.(requests := s.requests[r := Running(s.requests[r].hash, false, s.now)])
    case Succeed(r, status, body) =>
      var p := s.requests[r];
      s.(requests := if p.holds then s.requests[r := Storing(p.hash, p.since, status, body)] else s.requests - {r},
         finished := s.finished + {Response(p.hash, status, body)})
    case Complete(r, applied) =>
      var p := s.requests[r];
      if applied then s.(entry := Some(Entry(Done(p.hash, p.status, p.body), s.now + ttl)),
                         requests := s.requests - {r}, stored := s.stored + {StoredBy(s, r)})
      else s.(requests := s.requests - {r})
    case Release(r, applied) =>
      s.(entry := if applied && s.requests[r].holds then None else s.entry, requests := s.requests - {r})
    case Crash(r) => s.(requests := s.requests - {r})
  }

  /** The key is free or holds a record an older release left. */
  predicate Init(s: State) {
    && (s.entry.None? || s.entry.value.record.Unreadable?)
    && s.requests == map[] && s.finished == {} && s.claimed == {} && s.stored == {} && s.replayed == {}
  }

  predicate Active(s: State, r: nat) {
    r in s.requests && (s.requests[r].Running? || s.requests[r].Storing?)
  }

  // ---------------------------------------------------------------- replays are genuine

  /** A run that still holds the key has claimed it. */
  predicate PhaseGenuine(s: State, r: nat, p: Phase) {
    match p
    case Running(hash, true, since) => Claimed(r, hash, since) in s.claimed && since <= s.now
    case Storing(hash, since, status, body) =>
      Claimed(r, hash, since) in s.claimed && since <= s.now && Response(hash, status, body) in s.finished
    case _ => true
  }

  /** The run that stored a response had claimed the key with the response's fingerprint and produced it. */
  predicate StoredGenuine(s: State, st: Stored) {
    && st.claim in s.claimed && st.response in s.finished && st.claim.hash == st.response.hash
    && st.claim.at <= st.at <= s.now
  }

  ghost predicate EntryGenuine(s: State, ttl: nat, e: Entry) {
    e.record.Done? ==>
      var d := e.record;
      exists st :: st in s.stored && st.response == Response(d.hash, d.status, d.body) && e.expires == st.at + ttl
  }

  ghost predicate ReplayGenuine(s: State, ttl: nat, re: Replayed) {
    exists st :: st in s.stored && st.response == re.response && st.at <= re.at < st.at + ttl
  }

  ghost predicate Genuine(s: State, ttl: nat) {
    && (s.entry.Some? ==> EntryGenuine(s, ttl, s.entry.value))
    && (forall r :: r in s.requests ==> PhaseGenuine(s, r, s.requests[r]))
    && (forall st :: st in s.stored ==> StoredGenuine(s, st))
    && (forall re :: re in s.replayed ==> ReplayGenuine(s, ttl, re))
  }

  lemma StepKeepsGenuine(s: State, step: Step, ttl: nat)
    requires Genuine(s, ttl) && Enabled(s, step)
    ensures Genuine(Do(s, step, ttl), ttl)
  {
    var t := Do(s, step, ttl);
    forall r | r in t.requests ensures PhaseGenuine(t, r, t.requests[r]) {
      if r in s.requests {
        assert PhaseGenuine(s, r, s.requests[r]);
      }
    }
    if step.Complete? {
      assert PhaseGenuine(s, step.r, s.requests[step.r]);
      assert step.applied ==> StoredBy(s, step.r) in t.stored;
    }
    forall re | re in t.replayed ensures ReplayGenuine(t, ttl, re) {
      if re in s.replayed {
        assert ReplayGenuine(s, ttl, re);
      } else {
        assert EntryGenuine(s, ttl, s.entry.value);
      }
    }
  }

  /** Only a run that acquired the key ever overwrites or frees a live entry. */
  lemma OnlyClaimantsWrite(states: seq<State>, steps: seq<Step>, ttl: nat, i: nat)
    requires Behaviour(states, steps, ttl) && i < |steps| && states[i + 1].entry != states[i].entry
    requires Live(states[i].entry, states[i].now)
    ensures steps[i].Complete? || steps[i].Release?
    ensures exists c :: c in states[i].claimed && c.r == steps[i].r && c.hash == states[i].requests[c.r].hash
  {
    BehaviourGenuine(states, steps, ttl, i);
    assert PhaseGenuine(states[i], steps[i].r, states[i].requests[steps[i].r]);
    var p := states[i].requests[steps[i].r];
    assert Claimed(steps[i].r, p.hash, p.since) in states[i].claimed;
  }

  /** A cache that fails turns nobody away: short of a crash a request ends without running only because of what
      it read of the key, and where the cache fails it runs, without holding the key. */
  lemma FailsOpen(s: State, step: Step, ttl: nat, r: nat)
    requires Enabled(s, step) && r in s.requests && (s.requests[r].Asking? || s.requests[r].Reading?)
    ensures r !in Do(s, step, ttl).requests ==> step == Crash(r) || step == Get(r)
    ensures (step.SetNXFails? || step.GetFails?) && step.r == r ==>
              && r in Do(s, step, ttl).requests
              && Do(s, step, ttl).requests[r] == Running(s.requests[r].hash, false, s.now)
  {
  }

  /** A claim never outlives a minute, so a run that crashed blocks its key no longer. */
  lemma {:induction false} ClaimsAreShort(states: seq<State>, steps: seq<Step>, ttl: nat, i: nat)
    requires Behaviour(states, steps, ttl) && i < |states|
    ensures var e := states[i].entry;
            e.Some? && e.value.record.Processing? ==> e.value.expires <= states[i].now + 60
  {
    if i > 0 {
      ClaimsAreShort(states, steps, ttl, i - 1);
    }
  }

  // ---------------------------------------------------------------- one run at a time

  /** The cache answers, and every run ends before its claim could expire. */
  ghost predicate Orderly(s: State, step: Step, ttl: nat) {
    match step
    case SetNXFails(_, _) => false
    case GetFails(_) => false
    case Tick(now) => forall r :: Active(s, r) ==> now < s.requests[r].since + ClaimTTL(ttl)
    case _ => true
  }

  /** An active run is the only one, holds the key, and its own claim is still in the cache. */
  ghost predicate Exclusive(s: State, ttl: nat) {
    forall r :: Active(s, r) ==>
      && (s.requests[r].Running? ==> s.requests[r].holds)
      && s.entry == Some(Claim(s.requests[r].hash, ttl, s.requests[r].since))
      && Live(s.entry, s.now)
      && (forall q :: Active(s, q) ==> q == r)
  }

  lemma StepKeepsExclusive(s: State, step: Step, ttl: nat)
    requires ttl > 0 && Exclusive(s, ttl) && Enabled(s, step) && Orderly(s, step, ttl)
    ensures Exclusive(Do(s, step, ttl), ttl)
  {
    var t := Do(s, step, ttl);
    forall r | Active(t, r)
      ensures Active(s, r) || (step.SetNX? && step.r == r && !Live(s.entry, s.now))
    {
    }
  }

  // ---------------------------------------------------------------- whole runs

  /** states[0] is initial and each state follows from the one before by the step between them. */
  ghost predicate Behaviour(states: seq<State>, steps: seq<Step>, ttl: nat) {
    && |states| == |steps| + 1
    && Init(states[0])
    && forall i :: 0 <= i < |steps| ==> Enabled(states[i], steps[i]) && states[i + 1] == Do(states[i], steps[i], ttl)
  }

  ghost predicate OrderlyBehaviour(states: seq<State>, steps: seq<Step>, ttl: nat) {
    && Behaviour(states, steps, ttl)
    && forall i :: 0 <= i < |steps| ==> Orderly(states[i], steps[i], ttl)
  }

  lemma {:induction false} BehaviourGenuine(states: seq<State>, steps: seq<Step>, ttl: nat, i: nat)
    requires Behaviour(states, steps, ttl) && i < |states|
    ensures Genuine(states[i], ttl)
  {
    hide Genuine, Enabled, Do;
    if i > 0 {
      BehaviourGenuine(states, steps, ttl, i - 1);
      StepKeepsGenuine(states[i - 1], steps[i - 1], ttl);
    } else {
      NothingYet(states[0], ttl);
    }
  }

  lemma NothingYet(s: State, ttl: nat)
    requires Init(s)
    ensures Genuine(s, ttl)
  {
  }

  /** Whatever the cache and the clock do, a replayed response is one that a run with the same fingerprint
      produced and, having claimed the key, stored through Complete less than a TTL before. */
  lemma ReplaysAreGenuine(states: seq<State>, steps: seq<Step>, ttl: nat, i: nat, re: Replayed)
    requires Behaviour(states, steps, ttl) && i < |states| && re in states[i].replayed
    ensures exists st :: st in states[i].stored && st.response == re.response && st.at <= re.at < st.at + ttl
              && st.claim in states[i].claimed && st.claim.hash == re.response.hash && st.claim.at <= st.at
              && re.response in states[i].finished
  {
    BehaviourGenuine(states, steps, ttl, i);
    assert ReplayGenuine(states[i], ttl, re);
    var st :| st in states[i].stored && st.response == re.response && st.at <= re.at < st.at + ttl;
    assert StoredGenuine(states[i], st);
  }

  lemma {:induction false} OrderlyExclusive(states: seq<State>, steps: seq<Step>, ttl: nat, i: nat)
    requires ttl > 0 && OrderlyBehaviour(states, steps, ttl) && i < |states|
    ensures Exclusive(states[i], ttl)
  {
    if i > 0 {
      OrderlyExclusive(states, steps, ttl, i - 1);
      StepKeepsExclusive(states[i - 1], steps[i - 1], ttl);
    }
  }

  /** While the cache is up and runs end before their claim expires, at most one run per key is
      active, and none is while a stored response can still be replayed. */
  lemma OneRunAtATime(states: seq<State>, steps: seq<Step>, ttl: nat, i: nat)
    requires ttl > 0 && OrderlyBehaviour(states, steps, ttl) && i < |states|
    ensures var s := states[i];
            && (forall r, q :: Active(s, r) && Active(s, q) ==> r == q)
            && (Live(s.entry, s.now) && !s.entry.value.record.Processing? ==> forall r :: !Active(s, r))
  {
    OrderlyExclusive(states, steps, ttl, i);
  }

  lemma StoredStays(s: State, step: Step, ttl: nat)
    requires ttl > 0 && Exclusive(s, ttl) && Enabled(s, step) && Orderly(s, step, ttl)
    requires Live(s.entry, s.now) && s.entry.value.record.Done?
    ensures Do(s, step, ttl).entry == s.entry
  {
    if step.Complete? || step.Release? {
      assert Active(s, step.r);
    }
  }

  /** Once stored, a response stays until it expires: every identical request that gets an answer in
      that time gets this response. */
  lemma {:induction false} StoredResponseIsStable(states: seq<State>, steps: seq<Step>, ttl: nat, i: nat, j: nat)
    requires ttl > 0 && OrderlyBehaviour(states, steps, ttl) && i <= j < |states|
    requires states[i].entry.Some? && states[i].entry.value.record.Done?
    requires states[j].now < states[i].entry.value.expires
    ensures states[j].entry == states[i].entry
    ensures var d := states[i].entry.value.record;
            Answer(states[j].entry, d.hash, states[j].now) == Replay(d.status, d.body)
    decreases j
  {
    if i < j {
      assert Enabled(states[j - 1], steps[j - 1]) && states[j] == Do(states[j - 1], steps[j - 1], ttl);
      assert states[j - 1].now <= states[j].now;
      StoredResponseIsStable(states, steps, ttl, i, j - 1);
      OrderlyExclusive(states, steps, ttl, j - 1);
      StoredStays(states[j - 1], steps[j - 1], ttl);
    }
  }

  /** A behaviour without cache failures that ends in s. */
  ghost predicate Reaches(states: seq<State>, steps: seq<Step>, s: State) {
    && Behaviour(states, steps, PROCESSING_TTL)
    && states[|states| - 1] == s
    && forall step :: step in steps ==> !step.SetNXFails? && !step.GetFails?
  }

  lemma OneMoreStep(states: seq<State>, steps: seq<Step>, s: State, step: Step)
    returns (longer: seq<State>, more: seq<Step>, t: State)
    requires Reaches(states, steps, s) && Enabled(s, step) && !step.SetNXFails? && !step.GetFails?
    ensures t == Do(s, step, PROCESSING_TTL) && Reaches(longer, more, t)
  {
    hide Enabled, Do, Init;
    t := Do(s, step, PROCESSING_TTL);
    longer, more := states + [t], steps + [step];
    forall i | 0 <= i < |more|
      ensures Enabled(longer[i], more[i]) && longer[i + 1] == Do(longer[i], more[i], PROCESSING_TTL)
    {
      if i < |steps| {
        assert longer[i] == states[i] && longer[i + 1] == states[i + 1] && more[i] == steps[i];
      }
    }
  }

  /** Why runs must end in time: a late one releases the claim of the run that followed it, and a third
      starts beside that. */
  lemma LateReleaseAdmitsAnother(hash: string) returns (states: seq<State>, steps: seq<Step>, s: State)
    ensures Reaches(states, steps, s)
    ensures Active(s, 2) && Active(s, 3)
  {
    s := State(0, None, map[], {}, {}, {}, {});
    states, steps := [s], [];
    assert Reaches(states, steps, s);
    hide Reaches, Behaviour;
    states, steps, s := OneMoreStep(states, steps, s, Arrive(1, hash));
    states, steps, s := OneMoreStep(states, steps, s, SetNX(1));
    states, steps, s := OneMoreStep(states, steps, s, Tick(60));
    states, steps, s := OneMoreStep(states, steps, s, Arrive(2, hash));
    states, steps, s := OneMoreStep(states, steps, s, SetNX(2));
    states, steps, s := OneMoreStep(states, steps, s, Release(1, true));
    states, steps, s := OneMoreStep(states, steps, s, Arrive(3, hash));
    states, steps, s := OneMoreStep(states, steps, s, SetNX(3));
  }
}
