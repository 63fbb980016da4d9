/** Cached payment views (internal/application/ports/cache.go, internal/application/query/get_payment.go,
    internal/application/query/get_payment_by_ref.go). A reader may fill the cache long after it read the
    store, and entries may vanish at any time. */
module CachedViews {
  import opened Outcomes
  import ApiKeys

  /** What a query answers; rest stands for every column a save may change. */
  datatype View = View(id: string, callerService: string, referenceId: string, status: string, rest: string)

  // ---------------------------------------------------------------- keys

  function PaymentCacheKey(paymentId: string): string {
    "payment:" + paymentId
  }

  function ReferenceCacheKey(callerService: string, referenceId: string): string {
    "reference:" + callerService + ":" + referenceId
  }

  predicate Extends(a: string, b: string) {
    |b| < |a| && a[..|b|] == b && a[|b|] == ':'
  }

  lemma JoinedApart(c1: string, r1: string, c2: string, r2: string)
    requires c1 + ":" + r1 == c2 + ":" + r2
    ensures (c1 == c2 && r1 == r2) || Extends(c1, c2) || Extends(c2, c1)
  {
    var s := c1 + ":" + r1;
    assert s[..|c1|] == c1 && s[|c1|] == ':' && s[|c1| + 1..] == r1;
    assert s == c2 + ":" + r2;
    assert s[..|c2|] == c2 && s[|c2|] == ':' && s[|c2| + 1..] == r2;
    if |c1| < |c2| {
      assert c2[..|c1|] == s[..|c1|] && c2[|c1|] == s[|c1|];
    } else if |c2| < |c1| {
      assert c1[..|c2|] == s[..|c2|] && c1[|c2|] == s[|c2|];
    }
  }

  lemma ReferenceKeyTail(c: string, r: string)
    ensures ReferenceCacheKey(c, r)[10..] == c + ":" + r
  {
  }

  /** Two services can share a by-reference key exactly when they are equal or one's name goes on from
      the other's with a colon. */
  lemma ReferenceKeysCollideIff(c1: string, c2: string)
    ensures (exists r1, r2 :: ReferenceCacheKey(c1, r1) == ReferenceCacheKey(c2, r2))
            <==> c1 == c2 || Extends(c1, c2) || Extends(c2, c1)
  {
    forall r1, r2 | ReferenceCacheKey(c1, r1) == ReferenceCacheKey(c2, r2)
      ensures c1 == c2 || Extends(c1, c2) || Extends(c2, c1)
    {
      ReferenceKeyTail(c1, r1);
      ReferenceKeyTail(c2, r2);
      JoinedApart(c1, r1, c2, r2);
    }
    if c1 == c2 {
      assert ReferenceCacheKey(c1, "") == ReferenceCacheKey(c2, "");
    } else if Extends(c1, c2) {
      ExtensionCollides(c1, c2);
    } else if Extends(c2, c1) {
      ExtensionCollides(c2, c1);
    }
  }

  lemma ExtensionCollides(a: string, b: string)
    requires Extends(a, b)
    ensures ReferenceCacheKey(a, "") == ReferenceCacheKey(b, a[|b| + 1..] + ":")
  {
    assert a == b + ":" + a[|b| + 1..];
  }

  /** For services without colons a by-reference key determines service and reference. */
  lemma ReferenceKeysInjective(c1: string, r1: string, c2: string, r2: string)
    requires ApiKeys.NoColon(c1) && ApiKeys.NoColon(c2)
    requires ReferenceCacheKey(c1, r1) == ReferenceCacheKey(c2, r2)
    ensures c1 == c2 && r1 == r2
  {
    ReferenceKeyTail(c1, r1);
    ReferenceKeyTail(c2, r2);
    JoinedApart(c1, r1, c2, r2);
  }

  lemma PaymentKeysInjective(id1: string, id2: string, c: string, r: string)
    ensures PaymentCacheKey(id1) == PaymentCacheKey(id2) ==> id1 == id2
    ensures PaymentCacheKey(id1) != ReferenceCacheKey(c, r)
  {
    assert PaymentCacheKey(id1)[8..] == id1 && PaymentCacheKey(id2)[8..] == id2;
    assert PaymentCacheKey(id1)[0] == 'p' && ReferenceCacheKey(c, r)[0] == 'r';
  }

  // ---------------------------------------------------------------- the queries

  /** The two query handlers over one store and one cache. */
  class Queries {
    var payments: map<string, View>
    var cache: map<string, View>

    constructor (payments: map<string, View>)
      ensures this.payments == payments && cache == map[]
    {
      this.payments := payments;
      cache := map[];
    }

    /** What a query by id finds: the cached view if the cache answers and has one, else the stored payment. */
    function Found(id: string, up: bool): Option<View>
      reads this
    {
      if up && PaymentCacheKey(id) in cache then Some(cache[PaymentCacheKey(id)])
      else if id in payments then Some(payments[id])
      else None
    }

    /** The cache after a query by id: a miss fills the entry. */
    function Filled(id: string, up: bool): map<string, View>
      reads this
    {
      var key := PaymentCacheKey(id);
      if up && key !in cache && id in payments then cache[key := payments[id]] else cache
    }

    /** load: up says whether the cache answers. */
    method Load(id: string, up: bool) returns (r: Result<View>)
      modifies `cache
      ensures match old(Found(id, up)) case Some(view) => r == Ok(view) case None => r == Err(NotFound)
      ensures cache == old(Filled(id, up))
    {
      var key := PaymentCacheKey(id);
      if up && key in cache {
        return Ok(cache[key]);
      }
      if id !in payments {
        return Err(NotFound);
      }
      if up {
        cache := cache[key := payments[id]];
      }
      return Ok(payments[id]);
    }

    /** An admin reads every payment, a service its own; another service's gets the same answer as a missing one. */
    method GetPayment(id: string, callerService: string, admin: bool, up: bool) returns (r: Result<View>)
      modifies `cache
      ensures var found := old(Found(id, up));
              && (r.Ok? <==> found.Some? && (admin || found.value.callerService == callerService))
              && (r.Ok? ==> r.value == found.value)
              && (r.Err? ==> r.code == NotFound)
      ensures cache == old(Filled(id, up))
    {
      r := Load(id, up);
      if r.Ok? && !admin && r.value.callerService != callerService {
        r := Err(NotFound);
      }
    }

    /** id's payment is this service's payment with this reference. */
    predicate Holds(id: string, callerService: string, referenceId: string)
      reads this
    {
      id in payments && payments[id].callerService == callerService && payments[id].referenceId == referenceId
    }

    /** A hit is returned without looking at its owner: the key alone decides. */
    method GetByReference(callerService: string, referenceId: string, up: bool) returns (r: Result<View>)
      modifies `cache
      ensures referenceId == "" || callerService == "" ==> r == Err(InvalidInput) && cache == old(cache)
      ensures referenceId != "" && callerService != "" ==> (
                var key := ReferenceCacheKey(callerService, referenceId);
                if up && key in old(cache) then r == Ok(old(cache)[key]) && cache == old(cache)
                else if r.Err? then
                  && r.code == NotFound && cache == old(cache)
                  && forall id :: !Holds(id, callerService, referenceId)
                else
                  && (exists id :: Holds(id, callerService, referenceId) && r.value == payments[id])
                  && cache == if up then old(cache)[key := r.value] else old(cache))
    {
      if referenceId == "" || callerService == "" {
        return Err(InvalidInput);
      }
      var key := ReferenceCacheKey(callerService, referenceId);
      if up && key in cache {
        return Ok(cache[key]);
      }
      if forall id :: id in payments ==> !Holds(id, callerService, referenceId) {
        return Err(NotFound);
      }
      var id :| id in payments && Holds(id, callerService, referenceId);
      r := Ok(payments[id]);
      if up {
        cache := cache[key := payments[id]];
      }
      assert Holds(id, callerService, referenceId);
    }
  }

  // ---------------------------------------------------------------- readers, writers and a shared cache

  /** A reader between its store read and its cache write. */
  datatype Pending = Pending(key: string, view: View)

  /** What a query that was answered from the cache asked for. */
  datatype Hit = ById(id: string, view: View) | ByReference(callerService: string, referenceId: string, view: View)

  /** keys holds the service of each API key hash an instance is configured with; versions holds every
      version each payment ever had; hits are the answers given from the cache. */
  datatype State = State(
    keys: map<string, string>,
    versions: map<string, seq<View>>,
    cache: map<string, View>,
    pending: map<nat, Pending>,
    hits: set<Hit>)

  datatype Step =
    | Configure(keys: map<string, string>)
    | Write(view: View)
    | Vanish(key: string)
    | ReadById(reader: nat, id: string)
    | ReadByReference(reader: nat, id: string, callerService: string, referenceId: string)
    | Fill(reader: nat)
    | GiveUp(reader: nat)
    | HitById(id: string)
    | HitByReference(callerService: string, referenceId: string)

  function Current(s: State, id: string): View
    requires id in s.versions && s.versions[id] != []
  {
    s.versions[id][|s.versions[id]| - 1]
  }

  /** What ParseHashes makes of some configuration. */
  ghost predicate Parsed(keys: map<string, string>) {
    exists text :: ApiKeys.Collects(keys, ApiKeys.Split(text))
  }

  /** Saves never change a payment's caller or reference; whoever asks by reference is a configured service. */
  ghost predicate Enabled(s: State, step: Step) {
    match step
    case Configure(keys) => Parsed(keys)
    case Write(v) =>
      v.id in s.versions ==> (
        && s.versions[v.id] != []
        && v.callerService == Current(s, v.id).callerService && v.referenceId == Current(s, v.id).referenceId)
    case Vanish(_) => true
    case ReadById(reader, id) => reader !in s.pending && id in s.versions && s.versions[id] != []
    case ReadByReference(reader, id, callerService, referenceId) =>
      && reader !in s.pending && id in s.versions && s.versions[id] != [] && callerService in s.keys.Values
      && Current(s, id).callerService == callerService && Current(s, id).referenceId == referenceId
    case Fill(reader) => reader in s.pending
    case GiveUp(reader) => reader in s.pending
    case HitById(id) => PaymentCacheKey(id) in s.cache
    case HitByReference(callerService, referenceId) =>
      ReferenceCacheKey(callerService, referenceId) in s.cache && callerService in s.keys.Values
  }

  ghost function Do(s: State, step: Step): State
    requires Enabled(s, step)
  {
    match step
    case Configure(keys) => s.(keys := keys)
    case Write(v) =>
      s.(versions := s.versions[v.id := (if v.id in s.versions then s.versions[v.id] else []) + [v]])
    case Vanish(key) => s.(cache := s.cache - {key})
    case ReadById(reader, id) => s.(pending := s.pending[reader := Pending(PaymentCacheKey(id), Current(s, id))])
    case ReadByReference(reader, id, callerService, referenceId) =>
      s.(pending := s.pending[reader := Pending(ReferenceCacheKey(callerService, referenceId), Current(s, id))])
    case Fill(reader) =>
      s.(cache := s.cache[s.pending[reader].key := s.pending[reader].view], pending := s.pending - {reader})
    case GiveUp(reader) => s.(pending := s.pending - {reader})
    case HitById(id) => s.(hits := s.hits + {ById(id, s.cache[PaymentCacheKey(id)])})
    case HitByReference(callerService, referenceId) =>
      var view := s.cache[ReferenceCacheKey(callerService, referenceId)];
      s.(hits := s.hits + {ByReference(callerService, referenceId, view)})
  }

  predicate Init(s: State) {
    s.keys == map[] && s.versions == map[] && s.cache == map[] && s.pending == map[] && s.hits == {}
  }

  /** The view is a version its payment once had. */
  predicate Past(versions: map<string, seq<View>>, v: View) {
    v.id in versions && v in versions[v.id]
  }

  /** A key is either the view's own payment key or its own by-reference key, of a colon-free caller. */
  predicate OwnKey(key: string, v: View) {
    || key == PaymentCacheKey(v.id)
    || (key == ReferenceCacheKey(v.callerService, v.referenceId) && ApiKeys.NoColon(v.callerService))
  }

  predicate Fitting(versions: map<string, seq<View>>, key: string, v: View) {
    Past(versions, v) && OwnKey(key, v)
  }

  predicate HitFits(versions: map<string, seq<View>>, h: Hit) {
    match h
    case ById(id, v) => Past(versions, v) && v.id == id
    case ByReference(callerService, referenceId, v) =>
      Past(versions, v) && v.callerService == callerService && v.referenceId == referenceId
  }

  ghost predicate Inv(s: State) {
    && (forall hash :: hash in s.keys ==> ApiKeys.NoColon(s.keys[hash]))
    && (forall id :: id in s.versions ==> forall v :: v in s.versions[id] ==> v.id == id)
    && (forall key :: key in s.cache ==> Fitting(s.versions, key, s.cache[key]))
    && (forall r :: r in s.pending ==> Fitting(s.versions, s.pending[r].key, s.pending[r].view))
    && (forall h :: h in s.hits ==> HitFits(s.versions, h))
  }

  /** A view under a key that names what was asked for is what was asked for. */
  lemma HitIsOwn(versions: map<string, seq<View>>, key: string, v: View)
    requires Fitting(versions, key, v)
    ensures forall id :: key == PaymentCacheKey(id) ==> HitFits(versions, ById(id, v))
    ensures forall c, r :: ApiKeys.NoColon(c) && key == ReferenceCacheKey(c, r) ==>
            HitFits(versions, ByReference(c, r, v))
  {
    forall id | key == PaymentCacheKey(id) ensures v.id == id {
      PaymentKeysInjective(id, v.id, v.callerService, v.referenceId);
    }
    forall c, r | ApiKeys.NoColon(c) && key == ReferenceCacheKey(c, r)
      ensures v.callerService == c && v.referenceId == r
    {
      PaymentKeysInjective(v.id, v.id, c, r);
      ReferenceKeysInjective(c, r, v.callerService, v.referenceId);
    }
  }

  lemma StepKeeps(s: State, step: Step)
    requires Inv(s) && Enabled(s, step)
    ensures Inv(Do(s, step))
  {
    hide PaymentCacheKey, ReferenceCacheKey, ApiKeys.NoColon, HitFits, Past;
    match step {
      case Configure(keys) => ServicesHaveNoColon(keys);
      case Write(v) => WriteKeeps(s, v);
      case Vanish(_) =>
      case ReadById(_, id) => CurrentIsPast(s, id);
      case ReadByReference(_, id, _, _) => CurrentIsPast(s, id);
      case Fill(_) =>
      case GiveUp(_) =>
      case HitById(id) => HitIsOwn(s.versions, PaymentCacheKey(id), s.cache[PaymentCacheKey(id)]);
      case HitByReference(c, r) => HitIsOwn(s.versions, ReferenceCacheKey(c, r), s.cache[ReferenceCacheKey(c, r)]);
    }
  }

  lemma CurrentIsPast(s: State, id: string)
    requires Inv(s) && id in s.versions && s.versions[id] != []
    ensures Past(s.versions, Current(s, id)) && Current(s, id).id == id
  {
    assert Current(s, id) in s.versions[id];
  }

  lemma ServicesHaveNoColon(keys: map<string, string>)
    requires Parsed(keys)
    ensures forall hash :: hash in keys ==> ApiKeys.NoColon(keys[hash])
  {
    var text :| ApiKeys.Collects(keys, ApiKeys.Split(text));
    forall hash | hash in keys ensures ApiKeys.NoColon(keys[hash]) {
      ApiKeys.ServicesHaveNoColon(text, keys, hash);
    }
  }

  lemma WriteKeeps(s: State, v: View)
    requires Inv(s) && Enabled(s, Write(v))
    ensures Inv(Do(s, Write(v)))
  {
    hide OwnKey;
    var t := Do(s, Write(v));
    forall w | Past(s.versions, w) ensures Past(t.versions, w) {}
    forall h | h in s.hits ensures HitFits(t.versions, h) {
      assert HitFits(s.versions, h);
    }
  }

  ghost predicate Behaviour(states: seq<State>, steps: seq<Step>) {
    && |states| == |steps| + 1 && Init(states[0])
    && forall i :: 0 <= i < |steps| ==> Enabled(states[i], steps[i]) && states[i + 1] == Do(states[i], steps[i])
  }

  lemma {:induction false} BehaviourSound(states: seq<State>, steps: seq<Step>, n: nat)
    requires Behaviour(states, steps) && n < |states|
    ensures Inv(states[n])
  {
    hide Enabled, Do;
    if n > 0 {
      BehaviourSound(states, steps, n - 1);
      hide Inv;
      StepKeeps(states[n - 1], steps[n - 1]);
    }
  }

  /** However slowly readers fill the cache: a hit by id is a version that very payment once had, and a
      hit by reference is one of the asker's own payment, though the handler checks no owner. */
  lemma HitsAreOwnPastVersions(states: seq<State>, steps: seq<Step>, n: nat, h: Hit)
    requires Behaviour(states, steps) && n < |states| && h in states[n].hits
    ensures HitFits(states[n].versions, h)
  {
    hide Enabled, Do, HitFits;
    BehaviourSound(states, steps, n);
  }
}
